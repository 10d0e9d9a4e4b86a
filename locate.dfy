/** The careers-page locator (`find_careers_page` / `find_career_page`) and
    the listing-page locator (`find_job_listings_page` / `find_listing_page`),
    both first-match scans over a page's links in document order. */
module Locate {
  import opened Text
  import opened Web

  /** `CAREER_KEYWORDS` and `ATS_DOMAINS` of every script but scraper.py. */
  const CareerKeywords: seq<string> := ["career", "careers", "jobs", "join", "hiring"]
  const AtsDomains: seq<string> := ["lever.co", "greenhouse.io", "workable.com", "zohorecruit", "ashbyhq"]

  /** What a variant of the careers-page locator looks at: which fetch rule,
      which keywords, whether the link text and/or the href is searched, and
      which path suffixes are probed afterwards, in order. */
  datatype CareerRule = CareerRule(
    success: SuccessRule,
    keywords: seq<string>,
    onText: bool,
    onHref: bool,
    probes: seq<string>)

  /** `any(k in text or k in href for k in keywords)`, each side lower-cased,
      restricted to the sides the variant looks at. */
  predicate IsCareerLink(rule: CareerRule, a: Anchor) {
    (rule.onText && ContainsAny(Lower(a.text), rule.keywords)) ||
    (rule.onHref && ContainsAny(Lower(a.href), rule.keywords))
  }

  /** The three link tests the locators scan for. */
  datatype LinkTest =
    | CareerLinkTest(careerRule: CareerRule)
    | CallToActionTest(ctaRule: ListingRule)
    | AtsLinkTest(atsRule: ListingRule)

  predicate Passes(t: LinkTest, a: Anchor) {
    match t
    case CareerLinkTest(r) => IsCareerLink(r, a)
    case CallToActionTest(r) => IsCallToAction(r, a)
    case AtsLinkTest(r) => IsAtsLink(r, a)
  }

  /** The position of the first link passing `t`: the early `return` inside
      a `for a in soup.find_all("a", href=True)` scan. */
  function FirstLink(links: seq<Anchor>, t: LinkTest): (r: Option<nat>)
    ensures r.Some? ==> r.value < |links| && Passes(t, links[r.value]) &&
                        forall j :: 0 <= j < r.value ==> !Passes(t, links[j])
    ensures r.None? ==> forall j :: 0 <= j < |links| ==> !Passes(t, links[j])
    decreases |links|
  {
    if |links| == 0 then None
    else if Passes(t, links[0]) then Some(0)
    else match FirstLink(links[1..], t)
      case None => None
      case Some(k) => Some(k + 1)
  }

  /** The first `base + path` that fetches, in the order of `paths`. */
  function FirstFetchable(web: Web, rule: SuccessRule, base: string, paths: seq<string>): (r: Option<string>)
    ensures r.Some? ==> exists k :: 0 <= k < |paths| && r.value == base + paths[k] &&
                          Fetch(web, rule, base + paths[k]).Some? &&
                          forall j :: 0 <= j < k ==> Fetch(web, rule, base + paths[j]).None?
    ensures r.None? ==> forall k :: 0 <= k < |paths| ==> Fetch(web, rule, base + paths[k]).None?
    decreases |paths|
  {
    if |paths| == 0 then None
    else if Fetch(web, rule, base + paths[0]).Some? then Some(base + paths[0])
    else
      var r := FirstFetchable(web, rule, base, paths[1..]);
      assert forall k :: 1 <= k < |paths| ==> paths[k] == paths[1..][k - 1];
      r
  }

  /** `find_careers_page(home)`: None when the homepage does not fetch; the
      resolved href of the first careers link when there is one; otherwise the
      first probe `home.rstrip("/") + path` that fetches, or None. */
  function FindCareersPage(web: Web, rule: CareerRule, home: string): (r: Option<string>)
    ensures Fetch(web, rule.success, home).None? ==> r.None?
  {
    match Fetch(web, rule.success, home)
    case None => None
    case Some(page) =>
      match FirstLink(page.anchors, CareerLinkTest(rule))
      case Some(i) => Some(web.resolve(home, page.anchors[i].href))
      case None => FirstFetchable(web, rule.success, TrimSlashes(home), rule.probes)
  }

  /** When the homepage fetches, the careers page is the resolved href of
      its first careers link; without one, the first probe that fetches. */
  lemma CareersPageChoice(web: Web, rule: CareerRule, home: string)
    requires Fetch(web, rule.success, home).Some?
    ensures var r := FindCareersPage(web, rule, home);
            var links := Fetch(web, rule.success, home).value.anchors;
            (forall i :: 0 <= i < |links| && IsCareerLink(rule, links[i]) &&
                         (forall j :: 0 <= j < i ==> !IsCareerLink(rule, links[j])) ==>
                           r == Some(web.resolve(home, links[i].href))) &&
            ((forall i :: 0 <= i < |links| ==> !IsCareerLink(rule, links[i])) ==>
               r == FirstFetchable(web, rule.success, TrimSlashes(home), rule.probes))
  {
  }

  /** Whatever the careers locator returns is a resolved careers link of the
      homepage, or a probe that fetched. */
  lemma CareersPageOrigin(web: Web, rule: CareerRule, home: string)
    requires FindCareersPage(web, rule, home).Some?
    ensures Fetch(web, rule.success, home).Some?
    ensures var r := FindCareersPage(web, rule, home).value;
            var links := Fetch(web, rule.success, home).value.anchors;
            (exists i :: 0 <= i < |links| && IsCareerLink(rule, links[i]) && r == web.resolve(home, links[i].href)) ||
            ((forall i :: 0 <= i < |links| ==> !IsCareerLink(rule, links[i])) &&
             exists k :: 0 <= k < |rule.probes| && r == TrimSlashes(home) + rule.probes[k] &&
                         Fetch(web, rule.success, r).Some?)
  {
  }

  /** What a variant of the listing-page locator looks for: call-to-action
      phrases in the link text (first pass) and ATS domains in the href
      (second pass). */
  datatype ListingRule = ListingRule(ctaPhrases: seq<string>, atsDomains: seq<string>)

  predicate IsCallToAction(rule: ListingRule, a: Anchor) {
    ContainsAny(Lower(a.text), rule.ctaPhrases)
  }

  predicate IsAtsLink(rule: ListingRule, a: Anchor) {
    ContainsAny(Lower(a.href), rule.atsDomains)
  }

  /** `find_job_listings_page(careers)`: never fails; falls back to the
      careers URL itself. */
  function FindListingPage(web: Web, rule: ListingRule, careers: string): (r: string)
    ensures Fetch(web, Below400, careers).None? ==> r == careers
  {
    match Fetch(web, Below400, careers)
    case None => careers
    case Some(page) =>
      match FirstLink(page.anchors, CallToActionTest(rule))
      case Some(i) => web.resolve(careers, page.anchors[i].href)
      case None =>
        match FirstLink(page.anchors, AtsLinkTest(rule))
        case Some(i) => web.resolve(careers, page.anchors[i].href)
        case None => careers
  }

  /** The listing page is the first call-to-action link of the careers
      page; without one, the first ATS link; without either, the careers
      URL. */
  lemma ListingPageChoice(web: Web, rule: ListingRule, careers: string)
    requires Fetch(web, Below400, careers).Some?
    ensures var r := FindListingPage(web, rule, careers);
            var links := Fetch(web, Below400, careers).value.anchors;
            (forall i :: 0 <= i < |links| && IsCallToAction(rule, links[i]) &&
                         (forall j :: 0 <= j < i ==> !IsCallToAction(rule, links[j])) ==>
                           r == web.resolve(careers, links[i].href)) &&
            ((forall i :: 0 <= i < |links| ==> !IsCallToAction(rule, links[i])) ==>
               (forall i :: 0 <= i < |links| && IsAtsLink(rule, links[i]) &&
                            (forall j :: 0 <= j < i ==> !IsAtsLink(rule, links[j])) ==>
                              r == web.resolve(careers, links[i].href)) &&
               ((forall i :: 0 <= i < |links| ==> !IsAtsLink(rule, links[i])) ==> r == careers))
  {
  }

  /** A call-to-action link anywhere on the careers page beats every ATS
      link, even one that comes earlier in the document. */
  lemma {:induction false} CallToActionFirst(web: Web, rule: ListingRule, careers: string, k: nat)
    requires Fetch(web, Below400, careers).Some?
    requires k < |Fetch(web, Below400, careers).value.anchors|
    requires IsCallToAction(rule, Fetch(web, Below400, careers).value.anchors[k])
    ensures var links := Fetch(web, Below400, careers).value.anchors;
            exists i :: 0 <= i <= k && IsCallToAction(rule, links[i]) &&
                        FindListingPage(web, rule, careers) == web.resolve(careers, links[i].href)
  {
    var links := Fetch(web, Below400, careers).value.anchors;
    var m := FirstLink(links, CallToActionTest(rule));
    assert m.Some?;
    var i := m.value;
    assert IsCallToAction(rule, links[i]);
    assert i <= k;
  }

  /** Without a call-to-action phrase list (Scraper8.py) the listing page is
      the first ATS link, or the careers URL. */
  lemma AtsOnlyListing(web: Web, rule: ListingRule, careers: string)
    requires rule.ctaPhrases == []
    ensures var r := FindListingPage(web, rule, careers);
            r == careers ||
            (Fetch(web, Below400, careers).Some? &&
             exists i :: 0 <= i < |Fetch(web, Below400, careers).value.anchors| &&
                         IsAtsLink(rule, Fetch(web, Below400, careers).value.anchors[i]) &&
                         r == web.resolve(careers, Fetch(web, Below400, careers).value.anchors[i].href))
  {
    if Fetch(web, Below400, careers).Some? {
      var links := Fetch(web, Below400, careers).value.anchors;
      assert forall i :: 0 <= i < |links| ==> !IsCallToAction(rule, links[i]);
    }
  }
}
