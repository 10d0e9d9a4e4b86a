/** The job extractor (`scrape_jobs` / `scrape_ats_jobs`) shared by nine of
    the ten scripts: one pass over the listing page's links in document order,
    a title/href filter, a `seen` set of resolved URLs, an optional visit of
    each job's own page, and a cap with early termination. The scripts differ
    only in the constants gathered in `ExtractorConfig`. */
module Extract {
  import opened Text
  import opened Seqs
  import opened Web

  /** One extracted job: the dictionary appended to `jobs`. `date` is None
      for the scripts whose records have no date key. */
  datatype JobPosting = JobPosting(title: string, url: string, location: string, date: Option<string>)

  // ---------------------------------------------------------------------
  // Candidate filter

  /** Which link text is the title (`get_text(strip=True)`, or
      `get_text(" ", strip=True)` in Scraper8.py), its minimum length, the
      phrases that disqualify a title, and the tokens the lower-cased href
      must and must not contain. */
  datatype Filter = Filter(
    spacedTitle: bool,
    minTitle: nat,
    titleDeny: seq<string>,
    hrefAllow: seq<string>,
    hrefDeny: seq<string>)

  function TitleOf(f: Filter, a: Anchor): string {
    if f.spacedTitle then a.spacedText else a.text
  }

  /** The condition under which a link becomes a candidate job. */
  predicate Accepts(f: Filter, a: Anchor) {
    var title := TitleOf(f, a);
    var href := Lower(a.href);
    |title| >= f.minTitle &&
    !ContainsAny(Lower(title), f.titleDeny) &&
    ContainsAny(href, f.hrefAllow) &&
    !ContainsAny(href, f.hrefDeny)
  }

  // ---------------------------------------------------------------------
  // Location and date extraction (the regular expressions, as literal
  // alternatives matched case-insensitively)

  /** The lower-case token `t` occurs at position `i` of `text`, ignoring case. */
  predicate TokenAt(text: string, i: nat, t: string) {
    i + |t| <= |text| && Lower(text[i..i + |t|]) == t
  }

  /** The first token, in the list's order, that occurs at position `i`. */
  function FirstTokenAt(text: string, i: nat, tokens: seq<string>): (r: Option<nat>)
    ensures r.Some? ==> r.value < |tokens| && TokenAt(text, i, tokens[r.value])
    ensures r.None? ==> forall k :: 0 <= k < |tokens| ==> !TokenAt(text, i, tokens[k])
    decreases |tokens|
  {
    if |tokens| == 0 then None
    else if TokenAt(text, i, tokens[0]) then Some(0)
    else match FirstTokenAt(text, i, tokens[1..])
      case None => None
      case Some(k) => Some(k + 1)
  }

  /** The alternation of `tokens` matches at position `j`. */
  predicate MatchAt(text: string, j: nat, tokens: seq<string>) {
    FirstTokenAt(text, j, tokens).Some?
  }

  /** What the alternation matches at `j`: the first token in the list's
      order that occurs there, as it is written in the text. */
  function MatchText(text: string, j: nat, tokens: seq<string>): (r: string)
    requires MatchAt(text, j, tokens)
    ensures exists k :: 0 <= k < |tokens| && TokenAt(text, j, tokens[k]) && r == text[j..j + |tokens[k]|]
  {
    var k := FirstTokenAt(text, j, tokens).value;
    text[j..j + |tokens[k]|]
  }

  /** `re.search("(tok1|tok2|...)", text, re.I)` from position `i`: no
      match exactly when the alternation matches nowhere from `i` on;
      otherwise what it matches at the leftmost position where it does. */
  function SearchFrom(text: string, i: nat, tokens: seq<string>): (r: Option<string>)
    requires i <= |text|
    ensures r.None? <==> forall j :: i <= j <= |text| ==> !MatchAt(text, j, tokens)
    ensures r.Some? ==> exists j :: i <= j <= |text| && MatchAt(text, j, tokens) && r.value == MatchText(text, j, tokens) &&
                                    forall m :: i <= m < j ==> !MatchAt(text, m, tokens)
    decreases |text| - i
  {
    if MatchAt(text, i, tokens) then Some(MatchText(text, i, tokens))
    else if i == |text| then None
    else
      var r := SearchFrom(text, i + 1, tokens);
      SearchStep(text, i, tokens, r);
      r
  }

  /** A search from `i + 1` is a search from `i` when nothing matches at `i`. */
  lemma SearchStep(text: string, i: nat, tokens: seq<string>, r: Option<string>)
    requires i < |text| && !MatchAt(text, i, tokens)
    requires r.None? <==> forall j :: i + 1 <= j <= |text| ==> !MatchAt(text, j, tokens)
    requires r.Some? ==> exists j :: i + 1 <= j <= |text| && MatchAt(text, j, tokens) && r.value == MatchText(text, j, tokens) &&
                                     forall m :: i + 1 <= m < j ==> !MatchAt(text, m, tokens)
    ensures r.None? <==> forall j :: i <= j <= |text| ==> !MatchAt(text, j, tokens)
    ensures r.Some? ==> exists j :: i <= j <= |text| && MatchAt(text, j, tokens) && r.value == MatchText(text, j, tokens) &&
                                    forall m :: i <= m < j ==> !MatchAt(text, m, tokens)
  {
    if r.Some? {
      var j :| i + 1 <= j <= |text| && MatchAt(text, j, tokens) && r.value == MatchText(text, j, tokens) &&
               forall m :: i + 1 <= m < j ==> !MatchAt(text, m, tokens);
      assert forall m :: i <= m < j ==> !MatchAt(text, m, tokens);
    }
  }

  /** The first location token in `text`, as it is written there: the
      leftmost match of the alternation, or None when it matches nowhere. */
  function FindLocation(text: string, tokens: seq<string>): (r: Option<string>)
    ensures r.None? <==> forall j :: 0 <= j <= |text| ==> !MatchAt(text, j, tokens)
    ensures r.Some? ==> exists j :: 0 <= j <= |text| && MatchAt(text, j, tokens) && r.value == MatchText(text, j, tokens) &&
                                    forall m :: 0 <= m < j ==> !MatchAt(text, m, tokens)
    ensures r.Some? ==> Contains(text, r.value) && exists k :: 0 <= k < |tokens| && Lower(r.value) == tokens[k]
    ensures r.None? ==> forall j, k :: 0 <= j <= |text| && 0 <= k < |tokens| ==> !TokenAt(text, j, tokens[k])
  {
    var r := SearchFrom(text, 0, tokens);
    if r.None? then
      NoMatchNoToken(text, tokens);
      r
    else
      var j :| 0 <= j <= |text| && MatchAt(text, j, tokens) && r.value == MatchText(text, j, tokens);
      var k :| 0 <= k < |tokens| && TokenAt(text, j, tokens[k]) && r.value == text[j..j + |tokens[k]|];
      SliceContained(text, j, j + |tokens[k]|);
      r
  }

  /** Where the alternation matches nowhere, no token occurs anywhere. */
  lemma NoMatchNoToken(text: string, tokens: seq<string>)
    requires forall j :: 0 <= j <= |text| ==> !MatchAt(text, j, tokens)
    ensures forall j, k :: 0 <= j <= |text| && 0 <= k < |tokens| ==> !TokenAt(text, j, tokens[k])
  {
    forall j, k | 0 <= j <= |text| && 0 <= k < |tokens| ensures !TokenAt(text, j, tokens[k]) {
      assert !MatchAt(text, j, tokens);
    }
  }

  /** `split_title_location(text)` of Scraper8.py, over the given tokens and
      the given "no location" value. */
  function SplitTitleLocation(text: string, tokens: seq<string>, missing: string): (r: (string, string))
    ensures FindLocation(text, tokens).None? ==> r == (text, missing)
    ensures FindLocation(text, tokens).Some? ==>
              Contains(text, r.1) && (exists k :: 0 <= k < |tokens| && Lower(r.1) == tokens[k]) &&
              |r.0| <= |text|
  {
    match FindLocation(text, tokens)
    case None => (text, missing)
    case Some(loc) => (TrimRight(TrimLeft(RemoveAll(text, loc), TitleJunk), TitleJunk), loc)
  }

  /** `\w` on ASCII. */
  predicate IsWordChar(c: char) {
    'a' <= c <= 'z' || 'A' <= c <= 'Z' || '0' <= c <= '9' || c == '_'
  }

  /** The runs `Posted\s*\w+` skips over: whitespace, then word characters. */
  datatype CharRun = SpaceRun | WordRun

  /** `c` may continue a run of kind `run`. */
  predicate InRun(run: CharRun, c: char) {
    match run
    case SpaceRun => IsSpace(c)
    case WordRun => IsWordChar(c)
  }

  /** The first position at or after `i` whose character ends the run. */
  function SkipWhile(text: string, i: nat, run: CharRun): (j: nat)
    requires i <= |text|
    ensures i <= j <= |text|
    ensures forall k :: i <= k < j ==> InRun(run, text[k])
    ensures j == |text| || !InRun(run, text[j])
    decreases |text| - i
  {
    if i == |text| || !InRun(run, text[i]) then i else SkipWhile(text, i + 1, run)
  }

  /** The end of a `Posted\s*\w+` match (case-insensitive) starting at `i`. */
  function PostedEnd(text: string, i: nat): (r: Option<nat>)
    requires i <= |text|
    ensures r.Some? ==> i + 6 < r.value <= |text| && Lower(text[i..i + 6]) == "posted"
  {
    if i + 6 <= |text| && Lower(text[i..i + 6]) == "posted" then
      var j := SkipWhile(text, i + 6, SpaceRun);
      var k := SkipWhile(text, j, WordRun);
      if k > j then Some(k) else None
    else None
  }

  /** A `\b202[4-5]\b` match at `i`. */
  predicate YearAt(text: string, i: nat) {
    i + 4 <= |text| && (text[i..i + 4] == "2024" || text[i..i + 4] == "2025") &&
    (i == 0 || !IsWordChar(text[i - 1])) && (i + 4 == |text| || !IsWordChar(text[i + 4]))
  }

  /** `Posted\s*\w+|\b202[4-5]\b` matches at position `j`. */
  predicate DateAt(text: string, j: nat) {
    j <= |text| && (PostedEnd(text, j).Some? || YearAt(text, j))
  }

  /** What the date expression matches at `j`: the "Posted ..." phrase when
      there is one (the first alternative), otherwise the year. */
  function DateText(text: string, j: nat): (r: string)
    requires DateAt(text, j)
    ensures Contains(text, r)
    ensures (|r| > 6 && Lower(r[..6]) == "posted") || r == "2024" || r == "2025"
  {
    match PostedEnd(text, j)
    case Some(k) =>
      SliceContained(text, j, k);
      assert text[j..k][..6] == text[j..j + 6];
      text[j..k]
    case None =>
      SliceContained(text, j, j + 4);
      text[j..j + 4]
  }

  /** `re.search(r"(Posted\s*\w+|\b202[4-5]\b)", text, re.I)` from `i`: no
      match exactly when the expression matches nowhere from `i` on;
      otherwise what it matches at the leftmost position where it does. */
  function DateFrom(text: string, i: nat): (r: Option<string>)
    requires i <= |text|
    ensures r.None? <==> forall j :: i <= j <= |text| ==> !DateAt(text, j)
    ensures r.Some? ==> exists j :: i <= j <= |text| && DateAt(text, j) && r.value == DateText(text, j) &&
                                    forall m :: i <= m < j ==> !DateAt(text, m)
    decreases |text| - i
  {
    if DateAt(text, i) then Some(DateText(text, i))
    else if i == |text| then None
    else
      var r := DateFrom(text, i + 1);
      DateStep(text, i, r);
      r
  }

  /** A date search from `i + 1` is one from `i` when nothing matches at `i`. */
  lemma DateStep(text: string, i: nat, r: Option<string>)
    requires i < |text| && !DateAt(text, i)
    requires r.None? <==> forall j :: i + 1 <= j <= |text| ==> !DateAt(text, j)
    requires r.Some? ==> exists j :: i + 1 <= j <= |text| && DateAt(text, j) && r.value == DateText(text, j) &&
                                     forall m :: i + 1 <= m < j ==> !DateAt(text, m)
    ensures r.None? <==> forall j :: i <= j <= |text| ==> !DateAt(text, j)
    ensures r.Some? ==> exists j :: i <= j <= |text| && DateAt(text, j) && r.value == DateText(text, j) &&
                                    forall m :: i <= m < j ==> !DateAt(text, m)
  {
    if r.Some? {
      var j :| i + 1 <= j <= |text| && DateAt(text, j) && r.value == DateText(text, j) &&
               forall m :: i + 1 <= m < j ==> !DateAt(text, m);
      assert forall m :: i <= m < j ==> !DateAt(text, m);
    }
  }

  // ---------------------------------------------------------------------
  // Building one posting

  /** How the date field is filled for postings built from a job page. */
  datatype DateRule = NoDate | FixedDate(date: string) | PostedOrYear(missing: string)

  /** Where a posting's fields come from: the link alone (the location is
      split off the title when a token occurs in it), or the job's own page,
      which must then fetch. */
  datatype Detail =
    | FromLink(locationTokens: seq<string>, missingLocation: string, date: string)
    | FromJobPage(locationTokens: seq<string>, missingLocation: string, dateRule: DateRule)

  datatype ExtractorConfig = ExtractorConfig(
    filter: Filter,
    detail: Detail,
    maxJobs: int,
    capOnSkip: bool)   // the cap is also checked after a link that is not a candidate

  /** `m.group(0) if m else missing` for `m = re.search(...)`: the default
      exactly when no token occurs, otherwise the leftmost match. */
  function LocationOr(text: string, tokens: seq<string>, missing: string): (r: string)
    ensures (forall j :: 0 <= j <= |text| ==> !MatchAt(text, j, tokens)) ==> r == missing
    ensures (exists j :: 0 <= j <= |text| && MatchAt(text, j, tokens)) ==>
              exists j :: 0 <= j <= |text| && MatchAt(text, j, tokens) && r == MatchText(text, j, tokens) &&
                          forall m :: 0 <= m < j ==> !MatchAt(text, m, tokens)
    ensures r == missing || (Contains(text, r) && exists k :: 0 <= k < |tokens| && Lower(r) == tokens[k])
  {
    match FindLocation(text, tokens)
    case Some(loc) => loc
    case None => missing
  }

  function DateOf(rule: DateRule, text: string): Option<string> {
    match rule
    case NoDate => None
    case FixedDate(d) => Some(d)
    case PostedOrYear(missing) =>
      match DateFrom(text, 0)
      case Some(d) => Some(d)
      case None => Some(missing)
  }

  /** With "" as the default, the date is "" exactly when the expression
      matches nowhere in the page: no match is empty. */
  lemma EmptyDateIffNoMatch(text: string)
    ensures DateOf(PostedOrYear(""), text) == Some("") <==> forall j :: 0 <= j <= |text| ==> !DateAt(text, j)
  {
    var d := DateFrom(text, 0);
    if d.Some? {
      var j :| 0 <= j <= |text| && DateAt(text, j) && d.value == DateText(text, j);
      assert d.value != "";
    }
  }

  /** A candidate URL survives the visit of its page. */
  predicate Keeps(web: Web, detail: Detail, url: string) {
    detail.FromLink? || Fetch(web, Below400, url).Some?
  }

  /** The posting built for candidate link `a` resolved to `url`; None when
      its own page had to be fetched and did not. */
  function MakePosting(web: Web, cfg: ExtractorConfig, a: Anchor, url: string): (r: Option<JobPosting>)
    ensures r.Some? <==> Keeps(web, cfg.detail, url)
    ensures r.Some? ==> r.value.url == url
  {
    var raw := TitleOf(cfg.filter, a);
    match cfg.detail
    case FromLink(tokens, missing, date) =>
      var split := SplitTitleLocation(raw, tokens, missing);
      Some(JobPosting(split.0, url, split.1, Some(date)))
    case FromJobPage(tokens, missing, rule) =>
      match Fetch(web, Below400, url)
      case None => None
      case Some(page) => Some(JobPosting(raw, url, LocationOr(page.text, tokens, missing), DateOf(rule, page.text)))
  }

  // ---------------------------------------------------------------------
  // The scan

  /** The resolved URLs of all candidate links, in document order, repeats
      included. */
  function Candidates(web: Web, f: Filter, base: string, links: seq<Anchor>): (r: seq<string>)
    ensures |r| <= |links|
    decreases |links|
  {
    if links == [] then []
    else (if Accepts(f, links[0]) then [web.resolve(base, links[0].href)] else []) + Candidates(web, f, base, links[1..])
  }

  /** The URLs among `urls` that survive the visit of their page. */
  function Fetchable(web: Web, detail: Detail, urls: seq<string>): (r: seq<string>)
    ensures forall i :: 0 <= i < |r| ==> Keeps(web, detail, r[i])
    decreases |urls|
  {
    if urls == [] then []
    else (if Keeps(web, detail, urls[0]) then [urls[0]] else []) + Fetchable(web, detail, urls[1..])
  }

  function UrlsOf(jobs: seq<JobPosting>): (r: seq<string>)
    ensures |r| == |jobs|
    decreases |jobs|
  {
    if jobs == [] then [] else [jobs[0].url] + UrlsOf(jobs[1..])
  }

  /** The postings the loop appends from `links` on, given the URLs already
      `seen` and the `n` postings already collected. */
  function Scan(web: Web, cfg: ExtractorConfig, base: string, links: seq<Anchor>, seen: set<string>, n: nat): seq<JobPosting>
    decreases |links|
  {
    if links == [] then []
    else
      var a := links[0];
      if !Accepts(cfg.filter, a) then
        if cfg.capOnSkip && n >= cfg.maxJobs then [] else Scan(web, cfg, base, links[1..], seen, n)
      else
        var url := web.resolve(base, a.href);
        if url in seen then Scan(web, cfg, base, links[1..], seen, n)
        else
          match MakePosting(web, cfg, a, url)
          case None => Scan(web, cfg, base, links[1..], seen + {url}, n)
          case Some(p) =>
            if n + 1 >= cfg.maxJobs then [p] else [p] + Scan(web, cfg, base, links[1..], seen + {url}, n + 1)
  }

  /** What `scrape_jobs(listing)` returns: nothing when the listing page does
      not fetch, otherwise the scan of its links. */
  function Extracted(web: Web, cfg: ExtractorConfig, listing: string): seq<JobPosting> {
    match Fetch(web, Below400, listing)
    case None => []
    case Some(page) => Scan(web, cfg, listing, page.anchors, {}, 0)
  }

  /** The loop of `scrape_jobs`. */
  method ScrapeJobs(web: Web, cfg: ExtractorConfig, listing: string) returns (jobs: seq<JobPosting>)
    ensures jobs == Extracted(web, cfg, listing)
  {
    var page := Fetch(web, Below400, listing);
    if page.None? {
      return [];
    }
    var links := page.value.anchors;
    ghost var all := Scan(web, cfg, listing, links, {}, 0);
    jobs := [];
    var seen: set<string> := {};
    var stop := false;
    var i := 0;
    while i < |links| && !stop
      invariant 0 <= i <= |links|
      invariant jobs + (if stop then [] else Scan(web, cfg, listing, links[i..], seen, |jobs|)) == all
    {
      assert links[i..][1..] == links[i + 1..];
      jobs, seen, stop := VisitLink(web, cfg, listing, links[i..], jobs, seen);
      i := i + 1;
    }
  }

  /** One iteration of the loop of `scrape_jobs`, on the first of the links
      `remaining`: it appends what the scan appends for that link, and
      `stop` says whether the loop breaks. */
  method VisitLink(web: Web, cfg: ExtractorConfig, listing: string, remaining: seq<Anchor>,
                   jobs: seq<JobPosting>, seen: set<string>)
    returns (jobs': seq<JobPosting>, seen': set<string>, stop: bool)
    requires remaining != []
    ensures jobs' + (if stop then [] else Scan(web, cfg, listing, remaining[1..], seen', |jobs'|)) ==
            jobs + Scan(web, cfg, listing, remaining, seen, |jobs|)
  {
    var a := remaining[0];
    jobs', seen', stop := jobs, seen, false;
    if Accepts(cfg.filter, a) {
      var url := web.resolve(listing, a.href);
      if url in seen {
        return;
      }
      var posting := MakePosting(web, cfg, a, url);
      seen' := seen + {url};
      if posting.None? {
        return;
      }
      jobs' := jobs + [posting.value];
      stop := |jobs| + 1 >= cfg.maxJobs;
    } else if cfg.capOnSkip && |jobs| >= cfg.maxJobs {
      stop := true;
    }
  }

  // ---------------------------------------------------------------------
  // What the scan guarantees

  /** The effective cap: `max_jobs`, or 1 when `max_jobs` is below 1 (the
      first iteration always runs before the cap is looked at). */
  function CapOf(maxJobs: int): (r: nat)
    ensures r >= 1 && (maxJobs >= 1 ==> r == maxJobs)
  {
    if maxJobs < 1 then 1 else maxJobs
  }

  lemma {:induction false} ScanBound(web: Web, cfg: ExtractorConfig, base: string, links: seq<Anchor>, seen: set<string>, n: nat)
    requires n < CapOf(cfg.maxJobs)
    ensures n + |Scan(web, cfg, base, links, seen, n)| <= CapOf(cfg.maxJobs)
    decreases |links|
  {
    if links != [] {
      var a := links[0];
      if !Accepts(cfg.filter, a) {
        ScanBound(web, cfg, base, links[1..], seen, n);
      } else {
        var url := web.resolve(base, a.href);
        if url in seen {
          ScanBound(web, cfg, base, links[1..], seen, n);
        } else if MakePosting(web, cfg, a, url).None? {
          ScanBound(web, cfg, base, links[1..], seen + {url}, n);
        } else if n + 1 < cfg.maxJobs {
          ScanBound(web, cfg, base, links[1..], seen + {url}, n + 1);
        }
      }
    }
  }

  lemma DedupCons<T>(x: T, xs: seq<T>, seen: set<T>)
    ensures DedupFrom([x] + xs, seen) ==
            if x in seen then DedupFrom(xs, seen) else [x] + DedupFrom(xs, seen + {x})
  {
    assert ([x] + xs)[1..] == xs;
  }

  lemma FetchableCons(web: Web, detail: Detail, x: string, xs: seq<string>)
    ensures Fetchable(web, detail, [x] + xs) ==
            (if Keeps(web, detail, x) then [x] else []) + Fetchable(web, detail, xs)
  {
    assert ([x] + xs)[1..] == xs;
  }

  lemma TakeCons<T>(x: T, xs: seq<T>, k: int)
    requires k >= 1
    ensures Take([x] + xs, k) == [x] + Take(xs, k - 1)
  {
  }

  lemma UrlsOfCons(p: JobPosting, ps: seq<JobPosting>)
    ensures UrlsOf([p] + ps) == [p.url] + UrlsOf(ps)
  {
    assert ([p] + ps)[1..] == ps;
  }

  /** The reference behaviour: the URLs collected are the first `max - n`
      of the candidate URLs with repeats (and `seen` ones) removed, keeping
      first occurrences, and with the ones whose page fails dropped. */
  lemma {:induction false} ScanUrls(web: Web, cfg: ExtractorConfig, base: string, links: seq<Anchor>, seen: set<string>, n: nat)
    requires 1 <= cfg.maxJobs && n < cfg.maxJobs
    ensures UrlsOf(Scan(web, cfg, base, links, seen, n)) ==
            Take(Fetchable(web, cfg.detail, DedupFrom(Candidates(web, cfg.filter, base, links), seen)), cfg.maxJobs - n)
    decreases |links|, 1
  {
    if links != [] {
      var a := links[0];
      var rest := Candidates(web, cfg.filter, base, links[1..]);
      if !Accepts(cfg.filter, a) {
        assert Candidates(web, cfg.filter, base, links) == rest;
        ScanUrls(web, cfg, base, links[1..], seen, n);
      } else if web.resolve(base, a.href) in seen {
        var url := web.resolve(base, a.href);
        assert Candidates(web, cfg.filter, base, links) == [url] + rest;
        DedupCons(url, rest, seen);
        ScanUrls(web, cfg, base, links[1..], seen, n);
      } else {
        ScanUrlsFresh(web, cfg, base, links, seen, n);
      }
    }
  }

  /** `ScanUrls` when the first link is a candidate not seen before. */
  lemma {:induction false} ScanUrlsFresh(web: Web, cfg: ExtractorConfig, base: string, links: seq<Anchor>, seen: set<string>, n: nat)
    requires 1 <= cfg.maxJobs && n < cfg.maxJobs
    requires links != [] && Accepts(cfg.filter, links[0]) && web.resolve(base, links[0].href) !in seen
    ensures UrlsOf(Scan(web, cfg, base, links, seen, n)) ==
            Take(Fetchable(web, cfg.detail, DedupFrom(Candidates(web, cfg.filter, base, links), seen)), cfg.maxJobs - n)
    decreases |links|, 0
  {
    var url := web.resolve(base, links[0].href);
    var d := DedupFrom(Candidates(web, cfg.filter, base, links[1..]), seen + {url});
    FreshCandidates(web, cfg, base, links, seen);
    var f := Fetchable(web, cfg.detail, d);
    var posting := MakePosting(web, cfg, links[0], url);
    if posting.None? {
      calc {
        UrlsOf(Scan(web, cfg, base, links, seen, n));
        UrlsOf(Scan(web, cfg, base, links[1..], seen + {url}, n));
        { ScanUrls(web, cfg, base, links[1..], seen + {url}, n); }
        Take(f, cfg.maxJobs - n);
      }
    } else if n + 1 < cfg.maxJobs {
      var sc := Scan(web, cfg, base, links[1..], seen + {url}, n + 1);
      calc {
        UrlsOf(Scan(web, cfg, base, links, seen, n));
        UrlsOf([posting.value] + sc);
        { UrlsOfCons(posting.value, sc); }
        [url] + UrlsOf(sc);
        { ScanUrls(web, cfg, base, links[1..], seen + {url}, n + 1); }
        [url] + Take(f, cfg.maxJobs - n - 1);
        { TakeCons(url, f, cfg.maxJobs - n); }
        Take([url] + f, cfg.maxJobs - n);
      }
    } else {
      calc {
        UrlsOf(Scan(web, cfg, base, links, seen, n));
        UrlsOf([posting.value]);
        { UrlsOfCons(posting.value, []); }
        [url];
        { TakeCons(url, f, 1); }
        Take([url] + f, cfg.maxJobs - n);
      }
    }
  }

  /** The surviving candidates when the first link is a candidate not seen
      before: it comes first exactly when its page survives. */
  lemma FreshCandidates(web: Web, cfg: ExtractorConfig, base: string, links: seq<Anchor>, seen: set<string>)
    requires links != [] && Accepts(cfg.filter, links[0]) && web.resolve(base, links[0].href) !in seen
    ensures var url := web.resolve(base, links[0].href);
            Fetchable(web, cfg.detail, DedupFrom(Candidates(web, cfg.filter, base, links), seen)) ==
            (if Keeps(web, cfg.detail, url) then [url] else []) +
            Fetchable(web, cfg.detail, DedupFrom(Candidates(web, cfg.filter, base, links[1..]), seen + {url}))
  {
    var url := web.resolve(base, links[0].href);
    var rest := Candidates(web, cfg.filter, base, links[1..]);
    assert Candidates(web, cfg.filter, base, links) == [url] + rest;
    DedupCons(url, rest, seen);
    FetchableCons(web, cfg.detail, url, DedupFrom(rest, seen + {url}));
  }

  /** Every posting comes from one candidate link of the page, and is
      exactly the posting built from that link. */
  lemma {:induction false} ScanOrigin(web: Web, cfg: ExtractorConfig, base: string, links: seq<Anchor>, seen: set<string>, n: nat)
    ensures forall p :: p in Scan(web, cfg, base, links, seen, n) ==>
              exists a :: a in links && Accepts(cfg.filter, a) && p.url == web.resolve(base, a.href) &&
                          MakePosting(web, cfg, a, p.url) == Some(p)
    decreases |links|
  {
    if links != [] {
      var a := links[0];
      var url := web.resolve(base, a.href);
      var seen' := if Accepts(cfg.filter, a) && url !in seen then seen + {url} else seen;
      var n' := if Accepts(cfg.filter, a) && url !in seen && MakePosting(web, cfg, a, url).Some? then n + 1 else n;
      ScanOrigin(web, cfg, base, links[1..], seen', n');
      assert forall x :: x in links[1..] ==> x in links;
    }
  }

  lemma {:induction false} FetchableIsSubsequence(web: Web, detail: Detail, urls: seq<string>)
    ensures IsSubsequence(Fetchable(web, detail, urls), urls)
    decreases |urls|
  {
    if urls != [] {
      FetchableIsSubsequence(web, detail, urls[1..]);
      var f := Fetchable(web, detail, urls[1..]);
      if Keeps(web, detail, urls[0]) {
        assert ([urls[0]] + f)[1..] == f;
      } else {
        assert Fetchable(web, detail, urls) == f;
        SubsequenceCons(f, urls[0], urls[1..]);
        assert [urls[0]] + urls[1..] == urls;
      }
    }
  }

  /** Everything `scrape_jobs` promises, for any variant with a cap of at
      least one: nothing when the listing page fails; otherwise at most
      `max_jobs` postings with pairwise distinct URLs, in document order,
      each built from a candidate link, and the URLs are exactly the first
      `max_jobs` distinct candidates whose page survives. */
  lemma ExtractedFacts(web: Web, cfg: ExtractorConfig, listing: string)
    requires cfg.maxJobs >= 1
    ensures var r := Extracted(web, cfg, listing);
            (Fetch(web, Below400, listing).None? ==> r == []) &&
            |r| <= cfg.maxJobs &&
            Distinct(UrlsOf(r)) &&
            (Fetch(web, Below400, listing).Some? ==>
               var links := Fetch(web, Below400, listing).value.anchors;
               var cands := Candidates(web, cfg.filter, listing, links);
               UrlsOf(r) == Take(Fetchable(web, cfg.detail, DedupFrom(cands, {})), cfg.maxJobs) &&
               IsSubsequence(UrlsOf(r), cands) &&
               forall p :: p in r ==>
                 exists a :: a in links && Accepts(cfg.filter, a) && p.url == web.resolve(listing, a.href) &&
                             MakePosting(web, cfg, a, p.url) == Some(p))
  {
    if Fetch(web, Below400, listing).Some? {
      var links := Fetch(web, Below400, listing).value.anchors;
      var cands := Candidates(web, cfg.filter, listing, links);
      var d := DedupFrom(cands, {});
      var f := Fetchable(web, cfg.detail, d);
      var r := Extracted(web, cfg, listing);
      ScanUrls(web, cfg, listing, links, {}, 0);
      ScanOrigin(web, cfg, listing, links, {}, 0);
      DedupIsSubsequence(cands, {});
      FetchableIsSubsequence(web, cfg.detail, d);
      PrefixIsSubsequence(UrlsOf(r), f);
      SubsequenceTrans(UrlsOf(r), f, d);
      DedupFacts(cands, {});
      SubsequenceDistinct(UrlsOf(r), d);
      SubsequenceTrans(UrlsOf(r), d, cands);
    }
  }

  /** At most `max_jobs` postings, with distinct URLs. */
  lemma ExtractedBound(web: Web, cfg: ExtractorConfig, listing: string)
    requires cfg.maxJobs >= 1
    ensures |Extracted(web, cfg, listing)| <= cfg.maxJobs && Distinct(UrlsOf(Extracted(web, cfg, listing)))
  {
    ExtractedFacts(web, cfg, listing);
  }

  /** Every posting is the one built from a candidate link of the page. */
  lemma ExtractedOrigin(web: Web, cfg: ExtractorConfig, listing: string)
    requires cfg.maxJobs >= 1 && Fetch(web, Below400, listing).Some?
    ensures forall p :: p in Extracted(web, cfg, listing) ==>
              exists a :: a in Fetch(web, Below400, listing).value.anchors && Accepts(cfg.filter, a) &&
                          p.url == web.resolve(listing, a.href) && MakePosting(web, cfg, a, p.url) == Some(p)
  {
    ExtractedFacts(web, cfg, listing);
  }

  /** The URLs of the postings alone: the first `max_jobs` distinct
      candidates whose page survives. */
  lemma ExtractedUrls(web: Web, cfg: ExtractorConfig, listing: string)
    requires cfg.maxJobs >= 1 && Fetch(web, Below400, listing).Some?
    ensures UrlsOf(Extracted(web, cfg, listing)) ==
            Take(Fetchable(web, cfg.detail, DedupFrom(Candidates(web, cfg.filter, listing, Fetch(web, Below400, listing).value.anchors), {})), cfg.maxJobs)
  {
    ExtractedFacts(web, cfg, listing);
  }

  /** For the variants that visit each job's page: every posting's page
      loaded, its title is the text of a candidate link to it, and its
      location and date are read from that page. */
  lemma JobPagePostings(web: Web, cfg: ExtractorConfig, listing: string)
    requires cfg.maxJobs >= 1 && cfg.detail.FromJobPage? && !cfg.filter.spacedTitle
    ensures forall p :: p in Extracted(web, cfg, listing) ==>
              Fetch(web, Below400, p.url).Some? &&
              p.location == LocationOr(Fetch(web, Below400, p.url).value.text, cfg.detail.locationTokens, cfg.detail.missingLocation) &&
              p.date == DateOf(cfg.detail.dateRule, Fetch(web, Below400, p.url).value.text) &&
              |p.title| >= cfg.filter.minTitle &&
              exists a: Anchor :: Fetch(web, Below400, listing).Some? && a in Fetch(web, Below400, listing).value.anchors &&
                                  a.text == p.title && p.url == web.resolve(listing, a.href) &&
                                  ContainsAny(Lower(a.href), cfg.filter.hrefAllow) && !ContainsAny(Lower(a.href), cfg.filter.hrefDeny)
  {
    ExtractedFacts(web, cfg, listing);
    if Fetch(web, Below400, listing).Some? {
      var links := Fetch(web, Below400, listing).value.anchors;
      forall p | p in Extracted(web, cfg, listing)
        ensures Fetch(web, Below400, p.url).Some? &&
                p.location == LocationOr(Fetch(web, Below400, p.url).value.text, cfg.detail.locationTokens, cfg.detail.missingLocation) &&
                p.date == DateOf(cfg.detail.dateRule, Fetch(web, Below400, p.url).value.text) &&
                |p.title| >= cfg.filter.minTitle &&
                exists a: Anchor :: a in links && a.text == p.title && p.url == web.resolve(listing, a.href) &&
                                    ContainsAny(Lower(a.href), cfg.filter.hrefAllow) && !ContainsAny(Lower(a.href), cfg.filter.hrefDeny)
      {
        var a :| a in links && Accepts(cfg.filter, a) && p.url == web.resolve(listing, a.href) &&
                 MakePosting(web, cfg, a, p.url) == Some(p);
        assert a.text == p.title;
      }
    }
  }
}
