/** The LinkedIn fallback (`linkedin_jobs`) of Scraper8.py and
    3rd_part_Job.py and the LinkedIn probe (`linkedin_detected`) of
    Scraper7.py. The company's LinkedIn jobs page is derived from the host
    name of its website; postings are the links whose href contains
    "/jobs/view/", without de-duplication. */
module LinkedIn {
  import opened Text
  import opened Seqs
  import opened Web
  import opened Urls
  import opened Extract

  /** The variant's title test, its constant location and date, and its cap. */
  datatype LinkedInConfig = LinkedInConfig(
    minTitle: nat,
    titleDeny: seq<string>,
    location: string,
    date: string,
    maxJobs: int)

  const LinkedInHome := "https://www.linkedin.com"

  /** The LinkedIn jobs page of a website; None when `urlparse` raises. */
  function LinkedInPage(web: Web, site: string): (r: Option<string>)
    ensures r.Some? ==> StartsWith(r.value, "https://www.linkedin.com/company/")
    ensures r.None? <==> web.netloc(site).None?
    ensures r.Some? ==> r.value == LinkedInJobsUrl(Slug(web.netloc(site).value))
  {
    match web.netloc(site)
    case None => None
    case Some(host) => Some(LinkedInJobsUrl(Slug(host)))
  }

  /** The raw href (not lower-cased) names a job view. */
  predicate IsJobView(a: Anchor) {
    Contains(a.href, "/jobs/view/")
  }

  predicate ValidTitle(cfg: LinkedInConfig, t: string) {
    |t| >= cfg.minTitle && !ContainsAny(Lower(t), cfg.titleDeny)
  }

  predicate Qualifies(cfg: LinkedInConfig, a: Anchor) {
    IsJobView(a) && ValidTitle(cfg, a.text)
  }

  function PostingOf(web: Web, cfg: LinkedInConfig, a: Anchor): JobPosting {
    JobPosting(a.text, web.resolve(LinkedInHome, a.href), cfg.location, Some(cfg.date))
  }

  /** Reference definition: one posting per qualifying link, in document
      order, repeats included, no cap. */
  function Postings(web: Web, cfg: LinkedInConfig, links: seq<Anchor>): (r: seq<JobPosting>)
    ensures |r| <= |links|
    ensures forall p :: p in r ==> exists a :: a in links && Qualifies(cfg, a) && p == PostingOf(web, cfg, a)
    decreases |links|
  {
    if links == [] then []
    else
      var rest := Postings(web, cfg, links[1..]);
      assert forall a :: a in links[1..] ==> a in links;
      (if Qualifies(cfg, links[0]) then [PostingOf(web, cfg, links[0])] else []) + rest
  }

  /** The loop from `links` on with `n` postings already collected: the cap
      is looked at after every link. */
  function LScan(web: Web, cfg: LinkedInConfig, links: seq<Anchor>, n: nat): seq<JobPosting>
    decreases |links|
  {
    if links == [] then []
    else if Qualifies(cfg, links[0]) then
      if n + 1 >= cfg.maxJobs then [PostingOf(web, cfg, links[0])]
      else [PostingOf(web, cfg, links[0])] + LScan(web, cfg, links[1..], n + 1)
    else if n >= cfg.maxJobs then []
    else LScan(web, cfg, links[1..], n)
  }

  /** What `linkedin_jobs(site)` returns. */
  function LinkedInJobs(web: Web, cfg: LinkedInConfig, site: string): seq<JobPosting> {
    match LinkedInPage(web, site)
    case None => []
    case Some(url) =>
      match Fetch(web, Below400, url)
      case None => []
      case Some(page) => LScan(web, cfg, page.anchors, 0)
  }

  /** The loop of `linkedin_jobs`. */
  method CollectLinkedInJobs(web: Web, cfg: LinkedInConfig, site: string) returns (jobs: seq<JobPosting>)
    ensures jobs == LinkedInJobs(web, cfg, site)
  {
    var url := LinkedInPage(web, site);
    if url.None? {
      return [];
    }
    var page := Fetch(web, Below400, url.value);
    if page.None? {
      return [];
    }
    var links := page.value.anchors;
    jobs := [];
    var i := 0;
    while i < |links|
      invariant 0 <= i <= |links|
      invariant jobs + LScan(web, cfg, links[i..], |jobs|) == LinkedInJobs(web, cfg, site)
    {
      var a := links[i];
      assert links[i..][0] == a && links[i..][1..] == links[i + 1..];
      if IsJobView(a) {
        var t := a.text;
        if ValidTitle(cfg, t) {
          jobs := jobs + [JobPosting(t, web.resolve(LinkedInHome, a.href), cfg.location, Some(cfg.date))];
        }
      }
      if |jobs| >= cfg.maxJobs {
        break;
      }
      i := i + 1;
    }
  }

  /** `linkedin_detected(site)`: the LinkedIn jobs page fetches. */
  predicate LinkedInDetected(web: Web, site: string) {
    match LinkedInPage(web, site)
    case None => false
    case Some(url) => Fetch(web, Below400, url).Some?
  }

  /** The loop keeps the first `max - n` qualifying links' postings. */
  lemma {:induction false} LScanTakes(web: Web, cfg: LinkedInConfig, links: seq<Anchor>, n: nat)
    requires 1 <= cfg.maxJobs && n < cfg.maxJobs
    ensures LScan(web, cfg, links, n) == Take(Postings(web, cfg, links), cfg.maxJobs - n)
    decreases |links|
  {
    if links != [] {
      var rest := Postings(web, cfg, links[1..]);
      if Qualifies(cfg, links[0]) {
        var p := PostingOf(web, cfg, links[0]);
        assert Postings(web, cfg, links) == [p] + rest;
        if n + 1 < cfg.maxJobs {
          LScanTakes(web, cfg, links[1..], n + 1);
        }
      } else {
        assert Postings(web, cfg, links) == rest;
        LScanTakes(web, cfg, links[1..], n);
      }
    }
  }

  /** Everything `linkedin_jobs` promises when the cap is at least one: at
      most `max_jobs` postings, exactly the first ones of the page's
      qualifying links, each with the link's text as title, its href resolved
      against linkedin.com, and the constant location and date. */
  lemma LinkedInJobsFacts(web: Web, cfg: LinkedInConfig, site: string)
    requires cfg.maxJobs >= 1
    ensures var r := LinkedInJobs(web, cfg, site);
            |r| <= cfg.maxJobs &&
            (r != [] ==> LinkedInDetected(web, site)) &&
            (LinkedInDetected(web, site) ==>
               r == Take(Postings(web, cfg, Fetch(web, Below400, LinkedInPage(web, site).value).value.anchors), cfg.maxJobs)) &&
            forall p :: p in r ==> p.location == cfg.location && p.date == Some(cfg.date) &&
                                   ValidTitle(cfg, p.title) &&
                                   exists a :: IsJobView(a) && p.title == a.text && p.url == web.resolve(LinkedInHome, a.href)
  {
    if LinkedInDetected(web, site) {
      var links := Fetch(web, Below400, LinkedInPage(web, site).value).value.anchors;
      LScanTakes(web, cfg, links, 0);
      var all := Postings(web, cfg, links);
      var r := LinkedInJobs(web, cfg, site);
      assert r <= all;
      forall p | p in r
        ensures p.location == cfg.location && p.date == Some(cfg.date) && ValidTitle(cfg, p.title) &&
                exists a :: IsJobView(a) && p.title == a.text && p.url == web.resolve(LinkedInHome, a.href)
      {
        assert p in all;
        var a :| a in links && Qualifies(cfg, a) && p == PostingOf(web, cfg, a);
      }
    }
  }

  /** Unlike the careers-page extractor, the LinkedIn loop keeps repeats: a
      qualifying link that appears twice yields two equal postings. */
  lemma LinkedInKeepsRepeats(web: Web, cfg: LinkedInConfig, a: Anchor)
    requires cfg.maxJobs >= 2 && Qualifies(cfg, a)
    ensures LScan(web, cfg, [a, a], 0) == [PostingOf(web, cfg, a), PostingOf(web, cfg, a)]
    ensures !Distinct(UrlsOf(LScan(web, cfg, [a, a], 0)))
  {
    var p := PostingOf(web, cfg, a);
    assert [a, a][1..] == [a] && [a][1..] == [];
    assert LScan(web, cfg, [a], 1) == [p];
    assert LScan(web, cfg, [a, a], 0) == [p] + [p];
    assert UrlsOf([p, p])[0] == UrlsOf([p, p])[1];
  }
}
