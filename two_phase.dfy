/** The extractor of scraper2.py: collect the resolved href of every
    candidate link first, keep the first three distinct ones, then visit
    each of them in turn, dropping the ones whose page does not load. Unlike
    the one-pass extractor, a page that fails is not replaced by a later
    candidate. */
module TwoPhase {
  import opened Text
  import opened Seqs
  import opened Web
  import opened Extract

  /** The candidate filter, how many distinct links are kept, what stands for
      a missing `<h1>`, the location tokens and what stands for a missing
      location. */
  datatype TwoPhaseConfig = TwoPhaseConfig(
    filter: Filter,
    limit: int,
    missingTitle: string,
    locationTokens: seq<string>,
    missingLocation: string)

  /** The record built from a job page that loaded: its first `<h1>` as the
      title, the first location token of its text, no date. */
  function PagePosting(cfg: TwoPhaseConfig, url: string, page: Document): (r: JobPosting)
    ensures r.url == url && r.date.None?
    ensures page.h1.Some? ==> r.title == page.h1.value
    ensures page.h1.None? ==> r.title == cfg.missingTitle
    ensures r.location == cfg.missingLocation ||
            (Contains(page.text, r.location) && exists k :: 0 <= k < |cfg.locationTokens| && Lower(r.location) == cfg.locationTokens[k])
  {
    var title := if page.h1.Some? then page.h1.value else cfg.missingTitle;
    JobPosting(title, url, LocationOr(page.text, cfg.locationTokens, cfg.missingLocation), None)
  }

  /** The URLs among `urls` whose page loads, in order. */
  function Loaded(web: Web, urls: seq<string>): (r: seq<string>)
    ensures |r| <= |urls|
    decreases |urls|
  {
    if urls == [] then []
    else (if Fetch(web, Below400, urls[0]).Some? then [urls[0]] else []) + Loaded(web, urls[1..])
  }

  /** A URL is kept exactly when it is one of `urls` and its page loads. */
  lemma {:induction false} LoadedMembers(web: Web, urls: seq<string>)
    ensures forall u :: u in Loaded(web, urls) <==> u in urls && Fetch(web, Below400, u).Some?
    decreases |urls|
  {
    if urls != [] {
      LoadedMembers(web, urls[1..]);
      assert urls == [urls[0]] + urls[1..];
    }
  }

  /** The second loop: one record per link whose page loads, the others
      skipped. */
  function PageJobs(web: Web, cfg: TwoPhaseConfig, urls: seq<string>): seq<JobPosting>
    decreases |urls|
  {
    if urls == [] then []
    else
      match Fetch(web, Below400, urls[0])
      case None => PageJobs(web, cfg, urls[1..])
      case Some(page) => [PagePosting(cfg, urls[0], page)] + PageJobs(web, cfg, urls[1..])
  }

  /** `list(dict.fromkeys(job_links))[:3]` */
  function JobLinks(web: Web, cfg: TwoPhaseConfig, listing: string, links: seq<Anchor>): seq<string> {
    Take(DedupFrom(Candidates(web, cfg.filter, listing, links), {}), cfg.limit)
  }

  /** What `scrape_jobs(listing)` of scraper2.py returns. */
  function Collected(web: Web, cfg: TwoPhaseConfig, listing: string): seq<JobPosting> {
    match Fetch(web, Below400, listing)
    case None => []
    case Some(page) => PageJobs(web, cfg, JobLinks(web, cfg, listing, page.anchors))
  }

  /** The first loop: the resolved href of every candidate link, repeats
      included. */
  method CollectLinks(web: Web, cfg: TwoPhaseConfig, listing: string, links: seq<Anchor>) returns (jobLinks: seq<string>)
    ensures jobLinks == Candidates(web, cfg.filter, listing, links)
  {
    jobLinks := [];
    var i := 0;
    while i < |links|
      invariant 0 <= i <= |links|
      invariant jobLinks + Candidates(web, cfg.filter, listing, links[i..]) == Candidates(web, cfg.filter, listing, links)
    {
      var piece := if Accepts(cfg.filter, links[i]) then [web.resolve(listing, links[i].href)] else [];
      CandidatesStep(web, cfg.filter, listing, links, i);
      AppendStep(jobLinks, piece, Candidates(web, cfg.filter, listing, links[i..]),
                 Candidates(web, cfg.filter, listing, links[i + 1..]), Candidates(web, cfg.filter, listing, links));
      jobLinks := jobLinks + piece;
      i := i + 1;
    }
  }

  /** One link of the first loop. */
  lemma CandidatesStep(web: Web, f: Filter, base: string, links: seq<Anchor>, i: nat)
    requires i < |links|
    ensures Candidates(web, f, base, links[i..]) ==
            (if Accepts(f, links[i]) then [web.resolve(base, links[i].href)] else []) + Candidates(web, f, base, links[i + 1..])
  {
    assert links[i..][0] == links[i] && links[i..][1..] == links[i + 1..];
  }

  /** The second loop: visit each kept link, skipping the ones that fail. */
  method FetchEach(web: Web, cfg: TwoPhaseConfig, picked: seq<string>) returns (jobs: seq<JobPosting>)
    ensures jobs == PageJobs(web, cfg, picked)
  {
    jobs := [];
    var j := 0;
    while j < |picked|
      invariant 0 <= j <= |picked|
      invariant jobs + PageJobs(web, cfg, picked[j..]) == PageJobs(web, cfg, picked)
    {
      assert picked[j..][0] == picked[j] && picked[j..][1..] == picked[j + 1..];
      var jobPage := Fetch(web, Below400, picked[j]);
      if jobPage.Some? {
        jobs := jobs + [PagePosting(cfg, picked[j], jobPage.value)];
      }
      j := j + 1;
    }
  }

  /** `scrape_jobs` of scraper2.py. */
  method CollectThenFetch(web: Web, cfg: TwoPhaseConfig, listing: string) returns (jobs: seq<JobPosting>)
    ensures jobs == Collected(web, cfg, listing)
  {
    var page := Fetch(web, Below400, listing);
    if page.None? {
      return [];
    }
    var jobLinks := CollectLinks(web, cfg, listing, page.value.anchors);
    jobs := FetchEach(web, cfg, Take(DedupFrom(jobLinks, {}), cfg.limit));
  }

  /** The records are exactly those of the links that load, in order, each
      built from its own page. */
  lemma {:induction false} PageJobsFacts(web: Web, cfg: TwoPhaseConfig, urls: seq<string>)
    ensures UrlsOf(PageJobs(web, cfg, urls)) == Loaded(web, urls)
    ensures forall p :: p in PageJobs(web, cfg, urls) ==>
              Fetch(web, Below400, p.url).Some? && p == PagePosting(cfg, p.url, Fetch(web, Below400, p.url).value)
    decreases |urls|
  {
    if urls != [] {
      PageJobsFacts(web, cfg, urls[1..]);
      var rest := PageJobs(web, cfg, urls[1..]);
      if Fetch(web, Below400, urls[0]).Some? {
        UrlsOfCons(PagePosting(cfg, urls[0], Fetch(web, Below400, urls[0]).value), rest);
      }
    }
  }

  lemma {:induction false} LoadedIsSubsequence(web: Web, urls: seq<string>)
    ensures IsSubsequence(Loaded(web, urls), urls)
    decreases |urls|
  {
    if urls != [] {
      LoadedIsSubsequence(web, urls[1..]);
      var l := Loaded(web, urls[1..]);
      if Fetch(web, Below400, urls[0]).Some? {
        assert ([urls[0]] + l)[1..] == l;
      } else {
        assert Loaded(web, urls) == l;
        SubsequenceCons(l, urls[0], urls[1..]);
        assert [urls[0]] + urls[1..] == urls;
      }
    }
  }

  /** What the scraper2.py extractor promises: nothing when the listing page
      fails; otherwise the records are those of the first `limit` distinct
      candidate links whose page loads, at most `limit` of them, with
      distinct URLs, each built from its own page. */
  lemma CollectedFacts(web: Web, cfg: TwoPhaseConfig, listing: string)
    ensures var r := Collected(web, cfg, listing);
            (Fetch(web, Below400, listing).None? ==> r == []) &&
            |r| <= (if cfg.limit < 0 then 0 else cfg.limit) &&
            Distinct(UrlsOf(r)) &&
            (Fetch(web, Below400, listing).Some? ==>
               UrlsOf(r) == Loaded(web, JobLinks(web, cfg, listing, Fetch(web, Below400, listing).value.anchors))) &&
            forall p :: p in r ==>
              Fetch(web, Below400, p.url).Some? && p == PagePosting(cfg, p.url, Fetch(web, Below400, p.url).value)
  {
    if Fetch(web, Below400, listing).Some? {
      var links := Fetch(web, Below400, listing).value.anchors;
      var d := DedupFrom(Candidates(web, cfg.filter, listing, links), {});
      var picked := JobLinks(web, cfg, listing, links);
      PageJobsFacts(web, cfg, picked);
      LoadedIsSubsequence(web, picked);
      PrefixIsSubsequence(picked, d);
      SubsequenceTrans(Loaded(web, picked), picked, d);
      DedupFacts(Candidates(web, cfg.filter, listing, links), {});
      SubsequenceDistinct(Loaded(web, picked), d);
    }
  }

  /** The URLs of the records alone: the picked links whose page loads. */
  lemma CollectedUrls(web: Web, cfg: TwoPhaseConfig, listing: string)
    requires Fetch(web, Below400, listing).Some?
    ensures UrlsOf(Collected(web, cfg, listing)) == Loaded(web, JobLinks(web, cfg, listing, Fetch(web, Below400, listing).value.anchors))
  {
    CollectedFacts(web, cfg, listing);
  }

  /** A page that must load before its record is kept, as the one-pass
      extractor's `Fetchable` sees it. */
  lemma {:induction false} LoadedIsFetchable(web: Web, detail: Detail, urls: seq<string>)
    requires detail.FromJobPage?
    ensures Loaded(web, urls) == Fetchable(web, detail, urls)
    decreases |urls|
  {
    if urls != [] {
      LoadedIsFetchable(web, detail, urls[1..]);
    }
  }

  /** One more link: it is kept exactly when its page loads. */
  lemma LoadedCons(web: Web, x: string, xs: seq<string>)
    ensures Loaded(web, [x] + xs) == (if Fetch(web, Below400, x).Some? then [x] else []) + Loaded(web, xs)
  {
    assert ([x] + xs)[0] == x && ([x] + xs)[1..] == xs;
  }

  /** Keeping the first `k` links and then dropping those that fail gives a
      prefix of dropping first and then keeping `k`, and no more of it. */
  lemma {:induction false} LoadedOfTake(web: Web, d: seq<string>, k: int)
    ensures Loaded(web, Take(d, k)) == Take(Loaded(web, d), |Loaded(web, Take(d, k))|)
    ensures |Loaded(web, Take(d, k))| <= |Take(Loaded(web, d), k)|
    decreases |d|
  {
    if k >= 1 && d != [] {
      var x, xs := d[0], d[1..];
      var ax := Loaded(web, Take(xs, k - 1));
      var lx := Loaded(web, xs);
      LoadedOfTake(web, xs, k - 1);
      LoadedOfTakeHead(web, d, k);
      if Fetch(web, Below400, x).Some? {
        LoadedTakeStep(x, ax, lx, k);
      }
    }
  }

  /** The first link of the first `k`, loaded or not. */
  lemma LoadedOfTakeHead(web: Web, d: seq<string>, k: int)
    requires k >= 1 && d != []
    ensures Loaded(web, Take(d, k)) == (if Fetch(web, Below400, d[0]).Some? then [d[0]] else []) + Loaded(web, Take(d[1..], k - 1))
  {
    assert [d[0]] + d[1..] == d;
    TakeCons(d[0], d[1..], k);
    LoadedCons(web, d[0], Take(d[1..], k - 1));
  }

  /** The inductive step of `LoadedOfTake` when the first link loads. */
  lemma LoadedTakeStep(x: string, ax: seq<string>, lx: seq<string>, k: int)
    requires k >= 1 && ax == Take(lx, |ax|) && |ax| <= |Take(lx, k - 1)|
    ensures [x] + ax == Take([x] + lx, |[x] + ax|) && |[x] + ax| <= |Take([x] + lx, k)|
  {
    TakeCons(x, lx, |ax| + 1);
    TakeCons(x, lx, k);
  }

  /** The scraper2.py extractor finds a prefix of what the one-pass
      extractor with the same filter and cap finds on the same listing page:
      a failed job page costs it one of its three slots. */
  lemma PrefixOfOnePass(web: Web, cfg: TwoPhaseConfig, one: ExtractorConfig, listing: string)
    requires one.filter == cfg.filter && one.detail.FromJobPage? && one.maxJobs == cfg.limit >= 1
    ensures var two := UrlsOf(Collected(web, cfg, listing));
            var full := UrlsOf(Extracted(web, one, listing));
            two == Take(full, |two|) && |two| <= |full|
  {
    if Fetch(web, Below400, listing).Some? {
      ExtractedUrls(web, one, listing);
      CollectedUrls(web, cfg, listing);
      var links := Fetch(web, Below400, listing).value.anchors;
      var d := DedupFrom(Candidates(web, cfg.filter, listing, links), {});
      LoadedIsFetchable(web, one.detail, d);
      LoadedOfTake(web, d, cfg.limit);
      var two := UrlsOf(Collected(web, cfg, listing));
      var l := Loaded(web, d);
      assert Take(l, |two|) == Take(Take(l, cfg.limit), |two|);
    }
  }

  /** When the first distinct candidate's page fails and the next three
      load, scraper2.py reports two jobs where the one-pass extractor
      reports three. */
  lemma FailedPageNotReplaced(web: Web, cfg: TwoPhaseConfig, one: ExtractorConfig, listing: string)
    requires one.filter == cfg.filter && one.detail.FromJobPage? && one.maxJobs == cfg.limit == 3
    requires Fetch(web, Below400, listing).Some?
    requires var d := DedupFrom(Candidates(web, cfg.filter, listing, Fetch(web, Below400, listing).value.anchors), {});
             |d| >= 4 && Fetch(web, Below400, d[0]).None? &&
             Fetch(web, Below400, d[1]).Some? && Fetch(web, Below400, d[2]).Some? && Fetch(web, Below400, d[3]).Some?
    ensures |Collected(web, cfg, listing)| == 2
    ensures |Extracted(web, one, listing)| == 3
  {
    var links := Fetch(web, Below400, listing).value.anchors;
    var d := DedupFrom(Candidates(web, cfg.filter, listing, links), {});
    ExtractedUrls(web, one, listing);
    CollectedUrls(web, cfg, listing);
    LoadedIsFetchable(web, one.detail, d);
    assert Take(d, 3) == [d[0]] + ([d[1]] + ([d[2]] + []));
    LoadedCons(web, d[2], []);
    LoadedCons(web, d[1], [d[2]]);
    LoadedCons(web, d[0], [d[1], d[2]]);
    LoadedCount(web, d);
  }

  /** Three loading links after a failing one give at least three. */
  lemma LoadedCount(web: Web, d: seq<string>)
    requires |d| >= 4 && Fetch(web, Below400, d[0]).None? &&
             Fetch(web, Below400, d[1]).Some? && Fetch(web, Below400, d[2]).Some? && Fetch(web, Below400, d[3]).Some?
    ensures |Loaded(web, d)| >= 3
  {
    assert d == [d[0]] + ([d[1]] + ([d[2]] + ([d[3]] + d[4..])));
    LoadedCons(web, d[3], d[4..]);
    LoadedCons(web, d[2], [d[3]] + d[4..]);
    LoadedCons(web, d[1], [d[2]] + ([d[3]] + d[4..]));
    LoadedCons(web, d[0], [d[1]] + ([d[2]] + ([d[3]] + d[4..])));
  }
}
