/** The per-company pipeline shared by the spreadsheet drivers: clean the
    website cell, find the careers page, find the listing page, extract the
    jobs; and the company-name overrides of the ranked drivers. */
module Pipeline {
  import opened Text
  import opened Web
  import opened Urls
  import opened Locate
  import opened Extract
  import opened LinkedIn
  import opened TwoPhase

  /** One input row: `str(row["Startup"])` and the "Website URL" cell. */
  datatype Row = Row(startup: string, website: Cell)

  /** `str(startup).strip().lower()` */
  function NameKey(startup: string): (r: string)
    ensures |r| == |Strip(startup)|
    ensures forall i :: 0 <= i < |r| ==> r[i] == LowerChar(Strip(startup)[i])
  {
    Lower(Strip(startup))
  }

  /** The two hard-wired companies that always head the sheet. */
  function ForcedRank(key: string): (r: Option<int>)
    ensures r.Some? <==> key == "thoughtful foods" || key == "charzer"
    ensures key == "thoughtful foods" ==> r == Some(0)
    ensures key == "charzer" ==> r == Some(1)
  {
    if key == "thoughtful foods" then Some(0)
    else if key == "charzer" then Some(1)
    else None
  }

  /** `force_rank if force_rank is not None else base` */
  function RankOr(key: string, base: int): (r: int)
    ensures ForcedRank(key).Some? ==> r == ForcedRank(key).value && 0 <= r <= 1
    ensures ForcedRank(key).None? ==> r == base
  {
    match ForcedRank(key)
    case Some(f) => f
    case None => base
  }

  /** `force_status or default`: the override status of a forced company
      replaces the default one. */
  function StatusOr(key: string, default: string): (r: string)
    ensures ForcedRank(key).Some? ==> r == "Job Found"
    ensures ForcedRank(key).None? ==> r == default
  {
    if ForcedRank(key).Some? then "Job Found" else default
  }

  /** A forced company goes before every company whose unforced rank is at
      least 2, whatever happens on its website. */
  lemma ForcedGoesFirst(key: string, other: string, base: int, otherBase: int)
    requires ForcedRank(key).Some? && ForcedRank(other).None? && otherBase >= 2
    ensures RankOr(key, base) < RankOr(other, otherBase)
  {
  }

  /** Which extractor a staged driver calls: the one-pass `scrape_jobs`, or
      the collect-then-fetch one of scraper2.py. */
  datatype JobSource = OnePass(extractor: ExtractorConfig) | CollectFirst(twoPhase: TwoPhaseConfig)

  function JobsOf(web: Web, src: JobSource, listing: string): seq<JobPosting> {
    match src
    case OnePass(c) => Extracted(web, c, listing)
    case CollectFirst(c) => Collected(web, c, listing)
  }

  /** The cap of the extractor. */
  function SourceCap(src: JobSource): int {
    match src
    case OnePass(c) => c.maxJobs
    case CollectFirst(c) => c.limit
  }

  /** Either extractor returns at most its cap, and nothing when the listing
      page does not load. */
  lemma JobsOfFacts(web: Web, src: JobSource, listing: string)
    requires SourceCap(src) >= 1
    ensures |JobsOf(web, src, listing)| <= SourceCap(src)
    ensures Fetch(web, Below400, listing).None? ==> JobsOf(web, src, listing) == []
  {
    match src
    case OnePass(c) => ExtractedFacts(web, c, listing);
    case CollectFirst(c) => CollectedFacts(web, c, listing);
  }

  /** The extractor's call, running its loops. */
  method CollectJobs(web: Web, src: JobSource, listing: string) returns (jobs: seq<JobPosting>)
    ensures jobs == JobsOf(web, src, listing)
  {
    match src
    case OnePass(c) => jobs := ScrapeJobs(web, c, listing);
    case CollectFirst(c) => jobs := CollectThenFetch(web, c, listing);
  }

  /** Where a company of a staged driver stops. */
  datatype Stage =
    | InvalidSite
    | NoCareerPage
    | NoJobs(careers: string, listing: string)
    | JobsFound(careers: string, listing: string, jobs: seq<JobPosting>)

  /** How far a row got: 0 without a usable website, 1 without a careers
      page, 2 without jobs, 3 with jobs. */
  function Progress(s: Stage): nat {
    match s
    case InvalidSite => 0
    case NoCareerPage => 1
    case NoJobs(_, _) => 2
    case JobsFound(_, _, _) => 3
  }

  /** Which `clean_url`, which careers locator, which listing locator, which
      extractor. */
  datatype StagedConfig = StagedConfig(stripFirst: bool, careers: CareerRule, listing: ListingRule, jobs: JobSource)

  function CleanUrl(stripFirst: bool, v: Cell): Option<string> {
    if stripFirst then CleanUrlStripped(v) else CleanUrlAsGiven(v)
  }

  /** The staged driver's body for one row: it stops at the first step that
      finds nothing. */
  function StageOf(web: Web, cfg: StagedConfig, website: Cell): (r: Stage)
    ensures r.InvalidSite? <==> CleanUrl(cfg.stripFirst, website).None?
    ensures r.NoCareerPage? <==>
              CleanUrl(cfg.stripFirst, website).Some? &&
              FindCareersPage(web, cfg.careers, CleanUrl(cfg.stripFirst, website).value).None?
    ensures (r.NoJobs? || r.JobsFound?) ==>
              CleanUrl(cfg.stripFirst, website).Some? &&
              FindCareersPage(web, cfg.careers, CleanUrl(cfg.stripFirst, website).value) == Some(r.careers) &&
              r.listing == FindListingPage(web, cfg.listing, r.careers)
    ensures r.NoJobs? ==> JobsOf(web, cfg.jobs, r.listing) == []
    ensures r.JobsFound? ==> r.jobs == JobsOf(web, cfg.jobs, r.listing) && r.jobs != []
  {
    match CleanUrl(cfg.stripFirst, website)
    case None => InvalidSite
    case Some(site) =>
      match FindCareersPage(web, cfg.careers, site)
      case None => NoCareerPage
      case Some(careers) =>
        var listing := FindListingPage(web, cfg.listing, careers);
        var jobs := JobsOf(web, cfg.jobs, listing);
        if jobs == [] then NoJobs(careers, listing) else JobsFound(careers, listing, jobs)
  }

  /** A website whose home page does not load is reported as having no
      careers page: no path is probed without the home page. */
  lemma DeadHomeHasNoCareerPage(web: Web, cfg: StagedConfig, website: Cell)
    requires CleanUrl(cfg.stripFirst, website).Some?
    requires Fetch(web, cfg.careers.success, CleanUrl(cfg.stripFirst, website).value).None?
    ensures StageOf(web, cfg, website) == NoCareerPage
  {
  }

  /** A row that reaches the extractor never reports more jobs than its
      cap. */
  lemma StageCap(web: Web, cfg: StagedConfig, website: Cell)
    requires SourceCap(cfg.jobs) >= 1
    ensures var r := StageOf(web, cfg, website);
            r.JobsFound? ==> 1 <= |r.jobs| <= SourceCap(cfg.jobs)
  {
    var r := StageOf(web, cfg, website);
    if r.JobsFound? {
      JobsOfFacts(web, cfg.jobs, r.listing);
    }
  }

  /** `StageOf` applied to every row, in order. */
  function StagesOf(web: Web, cfg: StagedConfig, rows: seq<Row>): (r: seq<Stage>)
    ensures |r| == |rows|
    decreases |rows|
  {
    if rows == [] then []
    else [StageOf(web, cfg, rows[0].website)] + StagesOf(web, cfg, rows[1..])
  }

  /** Stage `i` is row `i`'s. */
  lemma {:induction false} StagesOfIndex(web: Web, cfg: StagedConfig, rows: seq<Row>, i: nat)
    requires i < |rows|
    ensures StagesOf(web, cfg, rows)[i] == StageOf(web, cfg, rows[i].website)
    decreases i
  {
    if i > 0 {
      StagesOfIndex(web, cfg, rows[1..], i - 1);
      assert rows[1..][i - 1] == rows[i];
    }
  }

  /** The body of a staged driver's row loop. */
  method StageRow(web: Web, cfg: StagedConfig, website: Cell) returns (stage: Stage)
    ensures stage == StageOf(web, cfg, website)
  {
    var site := CleanUrl(cfg.stripFirst, website);
    if site.None? {
      return InvalidSite;
    }
    var careers := FindCareersPage(web, cfg.careers, site.value);
    if careers.None? {
      return NoCareerPage;
    }
    var listing := FindListingPage(web, cfg.listing, careers.value);
    var jobs := CollectJobs(web, cfg.jobs, listing);
    if jobs == [] {
      stage := NoJobs(careers.value, listing);
    } else {
      stage := JobsFound(careers.value, listing, jobs);
    }
  }

  /** The loop body for row `i`, as the step it takes along `StagesOf`. */
  method NextStage(web: Web, cfg: StagedConfig, rows: seq<Row>, i: nat, done: seq<Stage>) returns (stage: Stage)
    requires i < |rows|
    requires done + StagesOf(web, cfg, rows[i..]) == StagesOf(web, cfg, rows)
    ensures done + [stage] + StagesOf(web, cfg, rows[i + 1..]) == StagesOf(web, cfg, rows)
  {
    assert rows[i..][0] == rows[i] && rows[i..][1..] == rows[i + 1..];
    stage := StageRow(web, cfg, rows[i].website);
  }

  /** The row loop of a staged driver: each row's stage, and the cells
      (`cellsOf`) it writes for that row. */
  method RunStaged<L>(web: Web, cfg: StagedConfig, cellsOf: (Row, Stage) -> L, rows: seq<Row>)
    returns (stages: seq<Stage>, labels: seq<L>)
    ensures stages == StagesOf(web, cfg, rows)
    ensures labels == Column(cellsOf, rows, stages)
  {
    stages, labels := [], [];
    var i := 0;
    while i < |rows|
      invariant 0 <= i <= |rows|
      invariant |stages| == i
      invariant stages + StagesOf(web, cfg, rows[i..]) == StagesOf(web, cfg, rows)
      invariant labels == Column(cellsOf, rows[..i], stages)
    {
      var stage := NextStage(web, cfg, rows, i, stages);
      ColumnStep(cellsOf, rows, stages, i, stage);
      labels := labels + [cellsOf(rows[i], stage)];
      stages := stages + [stage];
      i := i + 1;
    }
    assert rows[..i] == rows;
  }

  /** A column the driver writes for every row from the row and what was
      found for it (a rank, the status cells). */
  function Column<V, T>(f: (Row, V) -> T, rows: seq<Row>, found: seq<V>): (r: seq<T>)
    requires |found| == |rows|
    ensures |r| == |rows|
    ensures forall i :: 0 <= i < |rows| ==> r[i] == f(rows[i], found[i])
  {
    seq(|rows|, i requires 0 <= i < |rows| => f(rows[i], found[i]))
  }

  /** The column over the first `i + 1` rows extends that over the first `i`. */
  lemma ColumnStep<V, T>(f: (Row, V) -> T, rows: seq<Row>, found: seq<V>, i: nat, v: V)
    requires |found| == i < |rows|
    ensures Column(f, rows[..i + 1], found + [v]) == Column(f, rows[..i], found) + [f(rows[i], v)]
  {
    assert rows[..i + 1] == rows[..i] + [rows[i]];
    ColumnSnoc(f, rows[..i], found, rows[i], v);
  }

  /** One more row appends its cell. */
  lemma ColumnSnoc<V, T>(f: (Row, V) -> T, rows: seq<Row>, found: seq<V>, row: Row, v: V)
    requires |found| == |rows|
    ensures Column(f, rows + [row], found + [v]) == Column(f, rows, found) + [f(row, v)]
  {
    var l := Column(f, rows + [row], found + [v]);
    var r := Column(f, rows, found) + [f(row, v)];
    forall k | 0 <= k < |l| ensures l[k] == r[k] {
      if k < |rows| {
        assert (rows + [row])[k] == rows[k] && (found + [v])[k] == found[k];
      }
    }
  }

  // ---------------------------------------------------------------------
  // The ranked drivers (Scraper8.py, 3rd_part_Job.py, Scraper7.py): careers
  // path first, then a LinkedIn fallback when it gave no jobs.

  /** What a ranked driver does when the careers path gives no jobs:
      `linkedin_jobs(site)` or only `linkedin_detected(site)`. */
  datatype Fallback = LinkedInPostings(linkedIn: LinkedInConfig) | LinkedInProbe

  /** A ranked driver's locators, its extractor and its fallback. */
  datatype RankedConfig = RankedConfig(careers: CareerRule, listing: ListingRule, jobs: ExtractorConfig, fallback: Fallback)

  /** What the loop body of a ranked driver finds for one row: the careers
      and listing pages (written to the sheet when found), the jobs, and
      whether the LinkedIn probe answered. */
  datatype Visit = Visit(careers: Option<string>, listing: Option<string>, jobs: seq<JobPosting>, onLinkedIn: bool)

  /** The careers path: nothing without a website or a careers page. */
  function CareerPath(web: Web, cfg: RankedConfig, site: Option<string>): (r: Visit)
    ensures !r.onLinkedIn && (r.careers.Some? <==> r.listing.Some?)
    ensures r.careers.None? ==> r.jobs == []
    ensures r.careers.Some? <==> site.Some? && FindCareersPage(web, cfg.careers, site.value).Some?
  {
    match site
    case None => Visit(None, None, [], false)
    case Some(s) =>
      match FindCareersPage(web, cfg.careers, s)
      case None => Visit(None, None, [], false)
      case Some(c) =>
        var l := FindListingPage(web, cfg.listing, c);
        Visit(Some(c), Some(l), Extracted(web, cfg.jobs, l), false)
  }

  /** The loop body for one row, given its cleaned website. */
  function VisitOf(web: Web, cfg: RankedConfig, site: Option<string>): (r: Visit)
    ensures r.onLinkedIn ==> r.jobs == [] && cfg.fallback.LinkedInProbe?
  {
    var path := CareerPath(web, cfg, site);
    if path.jobs != [] || site.None? then path
    else
      match cfg.fallback
      case LinkedInPostings(lc) => Visit(path.careers, path.listing, LinkedInJobs(web, lc, site.value), false)
      case LinkedInProbe => Visit(path.careers, path.listing, [], LinkedInDetected(web, site.value))
  }

  /** The most jobs one row can yield: the larger of the two caps. */
  function JobCap(cfg: RankedConfig): int {
    if cfg.fallback.LinkedInPostings? && cfg.fallback.linkedIn.maxJobs > cfg.jobs.maxJobs
    then cfg.fallback.linkedIn.maxJobs else cfg.jobs.maxJobs
  }

  /** What the loop body promises: a row without a usable website finds
      nothing; the careers path is recorded as found; jobs from the careers
      path are kept, and only when it gave none is LinkedIn asked; there are
      never more jobs than the caps allow. */
  lemma VisitFacts(web: Web, cfg: RankedConfig, site: Option<string>)
    requires cfg.jobs.maxJobs >= 1
    requires cfg.fallback.LinkedInPostings? ==> cfg.fallback.linkedIn.maxJobs >= 1
    ensures var r := VisitOf(web, cfg, site);
            var path := CareerPath(web, cfg, site);
            (site.None? ==> r == Visit(None, None, [], false)) &&
            r.careers == path.careers && r.listing == path.listing &&
            (path.jobs != [] ==> r.jobs == path.jobs && !r.onLinkedIn) &&
            (path.jobs == [] && site.Some? && cfg.fallback.LinkedInPostings? ==>
               r.jobs == LinkedInJobs(web, cfg.fallback.linkedIn, site.value)) &&
            (path.jobs == [] && site.Some? && cfg.fallback.LinkedInProbe? ==>
               r.jobs == [] && (r.onLinkedIn <==> LinkedInDetected(web, site.value))) &&
            |r.jobs| <= JobCap(cfg)
  {
    var path := CareerPath(web, cfg, site);
    if path.listing.Some? {
      ExtractedFacts(web, cfg.jobs, path.listing.value);
    }
    if site.Some? && cfg.fallback.LinkedInPostings? {
      LinkedInJobsFacts(web, cfg.fallback.linkedIn, site.value);
    }
  }

  /** The cap part of `VisitFacts` on its own. */
  lemma VisitCap(web: Web, cfg: RankedConfig, site: Option<string>)
    requires cfg.jobs.maxJobs >= 1
    requires cfg.fallback.LinkedInPostings? ==> cfg.fallback.linkedIn.maxJobs >= 1
    ensures |VisitOf(web, cfg, site).jobs| <= JobCap(cfg)
  {
    VisitFacts(web, cfg, site);
  }

  /** The careers path as statements, calling the extractor's loop. */
  method CareerRow(web: Web, cfg: RankedConfig, site: Option<string>) returns (v: Visit)
    ensures v == CareerPath(web, cfg, site)
  {
    if site.None? {
      return Visit(None, None, [], false);
    }
    var careers := FindCareersPage(web, cfg.careers, site.value);
    if careers.None? {
      return Visit(None, None, [], false);
    }
    var listing := FindListingPage(web, cfg.listing, careers.value);
    var jobs := ScrapeJobs(web, cfg.jobs, listing);
    v := Visit(careers, Some(listing), jobs, false);
  }

  /** The loop body as statements, calling the LinkedIn loop when needed. */
  method VisitRow(web: Web, cfg: RankedConfig, site: Option<string>) returns (v: Visit)
    ensures v == VisitOf(web, cfg, site)
  {
    v := CareerRow(web, cfg, site);
    if v.jobs == [] && site.Some? {
      match cfg.fallback
      case LinkedInPostings(lc) =>
        var jobs := CollectLinkedInJobs(web, lc, site.value);
        v := v.(jobs := jobs);
      case LinkedInProbe =>
        v := v.(onLinkedIn := LinkedInDetected(web, site.value));
    }
  }

  /** The loop body applied to every row, in order, each website cleaned
      first. */
  function VisitsOf(web: Web, cfg: RankedConfig, rows: seq<Row>): (r: seq<Visit>)
    ensures |r| == |rows|
    decreases |rows|
  {
    if rows == [] then [] else [VisitOf(web, cfg, CleanUrlAsGiven(rows[0].website))] + VisitsOf(web, cfg, rows[1..])
  }

  /** Visit `i` is row `i`'s. */
  lemma {:induction false} VisitsOfIndex(web: Web, cfg: RankedConfig, rows: seq<Row>, i: nat)
    requires i < |rows|
    ensures VisitsOf(web, cfg, rows)[i] == VisitOf(web, cfg, CleanUrlAsGiven(rows[i].website))
    decreases i
  {
    if i > 0 {
      VisitsOfIndex(web, cfg, rows[1..], i - 1);
      assert rows[1..][i - 1] == rows[i];
    }
  }

  /** One step of the row loop: the visits from row `i` on are row `i`'s
      visit followed by those from row `i + 1` on. */
  lemma VisitsOfStep(web: Web, cfg: RankedConfig, rows: seq<Row>, i: nat)
    requires i < |rows|
    ensures VisitsOf(web, cfg, rows[i..]) ==
            [VisitOf(web, cfg, CleanUrlAsGiven(rows[i].website))] + VisitsOf(web, cfg, rows[i + 1..])
  {
    assert rows[i..][0] == rows[i] && rows[i..][1..] == rows[i + 1..];
  }

  /** The loop body of a ranked driver for row `i`, stated as the step it
      takes along `VisitsOf`: the rows before `i` are visited, and row `i`'s
      visit extends them. */
  method NextVisit(web: Web, cfg: RankedConfig, rows: seq<Row>, i: nat, done: seq<Visit>) returns (v: Visit)
    requires i < |rows|
    requires done + VisitsOf(web, cfg, rows[i..]) == VisitsOf(web, cfg, rows)
    ensures done + [v] + VisitsOf(web, cfg, rows[i + 1..]) == VisitsOf(web, cfg, rows)
    ensures |v.jobs| <= JobCap(cfg) || cfg.jobs.maxJobs < 1 ||
            (cfg.fallback.LinkedInPostings? && cfg.fallback.linkedIn.maxJobs < 1)
  {
    var site := CleanUrlAsGiven(rows[i].website);
    v := VisitRow(web, cfg, site);
    VisitsOfStep(web, cfg, rows, i);
    if cfg.jobs.maxJobs >= 1 && (cfg.fallback.LinkedInPostings? ==> cfg.fallback.linkedIn.maxJobs >= 1) {
      VisitCap(web, cfg, site);
    }
  }

  /** The row loop of 3rd_part_Job.py and Scraper7.py: visit each row, then
      write its status cells and append its rank. */
  method RunRanked<S>(web: Web, cfg: RankedConfig, rank: (Row, Visit) -> int, status: (Row, Visit) -> S, rows: seq<Row>)
    returns (visits: seq<Visit>, ranks: seq<int>, statuses: seq<S>)
    ensures visits == VisitsOf(web, cfg, rows)
    ensures ranks == Column(rank, rows, visits)
    ensures statuses == Column(status, rows, visits)
  {
    visits, ranks, statuses := [], [], [];
    var i := 0;
    while i < |rows|
      invariant 0 <= i <= |rows|
      invariant |visits| == i
      invariant visits + VisitsOf(web, cfg, rows[i..]) == VisitsOf(web, cfg, rows)
      invariant ranks == Column(rank, rows[..i], visits)
      invariant statuses == Column(status, rows[..i], visits)
    {
      var v := NextVisit(web, cfg, rows, i, visits);
      ColumnStep(rank, rows, visits, i, v);
      ColumnStep(status, rows, visits, i, v);
      ranks := ranks + [rank(rows[i], v)];
      statuses := statuses + [status(rows[i], v)];
      visits := visits + [v];
      i := i + 1;
    }
    assert rows[..i] == rows;
  }
}
