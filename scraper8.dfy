/** Scraper8.py: careers page by link text, listing page by ATS domain,
    jobs with the location split off the title, LinkedIn fallback, and a
    nine-level rank per company. The date of every job is the run's month,
    given here as `today`. */
module Scraper8 {
  import opened Text
  import opened Web
  import opened Urls
  import opened Locate
  import opened Extract
  import opened LinkedIn
  import opened Pipeline
  import opened Ranking
  import Seqs

  const MaxJobs := 3

  const InvalidTitles: seq<string> :=
    ["our open positions", "job openings", "job opportunities",
     "frequently asked questions", "privacy", "terms", "about"]

  /** The alternatives of `LOCATION_REGEX`, lower-cased; `On[- ]site` is
      its two spellings. */
  const LocationTokens: seq<string> :=
    ["remote", "hybrid", "on-site", "on site", "india", "bengaluru", "bangalore", "mumbai",
     "delhi", "pune", "hyderabad", "chennai", "singapore", "usa", "uk", "australia"]

  const NoLocation := "Not Mentioned"

  const JobHrefTokens: seq<string> := ["job", "opening", "position", "req"]

  /** `find_careers_page`: keywords in the link text only; two probes. */
  const CareersRule := CareerRule(Below400, CareerKeywords, true, false, ["/careers", "/jobs"])

  /** `find_listing_page`: ATS domains only. */
  const ListingPageRule := ListingRule([], AtsDomains)

  /** `valid_title(text)` */
  function ValidJobTitle(text: string): (r: bool)
    ensures r <==> |text| >= 6 && forall k :: 0 <= k < |InvalidTitles| ==> !Contains(Lower(text), InvalidTitles[k])
  {
    |text| >= 6 && !ContainsAny(Lower(text), InvalidTitles)
  }

  /** `scrape_jobs`: the spaced link text, `valid_title`, four href tokens,
      the location split off the title, the cap looked at only after an
      append. */
  function JobsConfig(today: string): ExtractorConfig {
    ExtractorConfig(
      Filter(true, 6, InvalidTitles, JobHrefTokens, []),
      FromLink(LocationTokens, NoLocation, today),
      MaxJobs,
      false)
  }

  function LinkedInRule(today: string): LinkedInConfig {
    LinkedInConfig(6, InvalidTitles, NoLocation, today, MaxJobs)
  }

  /** The whole per-row configuration of `main`. */
  function Config(today: string): RankedConfig {
    RankedConfig(CareersRule, ListingPageRule, JobsConfig(today), LinkedInPostings(LinkedInRule(today)))
  }

  /** `pd.read_excel(...).head(350)` */
  const RowLimit := 350

  /** A link is a job candidate exactly when its spaced text is a valid
      title and its lower-cased href names a job. */
  lemma CandidateIsValidTitle(today: string, a: Anchor)
    ensures Accepts(JobsConfig(today).filter, a) <==>
              ValidJobTitle(a.spacedText) &&
              exists k :: 0 <= k < |JobHrefTokens| && Contains(Lower(a.href), JobHrefTokens[k])
  {
  }

  /** `split_title_location(text)` */
  function SplitJobText(text: string): (string, string) {
    SplitTitleLocation(text, LocationTokens, NoLocation)
  }

  /** Every posting of `scrape_jobs` is built from one candidate link: its
      title and location are that link's text split by
      `split_title_location`, its date is `today`; there are at most three,
      with distinct URLs. */
  lemma ScrapeJobsFacts(web: Web, today: string, listing: string)
    ensures var r := Extracted(web, JobsConfig(today), listing);
            |r| <= MaxJobs && Seqs.Distinct(UrlsOf(r)) &&
            forall p :: p in r ==>
              (p.date == Some(today) &&
               (p.location == NoLocation || exists k :: 0 <= k < |LocationTokens| && Lower(p.location) == LocationTokens[k]) &&
               exists a :: Fetch(web, Below400, listing).Some? && a in Fetch(web, Below400, listing).value.anchors &&
                           Accepts(JobsConfig(today).filter, a) && p.url == web.resolve(listing, a.href) &&
                           (p.title, p.location) == SplitJobText(a.spacedText))
  {
    var cfg := JobsConfig(today);
    ExtractedBound(web, cfg, listing);
    var r := Extracted(web, cfg, listing);
    if Fetch(web, Below400, listing).Some? {
      ExtractedOrigin(web, cfg, listing);
      var links := Fetch(web, Below400, listing).value.anchors;
      forall p | p in r
        ensures p.date == Some(today) &&
                (p.location == NoLocation || exists k :: 0 <= k < |LocationTokens| && Lower(p.location) == LocationTokens[k]) &&
                exists a :: a in links && Accepts(cfg.filter, a) && p.url == web.resolve(listing, a.href) &&
                            (p.title, p.location) == SplitJobText(a.spacedText)
      {
        var a :| a in links && Accepts(cfg.filter, a) && p.url == web.resolve(listing, a.href) &&
                 MakePosting(web, cfg, a, p.url) == Some(p);
        assert (p.title, p.location) == SplitJobText(a.spacedText);
      }
    }
  }

  /** `compute_rank(name, jobs, career_found)`: 0 and 1 for the two forced
      companies; otherwise 2 to 6 for companies with jobs (fewer and
      unlocated jobs rank lower), 7 for a careers page without jobs and 8
      for nothing at all. */
  function ComputeRank(name: string, jobs: seq<JobPosting>, careerFound: bool): (r: int)
    ensures name == "thoughtful foods" ==> r == 0
    ensures name == "charzer" ==> r == 1
    ensures ForcedRank(name).None? && jobs == [] ==> r == (if careerFound then 7 else 8)
    ensures ForcedRank(name).None? && jobs != [] ==> 2 <= r <= 6
    ensures ForcedRank(name).None? && 1 <= |jobs| <= 3 && Located(jobs) ==> r == 5 - |jobs|
    ensures ForcedRank(name).None? && jobs != [] && !(|jobs| <= 3 && Located(jobs)) ==>
              r == (if |jobs| == 3 then 5 else 6)
  {
    if name == "thoughtful foods" then 0
    else if name == "charzer" then 1
    else if jobs == [] && careerFound then 7
    else if jobs == [] then 8
    else
      var filled := CountLocated(jobs);
      var c := |jobs|;
      if c == 3 && filled == 3 then 2
      else if c == 2 && filled == 2 then 3
      else if c == 1 && filled == 1 then 4
      else if c == 3 then 5
      else 6
  }

  /** `len([j for j in jobs if j["location"] != "Not Mentioned"])` */
  function CountLocated(jobs: seq<JobPosting>): (r: nat)
    ensures r <= |jobs|
    ensures r == |jobs| <==> Located(jobs)
    decreases |jobs|
  {
    if jobs == [] then 0
    else (if jobs[0].location != NoLocation then 1 else 0) + CountLocated(jobs[1..])
  }

  /** Every job has a location. */
  predicate Located(jobs: seq<JobPosting>) {
    forall k :: 0 <= k < |jobs| ==> jobs[k].location != NoLocation
  }

  /** The rank `main` appends for one row. */
  function RankOf(row: Row, v: Visit): int {
    ComputeRank(NameKey(row.startup), v.jobs, v.careers.Some?)
  }

  /** `total_jobs` over the processed rows. */
  function TotalJobs(visits: seq<Visit>): nat
    decreases |visits|
  {
    if visits == [] then 0 else TotalJobs(visits[..|visits| - 1]) + |visits[|visits| - 1].jobs|
  }

  /** `companies_with_jobs` over the processed rows. */
  function CompaniesWithJobs(visits: seq<Visit>): nat
    decreases |visits|
  {
    if visits == [] then 0
    else CompaniesWithJobs(visits[..|visits| - 1]) + (if visits[|visits| - 1].jobs != [] then 1 else 0)
  }

  /** One more row adds its jobs to the two counters. */
  lemma CountersSnoc(visits: seq<Visit>, v: Visit)
    ensures TotalJobs(visits + [v]) == TotalJobs(visits) + |v.jobs|
    ensures CompaniesWithJobs(visits + [v]) == CompaniesWithJobs(visits) + (if v.jobs != [] then 1 else 0)
  {
    assert (visits + [v])[..|visits|] == visits;
  }

  /** The two counters after the processed rows, and their bound: at most
      three jobs per company with jobs. */
  predicate Counted(visits: seq<Visit>, totalJobs: nat, companiesWithJobs: nat) {
    totalJobs == TotalJobs(visits) && companiesWithJobs == CompaniesWithJobs(visits)
    && companiesWithJobs <= |visits| && totalJobs <= MaxJobs * companiesWithJobs
  }

  /** One more row with at most three jobs keeps the counters within
      three jobs per company. */
  lemma CountersStep(visits: seq<Visit>, v: Visit, totalJobs: nat, companiesWithJobs: nat)
    requires Counted(visits, totalJobs, companiesWithJobs)
    requires |v.jobs| <= MaxJobs
    ensures Counted(visits + [v], totalJobs + |v.jobs|, companiesWithJobs + (if v.jobs != [] then 1 else 0))
  {
    CountersSnoc(visits, v);
  }

  /** The loop of `main`, for a configuration with `main`'s caps: one visit
      and one rank per row, and the two counters; no company contributes
      more than three jobs. */
  method RunRows(web: Web, cfg: RankedConfig, rank: (Row, Visit) -> int, rows: seq<Row>)
    returns (visits: seq<Visit>, ranks: seq<int>, totalJobs: nat, companiesWithJobs: nat)
    requires cfg.jobs.maxJobs == MaxJobs
    requires cfg.fallback.LinkedInPostings? && cfg.fallback.linkedIn.maxJobs == MaxJobs
    ensures visits == VisitsOf(web, cfg, rows)
    ensures ranks == Column(rank, rows, visits)
    ensures totalJobs == TotalJobs(visits) && companiesWithJobs == CompaniesWithJobs(visits)
    ensures companiesWithJobs <= |rows|
    ensures totalJobs <= MaxJobs * companiesWithJobs
  {
    visits, ranks, totalJobs, companiesWithJobs := [], [], 0, 0;
    var i := 0;
    while i < |rows|
      invariant 0 <= i <= |rows|
      invariant |visits| == i && |ranks| == i
      invariant visits + VisitsOf(web, cfg, rows[i..]) == VisitsOf(web, cfg, rows)
      invariant ranks == Column(rank, rows[..i], visits)
      invariant Counted(visits, totalJobs, companiesWithJobs)
    {
      var row := rows[i];
      var v := NextVisit(web, cfg, rows, i, visits);
      assert |v.jobs| <= MaxJobs;
      CountersStep(visits, v, totalJobs, companiesWithJobs);
      ColumnStep(rank, rows, visits, i, v);
      visits := visits + [v];
      ranks := ranks + [rank(row, v)];
      totalJobs := totalJobs + |v.jobs|;
      companiesWithJobs := companiesWithJobs + (if v.jobs != [] then 1 else 0);
      i := i + 1;
    }
    assert rows[..i] == rows;
  }

  /** `main`: the first 350 rows, visited with the run's month as the date,
      then sorted by rank with an unstable sort. `sheet[k]` is the input row
      shown on line `k`; the stable order computed here is one possible
      outcome. */
  method Run(web: Web, today: string, input: seq<Row>)
    returns (rows: seq<Row>, visits: seq<Visit>, sheet: seq<nat>, totalJobs: nat, companiesWithJobs: nat)
    ensures rows == Seqs.Take(input, RowLimit)
    ensures visits == VisitsOf(web, Config(today), rows)
    ensures SortedByRank(Column(RankOf, rows, visits), sheet)
    ensures multiset(Reorder(rows, sheet)) == multiset(rows)
    ensures totalJobs <= MaxJobs * companiesWithJobs && companiesWithJobs <= |rows| <= RowLimit
  {
    rows := Seqs.Take(input, RowLimit);
    var ranks;
    visits, ranks, totalJobs, companiesWithJobs := RunRows(web, Config(today), RankOf, rows);
    sheet := RankOrder(ranks);
    RankOrderSortedByRank(ranks);
    SheetIsPermutation(Column(RankOf, rows, visits), rows, sheet);
  }

  /** A company with three located jobs goes before every company that is
      neither forced nor has three located jobs. */
  lemma ThreeLocatedJobsFirst(name: string, jobs: seq<JobPosting>, cf: bool, other: string, otherJobs: seq<JobPosting>, ocf: bool)
    requires ForcedRank(name).None? && |jobs| == 3 && Located(jobs)
    requires ForcedRank(other).None? && !(|otherJobs| == 3 && Located(otherJobs))
    ensures ComputeRank(name, jobs, cf) < ComputeRank(other, otherJobs, ocf)
  {
  }

  /** In the sorted sheet, whatever the order of ties, every company with
      jobs comes before every unforced company without. */
  lemma JobsBeforeNoJobs(rows: seq<Row>, visits: seq<Visit>, order: seq<nat>, a: nat, b: nat)
    requires |visits| == |rows| && SortedByRank(Column(RankOf, rows, visits), order)
    requires a < |order| && b < |order| &&
             visits[order[b]].jobs != [] &&
             visits[order[a]].jobs == [] &&
             ForcedRank(NameKey(rows[order[a]].startup)).None?
    ensures b < a
  {
    var ranks := Column(RankOf, rows, visits);
    assert ranks[order[b]] <= 6 < ranks[order[a]];
    LowerRankFirst(ranks, order, b, a);
  }
}
