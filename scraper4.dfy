/** scraper4.py: the staged pipeline over the first 50 rows, each job's page
    visited for its location, and one status per row. */
module Scraper4 {
  import opened Text
  import opened Web
  import opened Locate
  import opened Extract
  import opened Pipeline
  import Seqs

  const MaxJobs := 3

  /** `df.copy().head(50)` */
  const RowLimit := 50

  const JobHrefTokens: seq<string> := ["job", "opening", "position"]

  const BadHrefTokens: seq<string> := ["privacy", "blog", "about"]

  /** The alternatives of the location pattern, lower-cased, in its order. */
  const LocationTokens: seq<string> := ["remote", "hybrid", "on-site", "on site", "sydney", "melbourne", "india", "usa", "uk"]

  const CareersRule := CareerRule(Below400, CareerKeywords, true, true, ["/careers", "/jobs", "/join-us"])

  const ListingPageRule := ListingRule(["open positions", "view jobs", "see openings"], AtsDomains)

  /** `scrape_jobs`: a non-empty title longer than eight characters, three
      href tokens, three excluded ones, the location read from the job's
      page ("" when absent), no date. */
  const JobsRule := ExtractorConfig(
    Filter(false, 9, [], JobHrefTokens, BadHrefTokens),
    FromJobPage(LocationTokens, "", NoDate),
    MaxJobs,
    true)

  /** `clean_url` strips before checking the scheme. */
  const Config := StagedConfig(true, CareersRule, ListingPageRule, OnePass(JobsRule))

  /** The status `main` writes for a row. */
  function StatusOf(row: Row, s: Stage): (r: string)
    ensures r == "Invalid website" <==> s.InvalidSite?
    ensures r == "No careers page" <==> s.NoCareerPage?
    ensures r == "No jobs found" <==> s.NoJobs?
    ensures r == "Success" <==> s.JobsFound?
  {
    match s
    case InvalidSite => "Invalid website"
    case NoCareerPage => "No careers page"
    case NoJobs(_, _) => "No jobs found"
    case JobsFound(_, _, _) => "Success"
  }

  /** `main`: the first 50 rows through the staged pipeline, a status per
      row, in input order. */
  method Run(web: Web, input: seq<Row>) returns (rows: seq<Row>, stages: seq<Stage>, statuses: seq<string>)
    ensures rows == Seqs.Take(input, RowLimit) && |rows| <= RowLimit
    ensures stages == StagesOf(web, Config, rows)
    ensures statuses == Column(StatusOf, rows, stages)
  {
    rows := Seqs.Take(input, RowLimit);
    stages, statuses := RunStaged(web, Config, StatusOf, rows);
  }

  /** Every job is read from a page that loaded: at most three, distinct
      URLs, a title of at least nine characters, no date, and a location
      that is empty or a token found on the page. */
  lemma ScrapeJobsFacts(web: Web, listing: string)
    ensures var r := Extracted(web, JobsRule, listing);
            |r| <= MaxJobs && Seqs.Distinct(UrlsOf(r)) &&
            forall p :: p in r ==>
              Fetch(web, Below400, p.url).Some? && |p.title| >= 9 && p.date.None? &&
              (p.location == "" ||
               (Contains(Fetch(web, Below400, p.url).value.text, p.location) &&
                exists k :: 0 <= k < |LocationTokens| && Lower(p.location) == LocationTokens[k]))
  {
    ExtractedBound(web, JobsRule, listing);
    JobPagePostings(web, JobsRule, listing);
  }

  /** A row marked "Success" has between one and three jobs. */
  lemma SuccessHasJobs(web: Web, rows: seq<Row>, i: nat)
    requires i < |rows|
    requires Column(StatusOf, rows, StagesOf(web, Config, rows))[i] == "Success"
    ensures var s := StagesOf(web, Config, rows)[i];
            s.JobsFound? && 1 <= |s.jobs| <= MaxJobs && s.jobs == Extracted(web, JobsRule, s.listing)
  {
    StagesOfIndex(web, Config, rows, i);
    StageCap(web, Config, rows[i].website);
  }
}
