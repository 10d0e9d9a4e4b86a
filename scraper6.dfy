/** scraper6.py: the staged pipeline over the first 120 rows, each job's
    page visited for its location, one status per row, written back over
    the input file. */
module Scraper6 {
  import opened Text
  import opened Web
  import opened Locate
  import opened Extract
  import opened Pipeline
  import Seqs

  const MaxJobs := 3

  /** `pd.read_excel(...).head(120)` */
  const RowLimit := 120

  const NotDefined := "Not Defined"

  const JobHrefTokens: seq<string> := ["job", "opening", "position"]

  /** The alternatives of the location pattern, lower-cased, in its order. */
  const LocationTokens: seq<string> := ["remote", "hybrid", "on-site", "on site", "india", "usa", "uk"]

  const CareersRule := CareerRule(Below400, CareerKeywords, true, true, ["/careers", "/jobs", "/join-us"])

  const ListingPageRule := ListingRule(["open positions", "view jobs"], AtsDomains)

  /** `scrape_jobs`: a non-empty title longer than eight characters, three
      href tokens, the location read from the job's page, a constant date. */
  const JobsRule := ExtractorConfig(
    Filter(false, 9, [], JobHrefTokens, []),
    FromJobPage(LocationTokens, NotDefined, FixedDate(NotDefined)),
    MaxJobs,
    true)

  /** `clean_url` as written (strip only before adding the scheme). */
  const Config := StagedConfig(false, CareersRule, ListingPageRule, OnePass(JobsRule))

  /** The status `main` writes for a row. */
  function StatusOf(row: Row, s: Stage): (r: string)
    ensures r == "Invalid" <==> s.InvalidSite?
    ensures r == "No Career Page" <==> s.NoCareerPage?
    ensures r == "Career page but no jobs" <==> s.NoJobs?
    ensures r == "Job Found" <==> s.JobsFound?
  {
    match s
    case InvalidSite => "Invalid"
    case NoCareerPage => "No Career Page"
    case NoJobs(_, _) => "Career page but no jobs"
    case JobsFound(_, _, _) => "Job Found"
  }

  /** `main`: the first 120 rows through the staged pipeline, a status per
      row, in input order. */
  method Run(web: Web, input: seq<Row>) returns (rows: seq<Row>, stages: seq<Stage>, statuses: seq<string>)
    ensures rows == Seqs.Take(input, RowLimit) && |rows| <= RowLimit
    ensures stages == StagesOf(web, Config, rows)
    ensures statuses == Column(StatusOf, rows, stages)
  {
    rows := Seqs.Take(input, RowLimit);
    stages, statuses := RunStaged(web, Config, StatusOf, rows);
  }

  /** Every job is read from a page that loaded: at most three, distinct
      URLs, a title of at least nine characters, the date "Not Defined", and
      a location that is "Not Defined" or a token found on the page. */
  lemma ScrapeJobsFacts(web: Web, listing: string)
    ensures var r := Extracted(web, JobsRule, listing);
            |r| <= MaxJobs && Seqs.Distinct(UrlsOf(r)) &&
            forall p :: p in r ==>
              Fetch(web, Below400, p.url).Some? && |p.title| >= 9 && p.date == Some(NotDefined) &&
              (p.location == NotDefined ||
               (Contains(Fetch(web, Below400, p.url).value.text, p.location) &&
                exists k :: 0 <= k < |LocationTokens| && Lower(p.location) == LocationTokens[k]))
  {
    ExtractedBound(web, JobsRule, listing);
    JobPagePostings(web, JobsRule, listing);
  }

  /** A row marked "Job Found" has between one and three jobs. */
  lemma JobFoundHasJobs(web: Web, rows: seq<Row>, i: nat)
    requires i < |rows|
    requires Column(StatusOf, rows, StagesOf(web, Config, rows))[i] == "Job Found"
    ensures var s := StagesOf(web, Config, rows)[i];
            s.JobsFound? && 1 <= |s.jobs| <= MaxJobs && s.jobs == Extracted(web, JobsRule, s.listing)
  {
    StagesOfIndex(web, Config, rows, i);
    StageCap(web, Config, rows[i].website);
  }
}
