/** scraper3.py: the staged pipeline over the first 40 rows with a cap of
    seven jobs per company, each job's page visited for its location, and
    one status per row. */
module Scraper3 {
  import opened Text
  import opened Web
  import opened Locate
  import opened Extract
  import opened Urls
  import opened Pipeline
  import Seqs

  /** `scrape_jobs(listing_url, max_jobs=7)` */
  const MaxJobs := 7

  /** `df.copy().head(40)` */
  const RowLimit := 40

  const NotSpecified := "Not specified"

  const JobHrefTokens: seq<string> := ["job", "opening", "position"]

  const BadHrefTokens: seq<string> := ["privacy", "blog", "about"]

  /** The alternatives of the location pattern, lower-cased, in its order. */
  const LocationTokens: seq<string> := ["remote", "hybrid", "on-site", "on site", "sydney", "india", "usa", "uk"]

  const CareersRule := CareerRule(Below400, CareerKeywords, true, true, ["/careers", "/jobs", "/join-us"])

  const ListingPageRule := ListingRule(["open positions", "view jobs", "see openings"], AtsDomains)

  /** `scrape_jobs`: a title longer than eight characters, three href
      tokens, three excluded ones, the location read from the job's page,
      no date, at most seven. */
  const JobsRule := ExtractorConfig(
    Filter(false, 9, [], JobHrefTokens, BadHrefTokens),
    FromJobPage(LocationTokens, NotSpecified, NoDate),
    MaxJobs,
    true)

  /** `clean_url` strips before checking the scheme. */
  const Config := StagedConfig(true, CareersRule, ListingPageRule, OnePass(JobsRule))

  /** The status `main` writes for a row. */
  function StatusOf(row: Row, s: Stage): (r: string)
    ensures r == "Invalid website" <==> s.InvalidSite?
    ensures r == "No careers page" <==> s.NoCareerPage?
    ensures r == "No jobs found" <==> s.NoJobs?
    ensures r == "Success" <==> s.JobsFound?
  {
    match s
    case InvalidSite => "Invalid website"
    case NoCareerPage => "No careers page"
    case NoJobs(_, _) => "No jobs found"
    case JobsFound(_, _, _) => "Success"
  }

  /** `main`: the first 40 rows through the staged pipeline, a status per
      row, in input order. */
  method Run(web: Web, input: seq<Row>) returns (rows: seq<Row>, stages: seq<Stage>, statuses: seq<string>)
    ensures rows == Seqs.Take(input, RowLimit) && |rows| <= RowLimit
    ensures stages == StagesOf(web, Config, rows)
    ensures statuses == Column(StatusOf, rows, stages)
  {
    rows := Seqs.Take(input, RowLimit);
    stages, statuses := RunStaged(web, Config, StatusOf, rows);
  }

  /** The numbering loop of `main`: jobs are written to the numbered
      columns in order, and the loop stops after the seventh. */
  method NumberJobs(jobs: seq<JobPosting>) returns (written: seq<JobPosting>)
    ensures written == Seqs.Take(jobs, MaxJobs)
  {
    written := [];
    var i := 1;
    while i <= |jobs|
      invariant 1 <= i <= |jobs| + 1 && i <= MaxJobs + 1
      invariant written == jobs[..i - 1]
    {
      if i > MaxJobs {
        break;
      }
      written := written + [jobs[i - 1]];
      i := i + 1;
    }
    assert written == jobs[..i - 1];
  }

  /** Every job is read from a page that loaded: at most seven, distinct
      URLs, a title of at least nine characters, no date, and a location
      that is "Not specified" or a token found on the page. */
  lemma ScrapeJobsFacts(web: Web, listing: string)
    ensures var r := Extracted(web, JobsRule, listing);
            |r| <= MaxJobs && Seqs.Distinct(UrlsOf(r)) &&
            forall p :: p in r ==>
              Fetch(web, Below400, p.url).Some? && |p.title| >= 9 && p.date.None? &&
              (p.location == NotSpecified ||
               (Contains(Fetch(web, Below400, p.url).value.text, p.location) &&
                exists k :: 0 <= k < |LocationTokens| && Lower(p.location) == LocationTokens[k]))
  {
    ExtractedBound(web, JobsRule, listing);
    JobPagePostings(web, JobsRule, listing);
  }

  /** The seven-column limit of the numbering loop never drops a job: the
      extractor stops at seven. */
  lemma NothingDropped(web: Web, website: Cell)
    ensures var s := StageOf(web, Config, website);
            s.JobsFound? ==> Seqs.Take(s.jobs, MaxJobs) == s.jobs
  {
    StageCap(web, Config, website);
  }
}
