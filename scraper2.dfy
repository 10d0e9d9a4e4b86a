/** scraper2.py: the staged pipeline over the first 30 rows with the
    collect-then-fetch extractor: the first three distinct candidate links
    are kept before any job page is visited, and a job page that fails
    leaves its slot empty. */
module Scraper2 {
  import opened Text
  import opened Web
  import opened Locate
  import opened Extract
  import opened TwoPhase
  import opened Pipeline
  import Seqs
  import Scraper4

  const MaxJobs := 3

  /** `df.copy().head(30)` */
  const RowLimit := 30

  const NotSpecified := "Not specified"

  const JobHrefTokens: seq<string> := ["job", "opening", "position"]

  const BadHrefTokens: seq<string> := ["privacy", "blog", "about"]

  /** The alternatives of the location pattern, lower-cased, in its order. */
  const LocationTokens: seq<string> := ["remote", "hybrid", "on-site", "on site", "india", "usa", "uk"]

  const CareersRule := CareerRule(Below400, CareerKeywords, true, true, ["/careers", "/jobs", "/join-us"])

  const ListingPageRule := ListingRule(["open positions", "view jobs", "see openings"], AtsDomains)

  /** `scrape_jobs`: link text longer than eight characters, three href
      tokens, three excluded ones; three distinct links; the title from the
      page's `<h1>`, the location from its text. */
  const JobsRule := TwoPhaseConfig(
    Filter(false, 9, [], JobHrefTokens, BadHrefTokens),
    MaxJobs,
    NotSpecified,
    LocationTokens,
    NotSpecified)

  /** `clean_url` strips before checking the scheme. */
  const Config := StagedConfig(true, CareersRule, ListingPageRule, CollectFirst(JobsRule))

  /** The status `main` writes for a row. */
  function StatusOf(row: Row, s: Stage): (r: string)
    ensures r == "Invalid website" <==> s.InvalidSite?
    ensures r == "No careers page" <==> s.NoCareerPage?
    ensures r == "No jobs found" <==> s.NoJobs?
    ensures r == "Success" <==> s.JobsFound?
  {
    match s
    case InvalidSite => "Invalid website"
    case NoCareerPage => "No careers page"
    case NoJobs(_, _) => "No jobs found"
    case JobsFound(_, _, _) => "Success"
  }

  /** `main`: the first 30 rows through the staged pipeline, a status per
      row, in input order. */
  method Run(web: Web, input: seq<Row>) returns (rows: seq<Row>, stages: seq<Stage>, statuses: seq<string>)
    ensures rows == Seqs.Take(input, RowLimit) && |rows| <= RowLimit
    ensures stages == StagesOf(web, Config, rows)
    ensures statuses == Column(StatusOf, rows, stages)
  {
    rows := Seqs.Take(input, RowLimit);
    stages, statuses := RunStaged(web, Config, StatusOf, rows);
  }

  /** Every job is read from a page that loaded: at most three, distinct
      URLs, the page's `<h1>` (or "Not specified") as title, no date, and a
      location that is "Not specified" or a token found on the page. */
  lemma ScrapeJobsFacts(web: Web, listing: string)
    ensures var r := Collected(web, JobsRule, listing);
            |r| <= MaxJobs && Seqs.Distinct(UrlsOf(r)) &&
            forall p :: p in r ==>
              Fetch(web, Below400, p.url).Some? && p.date.None? &&
              (Fetch(web, Below400, p.url).value.h1.Some? ==> p.title == Fetch(web, Below400, p.url).value.h1.value) &&
              (Fetch(web, Below400, p.url).value.h1.None? ==> p.title == NotSpecified) &&
              (p.location == NotSpecified ||
               (Contains(Fetch(web, Below400, p.url).value.text, p.location) &&
                exists k :: 0 <= k < |LocationTokens| && Lower(p.location) == LocationTokens[k]))
  {
    CollectedFacts(web, JobsRule, listing);
  }

  /** On the same listing page scraper2.py finds a prefix of the job URLs
      scraper4.py finds, which has the same link filter but replaces a job
      page that fails by the next candidate. */
  lemma PrefixOfScraper4(web: Web, listing: string)
    ensures var two := UrlsOf(Collected(web, JobsRule, listing));
            var four := UrlsOf(Extracted(web, Scraper4.JobsRule, listing));
            two == Seqs.Take(four, |two|) && |two| <= |four|
  {
    PrefixOfOnePass(web, JobsRule, Scraper4.JobsRule, listing);
  }

  /** When the first distinct candidate's page fails and the next three
      load, scraper2.py reports two jobs where scraper4.py reports three. */
  lemma FewerThanScraper4(web: Web, listing: string)
    requires Fetch(web, Below400, listing).Some?
    requires var d := Seqs.DedupFrom(Candidates(web, JobsRule.filter, listing, Fetch(web, Below400, listing).value.anchors), {});
             |d| >= 4 && Fetch(web, Below400, d[0]).None? &&
             Fetch(web, Below400, d[1]).Some? && Fetch(web, Below400, d[2]).Some? && Fetch(web, Below400, d[3]).Some?
    ensures |Collected(web, JobsRule, listing)| == 2
    ensures |Extracted(web, Scraper4.JobsRule, listing)| == 3
  {
    FailedPageNotReplaced(web, JobsRule, Scraper4.JobsRule, listing);
  }
}
