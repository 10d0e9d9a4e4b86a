/** scraper5.py: the staged pipeline over the first 50 rows, each job's page
    visited for its location and a "Posted ..." or year date, and the sheet
    sorted by a four-level priority (1 jobs, 3 careers page without jobs, 4
    no careers page, 5 invalid website). */
module Scraper5 {
  import opened Text
  import opened Web
  import opened Locate
  import opened Extract
  import opened Pipeline
  import opened Ranking
  import Seqs

  const MaxJobs := 3

  /** `df.head(50)` */
  const RowLimit := 50

  const JobHrefTokens: seq<string> := ["job", "opening", "position"]

  const BadHrefTokens: seq<string> := ["privacy", "blog", "about"]

  /** The alternatives of the location pattern, lower-cased, in its order. */
  const LocationTokens: seq<string> := ["remote", "hybrid", "on-site", "on site", "india", "usa", "uk", "sydney", "melbourne"]

  const CareersRule := CareerRule(Below400, CareerKeywords, true, true, ["/careers", "/jobs", "/join-us"])

  const ListingPageRule := ListingRule(["open positions", "view jobs", "see openings"], AtsDomains)

  /** `scrape_jobs`: a non-empty title longer than eight characters, three
      href tokens, three excluded ones, location and date read from the
      job's page with "" when absent. */
  const JobsRule := ExtractorConfig(
    Filter(false, 9, [], JobHrefTokens, BadHrefTokens),
    FromJobPage(LocationTokens, "", PostedOrYear("")),
    MaxJobs,
    true)

  /** `clean_url` strips before checking the scheme. */
  const Config := StagedConfig(true, CareersRule, ListingPageRule, OnePass(JobsRule))

  /** The status `main` writes for a row. */
  function StatusOf(row: Row, s: Stage): (r: string)
    ensures r == "Invalid Website" <==> s.InvalidSite?
    ensures r == "No Career Page" <==> s.NoCareerPage?
    ensures r == "Career page but no jobs" <==> s.NoJobs?
    ensures r == "Jobs Found" <==> s.JobsFound?
  {
    match s
    case InvalidSite => "Invalid Website"
    case NoCareerPage => "No Career Page"
    case NoJobs(_, _) => "Career page but no jobs"
    case JobsFound(_, _, _) => "Jobs Found"
  }

  /** The priority `main` appends for a row. */
  function RankOf(row: Row, s: Stage): (r: int)
    ensures 1 <= r <= 5 && (r == 1 <==> s.JobsFound?)
    ensures s.InvalidSite? ==> r == 5
    ensures s.NoCareerPage? ==> r == 4
    ensures s.NoJobs? ==> r == 3
  {
    match s
    case InvalidSite => 5
    case NoCareerPage => 4
    case NoJobs(_, _) => 3
    case JobsFound(_, _, _) => 1
  }

  /** A row that got further gets a strictly better priority. */
  lemma FurtherRanksBetter(row: Row, s: Stage, other: Row, t: Stage)
    requires Progress(s) > Progress(t)
    ensures RankOf(row, s) < RankOf(other, t)
  {
  }

  /** `main`: the first 50 rows through the staged pipeline, a status per
      row, then the rows sorted by priority with an unstable sort; the
      stable order computed here is one possible outcome. */
  method Run(web: Web, input: seq<Row>)
    returns (rows: seq<Row>, stages: seq<Stage>, statuses: seq<string>, sheet: seq<nat>)
    ensures rows == Seqs.Take(input, RowLimit) && |rows| <= RowLimit
    ensures stages == StagesOf(web, Config, rows)
    ensures statuses == Column(StatusOf, rows, stages)
    ensures SortedByRank(Column(RankOf, rows, stages), sheet)
    ensures multiset(Reorder(rows, sheet)) == multiset(rows)
  {
    rows := Seqs.Take(input, RowLimit);
    stages, statuses := RunStaged(web, Config, StatusOf, rows);
    sheet := RankOrder(Column(RankOf, rows, stages));
    RankOrderSortedByRank(Column(RankOf, rows, stages));
    SheetIsPermutation(Column(RankOf, rows, stages), rows, sheet);
  }

  /** Every job is read from a page that loaded: at most three, distinct
      URLs, a title of at least nine characters, a location that is empty
      or a token found on the page, and a date that is empty, a "Posted ..."
      phrase or a year found on the page. */
  lemma ScrapeJobsFacts(web: Web, listing: string)
    ensures var r := Extracted(web, JobsRule, listing);
            |r| <= MaxJobs && Seqs.Distinct(UrlsOf(r)) &&
            forall p :: p in r ==>
              Fetch(web, Below400, p.url).Some? && |p.title| >= 9 &&
              (p.location == "" ||
               (Contains(Fetch(web, Below400, p.url).value.text, p.location) &&
                exists k :: 0 <= k < |LocationTokens| && Lower(p.location) == LocationTokens[k])) &&
              p.date.Some? &&
              (p.date.value == "" <==>
                 forall j :: 0 <= j <= |Fetch(web, Below400, p.url).value.text| ==> !DateAt(Fetch(web, Below400, p.url).value.text, j)) &&
              (p.date.value == "" ||
               (Contains(Fetch(web, Below400, p.url).value.text, p.date.value) &&
                ((|p.date.value| > 6 && Lower(p.date.value[..6]) == "posted") ||
                 p.date.value == "2024" || p.date.value == "2025")))
  {
    ExtractedBound(web, JobsRule, listing);
    JobPagePostings(web, JobsRule, listing);
    forall p | p in Extracted(web, JobsRule, listing)
      ensures p.date.Some? &&
              (p.date.value == "" <==>
                 forall j :: 0 <= j <= |Fetch(web, Below400, p.url).value.text| ==> !DateAt(Fetch(web, Below400, p.url).value.text, j))
    {
      EmptyDateIffNoMatch(Fetch(web, Below400, p.url).value.text);
    }
  }

  /** In the sorted sheet, whatever the order of ties, a row that got
      further comes first. */
  lemma SheetOrder(rows: seq<Row>, stages: seq<Stage>, order: seq<nat>, a: nat, b: nat)
    requires |stages| == |rows| && SortedByRank(Column(RankOf, rows, stages), order)
    requires a < |order| && b < |order| && Progress(stages[order[b]]) > Progress(stages[order[a]])
    ensures b < a
  {
    var ranks := Column(RankOf, rows, stages);
    FurtherRanksBetter(rows[order[b]], stages[order[b]], rows[order[a]], stages[order[a]]);
    LowerRankFirst(ranks, order, b, a);
  }
}
