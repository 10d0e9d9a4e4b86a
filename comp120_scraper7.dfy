/** 120_Comp_scraper7.py: the staged pipeline over the first 120 rows, each
    job's own page visited for its location, the two forced companies, and
    a sheet sorted by (priority, original position) where further progress
    means a better priority. */
module Comp120Scraper7 {
  import opened Text
  import opened Web
  import opened Locate
  import opened Extract
  import opened Pipeline
  import opened Ranking
  import Seqs

  const MaxJobs := 3

  /** `pd.read_excel(...).head(120)` */
  const RowLimit := 120

  const NotDefined := "Not Defined"

  const JobHrefTokens: seq<string> := ["job", "opening", "position"]

  /** The alternatives of the location pattern, lower-cased; `On[- ]site`
      is its two spellings. */
  const LocationTokens: seq<string> := ["remote", "hybrid", "on-site", "on site", "sydney", "india", "usa", "uk"]

  const CareersRule := CareerRule(Below400, CareerKeywords, true, true, ["/careers", "/jobs", "/join-us"])

  const ListingPageRule := ListingRule(["open positions", "view jobs"], AtsDomains)

  /** `scrape_jobs`: a non-empty title longer than eight characters, three
      href tokens, the location read from the job's page, a constant date. */
  const JobsRule := ExtractorConfig(
    Filter(false, 9, [], JobHrefTokens, []),
    FromJobPage(LocationTokens, NotDefined, FixedDate(NotDefined)),
    MaxJobs,
    true)

  /** `clean_url` as written (strip only before adding the scheme). */
  const Config := StagedConfig(false, CareersRule, ListingPageRule, OnePass(JobsRule))

  /** The status `main` writes for a row. */
  function StatusOf(row: Row, s: Stage): (r: string)
    ensures ForcedRank(NameKey(row.startup)).Some? ==> r == "Job Found"
    ensures ForcedRank(NameKey(row.startup)).None? ==>
              (r == "Invalid" <==> s.InvalidSite?) &&
              (r == "No Career Page" <==> s.NoCareerPage?) &&
              (r == "Career page but no jobs" <==> s.NoJobs?) &&
              (r == "Job Found" <==> s.JobsFound?)
  {
    match s
    case InvalidSite => StatusOr(NameKey(row.startup), "Invalid")
    case NoCareerPage => StatusOr(NameKey(row.startup), "No Career Page")
    case NoJobs(_, _) => StatusOr(NameKey(row.startup), "Career page but no jobs")
    case JobsFound(_, _, _) => "Job Found"
  }

  /** The primary rank `main` appends for a row. */
  function RankOf(row: Row, s: Stage): (r: int)
    ensures ForcedRank(NameKey(row.startup)).Some? ==> r == ForcedRank(NameKey(row.startup)).value
    ensures ForcedRank(NameKey(row.startup)).None? ==>
              2 <= r <= 6 && (s.JobsFound? ==> (r == 2 <==> NameKey(row.startup) == "koala"))
    ensures ForcedRank(NameKey(row.startup)).None? ==>
              (s.InvalidSite? ==> r == 6) && (s.NoCareerPage? ==> r == 5) && (s.NoJobs? ==> r == 4) &&
              (s.JobsFound? ==> r == (if NameKey(row.startup) == "koala" then 2 else 3))
  {
    var key := NameKey(row.startup);
    match s
    case InvalidSite => RankOr(key, 6)
    case NoCareerPage => RankOr(key, 5)
    case NoJobs(_, _) => RankOr(key, 4)
    case JobsFound(_, _, _) => RankOr(key, if key == "koala" then 2 else 3)
  }

  /** Among companies that are not forced, the one that got further ranks
      strictly better. */
  lemma FurtherRanksBetter(row: Row, s: Stage, other: Row, t: Stage)
    requires ForcedRank(NameKey(row.startup)).None? && ForcedRank(NameKey(other.startup)).None?
    requires Progress(s) > Progress(t)
    ensures RankOf(row, s) < RankOf(other, t)
  {
  }

  /** `main`: the first 120 rows through the staged pipeline, a status per
      row, then sorted by (priority, original position). */
  method Run(web: Web, input: seq<Row>)
    returns (rows: seq<Row>, stages: seq<Stage>, statuses: seq<string>, sheet: seq<nat>)
    ensures rows == Seqs.Take(input, RowLimit) && |rows| <= RowLimit
    ensures stages == StagesOf(web, Config, rows)
    ensures statuses == Column(StatusOf, rows, stages)
    ensures sheet == RankOrder(Column(RankOf, rows, stages))
    ensures SortedByRank(Column(RankOf, rows, stages), sheet)
    ensures multiset(Reorder(rows, sheet)) == multiset(rows)
  {
    rows := Seqs.Take(input, RowLimit);
    stages, statuses := RunStaged(web, Config, StatusOf, rows);
    sheet := RankOrder(Column(RankOf, rows, stages));
    RankOrderSortedByRank(Column(RankOf, rows, stages));
    SheetIsPermutation(Column(RankOf, rows, stages), rows, sheet);
  }

  /** Every job is read from a page that loaded: at most three, distinct
      URLs, a title of at least nine characters, the date "Not Defined", and
      a location that is "Not Defined" or a token found on the page. */
  lemma ScrapeJobsFacts(web: Web, listing: string)
    ensures var r := Extracted(web, JobsRule, listing);
            |r| <= MaxJobs && Seqs.Distinct(UrlsOf(r)) &&
            forall p :: p in r ==>
              Fetch(web, Below400, p.url).Some? && |p.title| >= 9 && p.date == Some(NotDefined) &&
              (p.location == NotDefined ||
               (Contains(Fetch(web, Below400, p.url).value.text, p.location) &&
                exists k :: 0 <= k < |LocationTokens| && Lower(p.location) == LocationTokens[k]))
  {
    ExtractedBound(web, JobsRule, listing);
    JobPagePostings(web, JobsRule, listing);
  }

  /** In the sorted sheet the forced companies come first, and among the
      others a company that got further comes before one that did not. */
  lemma SheetOrder(rows: seq<Row>, stages: seq<Stage>, a: nat, b: nat)
    requires |stages| == |rows|
    requires var order := RankOrder(Column(RankOf, rows, stages));
             a < |order| && b < |order| &&
             ForcedRank(NameKey(rows[order[a]].startup)).None? &&
             (ForcedRank(NameKey(rows[order[b]].startup)).Some? ||
              Progress(stages[order[b]]) > Progress(stages[order[a]]))
    ensures b < a
  {
    var ranks := Column(RankOf, rows, stages);
    var order := RankOrder(ranks);
    RankOrderFacts(ranks);
    if ForcedRank(NameKey(rows[order[b]].startup)).None? {
      FurtherRanksBetter(rows[order[b]], stages[order[b]], rows[order[a]], stages[order[a]]);
    }
    assert ranks[order[b]] < ranks[order[a]];
    RankOrderSortedByRank(ranks);
    LowerRankFirst(ranks, order, b, a);
  }
}
