/** Scraper7.py: the locators of 3rd_part_Job.py, a job filter with an href
    deny list (`is_valid_job`), and instead of LinkedIn postings only a probe
    whether the company's LinkedIn jobs page loads, which earns its own
    priority between "jobs found" and "nothing". */
module Scraper7 {
  import opened Text
  import opened Web
  import opened Locate
  import opened Extract
  import opened LinkedIn
  import opened Pipeline
  import opened Ranking
  import Seqs

  const MaxJobs := 3

  /** `pd.read_excel(...).head(350)` */
  const RowLimit := 350

  const NotDefined := "Not Defined"

  const JobHrefTokens: seq<string> := ["job", "opening", "position", "req"]

  /** The `bad` list of `is_valid_job`, looked for in the lower-cased href. */
  const BadHrefTokens: seq<string> := ["privacy", "terms", "about", "blog", "login"]

  const CareersRule := CareerRule(Below400, CareerKeywords, true, true, ["/careers", "/jobs", "/join-us"])

  const ListingPageRule := ListingRule(["open positions", "view jobs", "see openings"], AtsDomains)

  /** `scrape_ats_jobs`: `is_valid_job`, four href tokens, constant location
      and date, the cap looked at only after an append. */
  const JobsRule := ExtractorConfig(
    Filter(false, 6, [], JobHrefTokens, BadHrefTokens),
    FromLink([], NotDefined, NotDefined),
    MaxJobs,
    false)

  const Config := RankedConfig(CareersRule, ListingPageRule, JobsRule, LinkedInProbe)

  /** `is_valid_job(title, href)` with `href` already lower-cased. */
  function IsValidJob(title: string, href: string): (r: bool)
    ensures r <==> |title| >= 6 && forall k :: 0 <= k < |BadHrefTokens| ==> !Contains(href, BadHrefTokens[k])
  {
    !(|title| < 6) && !ContainsAny(href, BadHrefTokens)
  }

  /** A link is a candidate exactly when `is_valid_job` holds for it and its
      lower-cased href names a job. */
  lemma CandidateIsValidJob(a: Anchor)
    ensures Accepts(JobsRule.filter, a) <==>
              IsValidJob(a.text, Lower(a.href)) && ContainsAny(Lower(a.href), JobHrefTokens)
  {
  }

  /** The priority `main` appends for a row: the forced rank, otherwise 2
      ("koala") or 3 with jobs, 4 when only the LinkedIn page answered, 5
      otherwise. */
  function RankOf(row: Row, v: Visit): (r: int)
    ensures ForcedRank(NameKey(row.startup)).Some? ==> r == ForcedRank(NameKey(row.startup)).value
    ensures ForcedRank(NameKey(row.startup)).None? ==>
              if v.jobs != [] then (r == 2 <==> NameKey(row.startup) == "koala") && 2 <= r <= 3
              else r == (if v.onLinkedIn then 4 else 5)
  {
    var key := NameKey(row.startup);
    if v.jobs == [] && v.onLinkedIn then RankOr(key, 4)
    else if v.jobs == [] then RankOr(key, 5)
    else RankOr(key, if key == "koala" then 2 else 3)
  }

  /** The "Scraping Status" and "Job Status" cells `main` writes. */
  function StatusOf(row: Row, v: Visit): (r: (string, string))
    ensures v.jobs != [] ==> r == ("Job Found", "Found")
    ensures v.jobs == [] ==> (r.1 == "Found" <==> v.onLinkedIn)
    ensures v.jobs == [] && ForcedRank(NameKey(row.startup)).None? ==>
              r.0 == (if v.onLinkedIn then "Jobs on LinkedIn" else "No Jobs Found")
    ensures ForcedRank(NameKey(row.startup)).Some? ==> r.0 == "Job Found"
  {
    var key := NameKey(row.startup);
    if v.jobs == [] && v.onLinkedIn then (StatusOr(key, "Jobs on LinkedIn"), "Found")
    else if v.jobs == [] then (StatusOr(key, "No Jobs Found"), "Not Found")
    else ("Job Found", "Found")
  }

  /** `main`: the first 350 rows, visited and ranked, then sorted by
      (priority, original position). */
  method Run(web: Web, input: seq<Row>)
    returns (rows: seq<Row>, visits: seq<Visit>, statuses: seq<(string, string)>, sheet: seq<nat>)
    ensures rows == Seqs.Take(input, RowLimit) && |rows| <= RowLimit
    ensures visits == VisitsOf(web, Config, rows)
    ensures statuses == Column(StatusOf, rows, visits)
    ensures sheet == RankOrder(Column(RankOf, rows, visits))
    ensures SortedByRank(Column(RankOf, rows, visits), sheet)
    ensures multiset(Reorder(rows, sheet)) == multiset(rows)
  {
    rows := Seqs.Take(input, RowLimit);
    var ranks;
    visits, ranks, statuses := RunRanked(web, Config, RankOf, StatusOf, rows);
    sheet := RankOrder(ranks);
    RankOrderSortedByRank(Column(RankOf, rows, visits));
    SheetIsPermutation(Column(RankOf, rows, visits), rows, sheet);
  }

  /** The LinkedIn probe is made only for a row with a website and no jobs
      from its careers path, and it never yields jobs: a row's jobs all come
      from its careers page, at most three of them. */
  lemma VisitJobsFromCareers(web: Web, site: Option<string>)
    ensures var v := VisitOf(web, Config, site);
            |v.jobs| <= MaxJobs &&
            v.jobs == CareerPath(web, Config, site).jobs &&
            (v.onLinkedIn <==> site.Some? && v.jobs == [] && LinkedInDetected(web, site.value))
  {
    VisitFacts(web, Config, site);
  }

  /** In the sorted sheet, among companies that are not forced, those with
      jobs come first, then those found only on LinkedIn, then the rest. */
  lemma SheetOrder(rows: seq<Row>, visits: seq<Visit>, a: nat, b: nat)
    requires |visits| == |rows|
    requires var order := RankOrder(Column(RankOf, rows, visits));
             a < |order| && b < |order| &&
             ForcedRank(NameKey(rows[order[a]].startup)).None? &&
             visits[order[a]].jobs == [] &&
             (visits[order[b]].jobs != [] || (visits[order[b]].onLinkedIn && !visits[order[a]].onLinkedIn))
    ensures b < a
  {
    var ranks := Column(RankOf, rows, visits);
    var order := RankOrder(ranks);
    RankOrderFacts(ranks);
    assert ranks[order[b]] < ranks[order[a]];
    RankOrderSortedByRank(ranks);
    LowerRankFirst(ranks, order, b, a);
  }
}
