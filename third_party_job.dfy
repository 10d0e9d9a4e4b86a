/** 3rd_part_Job.py: careers page by link text or href with three probes,
    listing page by call-to-action phrase then ATS domain, jobs straight from
    the listing page's links, `linkedin_jobs` as fallback, and a five-level
    priority: the two forced companies, "koala", other companies with jobs,
    companies without. */
module ThirdPartyJob {
  import opened Text
  import opened Web
  import opened Locate
  import opened Extract
  import opened LinkedIn
  import opened Pipeline
  import opened Ranking
  import Seqs

  const MaxJobs := 3

  /** `pd.read_excel(...).head(120)` */
  const RowLimit := 120

  const NotDefined := "Not Defined"

  const JobHrefTokens: seq<string> := ["job", "opening", "position", "req"]

  /** `find_careers_page`: keywords in the link text or the href; three
      probes. */
  const CareersRule := CareerRule(Below400, CareerKeywords, true, true, ["/careers", "/jobs", "/join-us"])

  /** `find_job_listings_page` */
  const ListingPageRule := ListingRule(["open positions", "view jobs", "see openings"], AtsDomains)

  /** `scrape_ats_jobs`: a title longer than six characters, four href
      tokens, constant location and date, the cap looked at after every
      link that is not skipped as a repeat. */
  const JobsRule := ExtractorConfig(
    Filter(false, 7, [], JobHrefTokens, []),
    FromLink([], NotDefined, NotDefined),
    MaxJobs,
    true)

  /** `linkedin_jobs`: any non-empty title. */
  const LinkedInRule := LinkedInConfig(1, [], NotDefined, NotDefined, MaxJobs)

  const Config := RankedConfig(CareersRule, ListingPageRule, JobsRule, LinkedInPostings(LinkedInRule))

  /** The priority `main` appends for a row: the forced rank, otherwise 5
      without jobs and 2 ("koala") or 3 with jobs. */
  function RankOf(row: Row, v: Visit): (r: int)
    ensures ForcedRank(NameKey(row.startup)).Some? ==> r == ForcedRank(NameKey(row.startup)).value
    ensures ForcedRank(NameKey(row.startup)).None? && v.jobs == [] ==> r == 5
    ensures ForcedRank(NameKey(row.startup)).None? && v.jobs != [] ==>
              (r == 2 <==> NameKey(row.startup) == "koala") && 2 <= r <= 3
  {
    var key := NameKey(row.startup);
    if v.jobs == [] then RankOr(key, 5)
    else RankOr(key, if key == "koala" then 2 else 3)
  }

  /** The two status cells `main` writes: the "Scraping Status" column and
      "Job Status". */
  function StatusOf(row: Row, v: Visit): (r: (string, string))
    ensures v.jobs != [] ==> r == ("Job Found", "Found")
    ensures v.jobs == [] ==> r.1 == "Not Found"
    ensures v.jobs == [] ==> (r.0 == "Job Found" <==> ForcedRank(NameKey(row.startup)).Some?)
    ensures v.jobs == [] && ForcedRank(NameKey(row.startup)).None? ==> r.0 == "No Jobs Found"
  {
    if v.jobs == [] then (StatusOr(NameKey(row.startup), "No Jobs Found"), "Not Found")
    else ("Job Found", "Found")
  }

  /** `main`: the first 120 rows, visited and ranked, then sorted by
      (priority, original position). `sheet[k]` is the input row shown on
      line `k`. */
  method Run(web: Web, input: seq<Row>)
    returns (rows: seq<Row>, visits: seq<Visit>, statuses: seq<(string, string)>, sheet: seq<nat>)
    ensures rows == Seqs.Take(input, RowLimit) && |rows| <= RowLimit
    ensures visits == VisitsOf(web, Config, rows)
    ensures statuses == Column(StatusOf, rows, visits)
    ensures sheet == RankOrder(Column(RankOf, rows, visits))
    ensures SortedByRank(Column(RankOf, rows, visits), sheet)
    ensures multiset(Reorder(rows, sheet)) == multiset(rows)
  {
    rows := Seqs.Take(input, RowLimit);
    var ranks;
    visits, ranks, statuses := RunRanked(web, Config, RankOf, StatusOf, rows);
    sheet := RankOrder(ranks);
    RankOrderSortedByRank(Column(RankOf, rows, visits));
    SheetIsPermutation(Column(RankOf, rows, visits), rows, sheet);
  }

  /** Every posting of `scrape_ats_jobs` comes from a distinct link with a
      title of at least seven characters whose lower-cased href names a job;
      location and date are "Not Defined"; there are at most three. */
  lemma ScrapeAtsJobsFacts(web: Web, listing: string)
    ensures var r := Extracted(web, JobsRule, listing);
            |r| <= MaxJobs && Seqs.Distinct(UrlsOf(r)) &&
            forall p :: p in r ==>
              p.location == NotDefined && p.date == Some(NotDefined) && |p.title| >= 7 &&
              exists a: Anchor :: Fetch(web, Below400, listing).Some? && a in Fetch(web, Below400, listing).value.anchors &&
                          a.text == p.title && ContainsAny(Lower(a.href), JobHrefTokens) &&
                          p.url == web.resolve(listing, a.href)
  {
    ExtractedBound(web, JobsRule, listing);
    var r := Extracted(web, JobsRule, listing);
    if Fetch(web, Below400, listing).Some? {
      ExtractedOrigin(web, JobsRule, listing);
      var links := Fetch(web, Below400, listing).value.anchors;
      forall p | p in r
        ensures p.location == NotDefined && p.date == Some(NotDefined) && |p.title| >= 7 &&
                exists a: Anchor :: a in links && a.text == p.title && ContainsAny(Lower(a.href), JobHrefTokens) &&
                            p.url == web.resolve(listing, a.href)
      {
        var a :| a in links && Accepts(JobsRule.filter, a) && p.url == web.resolve(listing, a.href) &&
                 MakePosting(web, JobsRule, a, p.url) == Some(p);
        assert FindLocation(a.text, []).None?;
      }
    }
  }

  /** A row yields at most three jobs, whichever path found them. */
  lemma VisitCapThree(web: Web, site: Option<string>)
    ensures |VisitOf(web, Config, site).jobs| <= MaxJobs
  {
    VisitCap(web, Config, site);
  }

  /** In the sorted sheet the forced companies come first, then the
      companies with jobs, then the others. */
  lemma SheetOrder(rows: seq<Row>, visits: seq<Visit>, a: nat, b: nat)
    requires |visits| == |rows|
    requires var order := RankOrder(Column(RankOf, rows, visits));
             a < |order| && b < |order| &&
             ForcedRank(NameKey(rows[order[a]].startup)).None? &&
             (ForcedRank(NameKey(rows[order[b]].startup)).Some? ||
              (visits[order[b]].jobs != [] && visits[order[a]].jobs == []))
    ensures b < a
  {
    var ranks := Column(RankOf, rows, visits);
    var order := RankOrder(ranks);
    RankOrderFacts(ranks);
    assert ranks[order[b]] < ranks[order[a]];
    RankOrderSortedByRank(ranks);
    LowerRankFirst(ranks, order, b, a);
  }
}
