/** scraper.py: for each of the first 30 rows with a string website, the
    careers page by href keyword (no probes, only status 200 counts), then
    job links from an ATS page or the first text blocks of any other page,
    and an Indeed search link whenever that yields nothing. The output is
    one flat list of records. */
module Scraper {
  import opened Text
  import opened Web
  import opened Urls
  import opened Locate
  import Seqs

  /** `df.head(30)` */
  const RowLimit := 30

  /** Both scrapers stop at three records. */
  const MaxJobs := 3

  const CareerKeywordsHref: seq<string> := ["career", "careers", "jobs", "join-us", "work-with-us", "openings"]

  const AtsKeywords: seq<string> := ["lever.co", "greenhouse.io", "workable.com", "zoho.com/recruit", "apply.workable.com"]

  const NotSpecified := "Not specified"

  /** `find_career_page`: keywords in the lower-cased href only, `fetch_page`
      (status 200), no probes. */
  const CareersRule := CareerRule(Exactly200, CareerKeywordsHref, false, true, [])

  /** One input row: the company name and the "Website" cell. */
  datatype CompanyRow = CompanyRow(company: string, website: Cell)

  /** One output record. */
  datatype JobRecord = JobRecord(company: string, title: string, location: string, link: string, source: string)

  /** `detect_ats(url)`: an ATS keyword occurs in the URL as written (no
      lower-casing). */
  predicate DetectAts(url: string) {
    ContainsAny(url, AtsKeywords)
  }

  /** Every ATS keyword begins with a lower-case letter and the test is not
      case-folded, so a URL written without lower-case letters is never
      taken for an ATS page. */
  lemma DetectAtsIsCaseSensitive(url: string)
    requires forall i :: 0 <= i < |url| ==> !('a' <= url[i] <= 'z')
    ensures !DetectAts(url)
  {
    forall k | 0 <= k < |AtsKeywords|
      ensures !Contains(url, AtsKeywords[k])
    {
      var key := AtsKeywords[k];
      assert 'a' <= key[0] <= 'z';
      if Contains(url, key) {
        ContainsFirst(url, key);
      }
    }
  }

  /** A non-empty string that occurs in `s` has its first character in `s`. */
  lemma {:induction false} ContainsFirst(s: string, sub: string)
    requires |sub| > 0 && Contains(s, sub)
    ensures exists i :: 0 <= i < |s| && s[i] == sub[0]
    decreases |s|
  {
    if sub <= s {
      assert s[0] == sub[0];
    } else {
      ContainsFirst(s[1..], sub);
      var i :| 0 <= i < |s[1..]| && s[1..][i] == sub[0];
      assert s[i + 1] == sub[0];
    }
  }

  /** `find_career_page(website)` */
  function FindCareerPage(web: Web, website: string): Option<string> {
    FindCareersPage(web, CareersRule, website)
  }

  /** A link names a careers page when a keyword occurs in its lower-cased
      href. */
  predicate IsCareerHref(a: Anchor) {
    ContainsAny(Lower(a.href), CareerKeywordsHref)
  }

  /** The careers page is the resolved href of the first link with a careers
      keyword in its href; there is none when the homepage does not answer
      200 or no link qualifies, since no path is probed. */
  lemma CareerPageFacts(web: Web, website: string)
    ensures var r := FindCareerPage(web, website);
            (Fetch(web, Exactly200, website).None? ==> r.None?) &&
            (Fetch(web, Exactly200, website).Some? ==>
               var links := Fetch(web, Exactly200, website).value.anchors;
               (r.None? <==> forall i :: 0 <= i < |links| ==> !IsCareerHref(links[i])) &&
               (r.Some? ==> exists i :: 0 <= i < |links| && IsCareerHref(links[i]) &&
                                        (forall j :: 0 <= j < i ==> !IsCareerHref(links[j])) &&
                                        r.value == web.resolve(website, links[i].href)))
  {
    if Fetch(web, Exactly200, website).Some? {
      var links := Fetch(web, Exactly200, website).value.anchors;
      CareersPageChoice(web, CareersRule, website);
      var m := FirstLink(links, CareerLinkTest(CareersRule));
      if m.Some? {
        assert IsCareerHref(links[m.value]);
        assert forall j :: 0 <= j < m.value ==> !IsCareerLink(CareersRule, links[j]);
      } else {
        assert forall j :: 0 <= j < |links| ==> !IsCareerLink(CareersRule, links[j]);
      }
    }
  }

  // ---------------------------------------------------------------------
  // scrape_ats_jobs

  /** A link `scrape_ats_jobs` records: text longer than five characters and
      "job" in the lower-cased href. */
  predicate IsAtsJobLink(a: Anchor) {
    |a.text| > 5 && Contains(Lower(a.href), "job")
  }

  function AtsRecord(web: Web, company: string, base: string, a: Anchor): JobRecord {
    JobRecord(company, a.text, NotSpecified, web.resolve(base, a.href), "Career Page")
  }

  /** A record for every qualifying link, in document order, repeats kept. */
  function AtsMatches(web: Web, company: string, base: string, links: seq<Anchor>): (r: seq<JobRecord>)
    ensures |r| <= |links|
    decreases |links|
  {
    if links == [] then []
    else (if IsAtsJobLink(links[0]) then [AtsRecord(web, company, base, links[0])] else []) +
         AtsMatches(web, company, base, links[1..])
  }

  /** What `scrape_ats_jobs(url, company)` returns: nothing when the page does
      not load, otherwise the first three qualifying links' records. */
  function AtsJobs(web: Web, url: string, company: string): seq<JobRecord> {
    match Fetch(web, Exactly200, url)
    case None => []
    case Some(page) => Seqs.Take(AtsMatches(web, company, url, page.anchors), MaxJobs)
  }

  /** The loop of `scrape_ats_jobs`, once the page has loaded: the cap is
      looked at after every link. */
  method FirstAtsMatches(web: Web, company: string, base: string, links: seq<Anchor>) returns (jobs: seq<JobRecord>)
    ensures jobs == Seqs.Take(AtsMatches(web, company, base, links), MaxJobs)
  {
    jobs := [];
    var i := 0;
    while i < |links|
      invariant 0 <= i <= |links| && |jobs| < MaxJobs
      invariant jobs + AtsMatches(web, company, base, links[i..]) == AtsMatches(web, company, base, links)
    {
      var piece := if IsAtsJobLink(links[i]) then [AtsRecord(web, company, base, links[i])] else [];
      AtsStep(web, company, base, links, i);
      Seqs.AppendStep(jobs, piece, AtsMatches(web, company, base, links[i..]),
                      AtsMatches(web, company, base, links[i + 1..]), AtsMatches(web, company, base, links));
      jobs := jobs + piece;
      i := i + 1;
      if |jobs| >= MaxJobs {
        Seqs.TakeOfAppend(jobs, AtsMatches(web, company, base, links[i..]), MaxJobs);
        return;
      }
    }
  }

  /** One link of the scan. */
  lemma AtsStep(web: Web, company: string, base: string, links: seq<Anchor>, i: nat)
    requires i < |links|
    ensures AtsMatches(web, company, base, links[i..]) ==
            (if IsAtsJobLink(links[i]) then [AtsRecord(web, company, base, links[i])] else []) +
            AtsMatches(web, company, base, links[i + 1..])
  {
    assert links[i..][0] == links[i] && links[i..][1..] == links[i + 1..];
  }

  /** `scrape_ats_jobs(url, company)` */
  method ScrapeAtsJobs(web: Web, url: string, company: string) returns (jobs: seq<JobRecord>)
    ensures jobs == AtsJobs(web, url, company)
  {
    var page := Fetch(web, Exactly200, url);
    if page.None? {
      return [];
    }
    jobs := FirstAtsMatches(web, company, url, page.value.anchors);
  }

  // ---------------------------------------------------------------------
  // scrape_simple_jobs

  /** `soup.find_all(["li", "div"], limit=10)` */
  const BlockLimit := 10

  function SimpleRecord(company: string, url: string, title: string): JobRecord {
    JobRecord(company, title, NotSpecified, url, "Career Page")
  }

  /** A record for every block text longer than ten characters, in order;
      the link of each is the page itself. */
  function SimpleMatches(company: string, url: string, blocks: seq<string>): (r: seq<JobRecord>)
    ensures |r| <= |blocks|
    decreases |blocks|
  {
    if blocks == [] then []
    else (if |blocks[0]| > 10 then [SimpleRecord(company, url, blocks[0])] else []) +
         SimpleMatches(company, url, blocks[1..])
  }

  /** What `scrape_simple_jobs(url, company)` returns. */
  function SimpleJobs(web: Web, url: string, company: string): seq<JobRecord> {
    match Fetch(web, Exactly200, url)
    case None => []
    case Some(page) => Seqs.Take(SimpleMatches(company, url, Seqs.Take(page.blocks, BlockLimit)), MaxJobs)
  }

  /** The loop of `scrape_simple_jobs` over the blocks it was given. */
  method FirstSimpleMatches(company: string, url: string, cards: seq<string>) returns (jobs: seq<JobRecord>)
    ensures jobs == Seqs.Take(SimpleMatches(company, url, cards), MaxJobs)
  {
    jobs := [];
    var i := 0;
    while i < |cards|
      invariant 0 <= i <= |cards| && |jobs| < MaxJobs
      invariant jobs + SimpleMatches(company, url, cards[i..]) == SimpleMatches(company, url, cards)
    {
      var piece := if |cards[i]| > 10 then [SimpleRecord(company, url, cards[i])] else [];
      SimpleStep(company, url, cards, i);
      Seqs.AppendStep(jobs, piece, SimpleMatches(company, url, cards[i..]),
                      SimpleMatches(company, url, cards[i + 1..]), SimpleMatches(company, url, cards));
      jobs := jobs + piece;
      i := i + 1;
      if |jobs| >= MaxJobs {
        Seqs.TakeOfAppend(jobs, SimpleMatches(company, url, cards[i..]), MaxJobs);
        return;
      }
    }
  }

  /** One block of the scan. */
  lemma SimpleStep(company: string, url: string, cards: seq<string>, i: nat)
    requires i < |cards|
    ensures SimpleMatches(company, url, cards[i..]) ==
            (if |cards[i]| > 10 then [SimpleRecord(company, url, cards[i])] else []) +
            SimpleMatches(company, url, cards[i + 1..])
  {
    assert cards[i..][0] == cards[i] && cards[i..][1..] == cards[i + 1..];
  }

  /** `scrape_simple_jobs(url, company)`: the first ten blocks of the page. */
  method ScrapeSimpleJobs(web: Web, url: string, company: string) returns (jobs: seq<JobRecord>)
    ensures jobs == SimpleJobs(web, url, company)
  {
    var page := Fetch(web, Exactly200, url);
    if page.None? {
      return [];
    }
    jobs := FirstSimpleMatches(company, url, Seqs.Take(page.value.blocks, BlockLimit));
  }

  // ---------------------------------------------------------------------
  // run_scraper

  /** `fallback_indeed(company)`: one record pointing at an Indeed search. */
  function FallbackIndeed(company: string): (r: seq<JobRecord>)
    ensures |r| == 1 && r[0].company == company && r[0].source == "Indeed"
    ensures StartsWith(r[0].link, "https://www.indeed.com/jobs?q=") && r[0].link[30..] == company
  {
    [JobRecord(company, "Jobs on Indeed", "Check link", "https://www.indeed.com/jobs?q=" + company, "Indeed")]
  }

  /** The scraper chosen by `detect_ats(career_page)`. */
  function ScrapedJobs(web: Web, careers: string, company: string): seq<JobRecord> {
    if DetectAts(careers) then AtsJobs(web, careers, company) else SimpleJobs(web, careers, company)
  }

  /** The records the loop of `run_scraper` adds for one row. */
  function RowRecords(web: Web, row: CompanyRow): seq<JobRecord> {
    match row.website
    case NotStr => []
    case Str(w) =>
      match FindCareerPage(web, w)
      case None => FallbackIndeed(row.company)
      case Some(c) =>
        var jobs := ScrapedJobs(web, c, row.company);
        if jobs == [] then FallbackIndeed(row.company) else jobs
  }

  /** `all_jobs` after the rows. */
  function AllRecords(web: Web, rows: seq<CompanyRow>): (r: seq<JobRecord>)
    decreases |rows|
  {
    if rows == [] then [] else RowRecords(web, rows[0]) + AllRecords(web, rows[1..])
  }

  /** The body of the loop of `run_scraper`. */
  method RowJobs(web: Web, row: CompanyRow) returns (records: seq<JobRecord>)
    ensures records == RowRecords(web, row)
  {
    if row.website.NotStr? {
      return [];
    }
    var careers := FindCareerPage(web, row.website.s);
    if careers.None? {
      return FallbackIndeed(row.company);
    }
    if DetectAts(careers.value) {
      records := ScrapeAtsJobs(web, careers.value, row.company);
    } else {
      records := ScrapeSimpleJobs(web, careers.value, row.company);
    }
    if records == [] {
      records := FallbackIndeed(row.company);
    }
  }

  /** `run_scraper`: the first 30 rows, their records concatenated in row
      order. */
  method RunScraper(web: Web, input: seq<CompanyRow>) returns (rows: seq<CompanyRow>, records: seq<JobRecord>)
    ensures rows == Seqs.Take(input, RowLimit) && |rows| <= RowLimit
    ensures records == AllRecords(web, rows)
  {
    rows := Seqs.Take(input, RowLimit);
    records := RowsJobs(web, rows);
  }

  /** The loop of `run_scraper` over the rows it keeps. */
  method RowsJobs(web: Web, rows: seq<CompanyRow>) returns (records: seq<JobRecord>)
    ensures records == AllRecords(web, rows)
  {
    records := [];
    var i := 0;
    while i < |rows|
      invariant 0 <= i <= |rows|
      invariant records + AllRecords(web, rows[i..]) == AllRecords(web, rows)
    {
      AllRecordsStep(web, rows, i);
      var more := RowJobs(web, rows[i]);
      Seqs.AppendStep(records, more, AllRecords(web, rows[i..]), AllRecords(web, rows[i + 1..]), AllRecords(web, rows));
      records := records + more;
      i := i + 1;
    }
  }

  /** One row of the loop. */
  lemma AllRecordsStep(web: Web, rows: seq<CompanyRow>, i: nat)
    requires i < |rows|
    ensures AllRecords(web, rows[i..]) == RowRecords(web, rows[i]) + AllRecords(web, rows[i + 1..])
  {
    assert rows[i..][0] == rows[i] && rows[i..][1..] == rows[i + 1..];
  }

  // ---------------------------------------------------------------------
  // What the pipeline promises

  lemma {:induction false} AtsMatchesOrigin(web: Web, company: string, base: string, links: seq<Anchor>)
    ensures forall r :: r in AtsMatches(web, company, base, links) ==>
              exists a :: a in links && IsAtsJobLink(a) && r == AtsRecord(web, company, base, a)
    decreases |links|
  {
    if links != [] {
      AtsMatchesOrigin(web, company, base, links[1..]);
      assert forall x :: x in links[1..] ==> x in links;
    }
  }

  /** Every record of `scrape_ats_jobs` is a qualifying link of the page:
      its text as title, its resolved href as link, location "Not
      specified", source "Career Page"; at most three; repeats possible. */
  lemma AtsJobsFacts(web: Web, url: string, company: string)
    ensures var r := AtsJobs(web, url, company);
            |r| <= MaxJobs &&
            (Fetch(web, Exactly200, url).None? ==> r == []) &&
            forall rec :: rec in r ==>
              Fetch(web, Exactly200, url).Some? &&
              rec.company == company && rec.location == NotSpecified && rec.source == "Career Page" &&
              |rec.title| > 5 &&
              exists a :: a in Fetch(web, Exactly200, url).value.anchors && a.text == rec.title &&
                          Contains(Lower(a.href), "job") && rec.link == web.resolve(url, a.href)
  {
    if Fetch(web, Exactly200, url).Some? {
      var links := Fetch(web, Exactly200, url).value.anchors;
      AtsMatchesOrigin(web, company, url, links);
      var all := AtsMatches(web, company, url, links);
      assert forall rec :: rec in Seqs.Take(all, MaxJobs) ==> rec in all;
    }
  }

  /** The same job link twice on an ATS page gives the same record twice. */
  lemma AtsKeepsRepeats(web: Web, url: string, company: string, a: Anchor)
    requires Fetch(web, Exactly200, url).Some? && Fetch(web, Exactly200, url).value.anchors == [a, a]
    requires IsAtsJobLink(a)
    ensures AtsJobs(web, url, company) == [AtsRecord(web, company, url, a), AtsRecord(web, company, url, a)]
  {
    var rec := AtsRecord(web, company, url, a);
    assert [a, a][1..] == [a];
    assert [a][1..] == [];
    assert AtsMatches(web, company, url, [a]) == [rec];
    assert AtsMatches(web, company, url, [a, a]) == [rec] + [rec];
  }

  lemma {:induction false} SimpleMatchesOrigin(company: string, url: string, blocks: seq<string>)
    ensures forall r :: r in SimpleMatches(company, url, blocks) ==>
              r.title in blocks && |r.title| > 10 && r == SimpleRecord(company, url, r.title)
    decreases |blocks|
  {
    if blocks != [] {
      SimpleMatchesOrigin(company, url, blocks[1..]);
      assert forall x :: x in blocks[1..] ==> x in blocks;
    }
  }

  /** Every record of `scrape_simple_jobs` is one of the page's first ten
      blocks longer than ten characters, linked to the page itself; at most
      three. */
  lemma SimpleJobsFacts(web: Web, url: string, company: string)
    ensures var r := SimpleJobs(web, url, company);
            |r| <= MaxJobs &&
            forall rec :: rec in r ==>
              Fetch(web, Exactly200, url).Some? &&
              rec.company == company && rec.link == url && rec.location == NotSpecified &&
              rec.source == "Career Page" && |rec.title| > 10 &&
              rec.title in Seqs.Take(Fetch(web, Exactly200, url).value.blocks, BlockLimit)
  {
    if Fetch(web, Exactly200, url).Some? {
      var cards := Seqs.Take(Fetch(web, Exactly200, url).value.blocks, BlockLimit);
      SimpleMatchesOrigin(company, url, cards);
      var all := SimpleMatches(company, url, cards);
      assert forall rec :: rec in Seqs.Take(all, MaxJobs) ==> rec in all;
    }
  }

  /** A row with a string website always yields between one and three
      records, all for its company; the Indeed record is used exactly when
      no careers page was found or the careers page gave nothing. A row
      without one yields nothing. */
  lemma RowRecordsFacts(web: Web, row: CompanyRow)
    ensures var r := RowRecords(web, row);
            (row.website.NotStr? ==> r == []) &&
            (row.website.Str? ==>
               1 <= |r| <= MaxJobs &&
               (forall k :: 0 <= k < |r| ==> r[k].company == row.company) &&
               (r[0].source == "Indeed" <==>
                  FindCareerPage(web, row.website.s).None? ||
                  ScrapedJobs(web, FindCareerPage(web, row.website.s).value, row.company) == []) &&
               (r[0].source == "Indeed" ==> r == FallbackIndeed(row.company)))
  {
    if row.website.Str? {
      var c := FindCareerPage(web, row.website.s);
      if c.Some? {
        AtsJobsFacts(web, c.value, row.company);
        SimpleJobsFacts(web, c.value, row.company);
        var jobs := ScrapedJobs(web, c.value, row.company);
        if jobs != [] {
          assert jobs[0] in jobs;
          assert forall k :: 0 <= k < |jobs| ==> jobs[k] in jobs;
        }
      }
    }
  }

  /** The rows with a string website. */
  function StringRows(rows: seq<CompanyRow>): (r: nat)
    ensures r <= |rows|
    decreases |rows|
  {
    if rows == [] then 0 else (if rows[0].website.Str? then 1 else 0) + StringRows(rows[1..])
  }

  /** The output has at least one record per row with a string website and
      at most three per row. */
  lemma {:induction false} AllRecordsCount(web: Web, rows: seq<CompanyRow>)
    ensures StringRows(rows) <= |AllRecords(web, rows)| <= MaxJobs * StringRows(rows)
    decreases |rows|
  {
    if rows != [] {
      AllRecordsCount(web, rows[1..]);
      RowRecordsFacts(web, rows[0]);
    }
  }

  /** Every record of the output names one of the rows' companies. */
  lemma {:induction false} AllRecordsCompanies(web: Web, rows: seq<CompanyRow>)
    ensures forall r :: r in AllRecords(web, rows) ==> exists row :: row in rows && r.company == row.company
    decreases |rows|
  {
    if rows != [] {
      AllRecordsCompanies(web, rows[1..]);
      RowRecordsFacts(web, rows[0]);
      var head := RowRecords(web, rows[0]);
      assert forall r :: r in head ==> r.company == rows[0].company;
      assert forall row :: row in rows[1..] ==> row in rows;
    }
  }
}
