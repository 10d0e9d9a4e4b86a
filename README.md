# Job-discovery scraper: a Dafny model

The repository holds ten variants of one spreadsheet-driven job scraper.
Each variant reads company rows from a spreadsheet and cleans each row's
website cell. It then looks for the company's careers page and a job listing
page, and extracts up to three (in scraper3.py seven) job postings.
Depending on the variant, it falls back to LinkedIn or Indeed, writes a
status per row, and sorts the sheet by a priority.

This project models all ten variants with shared components. Each variant
instantiates them with its own constants in a module of its own.

- `Text`, `Seqs`: the Python string and list operations the scripts use
  (`lower`, `strip`, `in`, `replace`, `split`, `xs[:k]`,
  `dict.fromkeys` de-duplication).
- `Web`: the network as an oracle. `get(url)` is a response with a status
  or a raised exception. A page is its links in document order, its text,
  its first `<h1>` and its `<li>`/`<div>` texts. `urljoin` and the host
  part of `urlparse` are functions of the oracle. `Fetch` is `fetch`
  (status below 400) or `fetch_page` (status exactly 200).
- `Urls`: the two forms of `clean_url` and the LinkedIn page of a website.
- `Locate`: the careers-page and listing-page locators, as first-match
  scans.
- `Extract`: the one-pass job extractor (`scrape_jobs`/`scrape_ats_jobs`).
  A method with its loop is proved equal to a specification function, and
  that function is proved to keep the first `max_jobs` distinct candidate
  URLs in document order.
- `TwoPhase`: the collect-then-fetch extractor of scraper2.py.
- `LinkedIn`: `linkedin_jobs` and `linkedin_detected`.
- `Ranking`: the final `sort_values`. The stable order is by
  (priority, input position). An unstable single-key sort gives any order
  sorted by priority.
- `Pipeline`:
  - the staged row loop (invalid website, no careers page, no jobs, jobs);
  - the ranked row loop (careers path, then the LinkedIn fallback);
  - the forced company names.
- `Scraper8`, `ThirdPartyJob`, `Scraper7`, `Comp120Scraper7`, `Scraper5`,
  `Scraper2`, `Scraper4`, `Scraper6`, `Scraper3`, `Scraper`: one module per
  script. Each holds the script's constants, its status and rank tables,
  its `main` (the method `Run`), and the properties of its extractor and
  its sheet.

The model follows the code where the code and its comments differ.
scraper4.py takes `head(50)` under a comment announcing the first 40
companies, and the model takes 50.

## Model

| member | source | states |
|---|---|---|
| Web.FetchPageIsStricter | scraper.py:30-37 | `fetch_page` yields a page exactly for status 200, and `fetch` also yields one for any other status below 400; a raised exception gives no page for either |
| Text.Strip | Scraper8.py:30-32 | nothing is left exactly when every character is whitespace (Python's `str.isspace` set, U+001C..U+001F and the Unicode spaces included); otherwise the result begins and ends with a non-space and occurs in the input |
| Text.StripIsSlice | Scraper8.py:30-32 | the result is the slice of the input between a run of leading and a run of trailing whitespace; with the non-space ends of `Text.Strip` this is exactly what `strip()` returns |
| Text.TrimSlashes | Scraper8.py:68-69 | a prefix of the input that does not end in "/", only slashes cut off |
| Seqs.DedupFacts | scraper2.py:96 | de-duplication gives distinct elements, each from the input, and keeps every element of the input |
| Urls.CleanUrlAsGivenFacts | Scraper8.py:29-32 | no URL exactly for a non-string or blank cell; a value starting with "http" is returned verbatim (not stripped), any other gets "https://" before its stripped form |
| Urls.CleanUrlAsGiven | 3rd_part_Job.py:19-22 | a non-string cell gives no URL; every URL returned starts with "http" |
| Urls.CleanUrlAsGivenIdempotent | 120_Comp_scraper7.py:19-22 | cleaning an already cleaned URL returns it unchanged |
| Urls.CleanUrlAsGivenLeadingSpace | scraper6.py:25-28 | a full URL with a leading space gets a second scheme in front, where the strip-first form returns the URL itself |
| Urls.CleanUrlStripped | scraper5.py:17-23 | no URL exactly for a non-string or blank cell; the result starts with "http", has no surrounding whitespace, and is the stripped value with or without "https://" in front |
| Urls.SeparatorIsBlank | scraper5.py:17-23 | a cell holding only the separator U+001F is blank to `strip()` and yields no URL |
| Urls.SeparatorDropped | scraper5.py:17-23 | a separator U+001C..U+001F in front of a host is stripped before "https://" is added |
| Urls.WithSchemeStripped | scraper5.py:17-23 | a stripped non-empty value keeps no surrounding whitespace once "https://" is put in front, and then starts with "http" |
| Urls.CleanUrlStrippedIdempotent | scraper2.py:27-33 | cleaning an already cleaned URL returns it unchanged |
| Urls.CleanUrlFormsAgree | scraper4.py:18-24 | for a value that does not start with whitespace, the strip-first form gives a URL exactly when the as-given form does, and it is that URL stripped |
| Urls.HttpSurvivesStrip | scraper3.py:18-24 | a value starting with "http" is never blank |
| Urls.Slug | Scraper8.py:119 | the slug is the host with "www." removed, cut before its first dot: a dot-free prefix followed by a dot or by nothing |
| Urls.LinkedInJobsUrl | Scraper8.py:120 | the LinkedIn jobs page is under "https://www.linkedin.com/company/" |
| Locate.FirstLink | 3rd_part_Job.py:40-44 | the position found passes the test and no earlier link does; none found means no link passes |
| Locate.FirstFetchable | 3rd_part_Job.py:46-51 | the probe returned is the first path, in list order, whose URL fetches; none means none fetches |
| Locate.FindCareersPage | Scraper8.py:60-63 | no careers page when the homepage does not fetch |
| Locate.CareersPageChoice | 3rd_part_Job.py:35-51 | with the homepage loaded, the result is the resolved href of the first careers link (by text and/or href, per variant); without such a link it is the first probe that fetches |
| Locate.CareersPageOrigin | Scraper8.py:60-70 | a careers page found is a resolved careers link of the homepage, or a probe of the slash-trimmed homepage that fetched, tried only when no link qualified |
| Locate.FindListingPage | scraper6.py:59-72 | when the careers page does not fetch, the listing page is the careers URL |
| Locate.ListingPageChoice | scraper5.py:59-73 | the first call-to-action link wins; without one the first ATS link; without either the careers URL |
| Locate.CallToActionFirst | Scraper7.py:63-76 | a call-to-action link anywhere on the page beats every ATS link, even an earlier one |
| Locate.AtsOnlyListing | Scraper8.py:72-79 | with no call-to-action phrases the listing page is the resolved href of an ATS link of the careers page, or the careers URL |
| Extract.FindLocation | 120_Comp_scraper7.py:91-92 | the location returned is the leftmost token occurrence in the page text (the first of the alternation at that position), so it occurs in the text and is a token up to case; none exactly when no token occurs anywhere |
| Extract.SearchFrom | scraper5.py:107 | `re.search` from a start position: none exactly when no token matches at or after it; otherwise the text matched at the leftmost matching position, with no match before it |
| Extract.MatchText | scraper5.py:107 | the text matched at a position is a slice of the page text equal, up to case, to one of the tokens |
| Extract.SplitTitleLocation | Scraper8.py:47-53 | without a location token the text is returned whole with the "no location" value; with one, the location occurs in the text and is a token, and the title is no longer than the text |
| Extract.DateFrom | scraper5.py:111-114 | the date search: none exactly when neither a "Posted ..." phrase nor a bounded 2024/2025 starts at or after the position; otherwise the text matched at the leftmost such position, with no match before it |
| Extract.DateText | scraper5.py:111-114 | the text matched at a position occurs in the page text and is a "Posted ..." phrase or the year 2024 or 2025 |
| Extract.EmptyDateIffNoMatch | scraper5.py:111-114 | the date is "" exactly when neither pattern matches anywhere in the page text |
| Extract.LocationOr | scraper4.py:107-116 | the default value exactly when no token matches anywhere in the page text; otherwise the leftmost match, a token found in the text |
| Extract.MakePosting | 120_Comp_scraper7.py:86-99 | a posting is made exactly when the link alone suffices or the job's page fetches; its URL is the resolved href |
| Extract.ScrapeJobs | scraper6.py:76-110 | the loop (the `seen` set, the filters, the early `break` on the cap) returns exactly `Extracted` |
| Extract.VisitLink | scraper6.py:85-107 | one iteration appends exactly what the scan appends for its link, and breaks exactly where the scan stops |
| Extract.CapOf | Scraper8.py:112-113 | the effective cap is at least one and equals `max_jobs` when that is positive |
| Extract.ScanBound | 3rd_part_Job.py:94-95 | the loop never collects more than the cap |
| Extract.ScanUrls | 3rd_part_Job.py:70-97 | the URLs collected are the first `max_jobs` of the candidate URLs, repeats removed keeping first occurrences, those whose page fails dropped |
| Extract.ScanOrigin | Scraper7.py:87-108 | every posting is built from one candidate link of the page, resolved against the listing URL |
| Extract.FetchableIsSubsequence | scraper6.py:93-95 | dropping the jobs whose page fails keeps the others in order |
| Extract.ExtractedFacts | Scraper8.py:83-115 | nothing when the listing page fails; otherwise at most `max_jobs` postings, distinct URLs, in document order, each from a candidate link, URLs the first distinct candidates that survive |
| Extract.JobPagePostings | scraper4.py:79-127 | when each job's page is visited, every posting's page loaded, its location and date are read from that page, and its title is the text of a candidate link of the listing page that resolves to it |
| LinkedIn.LinkedInPage | 3rd_part_Job.py:102-106 | no page exactly when `urlparse` raises; otherwise the company jobs page of the host's slug, under linkedin.com/company/ |
| LinkedIn.Postings | Scraper8.py:128-137 | one posting per qualifying link, from that link, no more postings than links |
| LinkedIn.CollectLinkedInJobs | 3rd_part_Job.py:101-126 | the loop with its cap check after every link returns exactly `LinkedInJobs` |
| LinkedIn.LScanTakes | Scraper8.py:127-140 | the loop keeps the first `max_jobs` postings of the qualifying links |
| LinkedIn.LinkedInJobsFacts | Scraper8.py:117-140 | at most `max_jobs` postings, none unless the page fetched, exactly the first qualifying links, each with a "/jobs/view/" href, the link text as title, and the constant location and date |
| LinkedIn.LinkedInKeepsRepeats | 3rd_part_Job.py:112-124 | a qualifying link appearing twice gives two equal postings: no de-duplication |
| Ranking.Insert | 3rd_part_Job.py:204 | inserting a row keeps every position and adds the new one |
| Ranking.InsertSorted | 3rd_part_Job.py:204 | insertion keeps the (priority, position) order |
| Ranking.SortPrefix | 120_Comp_scraper7.py:177 | the sorted prefix holds each of its row positions exactly once |
| Ranking.SortPrefixSorted | 120_Comp_scraper7.py:177 | the sorted prefix is in (priority, position) order |
| Ranking.RankOrderFacts | 3rd_part_Job.py:202-204 | the sorted sheet is a permutation of the rows by non-decreasing priority, ties in input order |
| Ranking.RankOrderSortedByRank | scraper5.py:192-193 | the stable order is one of the orders an unstable sort by priority may give |
| Ranking.LowerRankFirst | Scraper8.py:218-219 | in any order sorted by priority a row of strictly lower priority value comes strictly earlier |
| Ranking.Reorder | Scraper7.py:193-195 | row `k` of the sorted sheet is row `order[k]` of the input |
| Ranking.ReorderAppend | Scraper7.py:193-195 | the sheet of a concatenated order is the concatenation of the two sheets |
| Ranking.OrderIsPermutation | Scraper7.py:193-195 | any order sorted by priority holds each row position exactly once |
| Ranking.ReorderSamePositions | Scraper7.py:193-195 | two orders holding the same positions give sheets holding the same rows |
| Ranking.SheetIsPermutation | scraper5.py:192-193 | the sheet of any order sorted by priority holds exactly the input rows, each as often as in the input |
| Pipeline.NameKey | 120_Comp_scraper7.py:127 | the name key is the stripped name, character by character lower-cased |
| Pipeline.ForcedRank | 3rd_part_Job.py:155-160 | a forced rank exactly for "thoughtful foods" and "charzer": 0 for the first, 1 for the second |
| Pipeline.RankOr | 3rd_part_Job.py:181 | a forced company gets its forced rank (0 or 1), any other exactly the base rank |
| Pipeline.StatusOr | 120_Comp_scraper7.py:138 | a forced company's status is "Job Found", any other's the default |
| Pipeline.ForcedGoesFirst | Scraper7.py:146-151 | a forced company ranks before every unforced one of base rank at least 2, whatever its website gives |
| Pipeline.JobsOfFacts | scraper2.py:78-81 | either extractor returns at most its cap, and nothing when the listing page fails |
| Pipeline.CollectJobs | scraper3.py:152 | the call runs the variant's extractor loop and returns its specification |
| Pipeline.StageOf | 120_Comp_scraper7.py:137-159 | invalid exactly when `clean_url` gives none; no careers page exactly when the locator finds none; otherwise the listing page is located, and "no jobs" or "jobs" is decided by the extractor's result |
| Pipeline.DeadHomeHasNoCareerPage | scraper6.py:137-140 | a website whose homepage does not load is reported as having no careers page |
| Pipeline.StageCap | scraper4.py:168-180 | a row with jobs has between one and the cap of them |
| Pipeline.StagesOfIndex | scraper6.py:130 | stage `i` is row `i`'s |
| Pipeline.StageRow | scraper5.py:156-188 | the loop body computes `StageOf` of the row |
| Pipeline.NextStage | scraper6.py:130-158 | one loop iteration extends the stages of the earlier rows by row `i`'s |
| Pipeline.RunStaged | scraper2.py:146-172 | the row loop gives every row its stage and writes its cells from that stage |
| Pipeline.Column | scraper5.py:153-188 | one cell per row, computed from that row and what was found for it |
| Pipeline.CareerPath | 3rd_part_Job.py:165-171 | a careers and listing page are recorded exactly when there is a website and a careers page; without one there are no jobs |
| Pipeline.VisitOf | Scraper7.py:164-169 | the LinkedIn probe is recorded only with no jobs, for the probing variant |
| Pipeline.VisitFacts | 3rd_part_Job.py:162-175 | no website gives nothing; careers-path jobs are kept; only when they are none is LinkedIn asked (postings or the probe); never more jobs than the caps |
| Pipeline.VisitCap | Scraper8.py:188-198 | a row never yields more jobs than the larger cap |
| Pipeline.CareerRow | Scraper7.py:155-161 | the careers path as statements computes `CareerPath` |
| Pipeline.VisitRow | 3rd_part_Job.py:162-175 | the loop body as statements computes `VisitOf` |
| Pipeline.VisitsOfIndex | 3rd_part_Job.py:149-152 | visit `i` is that of row `i`'s cleaned website |
| Pipeline.VisitsOfStep | Scraper7.py:140-143 | the visits from row `i` on are row `i`'s followed by the rest |
| Pipeline.NextVisit | Scraper8.py:182-198 | one iteration extends the visits of the earlier rows by row `i`'s, within the caps |
| Pipeline.RunRanked | 3rd_part_Job.py:149-199 | the row loop gives every row its visit, its rank and its status cells |
| Scraper8.ValidJobTitle | Scraper8.py:42-45 | true exactly when the text has at least six characters and contains no invalid phrase, ignoring case |
| Scraper8.CandidateIsValidTitle | Scraper8.py:89-96 | a link is a candidate exactly when its spaced text is a valid title and its lower-cased href holds job, opening, position or req |
| Scraper8.ScrapeJobsFacts | Scraper8.py:83-115 | at most three postings, distinct URLs, each from a candidate link of the listing page whose text `split_title_location` splits into its title and location, dated with the run's month |
| Scraper8.ComputeRank | Scraper8.py:144-166 | 0 and 1 for the forced names; 7 or 8 without jobs (careers page or not); 2, 3, 4 for 3, 2, 1 all-located jobs; 5 for three not all located; 6 for every other case with jobs, four or more located ones included |
| Scraper8.CountLocated | Scraper8.py:155 | the located count is at most the number of jobs, and equal to it exactly when every job has a location |
| Scraper8.RunRows | Scraper8.py:182-216 | the row loop gives each row its visit and rank, and the two counters; the total is at most three jobs per company with jobs |
| Scraper8.CountersSnoc | Scraper8.py:205-206 | one more row adds its job count to the total, and one company exactly when it has jobs |
| Scraper8.Run | Scraper8.py:170-219 | the first 350 rows, each visited, with a sheet order sorted by rank, ties in any order, whose sheet holds exactly the input rows |
| Scraper8.ThreeLocatedJobsFirst | Scraper8.py:158-166 | three located jobs rank strictly better than any other unforced outcome |
| Scraper8.JobsBeforeNoJobs | Scraper8.py:218-219 | in the sorted sheet every company with jobs precedes every unforced company without |
| ThirdPartyJob.RankOf | 3rd_part_Job.py:178-197 | the forced rank; otherwise 5 without jobs, 2 for "koala" with jobs, 3 for others with jobs |
| ThirdPartyJob.StatusOf | 3rd_part_Job.py:178-193 | "Job Found"/"Found" with jobs; without jobs "Not Found" and "No Jobs Found", or "Job Found" for a forced company |
| ThirdPartyJob.Run | 3rd_part_Job.py:130-204 | the first 120 rows visited, their status cells, and the sheet sorted by (priority, input position), holding exactly the input rows |
| ThirdPartyJob.ScrapeAtsJobsFacts | 3rd_part_Job.py:70-97 | at most three postings, distinct URLs, titles of at least seven characters from links of the listing page whose href names a job, location and date "Not Defined" |
| ThirdPartyJob.VisitCapThree | 3rd_part_Job.py:162-175 | a row yields at most three jobs, from its careers page or from LinkedIn |
| ThirdPartyJob.SheetOrder | 3rd_part_Job.py:202-204 | forced companies first, then companies with jobs, then the rest |
| Scraper7.IsValidJob | Scraper7.py:35-41 | true exactly when the title has at least six characters and the href holds none of privacy, terms, about, blog, login |
| Scraper7.CandidateIsValidJob | Scraper7.py:87-95 | a link is a candidate exactly when `is_valid_job` holds and its href holds job, opening, position or req |
| Scraper7.RankOf | Scraper7.py:146-188 | the forced rank; otherwise 2 ("koala") or 3 with jobs, 4 when only the LinkedIn page answered, 5 otherwise |
| Scraper7.StatusOf | Scraper7.py:164-185 | "Job Found"/"Found" with jobs; "Jobs on LinkedIn"/"Found" when only LinkedIn answered; "No Jobs Found"/"Not Found" otherwise; the forced status overrides the first cell |
| Scraper7.Run | Scraper7.py:127-195 | the first 350 rows visited, their status cells, and the sheet sorted by (priority, input position), holding exactly the input rows |
| Scraper7.VisitJobsFromCareers | Scraper7.py:117-123 | all jobs come from the careers path, at most three; LinkedIn is probed exactly for a website without jobs and answers when its page fetches |
| Scraper7.SheetOrder | Scraper7.py:193-195 | among unforced companies: jobs first, then LinkedIn-only, then the rest |
| Comp120Scraper7.StatusOf | 120_Comp_scraper7.py:137-167 | "Job Found" for forced companies; otherwise each of the four statuses exactly at its stage |
| Comp120Scraper7.RankOf | 120_Comp_scraper7.py:130-170 | the forced rank at every stage; otherwise 6, 5, 4 by stage, and 2 for "koala" or 3 with jobs |
| Comp120Scraper7.FurtherRanksBetter | 120_Comp_scraper7.py:137-170 | among unforced companies a further stage gets a strictly better rank |
| Comp120Scraper7.Run | 120_Comp_scraper7.py:108-177 | the first 120 rows staged, their statuses, and the sheet sorted by (priority, input position), holding exactly the input rows |
| Comp120Scraper7.ScrapeJobsFacts | 120_Comp_scraper7.py:70-104 | at most three postings with distinct URLs, each page loaded, titles of at least nine characters, date "Not Defined", location "Not Defined" or a token on the page |
| Comp120Scraper7.SheetOrder | 120_Comp_scraper7.py:175-177 | forced companies first; among the others a further stage comes first |
| Scraper5.StatusOf | scraper5.py:158-187 | each of the four statuses exactly at its stage |
| Scraper5.RankOf | scraper5.py:158-188 | priorities 5, 4, 3 and 1 for invalid website, no careers page, no jobs and jobs found, 1 exactly with jobs |
| Scraper5.FurtherRanksBetter | scraper5.py:158-188 | a further stage gets a strictly better priority |
| Scraper5.Run | scraper5.py:131-193 | the first 50 rows staged, their statuses, and a sheet order sorted by priority, ties in any order, whose sheet holds exactly the input rows |
| Scraper5.ScrapeJobsFacts | scraper5.py:78-126 | at most three postings with distinct URLs, each page loaded, titles of at least nine characters, location "" or a token on the page, date "" exactly when no "Posted ..." phrase or year occurs on the page, otherwise one found there |
| Scraper5.SheetOrder | scraper5.py:192-193 | whatever the order of ties, a row that got further comes first |
| Scraper2.StatusOf | scraper2.py:146-172 | each of "Invalid website", "No careers page", "No jobs found", "Success" exactly at its stage |
| Scraper2.Run | scraper2.py:125-172 | the first 30 rows staged through the collect-then-fetch extractor, with their statuses |
| Scraper2.ScrapeJobsFacts | scraper2.py:78-120 | at most three postings with distinct URLs, each page loaded, the page's `<h1>` or "Not specified" as title, location "Not specified" or a token on the page |
| Scraper2.PrefixOfScraper4 | scraper2.py:96-120 | on the same listing page scraper2.py finds a prefix of the URLs scraper4.py finds |
| Scraper2.FewerThanScraper4 | scraper2.py:98-102 | a failing first job page costs scraper2.py a slot that scraper4.py refills |
| Scraper4.StatusOf | scraper4.py:151-180 | each of the four statuses exactly at its stage |
| Scraper4.Run | scraper4.py:132-182 | the first 50 rows staged with their statuses |
| Scraper4.ScrapeJobsFacts | scraper4.py:79-127 | at most three postings with distinct URLs, each page loaded, titles of at least nine characters, location "" or a token on the page |
| Scraper4.SuccessHasJobs | scraper4.py:170-180 | a row marked "Success" has between one and three jobs, the extractor's |
| Scraper6.StatusOf | scraper6.py:130-158 | each of "Invalid", "No Career Page", "Career page but no jobs", "Job Found" exactly at its stage |
| Scraper6.Run | scraper6.py:114-159 | the first 120 rows staged with their statuses |
| Scraper6.ScrapeJobsFacts | scraper6.py:76-110 | at most three postings with distinct URLs, each page loaded, titles of at least nine characters, date and missing location "Not Defined" |
| Scraper6.JobFoundHasJobs | scraper6.py:147-158 | a row marked "Job Found" has between one and three jobs |
| Scraper3.StatusOf | scraper3.py:136-166 | each of the four statuses exactly at its stage |
| Scraper3.Run | scraper3.py:126-167 | the first 40 rows staged with their statuses |
| Scraper3.NumberJobs | scraper3.py:158-164 | the numbered columns receive the jobs in order, at most seven, without gaps |
| Scraper3.ScrapeJobsFacts | scraper3.py:79-121 | at most seven postings with distinct URLs, each page loaded, titles of at least nine characters, no date, location "Not specified" or a token on the page |
| Scraper3.NothingDropped | scraper3.py:158-164 | the seven-column limit never drops a job, since the extractor stops at seven |
| Scraper.CareerPageFacts | scraper.py:40-50 | no page when the homepage does not answer 200; otherwise the resolved href of the first link with a keyword in its lower-cased href, and none exactly when no link has one (no probes, link text ignored) |
| Scraper.DetectAtsIsCaseSensitive | scraper.py:53-54 | `detect_ats` looks for the ATS keywords in the URL as written, so a URL without lower-case letters is never taken for an ATS page |
| Scraper.ScrapeAtsJobs | scraper.py:61-83 | the loop returns exactly the first three qualifying links' records |
| Scraper.FirstAtsMatches | scraper.py:67-81 | the loop, which breaks once three records are kept, returns the first three qualifying links' records |
| Scraper.AtsMatches | scraper.py:67-78 | one record per qualifying link at most |
| Scraper.AtsMatchesOrigin | scraper.py:67-78 | every record is built from a qualifying link of the page |
| Scraper.AtsJobsFacts | scraper.py:61-83 | at most three records, none when the page fails, each from a link with text longer than five characters and "job" in its lower-cased href, location "Not specified", source "Career Page" |
| Scraper.AtsKeepsRepeats | scraper.py:67-81 | the same job link twice gives the same record twice: no de-duplication |
| Scraper.ScrapeSimpleJobs | scraper.py:86-108 | the loop over the first ten blocks returns exactly `SimpleJobs` |
| Scraper.FirstSimpleMatches | scraper.py:94-106 | the loop, which breaks once three records are kept, returns the records of the first three blocks longer than ten characters |
| Scraper.SimpleMatches | scraper.py:94-103 | one record per block at most |
| Scraper.SimpleMatchesOrigin | scraper.py:94-103 | every record is a block longer than ten characters, linked to the page |
| Scraper.SimpleJobsFacts | scraper.py:86-108 | at most three records, each one of the page's first ten blocks longer than ten characters, linked to the page itself |
| Scraper.FallbackIndeed | scraper.py:111-119 | exactly one record, for the company, source "Indeed", linking to an Indeed search for the company |
| Scraper.RowJobs | scraper.py:134-161 | the loop body computes the row's records |
| Scraper.RunScraper | scraper.py:126-161 | the first 30 rows, their records concatenated in row order |
| Scraper.RowsJobs | scraper.py:134-161 | the row loop concatenates each row's records, in row order |
| Scraper.RowRecordsFacts | scraper.py:138-161 | a non-string website adds nothing; any other row adds one to three records of its company, and the Indeed record exactly when no careers page was found or it gave nothing |
| Scraper.StringRows | scraper.py:138-139 | the number of rows with a string website is at most the number of rows |
| Scraper.AllRecordsCount | scraper.py:126-161 | at least one and at most three records per row with a string website |
| Scraper.AllRecordsCompanies | scraper.py:126-161 | every record names a company of the rows |
| TwoPhase.PagePosting | scraper2.py:104-118 | the record of a loaded page has its URL, no date, the page's `<h1>` as title when it has one and the default otherwise, and the default or a token of the page as location |
| TwoPhase.Loaded | scraper2.py:99-102 | the reference filter of the links whose page loads, in order, never longer than its input |
| TwoPhase.LoadedMembers | scraper2.py:99-102 | a link is kept exactly when it was collected and its page loads |
| TwoPhase.CollectLinks | scraper2.py:83-94 | the first loop collects every candidate's resolved href, repeats included |
| TwoPhase.FetchEach | scraper2.py:98-118 | the second loop returns one record per kept link whose page loads |
| TwoPhase.CollectThenFetch | scraper2.py:78-120 | `scrape_jobs` of scraper2.py returns `Collected` |
| TwoPhase.PageJobsFacts | scraper2.py:98-118 | the records' URLs are the links that load, in order, each record built from its own page |
| TwoPhase.LoadedIsSubsequence | scraper2.py:98-103 | the links that load keep their order |
| TwoPhase.CollectedFacts | scraper2.py:78-120 | nothing when the listing page fails; at most three records with distinct URLs, which are the loaded ones among the first three distinct candidates |
| TwoPhase.LoadedIsFetchable | scraper2.py:100-102 | the page-load filter is the one the one-pass extractor applies |
| TwoPhase.LoadedOfTake | scraper2.py:96-102 | truncating before dropping failed pages gives a prefix of dropping first and truncating after |
| TwoPhase.PrefixOfOnePass | scraper2.py:96-120 | the collect-then-fetch extractor finds a prefix of what the one-pass extractor with the same filter finds |
| TwoPhase.FailedPageNotReplaced | scraper2.py:96-102 | when the first distinct candidate fails and the next three load, it gives two records where the one-pass extractor gives three |

## Left out

- HTTP, HTML parsing, spreadsheet reading and writing, `print`,
  `time.sleep` and `random.uniform` are not modelled. The network is the
  `Web` oracle; a page is reduced to its links, text, first `<h1>` and
  block texts. Column layout, dtype coercion and the methodology sheets
  are I/O.
- `datetime.now()` in `job_date` (Scraper8.py) is the `today` parameter.
  The timestamps of the output file names are I/O.
- `urljoin` and `urlparse(...).netloc` are oracle functions. Only the slug
  derived from the host is modelled.
- `lower` and `\w` are modelled for ASCII only; `strip()` and `\s` use Python's full whitespace set.
- The location regular expressions are a case-insensitive search for
  literal tokens. `On[- ]site` is its two spellings. The date expression
  is modelled as a search for "Posted" followed by optional whitespace and
  word characters, or a 2024/2025 year bounded by non-word characters.
- Extract.SplitTitleLocation: the title is only bounded in length. The
  exact result of `replace(loc, "")` followed by `strip(" -–,")` is
  computed but not stated.
- The exception of `urlparse` is modelled only in `linkedin_jobs` and
  `linkedin_detected`, as the oracle answering None.
- Scraper8.Run, Scraper5.Run: the single-key sorts are unstable
  quicksorts. Only "sorted by priority, ties in some order" is promised,
  although the model computes the stable order.
- Scraper8.py checks its cap with `==`. The model's cap check is reached
  with a cap of at least one, which makes `==` and `>=` agree.
- Which cells are written is not modelled. This covers the careers and
  listing page cells, the job cells (except scraper3.py's numbering loop),
  Scraper8.py's "Job Status" cell, and the detection of the
  "Scraping Status" column. Statuses and ranks are modelled as computed
  values.
- The input column is an abstract row. `str(row["Startup"])`,
  `row.iloc[1]` versus `row["Website URL"]`, and scraper.py's
  `row.get("Company Name") or row.get("Company")` are all taken as given
  values of that row.
- scraper6.py writing a temporary file and moving it over the input file
  is I/O.
