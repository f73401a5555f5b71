# webaudit core in Dafny

webaudit audits a website in three stages:

- It crawls the site breadth-first from an entry URL, up to a page budget, keying visited URLs by a canonical form.
- It probes every page's links for breakage, with a HEAD request and a GET retry on statuses servers often send to scripts.
- It folds the per-page checker results into one report.

A small web app runs each audit as a background job. Clients poll the job's progress and then fetch the report.

This project models that core:

- the URL canonicaliser;
- the crawl;
- the link probe and its per-page fan-in;
- the report arithmetic and de-duplication;
- the job registry, covering submission, the progress percentage, the terminal updates, the TTL purge and the status and result queries.

Where the source changes state step by step, the model does too:

- `Analyzer.WebsiteAnalyzer` is a class whose fields are the analyzer's.
- `Jobs.Registry` holds the job map.
- The loops stay loops.

Each method is proved equal to a function: the crawl to `Crawler.Crawl`, the report to `Reporting.FullReport`, and a registry update to `Jobs.Purge`, `Jobs.Submitted`, `Jobs.Settled` and the like. The properties are lemmas about those functions.

Modules, one per file:

| file | module | models |
|---|---|---|
| common.dfy | Common | `Option`, prefix/contains tests, ASCII lower-casing, Python's whitespace, `rstrip`/`strip`, sums |
| config.dfy | Config | the constants of config.py at their defaults |
| numerals.dfy | Numerals | `str(n)` and `int(s)` on decimal text |
| urls.dfy | Urls | `_normalise_url` on the `urlparse` record |
| dedup.dfy | Dedup | keep-the-first-per-key de-duplication, as a function with its laws |
| crawl.dfy | Crawler | the BFS crawl as a function on the crawl state |
| probe.dfy | LinkProbe | `_probe_link` and `_check_broken_links_for_page` |
| scoring.dfy | Scoring | `_avg`, the score formulas, `_dedup_issues`, `dict.fromkeys` |
| reporting.dfy | Reporting | `check_security`'s verdict, the accumulation in `analyze`, the report |
| analyzer.dfy | Analyzer | class `WebsiteAnalyzer`: `crawl_site`, `analyze`, the progress messages |
| progress.dfy | Progress | `_STAGE_PROGRESS` and the percentage `_progress` computes |
| jobs.dfy | Jobs | the `_jobs` registry of app.py and its routes |

What is a parameter rather than code:

- **The network.** `Web.fetch` is the outcome of `session.get`, and `net(url)` is the `Exchange`, what HEAD and GET return, for a link URL. Each is one function for the whole run.
- **The URL library.** `Web.parse` is `urlparse`, `Web.unparse` is `geturl` and `Web.join` is `urljoin`.
- **The HTML checkers.** `PageChecks` holds what the checkers returned for a page, and `SecurityScan` holds what the network part of `check_security` found: the header checks, the https-only mixed-content and certificate checks, and the exposed-file and cookie checks, or the error of a GET that failed.
- **The clock.** Every `time.time()` reading is a `now: real` argument.
- **The job id.** `uuid4` is an `id` argument.
- **How an analysis ended.** `Jobs.Outcome` is either the report or the exception's message.

## Model

| member | source | states |
|---|---|---|
| Urls.NormaliseShape | analyzer.py:74-86 | the canonical URL has no fragment and a lower-case scheme and netloc; params and query are unchanged; the path is "/" or does not end in '/' |
| Urls.CanonicalPathShape | analyzer.py:82 | `path.rstrip("/") or "/"` is "/" exactly when the path is empty or all slashes; otherwise it is the path without its trailing slashes |
| Urls.CanonicalPathIdempotent | analyzer.py:82 | canonicalising a canonical path changes nothing |
| Urls.NormaliseIdempotent | analyzer.py:74-86 | normalising twice is normalising once |
| Urls.NormaliseIgnores | analyzer.py:74-86 | URLs that differ only in scheme/netloc case, fragment or trailing slashes have the same key |
| Crawler.Step | analyzer.py:97-141 | one dequeue either collects one page or drops one URL from the queue without collecting (the crawl's termination measure) |
| Crawler.Crawl | analyzer.py:97 | the crawl stops only when the queue is empty or the page budget is met |
| Crawler.CrawlPages | analyzer.py:97-116 | the pages are exactly the HTML responses among the dequeued URLs, in dequeue order |
| Crawler.HtmlPagesAreFetched | analyzer.py:99-116 | every page was dequeued and fetched with exactly that response, whose content type contains "text/html" |
| Crawler.StepSkip | analyzer.py:112-141 | a failed fetch or a non-HTML response adds no page and queues nothing |
| Crawler.StepPages | analyzer.py:112-116 | one step adds the dequeued URL's page when it is HTML, and no other |
| Crawler.CrawlBudget | analyzer.py:97 | at most `max_pages` pages are collected; a budget of 0 or less collects no further page |
| Crawler.CrawlNeverRequeues | analyzer.py:92-138 | starting from the entry URL, no two URLs ever queued share a key; the visited set is exactly their keys; every queued URL but the first was discovered on a collected page |
| Crawler.FollowLinksTargets | analyzer.py:119-138 | every URL a page queues is the un-normalised `urljoin(resp.url, href)` of a navigable href whose key is non-empty, http(s) and on an allowed host |
| Crawler.FollowLinksKeys | analyzer.py:136-138 | following a page's links keeps the queued keys pairwise distinct and equal to the visited set |
| Crawler.FollowLinksGrows | analyzer.py:136-138 | following links only adds to the visited set and only appends to the queue |
| Crawler.FollowLinksNothingInScope | analyzer.py:121-134 | when no href is navigable and on an allowed netloc, nothing is queued |
| Crawler.StepAllowed | analyzer.py:105-107 | the allowed set grows by the lower-cased non-empty post-redirect host of the fetch, and by nothing else |
| Crawler.CrawlAllowed | analyzer.py:105-107 | after the crawl, the allowed set is the initial set plus the hosts of every successful fetch |
| Crawler.StepBase | analyzer.py:108-110 | `base_domain` changes only while no page has been collected, and then to the fetched host |
| Crawler.CrawlBase | analyzer.py:103-110 | the final `base_domain` is exactly the host of the last fetch, up to and including the first page, whose host was new to the allowed set; the initial one when there is none, and unchanged once a page has been collected |
| Crawler.RedirectsBeforeFirstPage | analyzer.py:103-110 | two redirects to new hosts before the first page leave the base domain at the second host |
| Crawler.SinglePageSite | analyzer.py:88-144 | an HTML entry page whose links are all out of scope makes a one-page crawl with an empty queue |
| Crawler.UppercaseEntryHostAdmitsNothing | analyzer.py:65-133 | an entry host that is not lower-case admits no link by itself, because keys are lower-cased while the initial allowed host is not |
| LinkProbe.ProbeLink | analyzer.py:311-351 | no record exactly when the link counts as working: HEAD below 400, or a false-positive HEAD status whose GET retry is below 400 or false-positive again. A numeric status in a record is a genuine error status from HEAD or GET, outside the false-positive set. A reason taken from an exception message is at most 80 characters. Each failure gets its label and reason: the status and reason of HEAD, or of GET after a false positive; "Error"/"GET retry failed" when that GET raises; "SSL Error"; "DNS Error", "Refused" or "N/A" for a connection error by its message; "Timeout"; "Redirect Loop"; "Error" for any other request error |
| LinkProbe.NotFoundReported | analyzer.py:321-334 | a HEAD 404 is reported as (404, its reason) without a retry |
| LinkProbe.HeadRejectedGetServed | analyzer.py:322-329 | a HEAD 405 whose GET answers 200 is not broken |
| LinkProbe.RetryStatusReported | analyzer.py:328-334 | a HEAD 403 whose GET answers 404 is reported with the GET's status |
| LinkProbe.DnsFailureReported | analyzer.py:339-342 | a connection error naming an unknown host is "DNS Error"/"Domain not found" |
| LinkProbe.TargetsMember | analyzer.py:355-364 | a page's link targets are exactly the http(s) `urljoin`s of the tags' non-empty, navigable `href or src` |
| LinkProbe.BrokenOnSplit | analyzer.py:367-384 | broken plus working equals the number probed; each broken record is found on this page, is for a probed URL and is not working |
| LinkProbe.CheckBrokenLinksForPage | analyzer.py:353-384 | probes min(targets, 50) distinct targets; the broken list, working count, broken count and total checked are those of the probes, and the total checked is broken count plus working count |
| Scoring.RoundHalfEven | analyzer.py:28-29 | Python `round(n / d)`: within half a unit of the exact quotient, halves to the even neighbour |
| Scoring.AvgWithin | analyzer.py:28-29 | the average of a non-empty list lies within any bounds of its items |
| Scoring.AvgExamples | analyzer.py:28-29 | an empty list gives 0, `[80, 100]` gives 90, and halves round to even |
| Scoring.AvgSingleton | analyzer.py:263 | a one-element list averages to its element |
| Scoring.DeductionScore | analyzer.py:438 | `max(0, 100 - n*d)` is never negative, is 0 exactly when the deduction reaches 100, and is at most 100 |
| Scoring.DeductionScoreMonotone | analyzer.py:438 | more issues never raise a score |
| Scoring.DeductionScoreExamples | config.py:35-50 | the default deductions zero the performance, SEO and accessibility scores at 7, 10 and 9 issues |
| Scoring.RenderScore | analyzer.py:507-512 | the severity-weighted rendering score stays in 0..100 |
| Scoring.RenderScoreFloor | analyzer.py:507-512 | the rendering score is at least that of counting every issue as high severity |
| Scoring.RenderIgnoresUnrated | analyzer.py:507-512 | issues without a high/medium/low severity do not change the rendering score |
| Scoring.DedupIssues | analyzer.py:32-40 | the loop keeps exactly the first issue of each key `issue + description[:60]` |
| Scoring.DedupIssuesProperties | analyzer.py:32-40 | the result is an order-preserving subsequence with pairwise distinct keys and the same key set; it keeps every first occurrence and is idempotent |
| Scoring.IssueKeyCollision | analyzer.py:37 | two different issues whose names and descriptions concatenate alike are merged |
| Scoring.LongDescriptionsMerge | analyzer.py:37 | issues with the same name whose descriptions agree on their first 60 characters have the same key |
| Scoring.FromKeysProperties | analyzer.py:262 | `list(dict.fromkeys(xs))` is an order-preserving subsequence of distinct items with the same members, and idempotent |
| Dedup.FirstByKeyAppend | analyzer.py:36-39 | one more item is kept exactly when its key is new |
| Dedup.FirstByKeyKeepsFirst | analyzer.py:36-39 | the first item with each key survives |
| Dedup.FirstByKeyOfDistinct | analyzer.py:36-39 | a list whose keys are distinct is kept as it is |
| Numerals.ParseIntStr | app.py:149 | `int(str(n)) == n` |
| Numerals.ParseIntPadded | app.py:149 | `int` reads a numeral with any Python whitespace around it, such as a trailing U+001F |
| Numerals.ParseIntRejects | app.py:149 | text that starts with neither a sign nor a digit does not convert |
| Progress.StageDefault | app.py:53-67 | every stage's default percentage, table entry or fallback, lies in 5..100 |
| Progress.UnknownStage | app.py:67 | a stage outside the table gets 50 |
| Progress.DefaultStands | app.py:67-90 | without an analysing/crawling stage, a non-empty detail and an "N/M" counter with M > 0, the stage default stands |
| Progress.RefinedStages | app.py:69-90 | with a non-empty detail, "analysing" scales the counter into 40..95 and "crawling" into 10..35 |
| Progress.RefinedWithin | app.py:69-90 | the refined percentage of a counter 0 <= N <= M lies in 40..95 (analysing) and 10..35 (crawling) |
| Progress.ScaledMonotone | app.py:69-90 | a larger counter never gives a smaller percentage |
| Progress.ParseCounter | app.py:72-74 | "prefix N/M: rest" yields the counter (N, M) for any rest |
| Progress.NoCounter | app.py:72-78 | a detail without '/' yields no counter |
| Reporting.CheckScore | analyzer.py:438-675 | a checker's page score is in 0..100; it is 100 for a page without issues, and for the non-rendering checkers only then |
| Reporting.CheckSecurity | analyzer.py:734-823 | a non-https entry URL adds "No HTTPS" in front, skips the TLS checks and scores at most 85; an https one puts "HTTPS enabled" first among the passed checks and keeps the TLS checks; a failed GET adds "Security Check Failed" with its message; the score is in 0..100 and is 100 exactly when there are no issues |
| Reporting.HttpIgnoresTls | analyzer.py:761-782 | an http entry URL's verdict does not depend on what the mixed-content and certificate checks found, so it is never charged for SSL |
| Reporting.UnreachableScores | analyzer.py:811-823 | when the entry URL's GET raises, the security score is 85 over https and 70 over http |
| Reporting.AccumulatedScores | analyzer.py:199-236 | the i-th score of each category is that checker's score for the i-th page |
| Reporting.MergeBroken | analyzer.py:190-195 | the inner loop keeps the seen set and the run-wide broken list equal to the first entry per URL over all pages so far |
| Reporting.ReportScoresWithin | analyzer.py:254-300 | the report's security score is the verdict's (in 0..100 and `max(0, 100 - 15 * issues)` by `CheckSecurity`), and the other five category scores are in 0..100 |
| Reporting.BrokenLinksProperties | analyzer.py:184-270 | the run-wide broken list has distinct URLs and keeps each URL's first entry; its count is bounded by the entries; the total checked is broken plus working; each entry is unreachable and a link target of the crawled page it names |
| Reporting.SuggestionsFromEntry | analyzer.py:240-243 | suggestions come only from pages whose URL equals the entry URL; with none, there are none |
| Reporting.EntryFirstSuggestions | analyzer.py:240-243 | when only the first page is the entry page, the suggestions are its own |
| Analyzer.WebsiteAnalyzer.constructor | analyzer.py:45-66 | keeps the budget and URL; the allowed set is exactly the entry URL's parsed netloc, which is also the base domain; nothing has been reported yet |
| Analyzer.WebsiteAnalyzer.CrawlSite | analyzer.py:88-144 | the loop's pages, allowed set and base domain are those of `Crawl` from the entry URL; it emits the start, one "Crawled k/max" per page and the summary |
| Analyzer.WebsiteAnalyzer.Visit | analyzer.py:98-138 | one iteration is one `Step`, and it sends "Crawled k/max" for the page it collects |
| Analyzer.WebsiteAnalyzer.FollowPageLinks | analyzer.py:119-138 | the link loop computes `FollowLinks` with the current allowed set |
| Analyzer.WebsiteAnalyzer.Analyze | analyzer.py:148-300 | no pages give the "Could not fetch any pages" report; otherwise the full report of the crawled pages with a valid link report per page; the progress messages are the crawl's, then security, one per page, then done; the allowed and base domains end as the crawl left them |
| Analyzer.WebsiteAnalyzer.AnalysePages | analyzer.py:186-251 | the per-page loop's accumulators equal their specification functions over all pages, with one "Analysing page i/n" message per page; only the message log changes, and the allowed and base domains stay as they were |
| Analyzer.ProbePage | analyzer.py:189-196 | one page's link report is valid, and the run-wide seen set, broken list and working count now include it |
| Analyzer.AddFindings | analyzer.py:199-236 | each category accumulator now includes this page's issues, good notes and score |
| Analyzer.AssembleReport | analyzer.py:254-300 | the returned report is `FullReport`: issues through `_dedup_issues`, good notes through `dict.fromkeys`, scores averaged, the security score the average of its one score |
| Jobs.PurgeProperties | app.py:40-47 | exactly the jobs at most `JOB_TTL_SECONDS` old survive (a job aged exactly the TTL included), unchanged; purging is idempotent and keeps jobs consistent |
| Jobs.Registry.Cleanup | app.py:40-47 | deleting the stale ids one by one leaves `Purge` of the registry |
| Jobs.Clamp | app.py:149 | the page budget is in [1, 100], and equal to the request's when that already is in range |
| Jobs.WithSchemeProperties | app.py:150-155 | the URL ends up with an http(s) prefix; one that had it is kept; otherwise "https://" is put in front; idempotent |
| Jobs.SubmitRejected | app.py:147-152 | a field that does not convert gives 500 and an empty URL gives 400; neither creates a job or starts a worker |
| Jobs.SubmitAccepted | app.py:147-179 | a valid request answers 202 with the id and adds one running job (queued, 5%, no result or error, created now, http(s) URL); it leaves every other job alone and starts a worker with a budget in [1, 100] |
| Jobs.TextMaxPages | app.py:149 | a `max_pages` sent as decimal text reads as its number |
| Jobs.Registry.Submit | app.py:141-179 | the route's answer, worker and registry are those of `Submitted` |
| Jobs.ProgressUpdateProperties | app.py:92-98 | only a known job changes, only in stage, detail (`None` as "") and progress; status, result, error, creation time and URL stay |
| Jobs.Registry.UpdateProgress | app.py:66-98 | the callback leaves `ProgressUpdated` of the registry |
| Jobs.SettledProperties | app.py:101-126 | success makes the job done/"done"/"Analysis complete"/100% with the report; failure makes it error/"error"/message/100% with "Analysis failed: " + message; creation time, URL and other jobs stay; a missing job is left missing |
| Jobs.Registry.Finish | app.py:101-129 | the terminal update, then the purge of the `finally` |
| Jobs.ReplayedProperties | app.py:66-98 | a run of progress callbacks changes only the job's stage, detail and progress, and leaves the last message's |
| Jobs.Registry.RunAnalysis | app.py:63-129 | the worker is every progress callback in order, then `Finish` |
| Jobs.EventProgress | app.py:66-90 | the percentage `_progress` computes from each analyzer message: the counter of "Crawled k/m" scaled into 10..35, "Analysing page i/n" into 40..95, the stage default otherwise and when the total is not positive |
| Jobs.CrawlPercents | app.py:80-90 | during a crawl within budget the percentage stays in 10..35, never drops, and reaches 35 when the budget is used up |
| Jobs.AnalysingPercents | app.py:69-78 | while pages are analysed the percentage stays in 40..95, never drops, and reaches 95 at the last page |
| Jobs.ProgressFallsBack | app.py:53-90 | the percentage goes back twice in a run: 20% at the crawl's start, then 11% at page 1 of 20; 35% at the last page, then 20% at the summary |
| Jobs.CompletedRun | app.py:101-129 | whatever progress came first, a successful run leaves its job done at 100% with the report, and every job consistent |
| Jobs.AnalyzerRunShows | app.py:66-98 | an analysis that found pages shows "done" at 100% from its own last message; one that found none stops at 20% |
| Jobs.Registry.Status | app.py:183-203 | 404 for an unknown id; otherwise status, stage, detail and progress, with `error` present exactly when it is non-empty |
| Jobs.Registry.ResultOf | app.py:207-224 | 404 unknown; 500 with the stored error when failed; 202 with the progress while running; 200 with the report when done, and for a consistent job the report is there |

## Left out

- HTTP, TLS and sockets are parameters, not code. This covers `session.get`, `head`, timeouts, redirects, streaming and the TLS and header inspection in `check_security`.
- A network that changes during a run is not modelled. `fetch` and `net` are functions of the URL alone, so each URL has one outcome for the whole run. The source probes a link again on every page that has it (analyzer.py:189, 353-384), so in the source a footer link can work on page 1 and time out on page 2, and then it is recorded as broken where page 2 found it (analyzer.py:190-195). The model cannot express that run: there a link is broken on every page that probes it, or on none.
- The HTML checkers are not modelled: BeautifulSoup and the DOM queries of the SEO, accessibility, mobile, rendering, performance, improvements and security-header checks. Their results enter as `PageChecks` and `SecurityScan`; their score arithmetic is modelled.
- `urlparse`, `urljoin` and `geturl` are functions passed in, not reimplemented (section 5.2 of RFC 3986 is not modelled).
- The `ThreadPoolExecutor` fan-out, the worker threads and `_jobs_lock` are not modelled. Probing is a sequential fold over the probed links. Which targets are probed (the first 50 of a `set`) and the `as_completed` order are a ghost `probed` list: any order, any 50-element choice.
- Floating point is not modelled: load-time and page-size averages, the performance thresholds, and the `ratio` float in `_progress`. The percentage is the exact-rational truncation `int(base + N/M*span)`. A float rounding just below an integer boundary could give one less.
- Timestamps (`datetime.now()`) in the report, and logging, are left out.
- Exceptions raised inside the crawl's link loop, after a page was added, are not modelled. The fetch is the only failure mode of a crawl step.
- Exceptions raised by a checker or by the callback inside `analyze` are not modelled. The worker's outcome is a parameter (`Jobs.Outcome`).
- The request body is an object whose `url` and `max_pages` are absent, `null`, an integer or a string. Other JSON values are not modelled: booleans, floats (which `int()` truncates) and non-object bodies.
- `int()` digits are ASCII digits without underscores: Python also accepts other Unicode decimal digits and `_` between digits.
- `str.lower()` is ASCII-only here: non-ASCII letters in schemes, hosts and exception messages keep their case. An internationalised host such as "BÜCHER.de" gets the key host "bÜcher.de", where Python gives "bücher.de"; the same holds for the learned host (analyzer.py:105) and the DNS and refused wording tests (analyzer.py:340-344).
- The security score's `else` branch (analyzer.py:263-264) is not modelled: the list always holds one score, so the branch is never taken.
- Crawler.Crawl terminates by the measure (budget left, queue length), which needs no finite URL universe.
- Jobs.Registry.ResultOf: `"Unknown error"` as the fallback is not modelled. The error field is always present, so `job.get` returns the stored value, `None` included.
- Jobs.Registry.Finish does not require the job to exist. A purged job makes the update raise `KeyError`, and the except branch raises again; the registry is then only purged.

Behaviours of the code that its docstrings (app.py:1-9, 142-146) do not mention, and that the model keeps:

- A `max_pages` that does not convert is a server error (500), checked before the URL is. It is not a client error.
- A text `max_pages` such as "7" is accepted.
- The crawl's percentage is not monotone (`Jobs.ProgressFallsBack`).
- A job purged while it runs never reaches a terminal state.
- An empty URL gets 400 only when both fields convert.
