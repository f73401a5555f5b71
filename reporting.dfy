/** The report `analyze` returns (analyzer.py:148-300) as a function of what
    it gathered: the crawled pages, each page's DOM checks, each page's
    broken-link report and the security scan of the entry URL.

    The DOM checks themselves (analyzer.py:388-730) and the network part of
    `check_security` are taken as given: a page's `PageChecks` are the issues,
    good notes and suggestions its checkers found, and only the score
    arithmetic on them is modelled. */
module Reporting {
  import opened Common
  import opened Config
  import opened Dedup
  import opened Crawler
  import opened LinkProbe
  import opened Scoring

  /** What one per-page checker found. */
  datatype Findings = Findings(issues: seq<Issue>, good: seq<string>)

  datatype Suggestion = Suggestion(category: string, suggestion: string, priority: string, description: string)

  /** The five per-page checkers' findings and the improvement suggestions
      for one page. */
  datatype PageChecks = PageChecks(performance: Findings, rendering: Findings, seo: Findings,
                                   accessibility: Findings, mobile: Findings,
                                   suggestions: seq<Suggestion>)

  datatype Check = Performance | Rendering | Seo | Accessibility | Mobile

  function Pick(c: PageChecks, k: Check): Findings {
    match k
    case Performance => c.performance
    case Rendering => c.rendering
    case Seo => c.seo
    case Accessibility => c.accessibility
    case Mobile => c.mobile
  }

  /** A checker's score: `max(0, 100 - len(issues) * d)` with the checker's
      deduction (analyzer.py:438, 577, 633, 675), and the severity-weighted
      formula for rendering (analyzer.py:507-512). A page without issues
      scores 100; every other checker than rendering scores 100 only then. */
  function CheckScore(k: Check, f: Findings): (r: int)
    ensures 0 <= r <= 100
    ensures f.issues == [] ==> r == 100
    ensures k != Rendering && r == 100 ==> f.issues == []
  {
    match k
    case Performance => DeductionScore(|f.issues|, PerfDeductionPerIssue)
    case Rendering => RenderScore(f.issues)
    case Seo => DeductionScore(|f.issues|, SeoDeductionPerIssue)
    case Accessibility => DeductionScore(|f.issues|, AccDeductionPerIssue)
    case Mobile => DeductionScore(|f.issues|, MobDeductionPerIssue)
  }

  // ---------------------------------------------------------------------------
  // Security (entry URL only)

  /** Issues and passed checks found by one part of `check_security`. */
  datatype ScanPart = ScanPart(issues: seq<Issue>, passed: seq<string>)

  /** What the network part of `check_security` found. When the GET of the
      entry URL succeeds: the header checks (analyzer.py:748-759), the
      mixed-content and certificate checks (analyzer.py:761-782), which run
      only for an https entry URL, and the exposed-file and cookie checks
      (analyzer.py:784-809). A part that raised ends with the "Security Check
      Failed" issue and the parts after it are empty. When the GET raises,
      only its message is known (analyzer.py:811-813). */
  datatype SecurityScan =
    | Fetched(headers: ScanPart, tls: ScanPart, later: ScanPart)
    | Unreachable(message: string)

  datatype SecurityResult = SecurityResult(issues: seq<Issue>, passed: seq<string>, score: int)

  const NoHttps: Issue := Issue("No HTTPS", "Website is not using HTTPS encryption", "high", "")

  function ScanFailed(message: string): Issue {
    Issue("Security Check Failed", "Could not complete security analysis: " + message, "high", "")
  }

  /** `check_security`: an entry URL that does not start with "https://"
      costs the "No HTTPS" issue, which comes first, and skips the TLS part
      of the scan; otherwise "HTTPS enabled" is the first passed check. A
      failed GET adds the failure issue. The score deducts 15 per issue. */
  function CheckSecurity(url: string, scan: SecurityScan): (r: SecurityResult)
    ensures !StartsWith(url, "https://") && scan.Fetched? ==>
              r.issues == [NoHttps] + scan.headers.issues + scan.later.issues &&
              r.passed == scan.headers.passed + scan.later.passed
    ensures StartsWith(url, "https://") && scan.Fetched? ==>
              r.issues == scan.headers.issues + scan.tls.issues + scan.later.issues &&
              r.passed == ["HTTPS enabled"] + scan.headers.passed + scan.tls.passed + scan.later.passed
    ensures scan.Unreachable? ==>
              r.issues == (if StartsWith(url, "https://") then [] else [NoHttps]) + [ScanFailed(scan.message)] &&
              r.passed == (if StartsWith(url, "https://") then ["HTTPS enabled"] else [])
    ensures r.score == DeductionScore(|r.issues|, SecurityDeductionPerIssue)
    ensures !StartsWith(url, "https://") ==> r.score <= 100 - SecurityDeductionPerIssue
    ensures 0 <= r.score <= 100
    ensures r.score == 100 <==> r.issues == []
  {
    var https := StartsWith(url, "https://");
    var first := if https then ScanPart([], ["HTTPS enabled"]) else ScanPart([NoHttps], []);
    var rest :=
      match scan
      case Unreachable(message) => ScanPart([ScanFailed(message)], [])
      case Fetched(headers, tls, later) =>
        var t := if https then tls else ScanPart([], []);
        ScanPart(headers.issues + t.issues + later.issues, headers.passed + t.passed + later.passed);
    var issues := first.issues + rest.issues;
    SecurityResult(issues, first.passed + rest.passed, DeductionScore(|issues|, SecurityDeductionPerIssue))
  }

  /** An http entry URL is never charged for what the TLS checks found: its
      verdict is the same whatever the TLS part holds. */
  lemma HttpIgnoresTls(url: string, headers: ScanPart, tls: ScanPart, tls': ScanPart, later: ScanPart)
    requires !StartsWith(url, "https://")
    ensures CheckSecurity(url, Fetched(headers, tls, later)) == CheckSecurity(url, Fetched(headers, tls', later))
    ensures forall i :: 0 <= i < |CheckSecurity(url, Fetched(headers, tls, later)).issues| ==>
              CheckSecurity(url, Fetched(headers, tls, later)).issues[i] in [NoHttps] + headers.issues + later.issues
  {
  }

  /** An unreachable entry URL scores 85 over https and 70 over http. */
  lemma UnreachableScores(url: string, message: string)
    ensures CheckSecurity(url, Unreachable(message)).score ==
            if StartsWith(url, "https://") then 85 else 70
  {
  }

  // ---------------------------------------------------------------------------
  // Accumulation over the pages

  /** One category's accumulators: `agg_<c>_issues`, `agg_<c>_good` and
      `<c>_scores`. */
  datatype Acc = Acc(issues: seq<Issue>, good: seq<string>, scores: seq<int>)

  const NoAcc: Acc := Acc([], [], [])

  /** The extend/extend/append of one page's findings. */
  function Add(a: Acc, k: Check, f: Findings): Acc {
    Acc(a.issues + f.issues, a.good + f.good, a.scores + [CheckScore(k, f)])
  }

  /** A category's accumulators after the given pages: their issues and
      good notes one after another, and one score per page, in page order. */
  function Accumulated(checks: Page -> PageChecks, pages: seq<Page>, k: Check): (r: Acc)
    ensures |r.scores| == |pages|
    decreases |pages|
  {
    if pages == [] then NoAcc
    else Add(Accumulated(checks, pages[..|pages| - 1], k), k, Pick(checks(pages[|pages| - 1]), k))
  }

  /** The score list holds each page's own score, in page order. */
  lemma {:induction false} AccumulatedScores(checks: Page -> PageChecks, pages: seq<Page>, k: Check)
    ensures forall i :: 0 <= i < |pages| ==>
              Accumulated(checks, pages, k).scores[i] == CheckScore(k, Pick(checks(pages[i]), k))
    decreases |pages|
  {
    if pages != [] {
      var init := pages[..|pages| - 1];
      AccumulatedScores(checks, init, k);
      assert forall i :: 0 <= i < |init| ==> init[i] == pages[i];
    }
  }

  lemma AccumulatedAppend(checks: Page -> PageChecks, pages: seq<Page>, p: Page, k: Check)
    ensures Accumulated(checks, pages + [p], k) == Add(Accumulated(checks, pages, k), k, Pick(checks(p), k))
  {
    assert (pages + [p])[..|pages|] == pages;
  }

  lemma SuggestionsAppend(checks: Page -> PageChecks, pages: seq<Page>, p: Page, entry: string)
    ensures Suggestions(checks, pages + [p], entry) ==
            Suggestions(checks, pages, entry) + (if p.url == entry then checks(p).suggestions else [])
  {
    assert (pages + [p])[..|pages|] == pages;
  }

  /** The improvements of the pages whose URL is the entry URL
      (analyzer.py:241-243). */
  function Suggestions(checks: Page -> PageChecks, pages: seq<Page>, entry: string): seq<Suggestion>
    decreases |pages|
  {
    if pages == [] then []
    else
      var last := pages[|pages| - 1];
      Suggestions(checks, pages[..|pages| - 1], entry) +
      (if last.url == entry then checks(last).suggestions else [])
  }

  datatype PageSummary = PageSummary(url: string, seoScore: int, perfScore: int, accScore: int,
                                     mobScore: int, brokenCount: int)

  /** One page's row of `per_page_summary`; its broken count is the page's
      own, before the run-wide dedup. */
  function SummaryOf(p: Page, c: PageChecks, rep: LinkReport): PageSummary {
    PageSummary(p.url, CheckScore(Seo, c.seo), CheckScore(Performance, c.performance),
                CheckScore(Accessibility, c.accessibility), CheckScore(Mobile, c.mobile),
                |rep.broken|)
  }

  function Summaries(checks: Page -> PageChecks, pages: seq<Page>, reports: seq<LinkReport>): seq<PageSummary>
    requires |reports| == |pages|
  {
    seq(|pages|, i requires 0 <= i < |pages| && |reports| == |pages| => SummaryOf(pages[i], checks(pages[i]), reports[i]))
  }

  lemma SummariesAppend(checks: Page -> PageChecks, pages: seq<Page>, reports: seq<LinkReport>, p: Page, rep: LinkReport)
    requires |reports| == |pages|
    ensures Summaries(checks, pages + [p], reports + [rep]) ==
            Summaries(checks, pages, reports) + [SummaryOf(p, checks(p), rep)]
  {
  }

  function UrlsOf(pages: seq<Page>): seq<string> {
    seq(|pages|, i requires 0 <= i < |pages| => pages[i].url)
  }

  // ---------------------------------------------------------------------------
  // Broken links across the run

  function BrokenUrl(b: PageBroken): string { b.url }

  /** Every page's broken entries, page after page. */
  function AllEntries(reports: seq<LinkReport>): seq<PageBroken>
    decreases |reports|
  {
    if reports == [] then [] else AllEntries(reports[..|reports| - 1]) + reports[|reports| - 1].broken
  }

  /** `agg_broken`: the entries in order, the first one for each URL
      (analyzer.py:192-196). */
  function AllBroken(reports: seq<LinkReport>): seq<PageBroken> {
    FirstByKey(AllEntries(reports), BrokenUrl)
  }

  lemma AllEntriesAppend(reports: seq<LinkReport>, rep: LinkReport)
    ensures AllEntries(reports + [rep]) == AllEntries(reports) + rep.broken
    ensures TotalWorking(reports + [rep]) == TotalWorking(reports) + rep.workingCount
  {
    assert (reports + [rep])[..|reports|] == reports;
  }

  /** `agg_working_count` */
  function TotalWorking(reports: seq<LinkReport>): int
    decreases |reports|
  {
    if reports == [] then 0 else TotalWorking(reports[..|reports| - 1]) + reports[|reports| - 1].workingCount
  }

  /** The report `_check_broken_links_for_page` gives for page `p`: the
      verdicts of some at most 50 distinct link targets of the page, in the
      order they were probed. */
  ghost predicate ValidReport(p: Page, join: (string, string) -> string, net: string -> Exchange, rep: LinkReport) {
    exists probed: seq<string> ::
      var targets := Targets(p.url, p.resp.resources, join);
      |probed| == (if |targets| < MaxLinksPerPage then |targets| else MaxLinksPerPage) &&
      (forall k :: 0 <= k < |probed| ==> probed[k] in targets) &&
      (forall k, l :: 0 <= k < l < |probed| ==> probed[k] != probed[l]) &&
      rep.broken == BrokenOn(p.url, probed, net) &&
      rep.workingCount == CountReachable(probed, net) &&
      rep.brokenCount == |rep.broken| &&
      rep.totalChecked == |probed|
  }

  /** The inner loop over a page's broken entries (analyzer.py:192-196):
      an entry is kept when its URL has not been seen on this or an earlier
      page. `prior` are the entries of the earlier pages. */
  method MergeBroken(seen: set<string>, broken: seq<PageBroken>, items: seq<PageBroken>, ghost prior: seq<PageBroken>)
    returns (seen': set<string>, broken': seq<PageBroken>)
    requires seen == KeySet(prior, BrokenUrl) && broken == FirstByKey(prior, BrokenUrl)
    ensures seen' == KeySet(prior + items, BrokenUrl) && broken' == FirstByKey(prior + items, BrokenUrl)
  {
    seen', broken' := seen, broken;
    var j := 0;
    assert prior + items[..0] == prior;
    while j < |items|
      invariant 0 <= j <= |items|
      invariant seen' == KeySet(prior + items[..j], BrokenUrl)
      invariant broken' == FirstByKey(prior + items[..j], BrokenUrl)
    {
      var item := items[j];
      assert prior + items[..j + 1] == (prior + items[..j]) + [item];
      KeySetAppend(prior + items[..j], item, BrokenUrl);
      FirstByKeyAppend(prior + items[..j], item, BrokenUrl);
      if item.url !in seen' {
        seen' := seen' + {item.url};
        broken' := broken' + [item];
      }
      j := j + 1;
    }
    assert items[..j] == items;
  }

  /** Page `i`'s report is valid for page `i`, for every crawled page. */
  ghost predicate ValidReports(pages: seq<Page>, join: (string, string) -> string, net: string -> Exchange,
                               reports: seq<LinkReport>)
    decreases |pages|
  {
    |reports| == |pages| &&
    (pages != [] ==>
       ValidReports(pages[..|pages| - 1], join, net, reports[..|reports| - 1]) &&
       ValidReport(pages[|pages| - 1], join, net, reports[|reports| - 1]))
  }

  lemma ValidReportsAppend(pages: seq<Page>, join: (string, string) -> string, net: string -> Exchange,
                           reports: seq<LinkReport>, p: Page, rep: LinkReport)
    requires ValidReports(pages, join, net, reports) && ValidReport(p, join, net, rep)
    ensures ValidReports(pages + [p], join, net, reports + [rep])
  {
    assert (pages + [p])[..|pages|] == pages;
    assert (reports + [rep])[..|reports|] == reports;
  }

  lemma {:induction false} ValidReportsAt(pages: seq<Page>, join: (string, string) -> string, net: string -> Exchange,
                                          reports: seq<LinkReport>, i: int)
    requires ValidReports(pages, join, net, reports) && 0 <= i < |pages|
    ensures |reports| == |pages| && ValidReport(pages[i], join, net, reports[i])
    decreases |pages|
  {
    if i < |pages| - 1 {
      ValidReportsAt(pages[..|pages| - 1], join, net, reports[..|reports| - 1], i);
    }
  }

  // ---------------------------------------------------------------------------
  // The report

  datatype Category = Category(issues: seq<Issue>, good: seq<string>, score: int)

  datatype BrokenLinks = BrokenLinks(broken: seq<PageBroken>, totalChecked: int, brokenCount: int, workingCount: int)

  /** `analyze`'s result: the error dict when no page was collected, or the
      full report. Both carry the constant parts of the dict implicitly
      (`pages_crawled` 0 and `crawled_urls` empty in the error dict,
      `total_count` being the number of suggestions in the full one). */
  datatype Report =
    | NoPages(url: string, error: string)
    | Full(url: string, pagesCrawled: int, crawledUrls: seq<string>, perPage: seq<PageSummary>,
           security: Category, brokenLinks: BrokenLinks,
           performance: Category, rendering: Category, seo: Category,
           accessibility: Category, mobile: Category,
           suggestions: seq<Suggestion>)

  const NoPagesError: string := "Could not fetch any pages from this URL."

  /** A category of the report: the issues deduplicated by `_dedup_issues`,
      the good notes by `dict.fromkeys`, and the mean of the page scores. */
  function CategoryOf(a: Acc): Category {
    Category(FirstByKey(a.issues, IssueKey), FromKeys(a.good), Avg(a.scores))
  }

  function BrokenLinksOf(reports: seq<LinkReport>): BrokenLinks {
    var broken := AllBroken(reports);
    var working := TotalWorking(reports);
    BrokenLinks(broken, |broken| + working, |broken|, working)
  }

  /** The full report after a crawl that found `pages`, with one link report
      per page. */
  function FullReport(url: string, pages: seq<Page>, checks: Page -> PageChecks,
                      reports: seq<LinkReport>, sec: SecurityResult): Report
    requires |reports| == |pages|
  {
    Full(url, |pages|, UrlsOf(pages), Summaries(checks, pages, reports),
         Category(FirstByKey(sec.issues, IssueKey), FromKeys(sec.passed), Avg([sec.score])),
         BrokenLinksOf(reports),
         CategoryOf(Accumulated(checks, pages, Performance)),
         CategoryOf(Accumulated(checks, pages, Rendering)),
         CategoryOf(Accumulated(checks, pages, Seo)),
         CategoryOf(Accumulated(checks, pages, Accessibility)),
         CategoryOf(Accumulated(checks, pages, Mobile)),
         Suggestions(checks, pages, url))
  }

  // ---------------------------------------------------------------------------
  // What the report promises

  /** A category's score is the rounded mean of its page scores, so it stays
      within 0..100. */
  lemma CategoryScoreWithin(checks: Page -> PageChecks, pages: seq<Page>, k: Check)
    requires pages != []
    ensures 0 <= CategoryOf(Accumulated(checks, pages, k)).score <= 100
  {
    var a := Accumulated(checks, pages, k);
    AccumulatedScores(checks, pages, k);
    forall i | 0 <= i < |a.scores| ensures 0 <= a.scores[i] <= 100 {
      assert a.scores[i] == CheckScore(k, Pick(checks(pages[i]), k));
    }
    AvgWithin(a.scores, 0, 100);
  }

  /** The report's security score is the verdict's (which `CheckSecurity`
      keeps within 0..100, 15 off per issue), and its five page categories
      score within 0..100. */
  lemma ReportScoresWithin(url: string, pages: seq<Page>, checks: Page -> PageChecks,
                           reports: seq<LinkReport>, sec: SecurityResult)
    requires pages != [] && |reports| == |pages|
    ensures var r := FullReport(url, pages, checks, reports, sec);
            r.security.score == sec.score &&
            0 <= r.performance.score <= 100 && 0 <= r.rendering.score <= 100 &&
            0 <= r.seo.score <= 100 && 0 <= r.accessibility.score <= 100 &&
            0 <= r.mobile.score <= 100
  {
    AvgSingleton(sec.score);
    CategoryScoreWithin(checks, pages, Performance);
    CategoryScoreWithin(checks, pages, Rendering);
    CategoryScoreWithin(checks, pages, Seo);
    CategoryScoreWithin(checks, pages, Accessibility);
    CategoryScoreWithin(checks, pages, Mobile);
  }

  /** The report lists the crawled pages in crawl order, one summary per
      page with that page's own scores and broken count. */
  lemma ReportShape(url: string, pages: seq<Page>, checks: Page -> PageChecks,
                    reports: seq<LinkReport>, sec: SecurityResult)
    requires |reports| == |pages|
    ensures var r := FullReport(url, pages, checks, reports, sec);
            r.pagesCrawled == |r.crawledUrls| == |r.perPage| == |pages| &&
            forall i :: 0 <= i < |pages| ==>
              r.crawledUrls[i] == pages[i].url && r.perPage[i].url == pages[i].url &&
              r.perPage[i].brokenCount == |reports[i].broken| &&
              r.perPage[i].seoScore == CheckScore(Seo, checks(pages[i]).seo) &&
              r.perPage[i].perfScore == CheckScore(Performance, checks(pages[i]).performance) &&
              r.perPage[i].accScore == CheckScore(Accessibility, checks(pages[i]).accessibility) &&
              r.perPage[i].mobScore == CheckScore(Mobile, checks(pages[i]).mobile)
  {
  }

  /** An entry is in the concatenation exactly when it is in one page's list. */
  lemma {:induction false} AllEntriesMember(reports: seq<LinkReport>, e: PageBroken)
    ensures e in AllEntries(reports) <==> exists i :: 0 <= i < |reports| && e in reports[i].broken
    decreases |reports|
  {
    if reports != [] {
      var init := reports[..|reports| - 1];
      AllEntriesMember(init, e);
      if exists i :: 0 <= i < |init| && e in init[i].broken {
        var i :| 0 <= i < |init| && e in init[i].broken;
        assert reports[i] == init[i];
      }
    }
  }

  lemma {:induction false} FirstByKeyShorter<T, K>(s: seq<T>, key: T -> K)
    ensures |FirstByKey(s, key)| <= |s|
    decreases |s|
  {
    if s != [] {
      FirstByKeyShorter(s[..|s| - 1], key);
    }
  }

  /** Every element of a first-by-key dedup comes from its input. */
  lemma {:induction false} FirstByKeyFrom<T, K>(s: seq<T>, key: T -> K, x: T)
    requires x in FirstByKey(s, key)
    ensures x in s
    decreases |s|
  {
    var init := s[..|s| - 1];
    if x in FirstByKey(init, key) {
      FirstByKeyFrom(init, key, x);
      assert init <= s;
    }
  }

  /** The run-wide broken list: one entry per broken URL, the first page's
      entry kept, no URL lost; every entry is an unreachable link target of
      the page it names; the totals add up and never exceed the page
      reports'. */
  lemma BrokenLinksProperties(url: string, pages: seq<Page>, checks: Page -> PageChecks,
                              reports: seq<LinkReport>, sec: SecurityResult,
                              join: (string, string) -> string, net: string -> Exchange)
    requires ValidReports(pages, join, net, reports)
    ensures var b := FullReport(url, pages, checks, reports, sec).brokenLinks;
            var all := AllEntries(reports);
            DistinctKeys(b.broken, BrokenUrl) &&
            KeySet(b.broken, BrokenUrl) == KeySet(all, BrokenUrl) &&
            (forall i :: 0 <= i < |all| && FirstOccurrence(all, BrokenUrl, i) ==> all[i] in b.broken) &&
            b.brokenCount == |b.broken| <= |all| &&
            b.totalChecked == b.brokenCount + b.workingCount &&
            forall e :: e in b.broken ==>
              !Reachable(net(e.url)) &&
              exists i :: 0 <= i < |pages| && e.foundOn == pages[i].url &&
                          e.url in Targets(pages[i].url, pages[i].resp.resources, join)
  {
    var all := AllEntries(reports);
    var broken := AllBroken(reports);
    FirstByKeyDistinct(all, BrokenUrl);
    FirstByKeyKeys(all, BrokenUrl);
    FirstByKeyShorter(all, BrokenUrl);
    forall i | 0 <= i < |all| && FirstOccurrence(all, BrokenUrl, i) ensures all[i] in broken {
      FirstByKeyKeepsFirst(all, BrokenUrl, i);
    }
    forall e | e in broken
      ensures !Reachable(net(e.url)) &&
              exists i :: 0 <= i < |pages| && e.foundOn == pages[i].url &&
                          e.url in Targets(pages[i].url, pages[i].resp.resources, join)
    {
      FirstByKeyFrom(all, BrokenUrl, e);
      AllEntriesMember(reports, e);
      var i :| 0 <= i < |reports| && e in reports[i].broken;
      ValidReportsAt(pages, join, net, reports, i);
      EntryOfValidReport(pages[i], join, net, reports[i], e);
    }
  }

  /** An entry of a page's report is an unreachable target of that page. */
  lemma EntryOfValidReport(p: Page, join: (string, string) -> string, net: string -> Exchange,
                           rep: LinkReport, e: PageBroken)
    requires ValidReport(p, join, net, rep) && e in rep.broken
    ensures !Reachable(net(e.url)) && e.foundOn == p.url && e.url in Targets(p.url, p.resp.resources, join)
  {
    var targets := Targets(p.url, p.resp.resources, join);
    var probed: seq<string> :|
      |probed| == (if |targets| < MaxLinksPerPage then |targets| else MaxLinksPerPage) &&
      (forall k :: 0 <= k < |probed| ==> probed[k] in targets) &&
      (forall k, l :: 0 <= k < l < |probed| ==> probed[k] != probed[l]) &&
      rep.broken == BrokenOn(p.url, probed, net) &&
      rep.workingCount == CountReachable(probed, net) &&
      rep.brokenCount == |rep.broken| &&
      rep.totalChecked == |probed|;
    BrokenOnSplit(p.url, probed, net);
    var k :| 0 <= k < |rep.broken| && rep.broken[k] == e;
    var j :| 0 <= j < |probed| && probed[j] == e.url;
  }

  /** Improvements come from the entry page only: every suggestion belongs to
      a crawled page whose URL is the entry URL, and there are none when no
      such page was crawled. */
  lemma {:induction false} SuggestionsFromEntry(checks: Page -> PageChecks, pages: seq<Page>, entry: string)
    ensures forall s :: s in Suggestions(checks, pages, entry) ==>
              exists i :: 0 <= i < |pages| && pages[i].url == entry && s in checks(pages[i]).suggestions
    ensures (forall i :: 0 <= i < |pages| ==> pages[i].url != entry) ==> Suggestions(checks, pages, entry) == []
    decreases |pages|
  {
    if pages != [] {
      var init := pages[..|pages| - 1];
      SuggestionsFromEntry(checks, init, entry);
      forall s | s in Suggestions(checks, pages, entry)
        ensures exists i :: 0 <= i < |pages| && pages[i].url == entry && s in checks(pages[i]).suggestions
      {
        if s in Suggestions(checks, init, entry) {
          var i :| 0 <= i < |init| && init[i].url == entry && s in checks(init[i]).suggestions;
          assert pages[i] == init[i];
        } else {
          assert pages[|pages| - 1].url == entry;
        }
      }
      if forall i :: 0 <= i < |pages| ==> pages[i].url != entry {
        assert forall i :: 0 <= i < |init| ==> init[i] == pages[i];
      }
    }
  }

  /** An entry page crawled once, first, is the only source of suggestions. */
  lemma EntryFirstSuggestions(checks: Page -> PageChecks, pages: seq<Page>, entry: string)
    requires pages != [] && pages[0].url == entry
    requires forall i :: 1 <= i < |pages| ==> pages[i].url != entry
    ensures Suggestions(checks, pages, entry) == checks(pages[0]).suggestions
    decreases |pages|
  {
    if |pages| > 1 {
      var init := pages[..|pages| - 1];
      EntryFirstSuggestions(checks, init, entry);
    }
  }
}
