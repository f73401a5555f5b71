/** `WebsiteAnalyzer` (analyzer.py:45-300): the entry URL, the page budget,
    the allowed domains and the base domain it learns while crawling, and
    the progress callback, whose calls are recorded in `events` in the
    order they are made. */
module Analyzer {
  import opened Common
  import opened Numerals
  import opened Urls
  import opened Crawler
  import opened LinkProbe
  import opened Scoring
  import opened Dedup
  import opened Reporting

  /** One call of the progress callback, by the message it carries;
      `Stage` and `Detail` give the two strings passed. */
  datatype Event =
    | Starting(maxPages: int)
    | Crawled(count: nat, maxPages: int, url: string)
    | CrawlComplete(count: nat)
    | CheckingSecurity
    | Analysing(index: nat, total: nat, url: string)
    | Finished

  function Stage(e: Event): string {
    match e
    case Starting(_) => "crawling"
    case Crawled(_, _, _) => "crawling"
    case CrawlComplete(_) => "crawling"
    case CheckingSecurity => "security"
    case Analysing(_, _, _) => "analysing"
    case Finished => "done"
  }

  function Detail(e: Event): string {
    match e
    case Starting(maxPages) => "Starting BFS crawl (max " + IntStr(maxPages) + " pages)"
    case Crawled(count, maxPages, u) => "Crawled " + NatStr(count) + "/" + IntStr(maxPages) + ": " + u
    case CrawlComplete(count) => "Crawl complete — " + NatStr(count) + " page(s) found"
    case CheckingSecurity => "Checking security headers & SSL"
    case Analysing(index, total, u) => "Analysing page " + NatStr(index) + "/" + NatStr(total) + ": " + u
    case Finished => "Analysis complete"
  }

  /** One "Crawled k/max" event per collected page, k counting from 1. */
  function CrawledEvents(maxPages: int, pages: seq<Page>): seq<Event> {
    seq(|pages|, i requires 0 <= i < |pages| => Crawled(i + 1, maxPages, pages[i].url))
  }

  /** The events of `crawl_site`: the start, one per page, the summary. */
  function CrawlEvents(maxPages: int, pages: seq<Page>): seq<Event> {
    [Starting(maxPages)] + CrawledEvents(maxPages, pages) + [CrawlComplete(|pages|)]
  }

  /** One "Analysing page i/total" event per page, i counting from 1. */
  function AnalysingEvents(pages: seq<Page>, total: nat): seq<Event> {
    seq(|pages|, i requires 0 <= i < |pages| => Analysing(i + 1, total, pages[i].url))
  }

  lemma AnalysingEventsAppend(pages: seq<Page>, p: Page, total: nat)
    ensures AnalysingEvents(pages + [p], total) == AnalysingEvents(pages, total) + [Analysing(|pages| + 1, total, p.url)]
  {
  }

  lemma CrawledEventsAppend(maxPages: int, pages: seq<Page>, p: Page)
    ensures CrawledEvents(maxPages, pages + [p]) == CrawledEvents(maxPages, pages) + [Crawled(|pages| + 1, maxPages, p.url)]
  {
  }

  lemma AppendAssoc<T>(a: seq<T>, b: seq<T>, c: seq<T>)
    ensures (a + b) + c == a + (b + c)
  {
  }

  lemma TakeNext<T>(s: seq<T>, i: int)
    requires 0 <= i < |s|
    ensures s[..i + 1] == s[..i] + [s[i]]
  {
  }

  /** The events `analyze` adds after a crawl that found pages. */
  function AnalysisEvents(pages: seq<Page>): seq<Event> {
    [CheckingSecurity] + AnalysingEvents(pages, |pages|) + [Finished]
  }

  /** The `return {...}` of `analyze` (analyzer.py:254-300) from the
      accumulators of the page loop: each category's issues through
      `_dedup_issues`, its good notes through `dict.fromkeys`, its score the
      mean of the page scores. */
  method AssembleReport(url: string, pages: seq<Page>, checks: Page -> PageChecks, ghost reports: seq<LinkReport>,
                        sec: SecurityResult, perf: Acc, render: Acc, seo: Acc, acc: Acc, mob: Acc,
                        suggestions: seq<Suggestion>, summaries: seq<PageSummary>,
                        broken: seq<PageBroken>, working: int)
    returns (report: Report)
    requires |reports| == |pages|
    requires perf == Accumulated(checks, pages, Performance) && render == Accumulated(checks, pages, Rendering)
    requires seo == Accumulated(checks, pages, Seo) && acc == Accumulated(checks, pages, Accessibility)
    requires mob == Accumulated(checks, pages, Mobile)
    requires suggestions == Suggestions(checks, pages, url)
    requires summaries == Summaries(checks, pages, reports)
    requires broken == AllBroken(reports) && working == TotalWorking(reports)
    ensures report == FullReport(url, pages, checks, reports, sec)
  {
    var secIssues := DedupIssues(sec.issues);
    var perfIssues := DedupIssues(perf.issues);
    var renderIssues := DedupIssues(render.issues);
    var seoIssues := DedupIssues(seo.issues);
    var accIssues := DedupIssues(acc.issues);
    var mobIssues := DedupIssues(mob.issues);
    var security := Category(secIssues, FromKeys(sec.passed), Avg([sec.score]));
    var brokenLinks := BrokenLinks(broken, |broken| + working, |broken|, working);
    var performance := Category(perfIssues, FromKeys(perf.good), Avg(perf.scores));
    var rendering := Category(renderIssues, FromKeys(render.good), Avg(render.scores));
    var seoCategory := Category(seoIssues, FromKeys(seo.good), Avg(seo.scores));
    var accessibility := Category(accIssues, FromKeys(acc.good), Avg(acc.scores));
    var mobile := Category(mobIssues, FromKeys(mob.good), Avg(mob.scores));
    assert brokenLinks == BrokenLinksOf(reports);
    assert performance == CategoryOf(perf) && rendering == CategoryOf(render) && seoCategory == CategoryOf(seo);
    assert accessibility == CategoryOf(acc) && mobile == CategoryOf(mob);
    report := Full(url, |pages|, UrlsOf(pages), summaries, security, brokenLinks,
                   performance, rendering, seoCategory, accessibility, mobile, suggestions);
  }

  /** The broken-link part of one iteration of `analyze`'s page loop
      (analyzer.py:190-197): probe the page, merge its broken entries into
      the run-wide list, add its working count. `reports` are the earlier
      pages' link reports. */
  method ProbePage(web: Web, net: string -> Exchange, page: Page,
                   seen: set<string>, broken: seq<PageBroken>, working: int, ghost reports: seq<LinkReport>)
    returns (bl: LinkReport, seen': set<string>, broken': seq<PageBroken>, working': int)
    requires seen == KeySet(AllEntries(reports), BrokenUrl) && broken == AllBroken(reports)
    requires working == TotalWorking(reports)
    ensures ValidReport(page, web.join, net, bl)
    ensures seen' == KeySet(AllEntries(reports + [bl]), BrokenUrl) && broken' == AllBroken(reports + [bl])
    ensures working' == TotalWorking(reports + [bl])
  {
    ghost var probed;
    bl, probed := CheckBrokenLinksForPage(page.url, page.resp.resources, web.join, net);
    assert ValidReport(page, web.join, net, bl) by {
      BrokenOnSplit(page.url, probed, net);
    }
    AllEntriesAppend(reports, bl);
    seen', broken' := MergeBroken(seen, broken, bl.broken, AllEntries(reports));
    working' := working + bl.workingCount;
  }

  /** The five checker blocks of one iteration of `analyze`'s page loop
      (analyzer.py:200-238): each category's issues and good notes
      extended by the page's, and the page's score appended. `done` are the
      earlier pages. */
  method AddFindings(checks: Page -> PageChecks, page: Page, perf: Acc, render: Acc, seo: Acc, acc: Acc, mob: Acc,
                     ghost done: seq<Page>)
    returns (perf': Acc, render': Acc, seo': Acc, acc': Acc, mob': Acc)
    requires perf == Accumulated(checks, done, Performance) && render == Accumulated(checks, done, Rendering)
    requires seo == Accumulated(checks, done, Seo) && acc == Accumulated(checks, done, Accessibility)
    requires mob == Accumulated(checks, done, Mobile)
    ensures perf' == Accumulated(checks, done + [page], Performance)
    ensures render' == Accumulated(checks, done + [page], Rendering)
    ensures seo' == Accumulated(checks, done + [page], Seo)
    ensures acc' == Accumulated(checks, done + [page], Accessibility)
    ensures mob' == Accumulated(checks, done + [page], Mobile)
  {
    var c := checks(page);
    AccumulatedAppend(checks, done, page, Performance);
    AccumulatedAppend(checks, done, page, Rendering);
    AccumulatedAppend(checks, done, page, Seo);
    AccumulatedAppend(checks, done, page, Accessibility);
    AccumulatedAppend(checks, done, page, Mobile);
    perf' := Add(perf, Performance, c.performance);
    render' := Add(render, Rendering, c.rendering);
    seo' := Add(seo, Seo, c.seo);
    acc' := Add(acc, Accessibility, c.accessibility);
    mob' := Add(mob, Mobile, c.mobile);
  }

  class WebsiteAnalyzer {
    const url: string
    const maxPages: int
    var baseDomain: string
    var allowedDomains: set<string>
    var events: seq<Event>

    /** The entry netloc is both the base domain and the one allowed
        domain, as `urlparse` gives it (not lower-cased). */
    constructor (web: Web, url: string, maxPages: int)
      ensures this.url == url && this.maxPages == maxPages
      ensures baseDomain == web.parse(url).netloc
      ensures allowedDomains == {web.parse(url).netloc}
      ensures events == []
    {
      this.url := url;
      this.maxPages := maxPages;
      var parsed := web.parse(url);
      baseDomain := parsed.netloc;
      allowedDomains := {parsed.netloc};
      events := [];
    }

    /** `crawl_site`: the breadth-first crawl, proved equal to `Crawl` from
        the entry URL with the analyzer's domains, whose lemmas in module
        Crawl state what it promises. */
    method CrawlSite(web: Web) returns (pages: seq<Page>)
      modifies this
      ensures var key := NormaliseKey(web);
              var c := Crawl(web, key, maxPages, Init(web, key, url, old(allowedDomains), old(baseDomain)));
              pages == c.pages && allowedDomains == c.allowed && baseDomain == c.base
      ensures events == old(events) + CrawlEvents(maxPages, pages)
    {
      ghost var key := NormaliseKey(web);
      ghost var target := Crawl(web, key, maxPages, Init(web, key, url, allowedDomains, baseDomain));
      events := events + [Starting(maxPages)];
      ghost var events0 := events;

      var startNorm := NormaliseUrl(web, url);
      var queue := [url];
      var visited := {startNorm};
      pages := [];
      while queue != [] && |pages| < maxPages
        invariant Crawl(web, key, maxPages, CrawlState(queue, visited, pages, allowedDomains, baseDomain)) == target
        invariant events == events0 + CrawledEvents(maxPages, pages)
        decreases maxPages - |pages|, |queue|
      {
        ghost var st := CrawlState(queue, visited, pages, allowedDomains, baseDomain);
        CrawlUnfold(web, key, maxPages, st);
        var current := queue[0];
        assert queue == [current] + queue[1..];
        queue, visited, pages := Visit(web, current, queue[1..], visited, pages, events0);
      }
      CrawlStops(web, key, maxPages, CrawlState(queue, visited, pages, allowedDomains, baseDomain));
      AppendAssoc(old(events), [Starting(maxPages)], CrawledEvents(maxPages, pages));
      AppendAssoc(old(events), [Starting(maxPages)] + CrawledEvents(maxPages, pages), [CrawlComplete(|pages|)]);
      events := events + [CrawlComplete(|pages|)];
    }

    /** `analyze`: crawl, then, when pages were found, check the entry URL's
        security, run every page's checks and probes, and assemble the
        report. `checks` stands for the DOM checkers of a page, `scan` for
        the network part of `check_security`, `net` for the link probes;
        `pages` and `reports` are what the run crawled and probed. */
    method Analyze(web: Web, net: string -> Exchange, checks: Page -> PageChecks, scan: SecurityScan)
      returns (report: Report, ghost pages: seq<Page>, ghost reports: seq<LinkReport>)
      modifies this
      ensures var key := NormaliseKey(web);
              var c := Crawl(web, key, maxPages, Init(web, key, url, old(allowedDomains), old(baseDomain)));
              pages == c.pages && allowedDomains == c.allowed && baseDomain == c.base
      ensures ValidReports(pages, web.join, net, reports)
      ensures pages == [] ==> report == NoPages(url, NoPagesError) &&
                              events == old(events) + CrawlEvents(maxPages, [])
      ensures pages != [] ==> report == FullReport(url, pages, checks, reports, CheckSecurity(url, scan)) &&
                              events == old(events) + CrawlEvents(maxPages, pages) + AnalysisEvents(pages)
    {
      var crawled := CrawlSite(web);
      pages, reports := crawled, [];
      if |crawled| == 0 {
        report := NoPages(url, NoPagesError);
        return;
      }
      events := events + [CheckingSecurity];
      var sec := CheckSecurity(url, scan);
      var perf, render, seo, acc, mob, suggestions, summaries, broken, working;
      perf, render, seo, acc, mob, suggestions, summaries, broken, working, reports :=
        AnalysePages(web, net, checks, crawled);
      ghost var e1 := old(events) + CrawlEvents(maxPages, crawled);
      AppendAssoc(e1, [CheckingSecurity], AnalysingEvents(crawled, |crawled|));
      events := events + [Finished];
      AppendAssoc(e1, [CheckingSecurity] + AnalysingEvents(crawled, |crawled|), [Finished]);
      report := AssembleReport(url, crawled, checks, reports, sec, perf, render, seo, acc, mob,
                               suggestions, summaries, broken, working);
    }

    /** The `for idx, (page_url, soup, resp) in enumerate(pages, 1)` loop of
        `analyze` (analyzer.py:186-251): the accumulators after every page,
        and the link report each page got. */
    method AnalysePages(web: Web, net: string -> Exchange, checks: Page -> PageChecks, pages: seq<Page>)
      returns (perf: Acc, render: Acc, seo: Acc, acc: Acc, mob: Acc,
               suggestions: seq<Suggestion>, summaries: seq<PageSummary>,
               broken: seq<PageBroken>, working: int, ghost reports: seq<LinkReport>)
      modifies this`events
      ensures unchanged(this`allowedDomains, this`baseDomain)
      ensures ValidReports(pages, web.join, net, reports)
      ensures perf == Accumulated(checks, pages, Performance) && render == Accumulated(checks, pages, Rendering)
      ensures seo == Accumulated(checks, pages, Seo) && acc == Accumulated(checks, pages, Accessibility)
      ensures mob == Accumulated(checks, pages, Mobile)
      ensures suggestions == Suggestions(checks, pages, url)
      ensures summaries == Summaries(checks, pages, reports)
      ensures broken == AllBroken(reports) && working == TotalWorking(reports)
      ensures events == old(events) + AnalysingEvents(pages, |pages|)
    {
      perf, render, seo, acc, mob := NoAcc, NoAcc, NoAcc, NoAcc, NoAcc;
      suggestions, summaries, broken, working, reports := [], [], [], 0, [];
      var seen: set<string> := {};
      var i := 0;
      while i < |pages|
        invariant 0 <= i <= |pages| && |reports| == i
        invariant ValidReports(pages[..i], web.join, net, reports)
        invariant perf == Accumulated(checks, pages[..i], Performance) && render == Accumulated(checks, pages[..i], Rendering)
        invariant seo == Accumulated(checks, pages[..i], Seo) && acc == Accumulated(checks, pages[..i], Accessibility)
        invariant mob == Accumulated(checks, pages[..i], Mobile)
        invariant suggestions == Suggestions(checks, pages[..i], url)
        invariant summaries == Summaries(checks, pages[..i], reports)
        invariant seen == KeySet(AllEntries(reports), BrokenUrl) && broken == AllBroken(reports)
        invariant working == TotalWorking(reports)
        invariant events == old(events) + AnalysingEvents(pages[..i], |pages|)
      {
        var page := pages[i];
        ghost var done := pages[..i];
        TakeNext(pages, i);
        AnalysingEventsAppend(done, page, |pages|);
        AppendAssoc(old(events), AnalysingEvents(done, |pages|), [Analysing(i + 1, |pages|, page.url)]);
        events := events + [Analysing(i + 1, |pages|, page.url)];
        var bl;
        bl, seen, broken, working := ProbePage(web, net, page, seen, broken, working, reports);
        ValidReportsAppend(done, web.join, net, reports, page, bl);
        var c := checks(page);
        perf, render, seo, acc, mob := AddFindings(checks, page, perf, render, seo, acc, mob, done);
        SuggestionsAppend(checks, done, page, url);
        if page.url == url {
          suggestions := suggestions + c.suggestions;
        }
        SummariesAppend(checks, done, reports, page, bl);
        summaries := summaries + [SummaryOf(page, c, bl)];
        reports := reports + [bl];
        i := i + 1;
      }
      assert pages[..i] == pages;
    }

    /** One iteration of the crawl loop (analyzer.py:99-141): fetch the
        dequeued URL `current` (`queue` is the rest of the frontier), learn
        the effective domain, and for an HTML response collect the page,
        report it and follow its links. */
    method Visit(web: Web, current: string, queue: seq<string>, visited: set<string>, pages: seq<Page>,
                 ghost events0: seq<Event>)
      returns (queue': seq<string>, visited': set<string>, pages': seq<Page>)
      requires events == events0 + CrawledEvents(maxPages, pages)
      modifies this
      ensures CrawlState(queue', visited', pages', allowedDomains, baseDomain) ==
              Step(web, NormaliseKey(web), CrawlState([current] + queue, visited, pages, old(allowedDomains), old(baseDomain)))
      ensures pages' == pages + PageOf(web, current)
      ensures events == events0 + CrawledEvents(maxPages, pages')
    {
      queue', visited', pages' := queue, visited, pages;
      var fetched := web.fetch(current);
      if fetched.Some? {
        var resp := fetched.value;
        // learn the effective domain after a redirect
        var effective := Lower(web.parse(resp.finalUrl).netloc);
        if effective != "" && effective !in allowedDomains {
          allowedDomains := allowedDomains + {effective};
          if pages == [] {
            baseDomain := effective;
          }
        }
        if IsHtml(resp) {
          pages' := pages + [Page(current, resp)];
          events := events + [Crawled(|pages'|, maxPages, current)];
          CrawledEventsAppend(maxPages, pages, Page(current, resp));
          visited', queue' := FollowPageLinks(web, resp, visited, queue);
        }
      }
      assert ([current] + queue)[1..] == queue;
    }

    /** The `for tag in soup.find_all("a", href=True)` loop of
        `crawl_site` (analyzer.py:119-138) over a fetched page: the visited
        set and the queue after it. */
    method FollowPageLinks(web: Web, resp: Response, visited: set<string>, queue: seq<string>)
      returns (visited': set<string>, queue': seq<string>)
      ensures (visited', queue') == FollowLinks(web, NormaliseKey(web), allowedDomains, resp, resp.anchors, visited, queue)
    {
      visited', queue' := visited, queue;
      var hrefs := resp.anchors;
      var j := 0;
      while j < |hrefs|
        invariant 0 <= j <= |hrefs|
        invariant FollowLinks(web, NormaliseKey(web), allowedDomains, resp, hrefs[j..], visited', queue') ==
                  FollowLinks(web, NormaliseKey(web), allowedDomains, resp, hrefs, visited, queue)
      {
        var href := hrefs[j];
        assert hrefs[j..][1..] == hrefs[j + 1..];
        if !NonNavigable(href) {
          var full := web.join(resp.finalUrl, href);
          var norm := NormaliseUrl(web, full);
          if norm != "" {
            var p := web.parse(norm);
            if (p.scheme == "http" || p.scheme == "https") && p.netloc in allowedDomains && norm !in visited' {
              visited' := visited' + {norm};
              queue' := queue' + [full];   // the URL as joined, not its key
            }
          }
        }
        j := j + 1;
      }
      assert hrefs[j..] == [];
    }
  }
}
