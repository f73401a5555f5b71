/** The breadth-first crawl of `WebsiteAnalyzer.crawl_site` (analyzer.py:88-144)
    as a function on the crawl state: one `Step` per dequeued URL, and `Crawl`
    which repeats it until the frontier is empty or the page budget is met.
    The imperative loop in module Analyzer is proved equal to `Crawl`; the
    lemmas here state what the crawl promises.

    The network and the URL library are parameters (`Web`): `fetch` is the
    outcome of `session.get` after redirects (`None` for any exception),
    `parse` is `urlparse`, `unparse` is `geturl`, `join` is `urljoin`
    (reference resolution, section 5.2 of RFC 3986). None of them is
    interpreted. */
module Crawler {
  import opened Common
  import opened Urls

  /** A tag carrying a link: its `href` and `src` attributes ("" when absent). */
  datatype Resource = Resource(href: string, src: string)

  /** What the analyzer uses of a fetched response: the post-redirect URL
      (`resp.url`), the `content-type` header ("" when absent), the `href`
      of every `<a href>` in document order, and the href/src of every
      `<a>`, `<link>`, `<script>` and `<img>` tag. */
  datatype Response = Response(finalUrl: string, contentType: string,
                               anchors: seq<string>, resources: seq<Resource>)

  /** A crawled page: the URL as it was dequeued (before redirects) and its response. */
  datatype Page = Page(url: string, resp: Response)

  datatype Web = Web(fetch: string -> Option<Response>,
                     parse: string -> Url,
                     unparse: Url -> string,
                     join: (string, string) -> string)

  datatype CrawlState = CrawlState(queue: seq<string>, visited: set<string>, pages: seq<Page>,
                                   allowed: set<string>, base: string)

  /** The visited-set key of the crawler, `_normalise_url`: parse, normalise
      the record, print it back. The crawl below is written for any key function `key`, so that
      its lemmas hold whatever the key; the analyzer runs it with this one. */
  function NormaliseKey(web: Web): string -> string {
    u => NormaliseUrl(web, u)
  }

  /** `_normalise_url(u)` */
  function NormaliseUrl(web: Web, u: string): string {
    web.unparse(Normalise(web.parse(u)))
  }

  /** `urlparse(resp.url).netloc.lower()` */
  function EffectiveHost(web: Web, r: Response): string {
    Lower(web.parse(r.finalUrl).netloc)
  }

  predicate IsHtml(r: Response) {
    Contains(r.contentType, "text/html")
  }

  /** The href prefixes the crawler never follows. */
  predicate NonNavigable(href: string) {
    StartsWith(href, "#") || StartsWith(href, "mailto:") || StartsWith(href, "tel:") ||
    StartsWith(href, "javascript:") || StartsWith(href, "data:")
  }

  /** The normalised URL, parsed again, is http(s) with an allowed netloc. */
  predicate InScope(web: Web, key: string, allowed: set<string>) {
    var p := web.parse(key);
    (p.scheme == "http" || p.scheme == "https") && p.netloc in allowed
  }

  /** `href`, found on a page whose response is `r`, leads the crawler to
      queue the string `u`, given the allowed domains. */
  ghost predicate Follows(web: Web, key: string -> string, allowed: set<string>, r: Response, href: string, u: string) {
    !NonNavigable(href) && u == web.join(r.finalUrl, href) && key(u) != "" && InScope(web, key(u), allowed)
  }

  /** `u` is the target of some followed link on some page of `pages`. */
  ghost predicate Discovered(web: Web, key: string -> string, u: string, pages: seq<Page>, allowed: set<string>) {
    exists k, j :: 0 <= k < |pages| && 0 <= j < |pages[k].resp.anchors| &&
                   Follows(web, key, allowed, pages[k].resp, pages[k].resp.anchors[j], u)
  }

  /** The inner `for tag in soup.find_all("a", href=True)` loop (analyzer.py:119-138):
      the new visited set and queue. */
  function FollowLinks(web: Web, key: string -> string, allowed: set<string>, r: Response, hrefs: seq<string>,
                       visited: set<string>, queue: seq<string>): (set<string>, seq<string>)
    decreases |hrefs|
  {
    if hrefs == [] then (visited, queue)
    else
      var href := hrefs[0];
      var full := web.join(r.finalUrl, href);
      var k := key(full);
      if !NonNavigable(href) && k != "" && InScope(web, k, allowed) && k !in visited
      then FollowLinks(web, key, allowed, r, hrefs[1..], visited + {k}, queue + [full])
      else FollowLinks(web, key, allowed, r, hrefs[1..], visited, queue)
  }

  /** One iteration of the `while queue and len(pages) < self.max_pages` loop
      (analyzer.py:98-141). */
  function Step(web: Web, key: string -> string, st: CrawlState): (r: CrawlState)
    requires st.queue != []
    ensures |r.pages| == |st.pages| + 1 || (r.pages == st.pages && |r.queue| == |st.queue| - 1)
  {
    var current, rest := st.queue[0], st.queue[1..];
    match web.fetch(current)
    case None => st.(queue := rest)
    case Some(resp) =>
      var host := EffectiveHost(web, resp);
      var learned := host != "" && host !in st.allowed;
      var allowed := if learned then st.allowed + {host} else st.allowed;
      var base := if learned && st.pages == [] then host else st.base;
      if !IsHtml(resp) then st.(queue := rest, allowed := allowed, base := base)
      else
        var (visited, queue) := FollowLinks(web, key, allowed, resp, resp.anchors, st.visited, rest);
        CrawlState(queue, visited, st.pages + [Page(current, resp)], allowed, base)
  }

  /** The whole crawl from state `st`. */
  function Crawl(web: Web, key: string -> string, maxPages: int, st: CrawlState): (r: CrawlState)
    ensures r.queue == [] || |r.pages| >= maxPages
    decreases maxPages - |st.pages|, |st.queue|
  {
    if st.queue == [] || |st.pages| >= maxPages then st
    else Crawl(web, key, maxPages, Step(web, key, st))
  }

  /** The URLs the crawl from `st` dequeues, in order. */
  function Dequeued(web: Web, key: string -> string, maxPages: int, st: CrawlState): seq<string>
    decreases maxPages - |st.pages|, |st.queue|
  {
    if st.queue == [] || |st.pages| >= maxPages then []
    else [st.queue[0]] + Dequeued(web, key, maxPages, Step(web, key, st))
  }

  /** The state `crawl_site` starts from: the entry URL queued, its key
      visited, no pages, and the allowed domains and base domain as the
      analyzer holds them. */
  function Init(web: Web, key: string -> string, url: string, allowed: set<string>, base: string): CrawlState {
    CrawlState([url], {key(url)}, [], allowed, base)
  }

  /** The page a fetch of `u` contributes: one when it succeeds with an HTML
      content type, none otherwise. */
  function PageOf(web: Web, u: string): seq<Page> {
    match web.fetch(u)
    case Some(r) => if IsHtml(r) then [Page(u, r)] else []
    case None => []
  }

  function HtmlPages(web: Web, urls: seq<string>): seq<Page>
    decreases |urls|
  {
    if urls == [] then [] else HtmlPages(web, urls[..|urls| - 1]) + PageOf(web, urls[|urls| - 1])
  }

  // ---------------------------------------------------------------------------
  // FollowLinks

  lemma {:induction false} FollowLinksGrows(web: Web, key: string -> string, allowed: set<string>, r: Response, hrefs: seq<string>,
                                            visited: set<string>, queue: seq<string>)
    ensures var (v, q) := FollowLinks(web, key, allowed, r, hrefs, visited, queue);
            visited <= v && |queue| <= |q| && q[..|queue|] == queue
    decreases |hrefs|
  {
    if hrefs != [] {
      var full := web.join(r.finalUrl, hrefs[0]);
      var k := key(full);
      if !NonNavigable(hrefs[0]) && k != "" && InScope(web, k, allowed) && k !in visited {
        FollowLinksGrows(web, key, allowed, r, hrefs[1..], visited + {k}, queue + [full]);
        var (v, q) := FollowLinks(web, key, allowed, r, hrefs[1..], visited + {k}, queue + [full]);
        assert q[..|queue|] == (q[..|queue| + 1])[..|queue|];
      } else {
        FollowLinksGrows(web, key, allowed, r, hrefs[1..], visited, queue);
      }
    }
  }

  /** The normalised keys of a list of URL strings. */
  ghost function KeysOf(key: string -> string, s: seq<string>): set<string>
    decreases |s|
  {
    if s == [] then {} else KeysOf(key, s[..|s| - 1]) + {key(s[|s| - 1])}
  }

  /** No two URLs of `s` share a key. */
  ghost predicate UniqueKeys(key: string -> string, s: seq<string>) {
    forall i, j {:trigger key(s[i]), key(s[j])} :: 0 <= i < j < |s| ==> key(s[i]) != key(s[j])
  }

  ghost predicate FollowedFrom(web: Web, key: string -> string, allowed: set<string>, r: Response, hrefs: seq<string>, u: string) {
    exists j :: 0 <= j < |hrefs| && Follows(web, key, allowed, r, hrefs[j], u)
  }

  lemma KeysOfAppend(key: string -> string, s: seq<string>, x: string)
    ensures KeysOf(key, s + [x]) == KeysOf(key, s) + {key(x)}
    ensures key(x) !in KeysOf(key, s) && UniqueKeys(key, s) ==> UniqueKeys(key, s + [x])
  {
    assert (s + [x])[..|s|] == s;
    if key(x) !in KeysOf(key, s) && UniqueKeys(key, s) {
      forall i | 0 <= i < |s| ensures key(s[i]) != key(x) {
        KeysOfMember(key, s, i);
      }
    }
  }

  lemma {:induction false} KeysOfMember(key: string -> string, s: seq<string>, i: int)
    requires 0 <= i < |s|
    ensures key(s[i]) in KeysOf(key, s)
    decreases |s|
  {
    if i < |s| - 1 {
      KeysOfMember(key, s[..|s| - 1], i);
    }
  }

  lemma SplitAt<T>(s: seq<T>, i: int)
    requires 0 <= i < |s|
    ensures s[i..] == [s[i]] + s[i + 1..]
  {
  }

  /** With `history` the URLs queued so far (keys pairwise distinct, and
      exactly the visited set), the links a page adds keep both facts. */
  lemma {:induction false} FollowLinksKeys(web: Web, key: string -> string, allowed: set<string>, r: Response, hrefs: seq<string>,
                                           visited: set<string>, queue: seq<string>, history: seq<string>)
    requires KeysOf(key, history) == visited && UniqueKeys(key, history)
    ensures var res := FollowLinks(web, key, allowed, r, hrefs, visited, queue);
            |queue| <= |res.1| &&
            KeysOf(key, history + res.1[|queue|..]) == res.0 &&
            UniqueKeys(key, history + res.1[|queue|..])
    decreases |hrefs|
  {
    var res := FollowLinks(web, key, allowed, r, hrefs, visited, queue);
    FollowLinksGrows(web, key, allowed, r, hrefs, visited, queue);
    if hrefs == [] {
      assert history + res.1[|queue|..] == history;
    } else {
      var full := web.join(r.finalUrl, hrefs[0]);
      var k := key(full);
      if !NonNavigable(hrefs[0]) && k != "" && InScope(web, k, allowed) && k !in visited {
        KeysOfAppend(key, history, full);
        FollowLinksKeys(web, key, allowed, r, hrefs[1..], visited + {k}, queue + [full], history + [full]);
        FollowLinksGrows(web, key, allowed, r, hrefs[1..], visited + {k}, queue + [full]);
        assert res.1[..|queue| + 1] == queue + [full];
        assert res.1[|queue|] == (res.1[..|queue| + 1])[|queue|];
        SplitAt(res.1, |queue|);
        assert history + res.1[|queue|..] == (history + [full]) + res.1[|queue + [full]|..];
      } else {
        FollowLinksKeys(web, key, allowed, r, hrefs[1..], visited, queue, history);
      }
    }
  }

  /** Every URL a page adds is the `urljoin` of one of its followed hrefs. */
  lemma {:induction false} FollowLinksTargets(web: Web, key: string -> string, allowed: set<string>, r: Response, hrefs: seq<string>,
                                              visited: set<string>, queue: seq<string>)
    ensures var res := FollowLinks(web, key, allowed, r, hrefs, visited, queue);
            forall i :: |queue| <= i < |res.1| ==> FollowedFrom(web, key, allowed, r, hrefs, res.1[i])
    decreases |hrefs|
  {
    if hrefs != [] {
      var res := FollowLinks(web, key, allowed, r, hrefs, visited, queue);
      var full := web.join(r.finalUrl, hrefs[0]);
      var k := key(full);
      var admitted := !NonNavigable(hrefs[0]) && k != "" && InScope(web, k, allowed) && k !in visited;
      var queue' := if admitted then queue + [full] else queue;
      var visited' := if admitted then visited + {k} else visited;
      assert res == FollowLinks(web, key, allowed, r, hrefs[1..], visited', queue');
      FollowLinksTargets(web, key, allowed, r, hrefs[1..], visited', queue');
      FollowLinksGrows(web, key, allowed, r, hrefs[1..], visited', queue');
      forall i | |queue| <= i < |res.1| ensures FollowedFrom(web, key, allowed, r, hrefs, res.1[i]) {
        if i < |queue'| {
          assert res.1[i] == res.1[..|queue'|][i] == full;
          assert Follows(web, key, allowed, r, hrefs[0], res.1[i]);
        } else {
          var j :| 0 <= j < |hrefs[1..]| && Follows(web, key, allowed, r, hrefs[1..][j], res.1[i]);
          assert Follows(web, key, allowed, r, hrefs[j + 1], res.1[i]);
        }
      }
    }
  }

  // ---------------------------------------------------------------------------
  // The frontier invariant

  /** `done` is what has been dequeued so far; `done + st.queue` is every URL
      ever queued. Its first entry is the entry URL, no two entries share a
      key, their keys are exactly the visited set, and every entry after the
      first is the target of a followed link on a collected page. */
  ghost predicate FrontierInv(web: Web, key: string -> string, url: string, done: seq<string>, st: CrawlState) {
    var h := done + st.queue;
    |h| > 0 && h[0] == url &&
    KeysOf(key, h) == st.visited &&
    UniqueKeys(key, h) &&
    AllDiscovered(web, key, h, st.pages, st.allowed)
  }

  /** Every entry of `h` after the first is discovered on `pages`. */
  ghost predicate AllDiscovered(web: Web, key: string -> string, h: seq<string>, pages: seq<Page>, allowed: set<string>) {
    forall i {:trigger Discovered(web, key, h[i], pages, allowed)} ::
      1 <= i < |h| ==> Discovered(web, key, h[i], pages, allowed)
  }

  lemma DiscoveredMono(web: Web, key: string -> string, u: string, pages: seq<Page>, allowed: set<string>,
                       pages': seq<Page>, allowed': set<string>)
    requires Discovered(web, key, u, pages, allowed)
    requires |pages| <= |pages'| && pages'[..|pages|] == pages && allowed <= allowed'
    ensures Discovered(web, key, u, pages', allowed')
  {
    var k, j :| 0 <= k < |pages| && 0 <= j < |pages[k].resp.anchors| &&
                Follows(web, key, allowed, pages[k].resp, pages[k].resp.anchors[j], u);
    assert pages'[k] == pages'[..|pages|][k] == pages[k];
    assert Follows(web, key, allowed', pages'[k].resp, pages'[k].resp.anchors[j], u);
  }

  /** A URL dequeued without producing a page keeps the invariant. */
  lemma StepFrontierSkip(web: Web, key: string -> string, url: string, done: seq<string>, st: CrawlState, st': CrawlState)
    requires st.queue != [] && FrontierInv(web, key, url, done, st)
    requires st'.queue == st.queue[1..] && st'.visited == st.visited && st'.pages == st.pages
    requires st.allowed <= st'.allowed
    ensures FrontierInv(web, key, url, done + [st.queue[0]], st')
  {
    var h := done + st.queue;
    assert st.queue == [st.queue[0]] + st.queue[1..];
    assert (done + [st.queue[0]]) + st'.queue == h;
    forall i | 1 <= i < |h| ensures Discovered(web, key, h[i], st'.pages, st'.allowed) {
      DiscoveredMono(web, key, h[i], st.pages, st.allowed, st'.pages, st'.allowed);
    }
  }

  /** The URLs queued so far stay discovered when a page is appended, and
      the URLs that page adds are discovered on it. */
  lemma DiscoveredAfterPage(web: Web, key: string -> string, h: seq<string>, added: seq<string>,
                            pages: seq<Page>, allowed: set<string>, p: Page, allowed': set<string>)
    requires allowed <= allowed'
    requires AllDiscovered(web, key, h, pages, allowed)
    requires forall i :: 0 <= i < |added| ==> FollowedFrom(web, key, allowed', p.resp, p.resp.anchors, added[i])
    ensures AllDiscovered(web, key, h + added, pages + [p], allowed')
  {
    var pages' := pages + [p];
    assert pages'[..|pages|] == pages;
    forall i | 1 <= i < |h + added| ensures Discovered(web, key, (h + added)[i], pages', allowed') {
      if i < |h| {
        assert Discovered(web, key, h[i], pages, allowed);
        DiscoveredMono(web, key, h[i], pages, allowed, pages', allowed');
      } else {
        var u := added[i - |h|];
        var j :| 0 <= j < |p.resp.anchors| && Follows(web, key, allowed', p.resp, p.resp.anchors[j], u);
        assert pages'[|pages|] == p;
      }
    }
  }

  /** A URL dequeued as an HTML page keeps the invariant: the links it adds
      are new keys, and each is discovered on that page. */
  lemma StepFrontierPage(web: Web, key: string -> string, url: string, done: seq<string>, st: CrawlState,
                         resp: Response, allowed: set<string>, base: string)
    requires st.queue != [] && FrontierInv(web, key, url, done, st)
    requires st.allowed <= allowed
    ensures var res := FollowLinks(web, key, allowed, resp, resp.anchors, st.visited, st.queue[1..]);
            FrontierInv(web, key, url, done + [st.queue[0]],
                        CrawlState(res.1, res.0, st.pages + [Page(st.queue[0], resp)], allowed, base))
  {
    var rest := st.queue[1..];
    var res := FollowLinks(web, key, allowed, resp, resp.anchors, st.visited, rest);
    var h := done + st.queue;
    FollowLinksGrows(web, key, allowed, resp, resp.anchors, st.visited, rest);
    var added := res.1[|rest|..];
    var h' := (done + [st.queue[0]]) + res.1;
    assert h' == h + added by {
      assert st.queue == [st.queue[0]] + rest;
      assert res.1 == rest + added by { assert res.1[..|rest|] == rest; }
    }
    assert KeysOf(key, h') == res.0 && UniqueKeys(key, h') by {
      FollowLinksKeys(web, key, allowed, resp, resp.anchors, st.visited, rest, h);
    }
    assert AllDiscovered(web, key, h', st.pages + [Page(st.queue[0], resp)], allowed) by {
      FollowLinksTargets(web, key, allowed, resp, resp.anchors, st.visited, rest);
      forall i | 0 <= i < |added| ensures FollowedFrom(web, key, allowed, resp, resp.anchors, added[i]) {
        assert added[i] == res.1[|rest| + i];
      }
      DiscoveredAfterPage(web, key, h, added, st.pages, st.allowed, Page(st.queue[0], resp), allowed);
    }
    assert h'[0] == url by { assert h'[0] == h[0]; }
  }

  lemma StepFrontier(web: Web, key: string -> string, url: string, done: seq<string>, st: CrawlState)
    requires st.queue != [] && FrontierInv(web, key, url, done, st)
    ensures FrontierInv(web, key, url, done + [st.queue[0]], Step(web, key, st))
  {
    var st' := Step(web, key, st);
    var current := st.queue[0];
    if web.fetch(current).Some? && IsHtml(web.fetch(current).value) {
      var resp := web.fetch(current).value;
      StepFrontierPage(web, key, url, done, st, resp, st'.allowed, st'.base);
    } else {
      StepSkip(web, key, st);
      StepFrontierSkip(web, key, url, done, st, st');
    }
  }

  /** Induction over the crawl: a property of (dequeued-so-far, state) that
      every step preserves holds of the final state. */
  lemma {:induction false} CrawlInduction(web: Web, key: string -> string, maxPages: int,
                                          inv: (seq<string>, CrawlState) -> bool,
                                          done: seq<string>, st: CrawlState)
    requires forall d: seq<string>, s: CrawlState :: s.queue != [] && inv(d, s) ==> inv(d + [s.queue[0]], Step(web, key, s))
    requires inv(done, st)
    ensures inv(done + Dequeued(web, key, maxPages, st), Crawl(web, key, maxPages, st))
    decreases maxPages - |st.pages|, |st.queue|
  {
    if st.queue == [] || |st.pages| >= maxPages {
      assert done + Dequeued(web, key, maxPages, st) == done;
    } else {
      var st' := Step(web, key, st);
      var done' := done + [st.queue[0]];
      CrawlInduction(web, key, maxPages, inv, done', st');
      CrawlUnfold(web, key, maxPages, st);
      assert done + Dequeued(web, key, maxPages, st) == done' + Dequeued(web, key, maxPages, st');
    }
  }

  lemma CrawlFrontier(web: Web, key: string -> string, maxPages: int, url: string, done: seq<string>, st: CrawlState)
    requires FrontierInv(web, key, url, done, st)
    ensures FrontierInv(web, key, url, done + Dequeued(web, key, maxPages, st), Crawl(web, key, maxPages, st))
  {
    var inv := (d: seq<string>, s: CrawlState) => FrontierInv(web, key, url, d, s);
    forall d: seq<string>, s: CrawlState | s.queue != [] && inv(d, s) ensures inv(d + [s.queue[0]], Step(web, key, s)) {
      StepFrontier(web, key, url, d, s);
    }
    CrawlInduction(web, key, maxPages, inv, done, st);
  }

  /** One step of `Crawl` and `Dequeued`. */
  /** A crawl whose loop guard fails returns its state. */
  lemma CrawlStops(web: Web, key: string -> string, maxPages: int, st: CrawlState)
    requires st.queue == [] || |st.pages| >= maxPages
    ensures Crawl(web, key, maxPages, st) == st
  {
  }

  lemma CrawlUnfold(web: Web, key: string -> string, maxPages: int, st: CrawlState)
    requires st.queue != [] && |st.pages| < maxPages
    ensures Crawl(web, key, maxPages, st) == Crawl(web, key, maxPages, Step(web, key, st))
    ensures Dequeued(web, key, maxPages, st) == [st.queue[0]] + Dequeued(web, key, maxPages, Step(web, key, st))
  {
  }

  /** No key is queued twice. Among all URLs the crawl ever queues (those it
      dequeued followed by those left in the frontier) the first is the entry
      URL, no two share a normalised key, the final visited set is exactly
      their keys, and every other one is the un-normalised `urljoin` of a
      followed href (allowed prefix, http(s) scheme, netloc in the allowed
      set) found on a crawled page. */
  lemma CrawlNeverRequeues(web: Web, key: string -> string, maxPages: int, url: string, allowed: set<string>, base: string)
    ensures var st := Init(web, key, url, allowed, base);
            var r := Crawl(web, key, maxPages, st);
            var queued := Dequeued(web, key, maxPages, st) + r.queue;
            |queued| > 0 && queued[0] == url &&
            (forall i, j :: 0 <= i < j < |queued| ==> key(queued[i]) != key(queued[j])) &&
            r.visited == KeysOf(key, queued) &&
            forall i :: 1 <= i < |queued| ==> Discovered(web, key, queued[i], r.pages, r.allowed)
  {
    var st := Init(web, key, url, allowed, base);
    KeysOfAppend(key, [], url);
    assert [] + [url] == [url];
    assert KeysOf(key, []) == {};
    assert [] + st.queue == [url];
    CrawlFrontier(web, key, maxPages, url, [], st);
    assert [] + Dequeued(web, key, maxPages, st) == Dequeued(web, key, maxPages, st);
  }

  // ---------------------------------------------------------------------------
  // Pages, budget, domains

  /** The collected pages are exactly the successful HTML fetches among the
      dequeued URLs, in dequeue order; a failed fetch or a non-HTML response
      adds nothing. */
  /** A step whose fetch fails or is not HTML only dequeues. */
  lemma StepSkip(web: Web, key: string -> string, st: CrawlState)
    requires st.queue != [] && PageOf(web, st.queue[0]) == []
    ensures var r := Step(web, key, st);
            r.queue == st.queue[1..] && r.visited == st.visited && r.pages == st.pages &&
            st.allowed <= r.allowed
  {
  }

  /** One step adds the page its fetch contributes. */
  lemma StepPages(web: Web, key: string -> string, st: CrawlState)
    requires st.queue != []
    ensures Step(web, key, st).pages == st.pages + PageOf(web, st.queue[0])
  {
  }

  lemma CrawlPages(web: Web, key: string -> string, maxPages: int, st: CrawlState)
    ensures Crawl(web, key, maxPages, st).pages == st.pages + HtmlPages(web, Dequeued(web, key, maxPages, st))
  {
    var inv := (d: seq<string>, s: CrawlState) => s.pages == st.pages + HtmlPages(web, d);
    forall d: seq<string>, s: CrawlState | s.queue != [] && inv(d, s)
      ensures inv(d + [s.queue[0]], Step(web, key, s))
    {
      StepPages(web, key, s);
      assert (d + [s.queue[0]])[..|d|] == d;
    }
    assert inv([], st);
    CrawlInduction(web, key, maxPages, inv, [], st);
    assert [] + Dequeued(web, key, maxPages, st) == Dequeued(web, key, maxPages, st);
  }

  /** Every collected page comes from a successful fetch of its own URL with
      an HTML content type. */
  lemma {:induction false} HtmlPagesAreFetched(web: Web, urls: seq<string>)
    ensures forall k :: 0 <= k < |HtmlPages(web, urls)| ==>
              var p := HtmlPages(web, urls)[k];
              p.url in urls && web.fetch(p.url) == Some(p.resp) && IsHtml(p.resp)
    decreases |urls|
  {
    if urls != [] {
      var init := urls[..|urls| - 1];
      HtmlPagesAreFetched(web, init);
      var hp := HtmlPages(web, urls);
      var front := HtmlPages(web, init);
      forall k | 0 <= k < |hp|
        ensures hp[k].url in urls && web.fetch(hp[k].url) == Some(hp[k].resp) && IsHtml(hp[k].resp)
      {
        if k < |front| {
          assert hp[k] == front[k];
          assert hp[k].url in init;
        }
      }
    }
  }

  /** The page budget: at most `maxPages` pages (none when it is not positive). */
  lemma {:induction false} CrawlBudget(web: Web, key: string -> string, maxPages: int, st: CrawlState)
    requires |st.pages| <= maxPages || st.pages == []
    ensures var r := Crawl(web, key, maxPages, st);
            (|r.pages| <= maxPages || r.pages == []) &&
            (maxPages <= 0 ==> r.pages == st.pages)
    decreases maxPages - |st.pages|, |st.queue|
  {
    if !(st.queue == [] || |st.pages| >= maxPages) {
      CrawlBudget(web, key, maxPages, Step(web, key, st));
    }
  }

  /** The lower-cased, non-empty post-redirect host of a successful fetch
      of `u`, if any. */
  function HostOf(web: Web, u: string): set<string> {
    match web.fetch(u)
    case None => {}
    case Some(r) => if EffectiveHost(web, r) == "" then {} else {EffectiveHost(web, r)}
  }

  function FetchedHosts(web: Web, urls: seq<string>): set<string>
    decreases |urls|
  {
    if urls == [] then {} else FetchedHosts(web, urls[..|urls| - 1]) + HostOf(web, urls[|urls| - 1])
  }

  /** The hosts fetched up to and including the first HTML page of `urls`. */
  function HostsBeforeFirstPage(web: Web, urls: seq<string>): set<string>
    decreases |urls|
  {
    if urls == [] then {}
    else
      var init := urls[..|urls| - 1];
      if HtmlPages(web, init) != [] then HostsBeforeFirstPage(web, init)
      else HostsBeforeFirstPage(web, init) + HostOf(web, urls[|urls| - 1])
  }

  /** One step adds to the allowed domains exactly the host its fetch learns. */
  lemma StepAllowed(web: Web, key: string -> string, st: CrawlState)
    requires st.queue != []
    ensures Step(web, key, st).allowed == st.allowed + HostOf(web, st.queue[0])
  {
  }

  /** `base_domain` changes in a step only before the first page, and only
      to the host that step learns. */
  lemma StepBase(web: Web, key: string -> string, st: CrawlState)
    requires st.queue != []
    ensures var b := Step(web, key, st).base;
            b == st.base || (st.pages == [] && b in HostOf(web, st.queue[0]))
  {
  }

  /** The allowed-domain set at the end is the initial one plus the
      lower-cased, non-empty post-redirect host of every successful fetch. */
  lemma CrawlAllowed(web: Web, key: string -> string, maxPages: int, st: CrawlState)
    ensures Crawl(web, key, maxPages, st).allowed == st.allowed + FetchedHosts(web, Dequeued(web, key, maxPages, st))
  {
    var inv := (d: seq<string>, s: CrawlState) => s.allowed == st.allowed + FetchedHosts(web, d);
    forall d: seq<string>, s: CrawlState | s.queue != [] && inv(d, s)
      ensures inv(d + [s.queue[0]], Step(web, key, s))
    {
      StepAllowed(web, key, s);
      assert (d + [s.queue[0]])[..|d|] == d;
    }
    assert inv([], st);
    CrawlInduction(web, key, maxPages, inv, [], st);
    assert [] + Dequeued(web, key, maxPages, st) == Dequeued(web, key, maxPages, st);
  }

  /** The `base_domain` a crawl from `st` ends with after dequeuing `urls`:
      while no page has been collected, every successful fetch whose host is
      new to the allowed set (the initial one plus the hosts fetched before
      it) overrides it, the fetch of the first page included; after that it
      stays. */
  function LearnedBase(web: Web, st: CrawlState, urls: seq<string>): string
    decreases |urls|
  {
    if urls == [] then st.base
    else
      var init := urls[..|urls| - 1];
      var before := LearnedBase(web, st, init);
      match web.fetch(urls[|urls| - 1])
      case None => before
      case Some(r) =>
        var host := EffectiveHost(web, r);
        if st.pages == [] && HtmlPages(web, init) == [] && host != "" &&
           host !in st.allowed + FetchedHosts(web, init)
        then host else before
  }

  /** `base_domain` is overridden only while no HTML page has been collected,
      and then by a host learned at or before the first HTML page: exactly
      the last one of those that was new to the allowed set. */
  lemma CrawlBase(web: Web, key: string -> string, maxPages: int, st: CrawlState)
    ensures var r := Crawl(web, key, maxPages, st);
            r.base == LearnedBase(web, st, Dequeued(web, key, maxPages, st)) &&
            (r.base == st.base ||
             (st.pages == [] && r.base in HostsBeforeFirstPage(web, Dequeued(web, key, maxPages, st))))
  {
    var inv := (d: seq<string>, s: CrawlState) => BaseInv(web, st, d, s);
    forall d: seq<string>, s: CrawlState | s.queue != [] && inv(d, s)
      ensures inv(d + [s.queue[0]], Step(web, key, s))
    {
      StepBaseInv(web, key, st, d, s);
    }
    assert st.pages + HtmlPages(web, []) == st.pages;
    assert st.allowed + FetchedHosts(web, []) == st.allowed;
    assert BaseInv(web, st, [], st);
    CrawlInduction(web, key, maxPages, inv, [], st);
    assert [] + Dequeued(web, key, maxPages, st) == Dequeued(web, key, maxPages, st);
    LearnedBaseWithin(web, st, Dequeued(web, key, maxPages, st));
  }

  /** What a crawl from `st` has done to the pages, the allowed set and the
      base domain once `d` has been dequeued. */
  predicate BaseInv(web: Web, st: CrawlState, d: seq<string>, s: CrawlState) {
    s.pages == st.pages + HtmlPages(web, d) &&
    s.allowed == st.allowed + FetchedHosts(web, d) &&
    s.base == LearnedBase(web, st, d)
  }

  lemma StepBaseInv(web: Web, key: string -> string, st: CrawlState, d: seq<string>, s: CrawlState)
    requires s.queue != [] && BaseInv(web, st, d, s)
    ensures BaseInv(web, st, d + [s.queue[0]], Step(web, key, s))
  {
    StepPages(web, key, s);
    StepAllowed(web, key, s);
    StepLearned(web, key, st, d, s);
    assert (d + [s.queue[0]])[..|d|] == d;
  }

  /** The learned base is the initial one or a host fetched at or before
      the first page. */
  lemma {:induction false} LearnedBaseWithin(web: Web, st: CrawlState, urls: seq<string>)
    ensures var b := LearnedBase(web, st, urls);
            b == st.base || (st.pages == [] && b in HostsBeforeFirstPage(web, urls))
    decreases |urls|
  {
    if urls != [] {
      LearnedBaseWithin(web, st, urls[..|urls| - 1]);
    }
  }

  /** One step moves the base domain as `LearnedBase` says. */
  lemma StepLearned(web: Web, key: string -> string, st: CrawlState, d: seq<string>, s: CrawlState)
    requires s.queue != [] && s.pages == st.pages + HtmlPages(web, d)
    requires s.allowed == st.allowed + FetchedHosts(web, d) && s.base == LearnedBase(web, st, d)
    ensures Step(web, key, s).base == LearnedBase(web, st, d + [s.queue[0]])
  {
    var d' := d + [s.queue[0]];
    assert d'[..|d|] == d;
    assert s.pages == [] <==> st.pages == [] && HtmlPages(web, d) == [];
  }

  /** Two redirecting non-HTML responses before the first page: the base
      domain is the host of the last of them, not of the first. */
  lemma RedirectsBeforeFirstPage(web: Web, st: CrawlState, a: string, b: string, ra: Response, rb: Response)
    requires st.pages == [] && web.fetch(a) == Some(ra) && web.fetch(b) == Some(rb)
    requires !IsHtml(ra) && EffectiveHost(web, ra) != "" && EffectiveHost(web, ra) !in st.allowed
    requires EffectiveHost(web, rb) != "" && EffectiveHost(web, rb) !in st.allowed + {EffectiveHost(web, ra)}
    ensures LearnedBase(web, st, [a, b]) == EffectiveHost(web, rb)
  {
    assert [a, b][..1] == [a];
    assert [a][..0] == [];
  }

  /** A page none of whose hrefs is navigable and in scope queues nothing. */
  lemma {:induction false} FollowLinksNothingInScope(web: Web, key: string -> string, allowed: set<string>, r: Response, hrefs: seq<string>,
                                                     visited: set<string>, queue: seq<string>)
    requires forall j :: 0 <= j < |hrefs| ==>
               NonNavigable(hrefs[j]) || web.parse(key(web.join(r.finalUrl, hrefs[j]))).netloc !in allowed
    ensures FollowLinks(web, key, allowed, r, hrefs, visited, queue).1 == queue
    decreases |hrefs|
  {
    if hrefs != [] {
      FollowLinksNothingInScope(web, key, allowed, r, hrefs[1..], visited, queue);
    }
  }

  /** A single-page site: an HTML entry page none of whose links is internal
      yields exactly that page and an empty frontier. */
  lemma SinglePageSite(web: Web, key: string -> string, maxPages: int, url: string, allowed: set<string>, base: string, r: Response)
    requires maxPages >= 1
    requires web.fetch(url) == Some(r) && IsHtml(r)
    requires forall j :: 0 <= j < |r.anchors| ==>
               NonNavigable(r.anchors[j]) ||
               web.parse(key(web.join(r.finalUrl, r.anchors[j]))).netloc !in allowed + {EffectiveHost(web, r)}
    ensures var c := Crawl(web, key, maxPages, Init(web, key, url, allowed, base));
            c.pages == [Page(url, r)] && c.queue == []
  {
    var st := Init(web, key, url, allowed, base);
    var st' := Step(web, key, st);
    var host := EffectiveHost(web, r);
    var allowed' := if host != "" && host !in allowed then allowed + {host} else allowed;
    FollowLinksNothingInScope(web, key, allowed', r, r.anchors, st.visited, st.queue[1..]);
    assert st.queue[1..] == [];
    assert st'.queue == [];
    assert Crawl(web, key, maxPages, st) == Crawl(web, key, maxPages, st');
  }

  /** The entry host is allowed as written, not lower-cased, while every key
      netloc is lower-cased: an entry host with an upper-case letter admits
      no link by itself. */
  lemma UppercaseEntryHostAdmitsNothing(web: Web, host: string, u: string)
    requires !IsLower(host)
    // `urlparse` gives back the record `geturl` printed
    requires var n := Normalise(web.parse(u)); web.parse(web.unparse(n)) == n
    ensures !InScope(web, NormaliseKey(web)(u), {host})
  {
    NormaliseShape(web.parse(u));
  }
}
