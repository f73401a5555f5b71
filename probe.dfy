/** Broken-link detection: `WebsiteAnalyzer._probe_link` (analyzer.py:311-351),
    the verdict for one URL, and `_check_broken_links_for_page`
    (analyzer.py:353-384), which gathers a page's link targets, keeps at most
    `MaxLinksPerPage` of them and probes each.

    The network is a parameter: `Exchange` is what the HEAD request and, if
    it is made, the follow-up GET to a URL come back with. */
module LinkProbe {
  import opened Common
  import opened Config
  import opened Crawler

  /** How the HEAD request ends (after redirects): a response, or one of the
      exception classes `_probe_link` tells apart. `ConnectionError` covers
      connect timeouts, which the HTTP library derives from it. */
  datatype HeadOutcome =
    | Status(code: int, reason: string)
    | SslError(message: string)
    | ConnectionError(message: string)
    | Timeout
    | TooManyRedirects
    | OtherRequestError(message: string)

  /** How the GET retry ends: a response, or any exception. */
  datatype GetOutcome = Got(code: int, reason: string) | Raised

  datatype Exchange = Exchange(head: HeadOutcome, get: GetOutcome)

  /** The `status_code` of a broken-link record: an HTTP status or a label. */
  datatype StatusCode = Code(n: int) | Label(text: string)

  datatype Broken = Broken(url: string, status: StatusCode, reason: string)

  /** A report entry: the probe's record with `found_on` added. */
  datatype PageBroken = PageBroken(url: string, status: StatusCode, reason: string, foundOn: string)

  datatype LinkReport = LinkReport(broken: seq<PageBroken>, totalChecked: int,
                                   brokenCount: int, workingCount: int)

  predicate IsError(code: int) {
    code >= 400
  }

  /** A link counts as working when HEAD answers below 400, or answers with a
      false-positive code and the GET retry answers below 400 or with a
      false-positive code again. Every exception makes it broken. */
  predicate Reachable(x: Exchange) {
    x.head.Status? &&
    (!IsError(x.head.code) ||
     (x.head.code in FalsePositiveCodes && x.get.Got? &&
      (!IsError(x.get.code) || x.get.code in FalsePositiveCodes)))
  }

  /** The host could not be resolved (glibc and BSD resolver wordings). */
  predicate IsDnsFailure(message: string) {
    var m := Lower(message);
    Contains(m, "name or service not known") || Contains(m, "nodename nor servname")
  }

  predicate IsRefused(message: string) {
    Contains(Lower(message), "connection refused")
  }

  function ProbeLink(link: string, x: Exchange): (r: Option<Broken>)
    ensures r.None? <==> Reachable(x)
    ensures r.Some? ==> r.value.url == link
    // a numeric status in a record is a genuine error from one of the two requests
    ensures r.Some? && r.value.status.Code? ==>
              var n := r.value.status.n;
              IsError(n) && n !in FalsePositiveCodes && x.head.Status? &&
              (n == x.head.code || (x.get.Got? && n == x.get.code))
    // a reason copied from an exception message is cut to 80 characters
    ensures r.Some? && !x.head.Status? ==> |r.value.reason| <= 80
    // the record each HEAD outcome gets
    ensures x.head.Status? && IsError(x.head.code) && x.head.code !in FalsePositiveCodes ==>
              r == Some(Broken(link, Code(x.head.code), x.head.reason))
    ensures x.head.Status? && IsError(x.head.code) && x.head.code in FalsePositiveCodes && x.get.Raised? ==>
              r == Some(Broken(link, Label("Error"), "GET retry failed"))
    ensures x.head.Status? && IsError(x.head.code) && x.head.code in FalsePositiveCodes && x.get.Got? &&
            IsError(x.get.code) && x.get.code !in FalsePositiveCodes ==>
              r == Some(Broken(link, Code(x.get.code), x.get.reason))
    ensures x.head.SslError? ==> r == Some(Broken(link, Label("SSL Error"), Take(x.head.message, 80)))
    ensures x.head.ConnectionError? && IsDnsFailure(x.head.message) ==>
              r == Some(Broken(link, Label("DNS Error"), "Domain not found"))
    ensures x.head.ConnectionError? && !IsDnsFailure(x.head.message) && IsRefused(x.head.message) ==>
              r == Some(Broken(link, Label("Refused"), "Connection refused"))
    ensures x.head.ConnectionError? && !IsDnsFailure(x.head.message) && !IsRefused(x.head.message) ==>
              r == Some(Broken(link, Label("N/A"), Take(x.head.message, 80)))
    ensures x.head.Timeout? ==> r == Some(Broken(link, Label("Timeout"), "Request timed out"))
    ensures x.head.TooManyRedirects? ==> r == Some(Broken(link, Label("Redirect Loop"), "Too many redirects"))
    ensures x.head.OtherRequestError? ==> r == Some(Broken(link, Label("Error"), Take(x.head.message, 80)))
  {
    match x.head
    case Status(code, reason) =>
      if !IsError(code) then None
      else if code !in FalsePositiveCodes then Some(Broken(link, Code(code), reason))
      else (
        match x.get
        case Raised => Some(Broken(link, Label("Error"), "GET retry failed"))
        case Got(code', reason') =>
          if !IsError(code') || code' in FalsePositiveCodes then None
          else Some(Broken(link, Code(code'), reason')))
    case SslError(message) => Some(Broken(link, Label("SSL Error"), Take(message, 80)))
    case ConnectionError(message) =>
      if IsDnsFailure(message) then Some(Broken(link, Label("DNS Error"), "Domain not found"))
      else if IsRefused(message) then Some(Broken(link, Label("Refused"), "Connection refused"))
      else Some(Broken(link, Label("N/A"), Take(message, 80)))
    case Timeout => Some(Broken(link, Label("Timeout"), "Request timed out"))
    case TooManyRedirects => Some(Broken(link, Label("Redirect Loop"), "Too many redirects"))
    case OtherRequestError(message) => Some(Broken(link, Label("Error"), Take(message, 80)))
  }

  // ---------------------------------------------------------------------------
  // Gathering a page's link targets

  /** The URL a tag contributes: its `href`, or its `src` when `href` is
      empty; skipped when empty or non-navigable; resolved against the page
      URL; kept only when the result is http(s). */
  function LinkTarget(pageUrl: string, res: Resource, join: (string, string) -> string): Option<string> {
    var u := if res.href != "" then res.href else res.src;
    if u == "" || NonNavigable(u) then None
    else
      var full := join(pageUrl, u);
      if StartsWith(full, "http://") || StartsWith(full, "https://") then Some(full) else None
  }

  /** The set of link targets of a list of tags. */
  function Targets(pageUrl: string, tags: seq<Resource>, join: (string, string) -> string): set<string>
    decreases |tags|
  {
    if tags == [] then {}
    else
      var front := Targets(pageUrl, tags[..|tags| - 1], join);
      match LinkTarget(pageUrl, tags[|tags| - 1], join)
      case Some(u) => front + {u}
      case None => front
  }

  /** A URL is a target exactly when some tag contributes it; every target is
      an absolute http(s) URL. */
  lemma {:induction false} TargetsMember(pageUrl: string, tags: seq<Resource>, join: (string, string) -> string, u: string)
    ensures u in Targets(pageUrl, tags, join) <==>
            exists i :: 0 <= i < |tags| && LinkTarget(pageUrl, tags[i], join) == Some(u)
    ensures u in Targets(pageUrl, tags, join) ==> StartsWith(u, "http://") || StartsWith(u, "https://")
    decreases |tags|
  {
    if tags != [] {
      var init := tags[..|tags| - 1];
      TargetsMember(pageUrl, init, join, u);
      if exists i :: 0 <= i < |init| && LinkTarget(pageUrl, init[i], join) == Some(u) {
        var i :| 0 <= i < |init| && LinkTarget(pageUrl, init[i], join) == Some(u);
        assert tags[i] == init[i];
      }
      if exists i :: 0 <= i < |tags| && LinkTarget(pageUrl, tags[i], join) == Some(u) {
        var i :| 0 <= i < |tags| && LinkTarget(pageUrl, tags[i], join) == Some(u);
        if i < |init| {
          assert tags[i] == init[i];
        }
      }
    }
  }

  // ---------------------------------------------------------------------------
  // Probing

  /** The report entries for the probed links, in probing order. */
  function BrokenOn(pageUrl: string, links: seq<string>, net: string -> Exchange): seq<PageBroken>
    decreases |links|
  {
    if links == [] then []
    else
      var front := BrokenOn(pageUrl, links[..|links| - 1], net);
      var link := links[|links| - 1];
      match ProbeLink(link, net(link))
      case Some(b) => front + [PageBroken(b.url, b.status, b.reason, pageUrl)]
      case None => front
  }

  function CountReachable(links: seq<string>, net: string -> Exchange): nat
    decreases |links|
  {
    if links == [] then 0
    else CountReachable(links[..|links| - 1], net) + (if Reachable(net(links[|links| - 1])) then 1 else 0)
  }

  /** Every probed link is either broken or working, never both: the broken
      entries and the working count add up to the links probed; every entry
      names a probed, unreachable link and the page it was found on. */
  lemma {:induction false} BrokenOnSplit(pageUrl: string, links: seq<string>, net: string -> Exchange)
    ensures |BrokenOn(pageUrl, links, net)| + CountReachable(links, net) == |links|
    ensures forall k :: 0 <= k < |BrokenOn(pageUrl, links, net)| ==>
              var e := BrokenOn(pageUrl, links, net)[k];
              e.foundOn == pageUrl && e.url in links && !Reachable(net(e.url))
    decreases |links|
  {
    if links != [] {
      var init := links[..|links| - 1];
      BrokenOnSplit(pageUrl, init, net);
      var b := BrokenOn(pageUrl, links, net);
      var front := BrokenOn(pageUrl, init, net);
      forall k | 0 <= k < |b|
        ensures b[k].foundOn == pageUrl && b[k].url in links && !Reachable(net(b[k].url))
      {
        if k < |front| {
          assert b[k] == front[k];
          assert b[k].url in init;
        }
      }
    }
  }

  /** `_check_broken_links_for_page`. The set's iteration order and the
      completion order of the probes are unspecified in the source; `probed`
      is the order this run chose, and the report is stated against it. */
  method CheckBrokenLinksForPage(pageUrl: string, tags: seq<Resource>,
                                 join: (string, string) -> string, net: string -> Exchange)
    returns (report: LinkReport, ghost probed: seq<string>)
    ensures var targets := Targets(pageUrl, tags, join);
            |probed| == (if |targets| < MaxLinksPerPage then |targets| else MaxLinksPerPage) &&
            (forall k :: 0 <= k < |probed| ==> probed[k] in targets) &&
            (forall k, l :: 0 <= k < l < |probed| ==> probed[k] != probed[l])
    ensures report.broken == BrokenOn(pageUrl, probed, net)
    ensures report.workingCount == CountReachable(probed, net)
    ensures report.brokenCount == |report.broken|
    ensures report.totalChecked == report.brokenCount + report.workingCount == |probed|
  {
    // links: set = set(); for tag in soup.find_all([...]): ...
    var links: set<string> := {};
    var i := 0;
    while i < |tags|
      invariant 0 <= i <= |tags|
      invariant links == Targets(pageUrl, tags[..i], join)
    {
      assert tags[..i + 1][..i] == tags[..i];
      var target := LinkTarget(pageUrl, tags[i], join);
      if target.Some? {
        links := links + {target.value};
      }
      i := i + 1;
    }
    assert tags[..|tags|] == tags;

    // links_list = list(links)[: MAX_LINKS_PER_PAGE]
    var remaining := links;
    var list: seq<string> := [];
    while |list| < MaxLinksPerPage && remaining != {}
      invariant remaining <= links
      invariant |remaining| + |list| == |links|
      invariant |list| <= MaxLinksPerPage
      invariant forall k :: 0 <= k < |list| ==> list[k] in links && list[k] !in remaining
      invariant forall k, l :: 0 <= k < l < |list| ==> list[k] != list[l]
      decreases |remaining|
    {
      var x :| x in remaining;
      list := list + [x];
      remaining := remaining - {x};
    }

    // probe every link and fan the results in
    var broken: seq<PageBroken> := [];
    var working := 0;
    var j := 0;
    while j < |list|
      invariant 0 <= j <= |list|
      invariant broken == BrokenOn(pageUrl, list[..j], net)
      invariant working == CountReachable(list[..j], net)
    {
      assert list[..j + 1][..j] == list[..j];
      var result := ProbeLink(list[j], net(list[j]));
      if result.Some? {
        var b := result.value;
        broken := broken + [PageBroken(b.url, b.status, b.reason, pageUrl)];
      } else {
        working := working + 1;
      }
      j := j + 1;
    }
    assert list[..|list|] == list;
    BrokenOnSplit(pageUrl, list, net);
    report := LinkReport(broken, |broken| + working, |broken|, working);
    probed := list;
  }

  // ---------------------------------------------------------------------------
  // Worked cases

  /** A server that refuses HEAD with 405 but serves the GET: not broken. */
  lemma HeadRejectedGetServed(link: string)
    ensures ProbeLink(link, Exchange(Status(405, "Method Not Allowed"), Got(200, "OK"))) == None
  {
  }

  /** A 404 to HEAD is reported as is, without a retry. */
  lemma NotFoundReported(link: string, get: GetOutcome)
    ensures ProbeLink(link, Exchange(Status(404, "Not Found"), get)) ==
            Some(Broken(link, Code(404), "Not Found"))
  {
  }

  /** A 403 whose GET retry gets 404 is reported with the GET's status. */
  lemma RetryStatusReported(link: string)
    ensures ProbeLink(link, Exchange(Status(403, "Forbidden"), Got(404, "Not Found"))) ==
            Some(Broken(link, Code(404), "Not Found"))
  {
  }

  /** A resolver failure is reported as a DNS error, before the refused
      check and whatever the GET would have done. */
  lemma DnsFailureReported(link: string, message: string, get: GetOutcome)
    requires IsDnsFailure(message)
    ensures ProbeLink(link, Exchange(ConnectionError(message), get)) ==
            Some(Broken(link, Label("DNS Error"), "Domain not found"))
  {
  }

  /** The resolver's message is recognised whatever its case. */
  lemma DnsWordingRecognised()
    ensures IsDnsFailure("Name or service not known")
  {
    var m := "Name or service not known";
    var t := "name or service not known";
    LowerAt(m);
    assert Lower(m) == t;
    assert OccursAt(Lower(m), t, 0);
  }
}
