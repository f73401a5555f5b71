/** The in-memory job queue of app.py: the `_jobs` registry, its time-based
    purge, the job record `analyze` (the POST route) creates, the progress
    callback `_progress` and the terminal updates of `_run_analysis`, and the
    `status` and `result` queries.

    Each transition is first a function on the registry map; the methods of
    `Registry` perform it in place and are proved equal to it. Clock readings
    (`time.time()`) and job ids (`uuid4`) are parameters. */
module Jobs {
  import opened Common
  import opened Config
  import opened Numerals
  import opened Progress
  import Analyzer
  import Crawler
  import Reporting

  /** A job's `status`: "running", "done" or "error". */
  datatype JobStatus = Running | Done | Failed

  datatype Job = Job(status: JobStatus, stage: string, detail: string, progress: int,
                     result: Option<Reporting.Report>, error: Option<string>,
                     createdAt: real, url: string)

  const QueuedDetail: string := "Job queued — starting shortly"
  const CompleteDetail: string := "Analysis complete"
  const FailurePrefix: string := "Analysis failed: "
  const InvalidUrl: string := "Please provide a valid URL"
  const NotFound: string := "Job not found"

  /** What the status says about the result and error fields: a running job
      has neither, a done job has its result and no error, a failed job has
      its "Analysis failed: ..." message. */
  predicate Consistent(job: Job) {
    match job.status
    case Running => job.result.None? && job.error.None?
    case Done => job.result.Some? && job.error.None?
    case Failed => job.error.Some? && StartsWith(job.error.value, FailurePrefix)
  }

  ghost predicate AllConsistent(jobs: map<string, Job>) {
    forall id :: id in jobs ==> Consistent(jobs[id])
  }

  // ---------------------------------------------------------------------------
  // Purge (app.py:40-47)

  /** A job is stale once more than `JOB_TTL_SECONDS` have passed since it
      was created. */
  predicate Stale(job: Job, now: real) {
    now - job.createdAt > JobTtlSeconds as real
  }

  /** `_cleanup_old_jobs`: the registry without its stale jobs. */
  function Purge(jobs: map<string, Job>, now: real): map<string, Job> {
    map id | id in jobs && !Stale(jobs[id], now) :: jobs[id]
  }

  /** Exactly the jobs at most `JOB_TTL_SECONDS` old survive, unchanged; a
      job aged exactly the TTL is kept; purging twice is purging once. */
  lemma PurgeProperties(jobs: map<string, Job>, now: real)
    ensures forall id :: id in Purge(jobs, now) <==>
              id in jobs && now - jobs[id].createdAt <= JobTtlSeconds as real
    ensures forall id :: id in Purge(jobs, now) ==> Purge(jobs, now)[id] == jobs[id]
    ensures forall id :: id in jobs && now - jobs[id].createdAt == 3600.0 ==> id in Purge(jobs, now)
    ensures Purge(Purge(jobs, now), now) == Purge(jobs, now)
    ensures AllConsistent(jobs) ==> AllConsistent(Purge(jobs, now))
  {
  }

  // ---------------------------------------------------------------------------
  // Submitting a job (app.py:147-179)

  /** A field of the request's JSON body. A body that is not JSON reads as
      one whose fields are all absent. */
  datatype Field = Absent | Null | Num(n: int) | Str(s: string)

  /** What a route answers with. `ServerError` is the 500 page of an
      exception the route does not catch. */
  datatype Body =
    | JobId(id: string)
    | Message(text: string)
    | StoredError(stored: Option<string>)
    | StatusBody(status: JobStatus, stage: string, detail: string, progress: int, error: Option<string>)
    | StillRunning(progress: int)
    | ResultBody(result: Option<Reporting.Report>)
    | ServerError

  datatype Reply = Reply(code: int, body: Body)

  /** The worker thread a submission starts: `_run_analysis(job_id, url, max_pages)`. */
  datatype Launch = Launch(id: string, url: string, maxPages: int)

  datatype Submission = Submission(reply: Reply, launch: Option<Launch>, jobs: map<string, Job>)

  /** `data.get("url", "").strip()`; `None` when `strip` raises because the
      field is not a string. */
  function UrlArg(f: Field): Option<string> {
    match f
    case Absent => Some("")
    case Str(s) => Some(Strip(s))
    case _ => None
  }

  /** `int(data.get("max_pages", DEFAULT_MAX_PAGES))`; `None` when `int`
      raises. */
  function MaxPagesArg(f: Field): Option<int> {
    match f
    case Absent => Some(DefaultMaxPages)
    case Null => None
    case Num(n) => Some(n)
    case Str(s) => ParseInt(s)
  }

  /** `max(1, min(100, n))` */
  function Clamp(n: int): (r: int)
    ensures 1 <= r <= 100
    ensures 1 <= n <= 100 ==> r == n
    ensures n < 1 ==> r == 1
    ensures n > 100 ==> r == 100
  {
    if n < 1 then 1 else if n > 100 then 100 else n
  }

  predicate HasScheme(url: string) {
    StartsWith(url, "http://") || StartsWith(url, "https://")
  }

  /** A URL without an http(s) prefix gets "https://" in front. */
  function WithScheme(url: string): string {
    if HasScheme(url) then url else "https://" + url
  }

  lemma WithSchemeProperties(url: string)
    ensures HasScheme(WithScheme(url))
    ensures HasScheme(url) ==> WithScheme(url) == url
    ensures !HasScheme(url) ==> WithScheme(url) == "https://" + url
    ensures WithScheme(WithScheme(url)) == WithScheme(url)
  {
    var r := "https://" + url;
    assert r[..8] == "https://";
  }

  function NewJob(url: string, now: real): Job {
    Job(Running, "queued", QueuedDetail, 5, None, None, now, url)
  }

  /** The POST route's answer, the thread it starts and the registry after it. */
  function Submitted(jobs: map<string, Job>, id: string, url: Field, maxPages: Field, now: real): Submission {
    match (UrlArg(url), MaxPagesArg(maxPages))
    case (Some(u), Some(n)) =>
      if u == "" then Submission(Reply(400, Message(InvalidUrl)), None, jobs)
      else
        var full := WithScheme(u);
        Submission(Reply(202, JobId(id)), Some(Launch(id, full, Clamp(n))), jobs[id := NewJob(full, now)])
    case _ => Submission(Reply(500, ServerError), None, jobs)
  }

  /** A submission that is not accepted creates no job and starts no
      worker: a field that does not convert is a 500 (checked first, since
      `max_pages` is converted before the URL is tested), an empty URL after
      stripping a 400. */
  lemma SubmitRejected(jobs: map<string, Job>, id: string, url: Field, maxPages: Field, now: real)
    requires UrlArg(url).None? || MaxPagesArg(maxPages).None? || UrlArg(url) == Some("")
    ensures Submitted(jobs, id, url, maxPages, now).jobs == jobs
    ensures Submitted(jobs, id, url, maxPages, now).launch.None?
    ensures Submitted(jobs, id, url, maxPages, now).reply ==
            if UrlArg(url).None? || MaxPagesArg(maxPages).None? then Reply(500, ServerError)
            else Reply(400, Message(InvalidUrl))
  {
  }

  /** A submission with a non-empty URL and convertible fields is accepted:
      the new job is running, queued at 5% with no result or error, created
      now, with an http(s) URL; its worker gets that URL and a page budget in
      [1, 100]; no other job changes. */
  lemma SubmitAccepted(jobs: map<string, Job>, id: string, url: Field, maxPages: Field, now: real)
    requires UrlArg(url).Some? && UrlArg(url).value != "" && MaxPagesArg(maxPages).Some?
    ensures var s := Submitted(jobs, id, url, maxPages, now);
            s.reply == Reply(202, JobId(id)) && s.launch.Some? && s.launch.value.id == id &&
            s.launch.value.url == WithScheme(UrlArg(url).value) && HasScheme(s.launch.value.url) &&
            1 <= s.launch.value.maxPages <= 100 &&
            s.jobs == jobs[id := Job(Running, "queued", QueuedDetail, 5, None, None, now, s.launch.value.url)]
    ensures AllConsistent(jobs) ==> AllConsistent(Submitted(jobs, id, url, maxPages, now).jobs)
  {
    WithSchemeProperties(UrlArg(url).value);
  }

  /** A `max_pages` sent as the decimal text of a number reads as that number. */
  lemma TextMaxPages(n: int)
    ensures MaxPagesArg(Str(IntStr(n))) == Some(n)
  {
    ParseIntStr(n);
  }

  // ---------------------------------------------------------------------------
  // Progress updates (app.py:66-98)

  /** `detail or ""` */
  function DetailText(detail: Option<string>): string {
    if detail.Some? then detail.value else ""
  }

  /** `_progress(stage, detail)` on the registry: only a known job changes,
      and only in its stage, detail and progress. */
  function ProgressUpdated(jobs: map<string, Job>, id: string, stage: string, detail: Option<string>): map<string, Job> {
    if id in jobs then
      jobs[id := jobs[id].(stage := stage, detail := DetailText(detail), progress := ProgressFor(stage, detail))]
    else jobs
  }

  /** Two jobs agree on everything but stage, detail and progress. */
  predicate SameButProgress(a: Job, b: Job) {
    a.status == b.status && a.result == b.result && a.error == b.error &&
    a.createdAt == b.createdAt && a.url == b.url
  }

  lemma ProgressUpdateProperties(jobs: map<string, Job>, id: string, stage: string, detail: Option<string>)
    ensures var r := ProgressUpdated(jobs, id, stage, detail);
            r.Keys == jobs.Keys &&
            (id !in jobs ==> r == jobs) &&
            (forall other :: other in jobs && other != id ==> r[other] == jobs[other]) &&
            (id in jobs ==>
               SameButProgress(r[id], jobs[id]) && r[id].stage == stage &&
               r[id].detail == DetailText(detail) && r[id].progress == ProgressFor(stage, detail))
    ensures AllConsistent(jobs) ==> AllConsistent(ProgressUpdated(jobs, id, stage, detail))
  {
  }

  // ---------------------------------------------------------------------------
  // Terminal updates (app.py:101-129)

  /** How `analyzer.analyze()` ended: its report, or an exception's message. */
  datatype Outcome = Succeeded(report: Reporting.Report) | Raised(message: string)

  /** The update in the `try` or the `except` branch of `_run_analysis`. A
      job that is gone (purged meanwhile) makes the update raise `KeyError`;
      the registry is then left as it is. */
  function Settled(jobs: map<string, Job>, id: string, outcome: Outcome): map<string, Job> {
    if id !in jobs then jobs
    else
      match outcome
      case Succeeded(report) =>
        jobs[id := jobs[id].(status := Done, stage := "done", detail := CompleteDetail,
                             progress := 100, result := Some(report))]
      case Raised(message) =>
        jobs[id := jobs[id].(status := Failed, stage := "error", detail := message,
                             progress := 100, error := Some(FailurePrefix + message))]
  }

  /** On success the job is done at 100% with the report stored; on failure
      it is in error at 100% with "Analysis failed: " and the message; either
      way the job keeps its creation time and URL, and no other job changes.
      A running job that settles stays consistent. */
  lemma SettledProperties(jobs: map<string, Job>, id: string, outcome: Outcome)
    ensures var r := Settled(jobs, id, outcome);
            r.Keys == jobs.Keys &&
            (forall other :: other in jobs && other != id ==> r[other] == jobs[other]) &&
            (id in jobs && outcome.Succeeded? ==>
               r[id].status == Done && r[id].stage == "done" && r[id].detail == CompleteDetail &&
               r[id].progress == 100 && r[id].result == Some(outcome.report)) &&
            (id in jobs && outcome.Raised? ==>
               r[id].status == Failed && r[id].stage == "error" && r[id].detail == outcome.message &&
               r[id].progress == 100 && r[id].error == Some(FailurePrefix + outcome.message)) &&
            (id in jobs ==> r[id].createdAt == jobs[id].createdAt && r[id].url == jobs[id].url)
    ensures AllConsistent(jobs) && (id in jobs ==> jobs[id].status == Running) ==>
              AllConsistent(Settled(jobs, id, outcome))
  {
    if id in jobs && outcome.Raised? {
      var e := FailurePrefix + outcome.message;
      assert e[..|FailurePrefix|] == FailurePrefix;
    }
  }

  // ---------------------------------------------------------------------------
  // Replaying the analyzer's progress calls

  /** The registry after the analyzer's progress callbacks, in order. */
  function Replayed(jobs: map<string, Job>, id: string, events: seq<Analyzer.Event>): map<string, Job>
    decreases |events|
  {
    if events == [] then jobs
    else
      var e := events[|events| - 1];
      ProgressUpdated(Replayed(jobs, id, events[..|events| - 1]), id, Analyzer.Stage(e), Some(Analyzer.Detail(e)))
  }

  /** Progress callbacks never add or remove a job, never touch another
      job, and leave the own job's status, result, error, creation time and
      URL as they were; after the last one the job shows that event. */
  lemma {:induction false} ReplayedProperties(jobs: map<string, Job>, id: string, events: seq<Analyzer.Event>)
    ensures var r := Replayed(jobs, id, events);
            r.Keys == jobs.Keys &&
            (forall other :: other in jobs && other != id ==> r[other] == jobs[other]) &&
            (id in jobs ==> SameButProgress(r[id], jobs[id])) &&
            (id in jobs && events != [] ==>
               var e := events[|events| - 1];
               r[id].stage == Analyzer.Stage(e) && r[id].detail == Analyzer.Detail(e) &&
               r[id].progress == EventPercent(e))
    decreases |events|
  {
    if events != [] {
      var init := events[..|events| - 1];
      var e := events[|events| - 1];
      ReplayedProperties(jobs, id, init);
      ProgressUpdateProperties(Replayed(jobs, id, init), id, Analyzer.Stage(e), Some(Analyzer.Detail(e)));
      EventProgress(e);
    }
  }

  // ---------------------------------------------------------------------------
  // The percentage of each progress message

  /** The percentage `_progress` computes for each message the analyzer
      sends, stated on the message's numbers: the counter of "Crawled k/m"
      and "Analysing page i/n" scaled into 10..35 and 40..95, the stage
      default for the others, and when the total is not positive. */
  function EventPercent(e: Analyzer.Event): int {
    match e
    case Starting(_) => 20
    case Crawled(count, maxPages, _) => Scaled(Some((count, maxPages)), 10, 25, 20)
    case CrawlComplete(_) => 20
    case CheckingSecurity => 40
    case Analysing(index, total, _) => Scaled(Some((index, total)), 40, 55, 60)
    case Finished => 100
  }

  lemma ScaledCounter(current: int, total: int, base: int, span: int, default: int)
    ensures Scaled(Some((current, total)), base, span, default) ==
            if total > 0 then TruncDiv(base * total + span * current, total) else default
  {
  }

  lemma StartingProgress(maxPages: int)
    ensures ProgressFor("crawling", Some(Analyzer.Detail(Analyzer.Starting(maxPages)))) == 20
  {
    var d := Analyzer.Detail(Analyzer.Starting(maxPages));
    NoCharInNumeral(maxPages, '/');
    assert '/' !in "Starting BFS crawl (max " && '/' !in " pages)";
    assert '/' !in d;
    NoCounter(d);
    RefinedStages(d);
  }

  lemma CrawledProgress(count: nat, maxPages: int, u: string)
    ensures ProgressFor("crawling", Some(Analyzer.Detail(Analyzer.Crawled(count, maxPages, u)))) ==
            EventPercent(Analyzer.Crawled(count, maxPages, u))
  {
    var d := Analyzer.Detail(Analyzer.Crawled(count, maxPages, u));
    assert d == "Crawled " + NatStr(count) + "/" + IntStr(maxPages) + ": " + u;
    ParseCounter("Crawled ", count, maxPages, u);
    RefinedStages(d);
    assert ProgressFor("crawling", Some(d)) == Scaled(Some((count, maxPages)), 10, 25, 20);
  }

  lemma CrawlCompleteProgress(count: nat)
    ensures ProgressFor("crawling", Some(Analyzer.Detail(Analyzer.CrawlComplete(count)))) == 20
  {
    var d := Analyzer.Detail(Analyzer.CrawlComplete(count));
    NoCharInNumeral(count, '/');
    assert IntStr(count) == NatStr(count);
    assert '/' !in "Crawl complete — " && '/' !in " page(s) found";
    assert '/' !in d;
    NoCounter(d);
    RefinedStages(d);
  }

  lemma AnalysingProgress(index: nat, total: nat, u: string)
    ensures ProgressFor("analysing", Some(Analyzer.Detail(Analyzer.Analysing(index, total, u)))) ==
            EventPercent(Analyzer.Analysing(index, total, u))
  {
    var d := Analyzer.Detail(Analyzer.Analysing(index, total, u));
    assert IntStr(total) == NatStr(total);
    assert d == "Analysing page " + NatStr(index) + "/" + IntStr(total) + ": " + u;
    ParseCounter("Analysing page ", index, total, u);
    RefinedStages(d);
    assert ProgressFor("analysing", Some(d)) == Scaled(Some((index, total)), 40, 55, 60);
  }

  lemma SecurityProgress()
    ensures ProgressFor("security", Some(Analyzer.Detail(Analyzer.CheckingSecurity))) == 40
  {
    DefaultStands("security", Some(Analyzer.Detail(Analyzer.CheckingSecurity)));
  }

  lemma FinishedProgress()
    ensures ProgressFor("done", Some(Analyzer.Detail(Analyzer.Finished))) == 100
  {
    DefaultStands("done", Some(Analyzer.Detail(Analyzer.Finished)));
  }

  /** Parsing the analyzer's own messages back gives `EventPercent`. */
  lemma EventProgress(e: Analyzer.Event)
    ensures ProgressFor(Analyzer.Stage(e), Some(Analyzer.Detail(e))) == EventPercent(e)
  {
    match e
    case Starting(maxPages) => StartingProgress(maxPages);
    case Crawled(count, maxPages, u) => CrawledProgress(count, maxPages, u);
    case CrawlComplete(count) => CrawlCompleteProgress(count);
    case CheckingSecurity => SecurityProgress();
    case Analysing(index, total, u) => AnalysingProgress(index, total, u);
    case Finished => FinishedProgress();
  }

  /** During a crawl within its budget the percentage stays in 10..35 and
      never decreases, reaching 35 when the budget is used up. */
  lemma CrawlPercents(maxPages: int, pages: seq<Crawler.Page>)
    requires 0 < maxPages && |pages| <= maxPages
    ensures var ev := Analyzer.CrawledEvents(maxPages, pages);
            (forall k :: 0 <= k < |ev| ==> 10 <= EventPercent(ev[k]) <= 35) &&
            (forall a, b :: 0 <= a <= b < |ev| ==> EventPercent(ev[a]) <= EventPercent(ev[b])) &&
            (|pages| == maxPages ==> EventPercent(ev[|ev| - 1]) == 35)
  {
    var ev := Analyzer.CrawledEvents(maxPages, pages);
    forall k | 0 <= k < |ev| ensures 10 <= EventPercent(ev[k]) <= 35 {
      ScaledCounter(k + 1, maxPages, 10, 25, 20);
      ScaledWithin(maxPages, k + 1, 10, 25);
    }
    forall a, b | 0 <= a <= b < |ev| ensures EventPercent(ev[a]) <= EventPercent(ev[b]) {
      ScaledCounter(a + 1, maxPages, 10, 25, 20);
      ScaledCounter(b + 1, maxPages, 10, 25, 20);
      ScaledMonotone(maxPages, a + 1, b + 1, 10, 25);
    }
    if |pages| == maxPages {
      ScaledCounter(maxPages, maxPages, 10, 25, 20);
      DivWithin(10 * maxPages + 25 * maxPages, maxPages, 35, 35);
    }
  }

  /** While the pages are analysed the percentage stays in 40..95 and never
      decreases, reaching 95 at the last page. */
  lemma AnalysingPercents(pages: seq<Crawler.Page>)
    requires pages != []
    ensures var ev := Analyzer.AnalysingEvents(pages, |pages|);
            (forall k :: 0 <= k < |ev| ==> 40 <= EventPercent(ev[k]) <= 95) &&
            (forall a, b :: 0 <= a <= b < |ev| ==> EventPercent(ev[a]) <= EventPercent(ev[b])) &&
            EventPercent(ev[|ev| - 1]) == 95
  {
    var ev := Analyzer.AnalysingEvents(pages, |pages|);
    var n := |pages|;
    forall k | 0 <= k < |ev| ensures 40 <= EventPercent(ev[k]) <= 95 {
      ScaledCounter(k + 1, n, 40, 55, 60);
      ScaledWithin(n, k + 1, 40, 55);
    }
    forall a, b | 0 <= a <= b < |ev| ensures EventPercent(ev[a]) <= EventPercent(ev[b]) {
      ScaledCounter(a + 1, n, 40, 55, 60);
      ScaledCounter(b + 1, n, 40, 55, 60);
      ScaledMonotone(n, a + 1, b + 1, 40, 55);
    }
    ScaledCounter(n, n, 40, 55, 60);
    DivWithin(40 * n + 55 * n, n, 95, 95);
  }

  /** The reported percentage goes back twice in a run: the first "Crawled"
      message of a 20-page crawl shows 11% after the start's 20%, and the
      summary after a full crawl shows 20% after 35%. */
  lemma ProgressFallsBack(u: string)
    ensures EventPercent(Analyzer.Starting(20)) == 20 && EventPercent(Analyzer.Crawled(1, 20, u)) == 11
    ensures EventPercent(Analyzer.Crawled(20, 20, u)) == 35 && EventPercent(Analyzer.CrawlComplete(20)) == 20
  {
  }

  /** A finished run leaves its job done at 100% with the report, whatever
      progress messages came before, and keeps every job consistent. */
  lemma CompletedRun(jobs: map<string, Job>, id: string, events: seq<Analyzer.Event>,
                     report: Reporting.Report, now: real)
    requires id in jobs && jobs[id].status == Running && AllConsistent(jobs)
    ensures var r := Settled(Replayed(jobs, id, events), id, Succeeded(report));
            id in r && r[id].status == Done && r[id].progress == 100 && r[id].result == Some(report) &&
            AllConsistent(r) && AllConsistent(Purge(r, now))
  {
    ReplayedProperties(jobs, id, events);
    var mid := Replayed(jobs, id, events);
    assert AllConsistent(mid) by {
      forall other | other in mid ensures Consistent(mid[other]) {
        assert SameButProgress(mid[other], jobs[other]);
      }
    }
    SettledProperties(mid, id, Succeeded(report));
    PurgeProperties(Settled(mid, id, Succeeded(report)), now);
  }

  /** Replaying the messages of an analysis that found pages leaves the job
      at stage "done", 100%, before the outcome is even recorded; one that
      found none stops at the crawl summary, 20%. */
  lemma AnalyzerRunShows(jobs: map<string, Job>, id: string, maxPages: int, pages: seq<Crawler.Page>)
    requires id in jobs
    ensures pages != [] ==>
              var r := Replayed(jobs, id, Analyzer.CrawlEvents(maxPages, pages) + Analyzer.AnalysisEvents(pages));
              id in r && r[id].stage == "done" && r[id].detail == CompleteDetail && r[id].progress == 100
    ensures var r := Replayed(jobs, id, Analyzer.CrawlEvents(maxPages, []));
            id in r && r[id].stage == "crawling" && r[id].progress == 20
  {
    if pages != [] {
      var ev := Analyzer.CrawlEvents(maxPages, pages) + Analyzer.AnalysisEvents(pages);
      var r := Replayed(jobs, id, ev);
      assert id in r && r[id].stage == "done" && r[id].detail == CompleteDetail && r[id].progress == 100 by {
        ReplayedProperties(jobs, id, ev);
        assert ev[|ev| - 1] == Analyzer.Finished;
      }
    }
    var ev := Analyzer.CrawlEvents(maxPages, []);
    var r := Replayed(jobs, id, ev);
    assert id in r && r[id].stage == "crawling" && r[id].progress == 20 by {
      ReplayedProperties(jobs, id, ev);
      assert ev[|ev| - 1] == Analyzer.CrawlComplete(0);
    }
  }

  // ---------------------------------------------------------------------------
  // The registry

  class Registry {
    var jobs: map<string, Job>

    constructor ()
      ensures jobs == map[]
    {
      jobs := map[];
    }

    /** The POST `/analyze` route. */
    method Submit(id: string, url: Field, maxPages: Field, now: real) returns (reply: Reply, launch: Option<Launch>)
      modifies this
      ensures Submission(reply, launch, jobs) == Submitted(old(jobs), id, url, maxPages, now)
    {
      var u := UrlArg(url);
      var n := MaxPagesArg(maxPages);
      if u.None? || n.None? {
        reply, launch := Reply(500, ServerError), None;
        return;
      }
      var budget := Clamp(n.value);
      var target := u.value;
      if target == "" {
        reply, launch := Reply(400, Message(InvalidUrl)), None;
        return;
      }
      if !HasScheme(target) {
        target := "https://" + target;
      }
      jobs := jobs[id := Job(Running, "queued", QueuedDetail, 5, None, None, now, target)];
      reply, launch := Reply(202, JobId(id)), Some(Launch(id, target, budget));
    }

    /** `_progress(stage, detail)` */
    method UpdateProgress(id: string, stage: string, detail: Option<string>)
      modifies this
      ensures jobs == ProgressUpdated(old(jobs), id, stage, detail)
    {
      var progress := ProgressFor(stage, detail);
      if id in jobs {
        jobs := jobs[id := jobs[id].(stage := stage, detail := DetailText(detail), progress := progress)];
      }
    }

    /** `_cleanup_old_jobs()`, with `now` the clock reading it takes: collect
        the stale ids, then delete them one by one. */
    method Cleanup(now: real)
      modifies this
      ensures jobs == Purge(old(jobs), now)
    {
      var stale := set id | id in jobs && Stale(jobs[id], now);
      while stale != {}
        invariant stale <= jobs.Keys
        invariant forall id :: id in jobs <==> id in old(jobs) && (id in stale || !Stale(old(jobs)[id], now))
        invariant forall id :: id in jobs ==> jobs[id] == old(jobs)[id]
        decreases stale
      {
        var id :| id in stale;
        jobs := map k | k in jobs && k != id :: jobs[k];
        stale := stale - {id};
      }
    }

    /** The end of `_run_analysis`: the update for how the analysis ended,
        then the purge of its `finally`. */
    method Finish(id: string, outcome: Outcome, now: real)
      modifies this
      ensures jobs == Purge(Settled(old(jobs), id, outcome), now)
    {
      if id in jobs {
        match outcome
        case Succeeded(report) =>
          jobs := jobs[id := jobs[id].(status := Done, stage := "done", detail := CompleteDetail,
                                       progress := 100, result := Some(report))];
        case Raised(message) =>
          jobs := jobs[id := jobs[id].(status := Failed, stage := "error", detail := message,
                                       progress := 100, error := Some(FailurePrefix + message))];
      }
      Cleanup(now);
    }

    /** `_run_analysis` for one job: the progress calls the analysis made, in
        order, then its end. */
    method RunAnalysis(id: string, events: seq<Analyzer.Event>, outcome: Outcome, now: real)
      modifies this
      ensures jobs == Purge(Settled(Replayed(old(jobs), id, events), id, outcome), now)
    {
      var k := 0;
      while k < |events|
        invariant 0 <= k <= |events|
        invariant jobs == Replayed(old(jobs), id, events[..k])
      {
        assert events[..k + 1][..k] == events[..k];
        UpdateProgress(id, Analyzer.Stage(events[k]), Some(Analyzer.Detail(events[k])));
        k := k + 1;
      }
      assert events[..k] == events;
      Finish(id, outcome, now);
    }

    /** The `/status/<job_id>` route: 404 for an unknown job; otherwise the
        job's status, stage, detail and progress, with its error only when
        there is a non-empty one. */
    method Status(id: string) returns (reply: Reply)
      ensures id !in jobs ==> reply == Reply(404, Message(NotFound))
      ensures id in jobs ==>
                var job := jobs[id];
                reply.code == 200 && reply.body.StatusBody? &&
                reply.body.status == job.status && reply.body.stage == job.stage &&
                reply.body.detail == job.detail && reply.body.progress == job.progress &&
                (reply.body.error.Some? <==> job.error.Some? && job.error.value != "") &&
                (reply.body.error.Some? ==> reply.body.error == job.error)
    {
      if id !in jobs {
        return Reply(404, Message(NotFound));
      }
      var job := jobs[id];
      var error := if job.error.Some? && job.error.value != "" then job.error else None;
      reply := Reply(200, StatusBody(job.status, job.stage, job.detail, job.progress, error));
    }

    /** The `/result/<job_id>` route: 404 for an unknown job, 500 with the
        stored error for a failed one, 202 with the progress while running,
        the stored report once done. */
    method ResultOf(id: string) returns (reply: Reply)
      ensures id !in jobs ==> reply == Reply(404, Message(NotFound))
      ensures id in jobs && jobs[id].status == Failed ==> reply == Reply(500, StoredError(jobs[id].error))
      ensures id in jobs && jobs[id].status == Running ==> reply == Reply(202, StillRunning(jobs[id].progress))
      ensures id in jobs && jobs[id].status == Done ==> reply == Reply(200, ResultBody(jobs[id].result))
      ensures AllConsistent(jobs) && id in jobs && jobs[id].status == Done ==> reply.body.result.Some?
      ensures AllConsistent(jobs) && id in jobs && jobs[id].status == Failed ==>
                reply.body.stored.Some? && StartsWith(reply.body.stored.value, FailurePrefix)
    {
      if id !in jobs {
        return Reply(404, Message(NotFound));
      }
      var job := jobs[id];
      if job.status == Failed {
        return Reply(500, StoredError(job.error));
      }
      if job.status != Done {
        return Reply(202, StillRunning(job.progress));
      }
      reply := Reply(200, ResultBody(job.result));
    }
  }
}
