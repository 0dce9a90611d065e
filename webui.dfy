/** The web UI server: it publishes new runs and log lines to the browser over server-sent
    events, turns the UI's buttons into control notifications, and answers searches over the
    captured log lines grouped by run. HTTP, SSE, SQLite and templ rendering are abstracted:
    a rendered component is represented by what it renders, and each query's rows or error is
    a parameter. */
module WebUiServer {
  import opened Wrappers
  import opened Strings
  import opened Notification
  import opened Configuration
  import opened SqlQuery
  import opened Grouping
  import Process

  /** A rendered component. */
  datatype Markup =
    | EventMarkup(event: LogEventRecord)
    | EmptyRunMarkup(runId: int)
    | SearchSelectMarkup(runs: seq<LogRun>, current: int)

  /** The message the browser receives: where to put the markup, and how. */
  datatype KiloEvent = KiloEvent(target: string, swap: string, markup: Markup)

  const AppendAndScroll: string := "beforeend scroll:lastchild"

  /** The run selector: the newest fifty runs, and the newest run's id as the current one (0
      when there is none). */
  function SearchSelect(runs: Result<seq<LogRun>>): (r: Result<Markup>)
    ensures runs.Err? ==> r == Err("getting runs: " + runs.error)
    ensures runs.Ok? ==> r.Ok? && r.value.SearchSelectMarkup? && r.value.runs == runs.value
    ensures runs.Ok? && runs.value != [] ==> r.value.current == runs.value[0].id
    ensures runs.Ok? && runs.value == [] ==> r.value.current == 0
  {
    if runs.Err? then Err("getting runs: " + runs.error)
    else Ok(SearchSelectMarkup(runs.value, if runs.value == [] then 0 else runs.value[0].id))
  }

  /** sendLogEvent: the line is appended to its run's list, `#run-<run id>`. */
  function LogEventMessage(ev: LogEventRecord): KiloEvent {
    KiloEvent("#run-" + Itoa(ev.runId), AppendAndScroll, EventMarkup(ev))
  }

  /** The target of a published log line names its run: stripping `#run-` and parsing the
      rest gives back the run id, for every 64-bit id. */
  lemma LogTargetNamesRun(ev: LogEventRecord)
    requires MinInt64 <= ev.runId <= MaxInt64
    ensures var k := LogEventMessage(ev);
      |k.target| > 5 && k.target[..5] == "#run-" && Atoi(k.target[5..]) == Ok(ev.runId) &&
      k.swap == AppendAndScroll && k.markup == EventMarkup(ev)
  {
    var k := LogEventMessage(ev);
    assert k.target[5..] == Itoa(ev.runId);
    AtoiItoa(ev.runId);
  }

  /** Two lines of different runs go to different targets. */
  lemma LogTargetsDistinct(a: LogEventRecord, b: LogEventRecord)
    requires MinInt64 <= a.runId <= MaxInt64 && MinInt64 <= b.runId <= MaxInt64
    requires a.runId != b.runId
    ensures LogEventMessage(a).target != LogEventMessage(b).target
  {
    LogTargetNamesRun(a);
    LogTargetNamesRun(b);
  }

  /** sendRunEvent: an empty list for the new run is appended to the output, then the run
      selector is replaced. When reading the runs fails the first message is already out. */
  function RunEventMessages(run: LogRun, runs: Result<seq<LogRun>>): (r: (seq<KiloEvent>, Option<string>))
    ensures |r.0| >= 1 && r.0[0] == KiloEvent("#log-output-inner", AppendAndScroll, EmptyRunMarkup(run.id))
    ensures runs.Ok? ==> r.1.None? && |r.0| == 2 && r.0[1] == KiloEvent("#search-select", "outerHTML", SearchSelect(runs).value)
    ensures runs.Err? ==> r.0 == [r.0[0]] && r.1 == Some("rendering event: getting runs: " + runs.error)
  {
    var first := KiloEvent("#log-output-inner", AppendAndScroll, EmptyRunMarkup(run.id));
    if runs.Err? then ([first], Some("rendering event: getting runs: " + runs.error))
    else ([first, KiloEvent("#search-select", "outerHTML", SearchSelect(runs).value)], None)
  }

  /** What the event monitor does with one notification. */
  datatype Dispatched =
    | Published(events: seq<KiloEvent>, err: Option<string>)
    | Ignored
    /** the metadata is not of the type the notification's kind implies: the type assertion panics */
    | Panicked

  /** The notification's metadata is not of the type its kind implies. */
  predicate Panics(n: Notification) {
    (n.ntype == Startup && !n.metadata.RunMetadata?) || (n.ntype == LogEvent && !n.metadata.EventMetadata?)
  }

  /** The monitor's dispatch: Startup publishes the run, LogEvent the line, every other kind
      is ignored. `runs` is what reading the runs for the selector would return. */
  function Dispatch(n: Notification, runs: Result<seq<LogRun>>): (d: Dispatched)
    ensures d.Ignored? <==> n.ntype != Startup && n.ntype != LogEvent
    ensures d.Panicked? <==> Panics(n)
    ensures n.ntype == Startup && n.metadata.RunMetadata? ==>
      d == Published(RunEventMessages(n.metadata.run, runs).0, RunEventMessages(n.metadata.run, runs).1)
    ensures n.ntype == LogEvent && n.metadata.EventMetadata? ==> d == Published([LogEventMessage(n.metadata.event)], None)
  {
    match n.ntype
    case Startup =>
      (match n.metadata
       case RunMetadata(run) => var (es, err) := RunEventMessages(run, runs); Published(es, err)
       case _ => Panicked)
    case LogEvent =>
      (match n.metadata
       case EventMetadata(ev) => Published([LogEventMessage(ev)], None)
       case _ => Panicked)
    case _ => Ignored
  }

  /** The number of notifications the monitor handles before one makes it panic. */
  function FirstPanic(ns: seq<Notification>): (k: nat)
    ensures k <= |ns|
    ensures forall i :: 0 <= i < k ==> !Panics(ns[i])
    ensures k < |ns| ==> Panics(ns[k])
  {
    if ns == [] || Panics(ns[0]) then 0 else 1 + FirstPanic(ns[1..])
  }

  /** The messages published for the first n notifications. */
  function Publications(ns: seq<Notification>, runs: seq<Result<seq<LogRun>>>, n: nat): seq<KiloEvent>
    requires |runs| == |ns| && n <= |ns|
  {
    if n == 0 then []
    else Publications(ns, runs, n - 1) + Messages(ns[n - 1], runs[n - 1])
  }

  /** The messages one notification publishes. */
  function Messages(n: Notification, runs: Result<seq<LogRun>>): seq<KiloEvent> {
    if n.ntype == Startup && n.metadata.RunMetadata? then RunEventMessages(n.metadata.run, runs).0
    else if n.ntype == LogEvent && n.metadata.EventMetadata? then [LogEventMessage(n.metadata.event)]
    else []
  }

  /** The messages of a notification are those its dispatch publishes, and none when it is
      ignored or panics. */
  lemma MessagesAreDispatched(n: Notification, runs: Result<seq<LogRun>>)
    ensures Dispatch(n, runs).Published? ==> Messages(n, runs) == Dispatch(n, runs).events
    ensures !Dispatch(n, runs).Published? ==> Messages(n, runs) == []
  {
  }

  /** Notifications of kinds other than Startup and LogEvent publish nothing: the monitor
      publishes the same messages with them removed. */
  lemma {:induction false} OnlyRunsAndLinesPublish(ns: seq<Notification>, runs: seq<Result<seq<LogRun>>>, n: nat)
    requires |runs| == |ns| && n <= |ns|
    ensures Publications(ns, runs, n) == RelevantMessages(ns, runs, n)
  {
    if n > 0 {
      OnlyRunsAndLinesPublish(ns, runs, n - 1);
      RelevantStep(ns, runs, n);
      PublicationsStep(ns, runs, n);
    }
  }

  /** The messages of the first n notifications are those of the first n - 1, then the n-th's. */
  lemma PublicationsStep(ns: seq<Notification>, runs: seq<Result<seq<LogRun>>>, n: nat)
    requires |runs| == |ns| && 0 < n <= |ns|
    ensures Publications(ns, runs, n) == Publications(ns, runs, n - 1) + Messages(ns[n - 1], runs[n - 1])
  {
  }

  /** The messages of the relevant notifications among the first n grow by what the n-th
      publishes. */
  lemma RelevantStep(ns: seq<Notification>, runs: seq<Result<seq<LogRun>>>, n: nat)
    requires |runs| == |ns| && 0 < n <= |ns|
    ensures RelevantMessages(ns, runs, n) == RelevantMessages(ns, runs, n - 1) + Messages(ns[n - 1], runs[n - 1])
  {
    var (rn, rr) := Relevant(ns, runs, n);
    var (pn, pr) := Relevant(ns, runs, n - 1);
    if ns[n - 1].ntype == Startup || ns[n - 1].ntype == LogEvent {
      assert rn == pn + [ns[n - 1]] && rr == pr + [runs[n - 1]];
      assert rn[..|pn|] == pn[..|pn|] && rr[..|pn|] == pr[..|pn|];
      PublicationsStep(rn, rr, |rn|);
      PublicationsUpTo(rn, rr, pn, pr, |pn|);
    } else {
      assert rn == pn && rr == pr;
    }
  }

  /** The messages published for the Startup and LogEvent notifications among the first n
      alone. */
  function RelevantMessages(ns: seq<Notification>, runs: seq<Result<seq<LogRun>>>, n: nat): seq<KiloEvent>
    requires |runs| == |ns| && n <= |ns|
  {
    var r := Relevant(ns, runs, n);
    Publications(r.0, r.1, |r.0|)
  }

  /** The Startup and LogEvent notifications among the first n, with their run readings. */
  function Relevant(ns: seq<Notification>, runs: seq<Result<seq<LogRun>>>, n: nat): (r: (seq<Notification>, seq<Result<seq<LogRun>>>))
    requires |runs| == |ns| && n <= |ns|
    ensures |r.0| == |r.1| <= n
    ensures forall i :: 0 <= i < |r.0| ==> r.0[i].ntype == Startup || r.0[i].ntype == LogEvent
  {
    if n == 0 then ([], [])
    else
      var (pn, pr) := Relevant(ns, runs, n - 1);
      if ns[n - 1].ntype == Startup || ns[n - 1].ntype == LogEvent then
        (pn + [ns[n - 1]], pr + [runs[n - 1]])
      else (pn, pr)
  }

  /** Publications of the first n notifications only read those n. */
  lemma {:induction false} PublicationsUpTo(ns: seq<Notification>, runs: seq<Result<seq<LogRun>>>,
                                            ms: seq<Notification>, qs: seq<Result<seq<LogRun>>>, n: nat)
    requires |runs| == |ns| && |qs| == |ms| && n <= |ms| && n <= |ns|
    requires ns[..n] == ms[..n] && runs[..n] == qs[..n]
    ensures Publications(ns, runs, n) == Publications(ms, qs, n)
  {
    if n > 0 {
      assert ns[..n - 1] == ms[..n - 1] && runs[..n - 1] == qs[..n - 1];
      assert ns[n - 1] == ns[..n][n - 1] && ms[n - 1] == ms[..n][n - 1];
      assert runs[n - 1] == runs[..n][n - 1] && qs[n - 1] == qs[..n][n - 1];
      PublicationsUpTo(ns, runs, ms, qs, n - 1);
    }
  }

  /** The body of the monitor loop: the messages of the notifications handled in order, up
      to the first one that panics, and how many were handled. */
  method PublishUntilPanic(ns: seq<Notification>, runs: seq<Result<seq<LogRun>>>) returns (out: seq<KiloEvent>, handled: nat)
    requires |runs| == |ns|
    ensures handled == FirstPanic(ns)
    ensures out == Publications(ns, runs, handled)
  {
    out := [];
    handled := 0;
    while handled < |ns|
      invariant handled <= FirstPanic(ns)
      invariant out == Publications(ns, runs, handled)
    {
      if Panics(ns[handled]) {
        return;
      }
      assert handled < FirstPanic(ns);
      out := out + Messages(ns[handled], runs[handled]);
      handled := handled + 1;
    }
  }

  /** The ordering of a search: by run, then time, at most 1000 rows. */
  const EventsOrder: string := " ORDER BY run_id ASC, created_at ASC limit 1000;"

  function RunId(e: LogEventRecord): int {
    e.runId
  }

  /** The page a search answers with. */
  datatype SearchPage =
    | Failed(status: int)
    /** the first row's run id equals the grouping loop's starting sentinel, -1: the loop
        indexes the last group of an empty list */
    | ScanPanicked
    | NoResults
    | EventList(groups: seq<seq<LogEventRecord>>)

  /** The grouping loop: rows are scanned in order, and a row whose run differs from the
      previous row's opens a new group. The previous run starts as -1. */
  method GroupByRun(rows: seq<Result<LogEventRecord>>) returns (page: SearchPage)
    ensures 0 < |rows| && FirstScanError(rows) == 0 ==> page == Failed(500)
    ensures 0 < FirstScanError(rows) && rows[0].value.runId == -1 ==> page == ScanPanicked
    ensures 0 < FirstScanError(rows) < |rows| && rows[0].value.runId != -1 ==> page == Failed(500)
    ensures rows == [] ==> page == NoResults
    ensures 0 < FirstScanError(rows) == |rows| && rows[0].value.runId != -1 ==>
      page == EventList(Group(Scanned(rows, |rows|), RunId))
  {
    var events: seq<seq<LogEventRecord>> := [];
    var lastRunID := -1;
    var i := 0;
    while i < |rows|
      invariant i <= FirstScanError(rows)
      invariant events == Group(Scanned(rows, i), RunId) && RunSeen(events, lastRunID)
      invariant (events == []) == (i == 0)
      invariant i > 0 ==> rows[0].value.runId != -1
    {
      if rows[i].Err? {
        return Failed(500);
      }
      assert i < FirstScanError(rows);
      var panicked;
      events, lastRunID, panicked := GroupEvent(rows, i, events, lastRunID);
      if panicked {
        return ScanPanicked;
      }
      i := i + 1;
    }
    if events == [] {
      return NoResults;
    }
    return EventList(events);
  }

  /** The loop's last run id: -1 before any group, then the run of the last group's rows. */
  predicate RunSeen(groups: seq<seq<LogEventRecord>>, last: int) {
    if groups == [] then last == -1 else |groups[|groups| - 1]| > 0 && last == groups[|groups| - 1][0].runId
  }

  /** One scanned row of the grouping loop. With no group yet and the row's run equal to the
      last run id, the loop's index into the last group panics; otherwise the row is added. */
  method GroupEvent(rows: seq<Result<LogEventRecord>>, i: nat, events: seq<seq<LogEventRecord>>, lastRunID: int)
    returns (events': seq<seq<LogEventRecord>>, lastRunID': int, panicked: bool)
    requires i < FirstScanError(rows)
    requires events == Group(Scanned(rows, i), RunId) && RunSeen(events, lastRunID)
    ensures panicked <==> events == [] && rows[i].value.runId == -1
    ensures !panicked ==> events' == Group(Scanned(rows, i + 1), RunId) && RunSeen(events', lastRunID') && events' != []
  {
    var ev := rows[i].value;
    if events == [] && lastRunID == ev.runId {
      return events, lastRunID, true;
    }
    ghost var before := Scanned(rows, i);
    assert Scanned(rows, i + 1) == before + [ev];
    assert (before + [ev])[..|before|] == before;
    assert Group(before + [ev], RunId) == Push(Group(before, RunId), ev, RunId);
    events', lastRunID' := AppendGrouped(events, lastRunID, ev, RunId);
    panicked := false;
  }

  /** A successful search's groups split the rows into maximal runs of one run each, in
      order. */
  lemma SearchGroupsByRun(rows: seq<Result<LogEventRecord>>)
    requires FirstScanError(rows) == |rows|
    ensures IsGrouping(Group(Scanned(rows, |rows|), RunId), Scanned(rows, |rows|), RunId)
    ensures rows != [] ==> Group(Scanned(rows, |rows|), RunId) != []
  {
    GroupIsGrouping(Scanned(rows, |rows|), RunId);
  }

  /** The search a request issues binds the run id unless every run is asked for, and its
      text refers to exactly the names it binds. */
  lemma EventSearchConsistent(runID: string, stm: string, filter: string)
    ensures var q := Query(SearchSql("events", "run_id", runID, true, stm, filter, EventsOrder),
                           SearchParams("run_id", runID, true, stm, filter));
      Consistent(q) && ("run_id" in q.params <==> runID != "all")
  {
    SearchConsistent("events", "run_id", runID, true, stm, filter, EventsOrder);
  }

  /** The answer to a search request: the query issued, if any, and the page. */
  datatype SearchReply = SearchReply(issued: Option<Query>, page: SearchPage)

  /** The web UI server. The SSE and HTTP servers exist only when the UI is enabled. */
  class Server {
    var isEnabled: bool
    var port: int
    var hasServers: bool
    var isClosed: bool
    /** the event channel the monitor reads */
    var sinkOpen: bool
    var monitoring: bool
    var sseClosed: bool
    var httpClosed: bool
    /** notifications sent to the monitor and not yet handled */
    var pending: seq<Notification>
    /** messages published to the browser, in order */
    var published: seq<KiloEvent>
    /** notifications sent on the global control channel */
    var control: seq<Notification>

    /** New: a disabled server is returned as configured, with no SSE or HTTP server; an
        enabled one listens on the configured port, or 4001. */
    constructor (cfg: Config)
      ensures isEnabled == cfg.uiEnabled && port == UiPort(cfg) && hasServers == cfg.uiEnabled
      ensures !isClosed && sinkOpen && !monitoring && !sseClosed && !httpClosed
      ensures pending == [] && published == [] && control == []
    {
      isEnabled := cfg.uiEnabled;
      port := cfg.uiPort;
      hasServers := false;
      isClosed := false;
      sinkOpen := true;
      monitoring := false;
      sseClosed := false;
      httpClosed := false;
      pending := [];
      published := [];
      control := [];
      new;
      if !isEnabled {
        return;
      }
      if port == 0 {
        port := 4001;
      }
      hasServers := true;
    }

    /** Start: nothing when disabled; otherwise the HTTP server and the event monitor run. */
    method Start() returns (err: Option<string>)
      modifies this`monitoring
      ensures err.None? && monitoring == (old(monitoring) || isEnabled)
    {
      if !isEnabled {
        return None;
      }
      monitoring := true;
      return None;
    }

    /** Close: a second call returns nil and changes nothing. The first closes the event
        channel and the SSE and HTTP servers, reporting the HTTP server's error. */
    method Close(httpErr: Option<string>) returns (err: Option<string>)
      modifies this`isClosed, this`sinkOpen, this`sseClosed, this`httpClosed
      ensures old(isClosed) ==> err.None? && sinkOpen == old(sinkOpen) && sseClosed == old(sseClosed) && httpClosed == old(httpClosed)
      ensures isClosed && !old(isClosed) ==> !sinkOpen && sseClosed == (old(sseClosed) || hasServers) && httpClosed == (old(httpClosed) || hasServers)
      ensures !old(isClosed) ==> err == (if hasServers && httpErr.Some? then Some("closing http server: " + httpErr.value) else None)
      ensures isClosed
    {
      if isClosed {
        return None;
      }
      isClosed := true;
      sinkOpen := false;
      if hasServers {
        sseClosed := true;
      }
      if hasServers {
        httpClosed := true;
        if httpErr.Some? {
          return Some("closing http server: " + httpErr.value);
        }
      }
      return None;
    }

    /** Notify: dropped after Close, otherwise handed to the monitor. */
    method Notify(n: Notification)
      modifies this`pending
      ensures pending == if isClosed then old(pending) else old(pending) + [n]
    {
      if isClosed {
        return;
      }
      pending := pending + [n];
    }

    /** The monitor loop: the notifications handed over are handled in order; the first one
        whose metadata does not match its kind ends the program. `runs[i]` is what reading the
        runs returns while handling the i-th. */
    method MonitorEvents(runs: seq<Result<seq<LogRun>>>) returns (panicked: bool)
      requires |runs| == |pending|
      modifies this`pending, this`published
      ensures panicked <==> FirstPanic(old(pending)) < |old(pending)|
      ensures published == old(published) + Publications(old(pending), runs, FirstPanic(old(pending)))
      ensures pending == []
    {
      var out, handled := PublishUntilPanic(pending, runs);
      panicked := handled < |pending|;
      published := published + out;
      pending := [];
    }

    /** The restart button asks for a forced hard restart. */
    method RestartAction() returns (status: int)
      modifies this`control
      ensures control == old(control) + [Plain(HardRestartRequested, Process.ForceHardRestart)] && status == 200
    {
      control := control + [Plain(HardRestartRequested, Process.ForceHardRestart)];
      return 200;
    }

    /** The exit button asks for a system shutdown, with the forced-restart message. */
    method ExitAction() returns (status: int)
      modifies this`control
      ensures control == old(control) + [Plain(SystemShutdown, Process.ForceHardRestart)] && status == 200
    {
      control := control + [Plain(SystemShutdown, Process.ForceHardRestart)];
      return 200;
    }
  }

  /** searchActionHandler: an empty run id is first resolved to the newest run (a failure is
      a 500); a run id that is still empty finds nothing. Otherwise the search over `events`
      is issued; a failing query or row scan is a 500, no rows is the no-results page, and
      the rows are otherwise grouped by run. */
  method SearchAction(runID: string, stm: string, filter: string, lastRun: Result<string>,
                      result: Result<seq<Result<LogEventRecord>>>) returns (r: SearchReply)
    ensures runID == "" && lastRun.Err? ==> r == SearchReply(None, Failed(500))
    ensures var id := if runID == "" && lastRun.Ok? then lastRun.value else runID;
      !(runID == "" && lastRun.Err?) ==>
        (id == "" ==> r == SearchReply(None, NoResults)) &&
        (id != "" ==> r.issued == Some(Query(SearchSql("events", "run_id", id, true, stm, filter, EventsOrder),
                                             SearchParams("run_id", id, true, stm, filter)))) &&
        (id != "" && result.Err? ==> r.page == Failed(500)) &&
        (id != "" && result.Ok? && result.value == [] ==> r.page == NoResults) &&
        (id != "" && result.Ok? && 0 < |result.value| && FirstScanError(result.value) == 0 ==> r.page == Failed(500)) &&
        (id != "" && result.Ok? && 0 < FirstScanError(result.value) && result.value[0].value.runId == -1 ==>
          r.page == ScanPanicked) &&
        (id != "" && result.Ok? && 0 < FirstScanError(result.value) < |result.value| &&
          result.value[0].value.runId != -1 ==>
          r.page == Failed(500)) &&
        (id != "" && result.Ok? && FirstScanError(result.value) == |result.value| > 0 &&
          result.value[0].value.runId != -1 ==>
          r.page == EventList(Group(Scanned(result.value, |result.value|), RunId)))
  {
    var id := runID;
    if id == "" {
      if lastRun.Err? {
        return SearchReply(None, Failed(500));
      }
      id := lastRun.value;
    }
    if id == "" {
      return SearchReply(None, NoResults);
    }
    var q := BuildSearch("events", "run_id", id, true, stm, filter, EventsOrder);
    if result.Err? {
      return SearchReply(Some(q), Failed(500));
    }
    var page := GroupByRun(result.value);
    return SearchReply(Some(q), page);
  }
}
