/** The console capture: the child's output is stored line by line as events of the current
    run and pushed to the browser, a new run is recorded at every respawn, and a small web UI
    shows a run's events, searches them and asks for a restart. HTTP, SSE, SQLite and templ
    rendering are abstracted: each database call's outcome is a parameter, and a rendered
    page is represented by what it shows. */
module Capture {
  import opened Wrappers
  import opened Strings
  import opened Notification
  import opened Configuration
  import opened SqlQuery
  import Console
  import opened Sequences

  /** An option given to New: one that registers the respawn channel, or one that fails. */
  datatype CaptureOption = WithRespawn | FailingOption(err: string)

  /** What checking for the `.gomon` data directory finds. */
  datatype DataDir = DirExists | DirMissing | DirUnreadable(err: string)

  /** The number of options applied before the first failing one. */
  function FirstFailingOption(opts: seq<CaptureOption>): (k: nat)
    ensures k <= |opts|
    ensures forall i :: 0 <= i < k ==> opts[i] == WithRespawn
    ensures k < |opts| ==> opts[k].FailingOption?
  {
    if opts == [] || opts[0].FailingOption? then 0 else 1 + FirstFailingOption(opts[1..])
  }

  /** The error of preparing the store: the data directory is created when missing, then the
      database is opened and the schema applied; the first failing step is reported. */
  function SetupError(dir: DataDir, mkdirErr: Option<string>, connectErr: Option<string>, schemaErr: Option<string>): (e: Option<string>)
    ensures e.None? <==> !dir.DirUnreadable? && (dir.DirMissing? ==> mkdirErr.None?) && connectErr.None? && schemaErr.None?
    ensures dir.DirUnreadable? ==> e == Some("checking for .gomon directory: " + dir.err)
    ensures dir.DirMissing? && mkdirErr.Some? ==> e == Some("creating .gomon directory: " + mkdirErr.value)
  {
    if dir.DirUnreadable? then Some("checking for .gomon directory: " + dir.err)
    else if dir.DirMissing? && mkdirErr.Some? then Some("creating .gomon directory: " + mkdirErr.value)
    else if connectErr.Some? then Some("connecting to sqlite: " + connectErr.value)
    else if schemaErr.Some? then Some("creating db schema: " + schemaErr.value)
    else None
  }

  /** The outcome of storing one line: stored with its new id, the insert failed, the id
      could not be read back, or the stored event could not be read back. */
  datatype LineOutcome = Stored(id: int) | InsertFailed(err: string) | IdFailed(idErr: string) | GetFailed(getErr: string)

  /** The number of lines handled before the first failing insert. */
  function FirstInsertFailure(outcomes: seq<LineOutcome>): (k: nat)
    ensures k <= |outcomes|
    ensures forall i :: 0 <= i < k ==> !outcomes[i].InsertFailed?
    ensures k < |outcomes| ==> outcomes[k].InsertFailed?
  {
    if outcomes == [] || outcomes[0].InsertFailed? then 0 else 1 + FirstInsertFailure(outcomes[1..])
  }

  /** The rows a write inserts for its first n lines: each line under the run and the
      stream, stamped with the clock reading taken for its own insert. */
  function CapturedRows(lines: seq<string>, times: seq<int>, runId: int, logType: string, n: nat): seq<Console.EventRow>
    requires |times| == |lines| && n <= |lines|
  {
    if n == 0 then [] else CapturedRows(lines, times, runId, logType, n - 1) + [Console.EventRow(runId, logType, lines[n - 1], times[n - 1])]
  }

  /** The i-th row is the i-th line with the i-th clock reading. */
  lemma {:induction false} CapturedRowsShape(lines: seq<string>, times: seq<int>, runId: int, logType: string, n: nat)
    requires |times| == |lines| && n <= |lines|
    ensures |CapturedRows(lines, times, runId, logType, n)| == n
    ensures forall i :: 0 <= i < n ==> CapturedRows(lines, times, runId, logType, n)[i] == Console.EventRow(runId, logType, lines[i], times[i])
  {
    if n > 0 {
      CapturedRowsShape(lines, times, runId, logType, n - 1);
    }
  }

  /** The events pushed to the browser for the first n lines: those whose id and row could
      be read back. */
  function Pushed(lines: seq<string>, times: seq<int>, outcomes: seq<LineOutcome>, runId: int, logType: string, n: nat): seq<LogEventRecord>
    requires |outcomes| == |lines| && |times| == |lines| && n <= |lines|
  {
    if n == 0 then []
    else Pushed(lines, times, outcomes, runId, logType, n - 1)
         + (if outcomes[n - 1].Stored? then [LogEventRecord(outcomes[n - 1].id, runId, logType, lines[n - 1], times[n - 1])] else [])
  }

  /** The events pushed are the stored lines: no more events than lines, each one the line
      of some position whose row was read back, with that row's id, the run, the stream and
      the time of that line's insert. */
  lemma {:induction false} PushedAreStoredLines(lines: seq<string>, times: seq<int>, outcomes: seq<LineOutcome>, runId: int, logType: string, n: nat)
    requires |outcomes| == |lines| && |times| == |lines| && n <= |lines|
    ensures |Pushed(lines, times, outcomes, runId, logType, n)| <= n
    ensures forall e :: e in Pushed(lines, times, outcomes, runId, logType, n) ==>
      exists j :: 0 <= j < n && outcomes[j].Stored? && e == LogEventRecord(outcomes[j].id, runId, logType, lines[j], times[j])
    ensures (forall i :: 0 <= i < n ==> outcomes[i].Stored?) ==>
      |Pushed(lines, times, outcomes, runId, logType, n)| == n
  {
    if n > 0 {
      PushedAreStoredLines(lines, times, outcomes, runId, logType, n - 1);
    }
  }

  /** The page the index handler answers with. */
  datatype IndexPage =
    | IndexStatus(status: int)
    /** no run is recorded yet: the handler indexes the first run of an empty list */
    | IndexPanicked
    | ConsolePage(run: int, runs: seq<LogRun>, events: seq<LogEventRecord>)

  /** The run the index shows: the newest one for an empty or `current` parameter, otherwise
      the parameter parsed as an integer. */
  function SelectedRun(runs: seq<LogRun>, runParam: string): (r: Result<int>)
    requires runs != []
    ensures runParam == "" || runParam == "current" ==> r == Ok(runs[0].id)
    ensures !(runParam == "" || runParam == "current") ==> r == Atoi(runParam)
  {
    if runParam == "" || runParam == "current" then Ok(runs[0].id) else Atoi(runParam)
  }

  /** handleIndex: reading the runs (newest first) fails with 500; with no run the handler
      panics; a run parameter that does not parse is a 400; reading the run's events fails
      with 500; otherwise the console page of the selected run. `events` is what reading the
      selected run's events returns. */
  function IndexResponse(runs: Result<seq<LogRun>>, runParam: string, events: Result<seq<LogEventRecord>>): (p: IndexPage)
    ensures runs.Err? ==> p == IndexStatus(500)
    ensures runs.Ok? && runs.value == [] ==> p == IndexPanicked
    ensures runs.Ok? && runs.value != [] && SelectedRun(runs.value, runParam).Err? ==> p == IndexStatus(400)
    ensures runs.Ok? && runs.value != [] && SelectedRun(runs.value, runParam).Ok? ==>
      p == (if events.Err? then IndexStatus(500) else ConsolePage(SelectedRun(runs.value, runParam).value, runs.value, events.value))
  {
    if runs.Err? then IndexStatus(500)
    else if runs.value == [] then IndexPanicked
    else match SelectedRun(runs.value, runParam)
      case Err(_) => IndexStatus(400)
      case Ok(run) => if events.Err? then IndexStatus(500) else ConsolePage(run, runs.value, events.value)
  }

  /** A run named by its decimal id is the run shown, for every 64-bit id. */
  lemma IndexShowsNamedRun(runs: seq<LogRun>, k: int, events: seq<LogEventRecord>)
    requires runs != [] && MinInt64 <= k <= MaxInt64
    ensures IndexResponse(Ok(runs), Itoa(k), Ok(events)) == ConsolePage(k, runs, events)
  {
    AtoiItoa(k);
    assert !IsNumeral("current") by {
      assert !IsDigit("current"[0]);
    }
  }

  /** A run parameter other than the empty one and `current` that is not an integer numeral is
      rejected with 400, whatever the runs and events. */
  lemma NonNumeralRejected(runs: seq<LogRun>, runParam: string, events: Result<seq<LogEventRecord>>)
    requires runs != [] && runParam != "" && runParam != "current" && !IsNumeral(runParam)
    ensures IndexResponse(Ok(runs), runParam, events) == IndexStatus(400)
  {
  }

  /** The ordering of a capture search: by time. */
  const CreatedOrder: string := " ORDER BY created_at ASC;"

  const NoEventsFound: string := "<div class=\"text-2xl text-bold\">no events found</div>"

  /** The page the search handler answers with. */
  datatype SearchPage = SearchFailed(status: int) | NoEventsPage(body: string, status: int) | EventListPage(events: seq<LogEventRecord>)

  /** The capture search always binds the run, even for "all", and its text refers to exactly
      the names it binds. */
  lemma CaptureSearchByRun(run: string, stm: string, filter: string)
    ensures var q := Query(SearchSql("events", "run_id", run, false, stm, filter, CreatedOrder),
                           SearchParams("run_id", run, false, stm, filter));
      Consistent(q) && "run_id" in q.params && q.params["run_id"] == run
  {
    SearchConsistent("events", "run_id", run, false, stm, filter, CreatedOrder);
  }

  /** The scan loop: every row is read in order; the first one that fails to scan ends it. */
  method ScanAll(rows: seq<Result<LogEventRecord>>) returns (events: seq<LogEventRecord>, ok: bool)
    ensures ok <==> FirstScanError(rows) == |rows|
    ensures ok ==> events == Scanned(rows, |rows|)
  {
    events := [];
    var i := 0;
    while i < |rows|
      invariant i <= FirstScanError(rows)
      invariant events == Scanned(rows, i)
    {
      if rows[i].Err? {
        return [], false;
      }
      assert i < FirstScanError(rows);
      events := events + [rows[i].value];
      i := i + 1;
    }
    return events, true;
  }

  /** handlSearch: the search over the run's events is issued; a failing query or row scan
      is a 500; no rows is the no-events message with 200; otherwise the events in order. */
  method HandleSearch(run: string, stm: string, filter: string, result: Result<seq<Result<LogEventRecord>>>)
    returns (q: Query, page: SearchPage)
    ensures q == Query(SearchSql("events", "run_id", run, false, stm, filter, CreatedOrder),
                       SearchParams("run_id", run, false, stm, filter))
    ensures result.Err? ==> page == SearchFailed(500)
    ensures result.Ok? && FirstScanError(result.value) < |result.value| ==> page == SearchFailed(500)
    ensures result.Ok? && result.value == [] ==> page == NoEventsPage(NoEventsFound, 200)
    ensures result.Ok? && FirstScanError(result.value) == |result.value| > 0 ==>
      page == EventListPage(Scanned(result.value, |result.value|))
  {
    q := BuildSearch("events", "run_id", run, false, stm, filter, CreatedOrder);
    if result.Err? {
      return q, SearchFailed(500);
    }
    var events, ok := ScanAll(result.value);
    if !ok {
      return q, SearchFailed(500);
    }
    if events == [] {
      return q, NoEventsPage(NoEventsFound, 200);
    }
    return q, EventListPage(events);
  }

  /** The console capture. The SSE and HTTP servers and the store exist only when enabled. */
  class ConsoleCapture {
    var enabled: bool
    var port: int
    /** whether a respawn channel was registered */
    var respawn: bool
    var hasServers: bool
    var currentRunId: int
    /** rows written to the events table */
    var rows: seq<Console.EventRow>
    /** events pushed on the `logs` stream */
    var logs: seq<LogEventRecord>
    /** runs written to the runs table */
    var runs: seq<LogRun>
    /** runs pushed on the `runs` stream */
    var runsPublished: seq<LogRun>
    /** restart requests sent on the respawn channel */
    var respawnSignals: nat

    constructor (enabled: bool, port: int)
      ensures this.enabled == enabled && this.port == port
      ensures !respawn && !hasServers && currentRunId == 0 && respawnSignals == 0
      ensures rows == [] && logs == [] && runs == [] && runsPublished == []
    {
      this.enabled := enabled;
      this.port := port;
      respawn := false;
      hasServers := false;
      currentRunId := 0;
      rows := [];
      logs := [];
      runs := [];
      runsPublished := [];
      respawnSignals := 0;
    }

    /** New: a disabled capture is returned as configured, before any option is applied and
        without servers or store. An enabled one listens on the configured port or 4001,
        applies the options in order (the first failing one is an error), then prepares the
        store. */
    static method New(cfg: Config, opts: seq<CaptureOption>, dir: DataDir, mkdirErr: Option<string>,
                      connectErr: Option<string>, schemaErr: Option<string>)
      returns (c: ConsoleCapture?, err: Option<string>)
      ensures c != null ==> fresh(c) && err.None? && c.enabled == cfg.uiEnabled && c.port == UiPort(cfg)
      ensures c != null ==> c.hasServers == cfg.uiEnabled && c.rows == [] && c.runs == [] && c.currentRunId == 0
      ensures !cfg.uiEnabled ==> c != null && !c.respawn
      ensures cfg.uiEnabled && FirstFailingOption(opts) < |opts| ==>
        c == null && err == Some("applying option: " + opts[FirstFailingOption(opts)].err)
      ensures cfg.uiEnabled && FirstFailingOption(opts) == |opts| ==>
        (c == null <==> SetupError(dir, mkdirErr, connectErr, schemaErr).Some?) &&
        (c == null ==> err == SetupError(dir, mkdirErr, connectErr, schemaErr)) &&
        (c != null ==> c.respawn == (opts != []))
    {
      c := new ConsoleCapture(cfg.uiEnabled, cfg.uiPort);
      if !c.enabled {
        return c, None;
      }
      if c.port == 0 {
        c.port := 4001;
      }
      var i := 0;
      while i < |opts|
        invariant i <= FirstFailingOption(opts)
        invariant c.respawn == (i > 0) && c.enabled && c.port == UiPort(cfg)
        invariant c.rows == [] && c.runs == [] && c.currentRunId == 0 && !c.hasServers
        modifies c
      {
        match opts[i] {
          case FailingOption(e) =>
            return null, Some("applying option: " + e);
          case WithRespawn =>
            c.respawn := true;
        }
        i := i + 1;
      }
      c.hasServers := true;
      var setup := SetupError(dir, mkdirErr, connectErr, schemaErr);
      if setup.Some? {
        return null, setup;
      }
      return c, None;
    }

    /** write: the data is split on newlines and each line is stored under the current run,
        stamped with the clock read for its own insert (`times[i]` for the i-th line); a line
        whose event can be read back is pushed to the browser. The first failing insert ends
        the write with 0 bytes and its error; otherwise the whole length is reported. */
    method Write(logType: string, logData: string, times: seq<int>, outcomes: seq<LineOutcome>) returns (n: int, err: Option<string>)
      requires |outcomes| == |Split(logData, '\n')| && |times| == |Split(logData, '\n')|
      modifies this`rows, this`logs
      ensures FirstInsertFailure(outcomes) < |outcomes| ==>
        n == 0 && err == Some("inserting event: " + outcomes[FirstInsertFailure(outcomes)].err)
      ensures FirstInsertFailure(outcomes) == |outcomes| ==> n == |logData| && err.None?
      ensures rows == old(rows) + CapturedRows(Split(logData, '\n'), times, currentRunId, logType, FirstInsertFailure(outcomes))
      ensures logs == old(logs) + Pushed(Split(logData, '\n'), times, outcomes, currentRunId, logType, FirstInsertFailure(outcomes))
    {
      var lines := Split(logData, '\n');
      var runId := currentRunId;
      var stored := rows;
      var pushed := logs;
      var i := 0;
      while i < |lines|
        invariant i <= FirstInsertFailure(outcomes)
        invariant stored == old(rows) + CapturedRows(lines, times, runId, logType, i)
        invariant pushed == old(logs) + Pushed(lines, times, outcomes, runId, logType, i)
      {
        if outcomes[i].InsertFailed? {
          rows, logs := stored, pushed;
          return 0, Some("inserting event: " + outcomes[i].err);
        }
        assert i < FirstInsertFailure(outcomes);
        stored, pushed := CaptureLine(lines, times, outcomes, i, runId, logType, stored, pushed, old(rows), old(logs));
        i := i + 1;
      }
      rows, logs := stored, pushed;
      return |logData|, None;
    }

    /** One line of a write whose insert succeeded: its row is stored, and its event is
        pushed when its id and row could be read back. */
    static method CaptureLine(lines: seq<string>, times: seq<int>, outcomes: seq<LineOutcome>, i: nat, runId: int, logType: string,
                              stored: seq<Console.EventRow>, pushed: seq<LogEventRecord>,
                              ghost rows0: seq<Console.EventRow>, ghost logs0: seq<LogEventRecord>)
      returns (stored': seq<Console.EventRow>, pushed': seq<LogEventRecord>)
      requires |outcomes| == |lines| && |times| == |lines| && i < |lines| && !outcomes[i].InsertFailed?
      requires stored == rows0 + CapturedRows(lines, times, runId, logType, i)
      requires pushed == logs0 + Pushed(lines, times, outcomes, runId, logType, i)
      ensures stored' == rows0 + CapturedRows(lines, times, runId, logType, i + 1)
      ensures pushed' == logs0 + Pushed(lines, times, outcomes, runId, logType, i + 1)
    {
      var row := Console.EventRow(runId, logType, lines[i], times[i]);
      stored' := stored + [row];
      AppendAssoc(rows0, CapturedRows(lines, times, runId, logType, i), [row]);
      var ev := if outcomes[i].Stored? then [LogEventRecord(outcomes[i].id, runId, logType, lines[i], times[i])] else [];
      pushed' := pushed;
      if outcomes[i].Stored? {
        pushed' := pushed' + ev;
      }
      AppendAssoc(logs0, Pushed(lines, times, outcomes, runId, logType, i), ev);
    }

    /** handleRestart: 501 without a respawn channel; otherwise a restart is requested and the
        answer is 200. */
    method HandleRestart() returns (status: int)
      modifies this`respawnSignals
      ensures !respawn ==> status == 501 && respawnSignals == old(respawnSignals)
      ensures respawn ==> status == 200 && respawnSignals == old(respawnSignals) + 1
    {
      if !respawn {
        return 501;
      }
      respawnSignals := respawnSignals + 1;
      return 200;
    }
  }

  /** Respawning: nothing on a missing receiver; otherwise a run row is stored, its id becomes
      the current run and the run is pushed on the `runs` stream. A failed insert is logged,
      but leaves no result to read the id from, and the call panics. A failure to read the id
      is only logged, and the id returned is used. */
  method Respawning(c: ConsoleCapture?, now: int, outcome: Console.RunInsert) returns (panicked: bool)
    modifies c
    ensures c == null ==> !panicked
    ensures c != null && outcome.RunInsertFailed? ==>
      panicked && c.runs == old(c.runs) && c.currentRunId == old(c.currentRunId) && c.runsPublished == old(c.runsPublished)
    ensures c != null && outcome.RunInserted? ==>
      !panicked && c.runs == old(c.runs) + [LogRun(outcome.id, now)] && c.currentRunId == outcome.id &&
      c.runsPublished == old(c.runsPublished) + [LogRun(outcome.id, now)]
    ensures c != null ==> c.rows == old(c.rows) && c.logs == old(c.logs) && c.respawn == old(c.respawn)
  {
    if c == null {
      return false;
    }
    match outcome {
      case RunInsertFailed(_) =>
        return true;
      case RunInserted(id, _) =>
        c.runs := c.runs + [LogRun(id, now)];
        c.currentRunId := id;
        c.runsPublished := c.runsPublished + [LogRun(id, now)];
        return false;
    }
  }

  /** When every insert succeeds, one row per newline plus one is stored, each with its own
      clock reading, and the stored lines, joined with newlines, are the written data. */
  lemma WriteStoresEveryLine(logData: string, times: seq<int>, outcomes: seq<LineOutcome>, runId: int, logType: string)
    requires |outcomes| == |Split(logData, '\n')| && |times| == |outcomes| && FirstInsertFailure(outcomes) == |outcomes|
    ensures var r := CapturedRows(Split(logData, '\n'), times, runId, logType, FirstInsertFailure(outcomes));
      |r| == Count(logData, '\n') + 1 &&
      |r| == |times| && (forall i :: 0 <= i < |r| ==> r[i].createdAt == times[i]) &&
      Join(seq(|r|, i requires 0 <= i < |r| => r[i].eventData), '\n') == logData
  {
    var lines := Split(logData, '\n');
    SplitCount(logData, '\n');
    SplitFields(logData, '\n');
    CapturedRowsShape(lines, times, runId, logType, |lines|);
    var r := CapturedRows(lines, times, runId, logType, |lines|);
    assert seq(|r|, i requires 0 <= i < |r| => r[i].eventData) == lines;
  }
}
