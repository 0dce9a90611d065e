/** The console streams: the child's output is split into lines, each line is stored as an
    event of the current run, and every stored event and every new run is passed on to the
    registered listeners in the order they registered. The database is abstracted: each
    insert's outcome is a parameter, and the rows written are recorded. */
module Console {
  import opened Wrappers
  import opened Strings
  import opened Notification
  import opened Sequences

  /** What a listener receives: a new run or a stored log line. */
  datatype ListenerEvent = RunEvent(run: LogRun) | LineEvent(event: LogEventRecord)

  /** One value sent to one listener. */
  datatype Delivery = Delivery(listener: nat, event: ListenerEvent)

  /** A row of the events table: run id, stream name, one line of output and its time. */
  datatype EventRow = EventRow(runId: int, eventType: string, eventData: string, createdAt: int)

  /** The outcome of storing one line: stored with its new id, the insert failed, or the
      row was stored but its id could not be read back. */
  datatype InsertOutcome = Inserted(id: int) | InsertFailed(err: string) | IdFailed(idErr: string)

  /** The outcome of storing a new run. */
  datatype RunInsert = RunInserted(id: int, idErr: Option<string>) | RunInsertFailed(err: string)

  // ---- listeners ----

  /** The first n listeners receiving e, in registration order. */
  function FanOut(listeners: seq<nat>, e: ListenerEvent, n: nat): seq<Delivery>
    requires n <= |listeners|
  {
    if n == 0 then [] else FanOut(listeners, e, n - 1) + [Delivery(listeners[n - 1], e)]
  }

  /** Every listener receives the event exactly once, in registration order. */
  lemma {:induction false} FanOutOrder(listeners: seq<nat>, e: ListenerEvent, n: nat)
    requires n <= |listeners|
    ensures |FanOut(listeners, e, n)| == n
    ensures forall i :: 0 <= i < n ==> FanOut(listeners, e, n)[i] == Delivery(listeners[i], e)
  {
    if n > 0 {
      FanOutOrder(listeners, e, n - 1);
    }
  }

  /** The list without its first occurrence of x; unchanged when x is absent. */
  function RemoveFirst(xs: seq<nat>, x: nat): seq<nat> {
    if xs == [] then []
    else if xs[0] == x then xs[1..]
    else [xs[0]] + RemoveFirst(xs[1..], x)
  }

  /** An absent listener leaves the list unchanged. */
  lemma {:induction false} RemoveAbsent(xs: seq<nat>, x: nat)
    requires x !in xs
    ensures RemoveFirst(xs, x) == xs
  {
    if xs != [] {
      RemoveAbsent(xs[1..], x);
      assert xs == [xs[0]] + xs[1..];
    }
  }

  /** Removing splices out the first occurrence and keeps the others in order. */
  lemma {:induction false} RemoveFirstAt(xs: seq<nat>, x: nat, i: nat)
    requires i < |xs| && xs[i] == x && x !in xs[..i]
    ensures RemoveFirst(xs, x) == xs[..i] + xs[i + 1..]
  {
    if i > 0 {
      assert xs[0] == xs[..i][0];
      assert xs[1..][..i - 1] == xs[1..i];
      RemoveFirstAt(xs[1..], x, i - 1);
      assert xs[..i] == [xs[0]] + xs[1..i];
    }
  }

  /** Exactly one occurrence is taken out when there is one. */
  lemma {:induction false} RemoveFirstCount(xs: seq<nat>, x: nat)
    ensures multiset(RemoveFirst(xs, x)) == multiset(xs) - multiset{x}
  {
    if xs != [] {
      assert xs == [xs[0]] + xs[1..];
      assert multiset(xs) == multiset{xs[0]} + multiset(xs[1..]);
      if xs[0] != x {
        RemoveFirstCount(xs[1..], x);
        assert multiset(RemoveFirst(xs, x)) == multiset{xs[0]} + multiset(RemoveFirst(xs[1..], x));
      }
    }
  }

  /** Adding a listener and removing it again gives the original list. */
  lemma {:induction false} AddThenRemove(xs: seq<nat>, x: nat)
    requires x !in xs
    ensures RemoveFirst(xs + [x], x) == xs
  {
    if xs != [] {
      assert (xs + [x])[1..] == xs[1..] + [x];
      AddThenRemove(xs[1..], x);
    }
  }

  // ---- storing output ----

  /** The number of lines stored before the first failing insert. */
  function FirstWriteFailure(outcomes: seq<InsertOutcome>): (k: nat)
    ensures k <= |outcomes|
    ensures forall i :: 0 <= i < k ==> outcomes[i].Inserted?
    ensures k < |outcomes| ==> !outcomes[k].Inserted?
  {
    if outcomes == [] || !outcomes[0].Inserted? then 0 else 1 + FirstWriteFailure(outcomes[1..])
  }

  /** The rows of the first n lines, all with the same run, stream and time. */
  function Rows(lines: seq<string>, runId: int, logType: string, now: int, n: nat): seq<EventRow>
    requires n <= |lines|
  {
    if n == 0 then [] else Rows(lines, runId, logType, now, n - 1) + [EventRow(runId, logType, lines[n - 1], now)]
  }

  lemma {:induction false} RowsShape(lines: seq<string>, runId: int, logType: string, now: int, n: nat)
    requires n <= |lines|
    ensures |Rows(lines, runId, logType, now, n)| == n
    ensures forall i :: 0 <= i < n ==> Rows(lines, runId, logType, now, n)[i] == EventRow(runId, logType, lines[i], now)
  {
    if n > 0 {
      RowsShape(lines, runId, logType, now, n - 1);
    }
  }

  /** The events the listeners receive for the first n stored lines. */
  function LineDeliveries(listeners: seq<nat>, lines: seq<string>, outcomes: seq<InsertOutcome>,
                          runId: int, logType: string, now: int, n: nat): seq<Delivery>
    requires n <= FirstWriteFailure(outcomes) && |outcomes| == |lines|
  {
    if n == 0 then []
    else LineDeliveries(listeners, lines, outcomes, runId, logType, now, n - 1)
         + FanOut(listeners, LineEvent(LogEventRecord(outcomes[n - 1].id, runId, logType, lines[n - 1], now)), |listeners|)
  }

  /** The number of rows a write stores: the lines before the first failure, plus the failing
      one when only reading its id failed. */
  function RowsWritten(outcomes: seq<InsertOutcome>): (n: nat)
    ensures n <= |outcomes|
  {
    var k := FirstWriteFailure(outcomes);
    if k < |outcomes| && outcomes[k].IdFailed? then k + 1 else k
  }

  /** The error a write returns. */
  function WriteError(outcomes: seq<InsertOutcome>): (err: Option<string>)
    ensures err.None? <==> FirstWriteFailure(outcomes) == |outcomes|
  {
    var k := FirstWriteFailure(outcomes);
    if k == |outcomes| then None
    else match outcomes[k]
      case InsertFailed(e) => Some("inserting event: " + e)
      case IdFailed(e) => Some("getting last insert id: " + e)
  }

  /** The rows of every line of some output: one per newline plus one, in order, and joining
      their lines with newlines gives back the output. */
  lemma RowsRoundTrip(logData: string, runId: int, logType: string, now: int)
    ensures var r := Rows(Split(logData, '\n'), runId, logType, now, |Split(logData, '\n')|);
      |r| == Count(logData, '\n') + 1 &&
      Join(seq(|r|, i requires 0 <= i < |r| => r[i].eventData), '\n') == logData
  {
    var lines := Split(logData, '\n');
    SplitCount(logData, '\n');
    SplitFields(logData, '\n');
    RowsShape(lines, runId, logType, now, |lines|);
    var r := Rows(lines, runId, logType, now, |lines|);
    assert seq(|r|, i requires 0 <= i < |r| => r[i].eventData) == lines;
  }

  /** When every insert succeeds, a write stores one row per newline plus one, in order, and
      joining the stored lines with newlines gives back the written data. */
  lemma WriteStoresEveryLine(logData: string, outcomes: seq<InsertOutcome>, runId: int, logType: string, now: int)
    requires |outcomes| == |Split(logData, '\n')|
    requires FirstWriteFailure(outcomes) == |outcomes|
    ensures var r := Rows(Split(logData, '\n'), runId, logType, now, RowsWritten(outcomes));
      |r| == Count(logData, '\n') + 1 &&
      Join(seq(|r|, i requires 0 <= i < |r| => r[i].eventData), '\n') == logData
  {
    RowsRoundTrip(logData, runId, logType, now);
  }

  /** A write whose k-th insert fails stores none of the later lines. */
  lemma FailureStopsWrite(outcomes: seq<InsertOutcome>, k: nat)
    requires k < |outcomes| && !outcomes[k].Inserted?
    ensures RowsWritten(outcomes) <= k + 1
    ensures WriteError(outcomes).Some?
  {
  }

  class Streams {
    /** the registered listeners, in registration order */
    var listeners: seq<nat>
    var closed: bool
    var currentRunId: int
    /** the events table and the runs table, as written */
    var rows: seq<EventRow>
    var runs: seq<LogRun>
    /** every value sent to a listener, in order */
    var delivered: seq<Delivery>

    constructor ()
      ensures listeners == [] && !closed && currentRunId == 0 && rows == [] && runs == [] && delivered == []
    {
      listeners := [];
      closed := false;
      currentRunId := 0;
      rows := [];
      runs := [];
      delivered := [];
    }

    /** AddEventSink: the listener goes at the end of the list. */
    method AddEventSink(sink: nat)
      modifies this`listeners
      ensures listeners == old(listeners) + [sink]
    {
      listeners := listeners + [sink];
    }

    /** RemoveEventSink: the first registration of the listener is spliced out. */
    method RemoveEventSink(sink: nat)
      modifies this`listeners
      ensures listeners == RemoveFirst(old(listeners), sink)
    {
      var i := 0;
      while i < |listeners|
        invariant 0 <= i <= |listeners| && listeners == old(listeners)
        invariant sink !in listeners[..i]
        invariant RemoveFirst(listeners, sink) == listeners[..i] + RemoveFirst(listeners[i..], sink)
      {
        if listeners[i] == sink {
          listeners := listeners[..i] + listeners[i + 1..];
          return;
        }
        assert listeners[i..] == [listeners[i]] + listeners[i + 1..];
        assert listeners[..i + 1] == listeners[..i] + [listeners[i]];
        i := i + 1;
      }
      assert listeners[i..] == [];
    }

    /** Close: later writes are dropped, and the two writer channels are closed. Only Close
        sets the flag, so a second call closes those channels again, which panics. */
    method Close() returns (err: Option<string>, panicked: bool)
      modifies this`closed
      ensures closed && err.None?
      ensures panicked <==> old(closed)
    {
      panicked := closed;
      closed := true;
      return None, panicked;
    }

    /** notifyEventListeners: the event goes to each listener, in registration order. */
    method NotifyEventListeners(e: ListenerEvent)
      modifies this`delivered
      ensures delivered == old(delivered) + FanOut(listeners, e, |listeners|)
    {
      for i := 0 to |listeners|
        invariant delivered == old(delivered) + FanOut(listeners, e, i)
      {
        delivered := delivered + [Delivery(listeners[i], e)];
      }
    }

    /** write: after Close nothing happens; otherwise the data is split on newlines and each
        line is stored under the current run and one timestamp, then passed to the
        listeners. The first failing insert ends the write with its error. */
    method Write(logType: string, logData: string, now: int, outcomes: seq<InsertOutcome>) returns (err: Option<string>)
      requires |outcomes| == |Split(logData, '\n')|
      modifies this`rows, this`delivered
      ensures old(closed) ==> err.None? && rows == old(rows) && delivered == old(delivered)
      ensures !old(closed) ==> err == WriteError(outcomes)
      ensures !old(closed) ==> rows == old(rows) + Rows(Split(logData, '\n'), currentRunId, logType, now, RowsWritten(outcomes))
      ensures !old(closed) ==>
        delivered == old(delivered) + LineDeliveries(listeners, Split(logData, '\n'), outcomes, currentRunId, logType, now, FirstWriteFailure(outcomes))
    {
      if closed {
        return None;
      }
      var runId := currentRunId;
      var lines := Split(logData, '\n');
      var i := 0;
      while i < |lines|
        invariant i <= FirstWriteFailure(outcomes)
        invariant rows == old(rows) + Rows(lines, runId, logType, now, i)
        invariant delivered == old(delivered) + LineDeliveries(listeners, lines, outcomes, runId, logType, now, i)
      {
        var row := EventRow(runId, logType, lines[i], now);
        match outcomes[i] {
          case InsertFailed(e) =>
            return Some("inserting event: " + e);
          case IdFailed(e) =>
            rows := rows + [row];
            assert rows == old(rows) + Rows(lines, runId, logType, now, i + 1) by {
              AppendAssoc(old(rows), Rows(lines, runId, logType, now, i), [row]);
            }
            return Some("getting last insert id: " + e);
          case Inserted(id) =>
            assert i < FirstWriteFailure(outcomes);
            StoreLine(lines, outcomes, i, runId, logType, now, old(rows), old(delivered));
        }
        i := i + 1;
      }
      return None;
    }

    /** One line whose insert succeeded: its row is stored and its event passed to the
        listeners. */
    method StoreLine(lines: seq<string>, outcomes: seq<InsertOutcome>, i: nat, runId: int, logType: string, now: int,
                     ghost rows0: seq<EventRow>, ghost delivered0: seq<Delivery>)
      requires |outcomes| == |lines| && i < FirstWriteFailure(outcomes)
      requires rows == rows0 + Rows(lines, runId, logType, now, i)
      requires delivered == delivered0 + LineDeliveries(listeners, lines, outcomes, runId, logType, now, i)
      modifies this`rows, this`delivered
      ensures rows == rows0 + Rows(lines, runId, logType, now, i + 1)
      ensures delivered == delivered0 + LineDeliveries(listeners, lines, outcomes, runId, logType, now, i + 1)
    {
      var e := LineEvent(LogEventRecord(outcomes[i].id, runId, logType, lines[i], now));
      rows := rows + [EventRow(runId, logType, lines[i], now)];
      AppendAssoc(rows0, Rows(lines, runId, logType, now, i), [EventRow(runId, logType, lines[i], now)]);
      NotifyEventListeners(e);
      AppendAssoc(delivered0, LineDeliveries(listeners, lines, outcomes, runId, logType, now, i), FanOut(listeners, e, |listeners|));
    }
  }

  /** OnHardRestart: nothing on a missing receiver; otherwise a run row is stored, its id
      becomes the current run and the run is passed to the listeners. A failed insert leaves
      no result to read the id from, and the call panics. A failure to read the id is only
      logged, and the id returned is used. */
  method OnHardRestart(s: Streams?, now: int, outcome: RunInsert) returns (panicked: bool)
    modifies s
    ensures s == null ==> !panicked
    ensures s != null && outcome.RunInsertFailed? ==>
      panicked && s.runs == old(s.runs) && s.currentRunId == old(s.currentRunId) && s.delivered == old(s.delivered)
    ensures s != null && outcome.RunInserted? ==>
      !panicked && s.runs == old(s.runs) + [LogRun(outcome.id, now)] && s.currentRunId == outcome.id &&
      s.delivered == old(s.delivered) + FanOut(s.listeners, RunEvent(LogRun(outcome.id, now)), |s.listeners|)
    ensures s != null ==> s.listeners == old(s.listeners) && s.rows == old(s.rows) && s.closed == old(s.closed)
  {
    if s == null {
      return false;
    }
    match outcome {
      case RunInsertFailed(_) =>
        return true;
      case RunInserted(id, _) =>
        s.runs := s.runs + [LogRun(id, now)];
        s.currentRunId := id;
        s.NotifyEventListeners(RunEvent(LogRun(id, now)));
        return false;
    }
  }
}
