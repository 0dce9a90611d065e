/** The application shell: it routes notifications from the watcher and the web UI to the
    restart channels, fans every notification out to the five consumers, turns restart
    requests and operating-system signals into actions, and closes the components. Channel
    sends and component calls are recorded as effects, in order. */
module App {
  import opened Wrappers
  import opened Notification
  import opened Sequences

  /** The components the application owns. */
  datatype Component = Db | ConsoleWriter | Proxy | WebUi | NotifierSink | WatcherComponent

  datatype Signal = SIGINT | SIGTERM | SIGHUP | SIGUSR1

  /** One event read by the restart loop. A soft restart carries the error the notifier
      reports when it forwards the restart; a cancelled context ends the loop. */
  datatype RestartEvent = HardRequest(hint: string) | SoftRequest(hint: string, sendErr: Option<string>) | OobRequest(task: string) | Cancelled

  datatype AppEffect =
    | Delivered(to: Component, n: Notification)   // a consumer's Notify received n
    | HardSent(hint: string)                      // a send on the hard-restart channel
    | SoftSent(hint: string)                      // a send on the soft-restart channel
    | OobSent(task: string)                       // a send on the out-of-band task channel
    | SignalSent(sig: Signal)                     // a send on the signal channel
    | ChildStopped                                // Stop called on the stored child process
    | SoftRestartForwarded(hint: string)          // the notifier asked to soft-restart the child
    | OobRun(task: string, sinks: seq<Component>) // the stored child ran a task, reporting to sinks
    | Warned(text: string)
    | ComponentClosed(c: Component)

  /** The consumers, in the order Notify calls them. */
  const Consumers: seq<Component> := [Db, ConsoleWriter, Proxy, WebUi, NotifierSink]

  /** The order Close closes the components in. */
  const CloseOrder: seq<Component> := [Db, Proxy, WatcherComponent, NotifierSink, ConsoleWriter, WebUi]

  /** Notify: each consumer receives the notification once, in the fixed order. */
  function NotifyAll(n: Notification): (r: seq<AppEffect>)
    ensures |r| == |Consumers|
    ensures forall i :: 0 <= i < |r| ==> r[i] == Delivered(Consumers[i], n)
  {
    [Delivered(Db, n), Delivered(ConsoleWriter, n), Delivered(Proxy, n), Delivered(WebUi, n), Delivered(NotifierSink, n)]
  }

  /** The channel send a watcher notification causes, if any: requests travel with their
      message to the channel of their kind. */
  function FileChangeSend(n: Notification): (r: seq<AppEffect>)
    ensures |r| <= 1
    ensures r == [] <==> n.ntype !in {HardRestartRequested, SoftRestartRequested, OOBTaskRequested}
    ensures n.ntype == HardRestartRequested ==> r == [HardSent(n.message)]
    ensures n.ntype == SoftRestartRequested ==> r == [SoftSent(n.message)]
    ensures n.ntype == OOBTaskRequested ==> r == [OobSent(n.message)]
  {
    match n.ntype
    case HardRestartRequested => [HardSent(n.message)]
    case SoftRestartRequested => [SoftSent(n.message)]
    case OOBTaskRequested => [OobSent(n.message)]
    case _ => []
  }

  /** The channel send a web-UI notification causes, if any: restart requests carry the hint
      "webui" whatever their message, and a shutdown request becomes SIGTERM. */
  function WebUiSend(n: Notification): (r: seq<AppEffect>)
    ensures |r| <= 1
    ensures r == [] <==> n.ntype !in {HardRestartRequested, SoftRestartRequested, ShutdownRequested}
    ensures n.ntype == HardRestartRequested ==> r == [HardSent("webui")]
    ensures n.ntype == SoftRestartRequested ==> r == [SoftSent("webui")]
    ensures n.ntype == ShutdownRequested ==> r == [SignalSent(SIGTERM)]
  {
    match n.ntype
    case HardRestartRequested => [HardSent("webui")]
    case SoftRestartRequested => [SoftSent("webui")]
    case ShutdownRequested => [SignalSent(SIGTERM)]
    case _ => []
  }

  /** What the restart loop does for one event. */
  function RestartStep(e: RestartEvent, hasChild: bool, oobSinks: seq<Component>): (r: seq<AppEffect>)
    requires !e.Cancelled?
    ensures e.HardRequest? ==> r == (if hasChild then [ChildStopped] else [])
    ensures e.OobRequest? ==> r == (if hasChild then [OobRun(e.task, oobSinks)] else [])
    ensures e.SoftRequest? ==> |r| >= 1 && r[0] == SoftRestartForwarded(e.hint)
  {
    match e
    case HardRequest(_) => if hasChild then [ChildStopped] else []
    case SoftRequest(hint, sendErr) =>
      [SoftRestartForwarded(hint)] + (if sendErr.Some? then [Warned("notifying child process: " + sendErr.value)] else [])
    case OobRequest(task) => if hasChild then [OobRun(task, oobSinks)] else []
  }

  /** The number of events the restart loop handles before the context is cancelled. */
  function FirstCancel(events: seq<RestartEvent>): (k: nat)
    ensures k <= |events|
    ensures forall i :: 0 <= i < k ==> !events[i].Cancelled?
    ensures k < |events| ==> events[k].Cancelled?
  {
    if events == [] || events[0].Cancelled? then 0 else 1 + FirstCancel(events[1..])
  }

  /** The effects of the first n events of the restart loop. */
  function RestartEffects(events: seq<RestartEvent>, hasChild: bool, oobSinks: seq<Component>, n: nat): seq<AppEffect>
    requires n <= FirstCancel(events)
  {
    if n == 0 then [] else RestartEffects(events, hasChild, oobSinks, n - 1) + RestartStep(events[n - 1], hasChild, oobSinks)
  }

  /** The hints of the soft restarts among the first n events. */
  function SoftHints(events: seq<RestartEvent>, n: nat): seq<string>
    requires n <= |events|
  {
    if n == 0 then [] else SoftHints(events, n - 1) + (if events[n - 1].SoftRequest? then [events[n - 1].hint] else [])
  }

  /** The hints the notifier was asked to forward, in order. */
  function Forwarded(effects: seq<AppEffect>): seq<string> {
    if effects == [] then []
    else Forwarded(effects[..|effects| - 1])
         + (if effects[|effects| - 1].SoftRestartForwarded? then [effects[|effects| - 1].hint] else [])
  }

  lemma {:induction false} ForwardedAppend(a: seq<AppEffect>, b: seq<AppEffect>)
    ensures Forwarded(a + b) == Forwarded(a) + Forwarded(b)
    decreases |b|
  {
    if b == [] {
      assert a + b == a;
    } else {
      assert (a + b)[..|a + b| - 1] == a + b[..|b| - 1];
      ForwardedAppend(a, b[..|b| - 1]);
    }
  }

  lemma ForwardedStep(e: RestartEvent, hasChild: bool, oobSinks: seq<Component>)
    requires !e.Cancelled?
    ensures Forwarded(RestartStep(e, hasChild, oobSinks)) == if e.SoftRequest? then [e.hint] else []
  {
    var r := RestartStep(e, hasChild, oobSinks);
    if e.SoftRequest? {
      var w := if e.sendErr.Some? then [Warned("notifying child process: " + e.sendErr.value)] else [];
      assert r == [SoftRestartForwarded(e.hint)] + w;
      ForwardedAppend([SoftRestartForwarded(e.hint)], w);
      assert [SoftRestartForwarded(e.hint)][..0] == [];
      if w != [] { assert w[..0] == []; }
    } else if r != [] {
      assert r[..0] == [];
    }
  }

  /** A failed soft restart does not stop the loop: every soft restart among the handled
      events reaches the notifier, in order. */
  lemma {:induction false} EverySoftRestartForwarded(events: seq<RestartEvent>, hasChild: bool, oobSinks: seq<Component>, n: nat)
    requires n <= FirstCancel(events)
    ensures Forwarded(RestartEffects(events, hasChild, oobSinks, n)) == SoftHints(events, n)
  {
    if n > 0 {
      EverySoftRestartForwarded(events, hasChild, oobSinks, n - 1);
      ForwardedAppend(RestartEffects(events, hasChild, oobSinks, n - 1), RestartStep(events[n - 1], hasChild, oobSinks));
      ForwardedStep(events[n - 1], hasChild, oobSinks);
    }
  }

  /** Without a stored child process the loop never stops a child and never runs a task. */
  lemma {:induction false} NoChildNoAction(events: seq<RestartEvent>, oobSinks: seq<Component>, n: nat)
    requires n <= FirstCancel(events)
    ensures forall i :: 0 <= i < |RestartEffects(events, false, oobSinks, n)| ==>
      !RestartEffects(events, false, oobSinks, n)[i].ChildStopped? && !RestartEffects(events, false, oobSinks, n)[i].OobRun?
  {
    if n > 0 {
      NoChildNoAction(events, oobSinks, n - 1);
    }
  }

  /** The number of signals the signal loop handles: up to and including the first SIGINT
      or SIGTERM, or all of them. */
  function SignalsHandled(signals: seq<Signal>): (k: nat)
    ensures k <= |signals|
    ensures forall i :: 0 <= i < k - 1 ==> !Terminates(signals[i])
    ensures k < |signals| ==> k > 0 && Terminates(signals[k - 1])
  {
    if signals == [] then 0
    else if Terminates(signals[0]) then 1
    else 1 + SignalsHandled(signals[1..])
  }

  /** The signals that end the signal loop. */
  predicate Terminates(s: Signal) {
    s == SIGINT || s == SIGTERM
  }

  /** What one signal causes: SIGHUP a soft restart with hint "sighup", SIGUSR1 a hard
      restart with hint "sigusr1"; SIGINT and SIGTERM cause no send. */
  function SignalSend(s: Signal): (r: seq<AppEffect>)
    ensures s == SIGHUP ==> r == [SoftSent("sighup")]
    ensures s == SIGUSR1 ==> r == [HardSent("sigusr1")]
    ensures Terminates(s) ==> r == []
  {
    match s
    case SIGHUP => [SoftSent("sighup")]
    case SIGUSR1 => [HardSent("sigusr1")]
    case _ => []
  }

  function SignalEffects(signals: seq<Signal>, n: nat): seq<AppEffect>
    requires n <= |signals|
  {
    if n == 0 then [] else SignalEffects(signals, n - 1) + SignalSend(signals[n - 1])
  }

  function ClosedIf(c: Component, present: set<Component>): seq<AppEffect> {
    if c in present then [ComponentClosed(c)] else []
  }

  /** The closings Close performs, in its fixed order: Db, Proxy, watcher, notifier,
      console, web UI, each only when present. */
  function CloseSequence(present: set<Component>): seq<AppEffect> {
    ClosedIf(Db, present) + ClosedIf(Proxy, present) + ClosedIf(WatcherComponent, present)
    + ClosedIf(NotifierSink, present) + ClosedIf(ConsoleWriter, present) + ClosedIf(WebUi, present)
  }

  /** Close closes exactly the components that exist, each once, and does nothing else. */
  lemma CloseSequenceClosesPresent(present: set<Component>)
    ensures forall e :: e in CloseSequence(present) <==> e.ComponentClosed? && e.c in present
    ensures |CloseSequence(present)| == |present|
  {
    PresentCount(present);
    forall e: AppEffect | e.ComponentClosed? && e.c in present
      ensures e in CloseSequence(present)
    {
      match e.c
      case Db => assert e in ClosedIf(Db, present);
      case Proxy => assert e in ClosedIf(Proxy, present);
      case WatcherComponent => assert e in ClosedIf(WatcherComponent, present);
      case NotifierSink => assert e in ClosedIf(NotifierSink, present);
      case ConsoleWriter => assert e in ClosedIf(ConsoleWriter, present);
      case WebUi => assert e in ClosedIf(WebUi, present);
    }
  }

  function Indicator(c: Component, present: set<Component>): set<Component> {
    if c in present then {c} else {}
  }

  /** A set of components has as many members as the closings it gives rise to. */
  lemma PresentCount(present: set<Component>)
    ensures |present| == |ClosedIf(Db, present)| + |ClosedIf(Proxy, present)| + |ClosedIf(WatcherComponent, present)|
                         + |ClosedIf(NotifierSink, present)| + |ClosedIf(ConsoleWriter, present)| + |ClosedIf(WebUi, present)|
  {
    var a := Indicator(Db, present) + Indicator(Proxy, present);
    var b := a + Indicator(WatcherComponent, present);
    var c := b + Indicator(NotifierSink, present);
    var d := c + Indicator(ConsoleWriter, present);
    var e := d + Indicator(WebUi, present);
    assert |a| == |Indicator(Db, present)| + |Indicator(Proxy, present)| by {
      assert Indicator(Db, present) * Indicator(Proxy, present) == {};
    }
    assert |b| == |a| + |Indicator(WatcherComponent, present)| by {
      assert a * Indicator(WatcherComponent, present) == {};
    }
    assert |c| == |b| + |Indicator(NotifierSink, present)| by {
      assert b * Indicator(NotifierSink, present) == {};
    }
    assert |d| == |c| + |Indicator(ConsoleWriter, present)| by {
      assert c * Indicator(ConsoleWriter, present) == {};
    }
    assert |e| == |d| + |Indicator(WebUi, present)| by {
      assert d * Indicator(WebUi, present) == {};
    }
    assert present == e by {
      forall x | x in present
        ensures x in e
      {
        match x
        case Db =>
        case Proxy =>
        case WatcherComponent =>
        case NotifierSink =>
        case ConsoleWriter =>
        case WebUi =>
      }
    }
  }

  class Application {
    /** Whether a child process is stored. */
    var hasChild: bool
    /** The components that were created (a nil component is absent). */
    var components: set<Component>
    var trace: seq<AppEffect>

    constructor (child: bool, present: set<Component>)
      ensures hasChild == child && components == present && trace == []
    {
      hasChild := child;
      components := present;
      trace := [];
    }

    /** Notify: every consumer receives the notification once, in order; the result is nil. */
    method Notify(n: Notification) returns (err: Option<string>)
      modifies this`trace
      ensures err.None? && trace == old(trace) + NotifyAll(n)
    {
      trace := trace + [Delivered(Db, n)];
      trace := trace + [Delivered(ConsoleWriter, n)];
      trace := trace + [Delivered(Proxy, n)];
      trace := trace + [Delivered(WebUi, n)];
      trace := trace + [Delivered(NotifierSink, n)];
      return None;
    }

    /** The callback MonitorFileChanges gives the watcher: the routed send first, then Notify. */
    method OnFileChange(n: Notification) returns (err: Option<string>)
      modifies this`trace
      ensures err.None? && trace == old(trace) + FileChangeSend(n) + NotifyAll(n)
    {
      match n.ntype {
        case HardRestartRequested => trace := trace + [HardSent(n.message)];
        case SoftRestartRequested => trace := trace + [SoftSent(n.message)];
        case OOBTaskRequested => trace := trace + [OobSent(n.message)];
        case _ =>
      }
      err := Notify(n);
    }

    /** The callback New gives the web UI: the routed send first, then Notify. */
    method OnWebUiEvent(n: Notification) returns (err: Option<string>)
      modifies this`trace
      ensures err.None? && trace == old(trace) + WebUiSend(n) + NotifyAll(n)
    {
      match n.ntype {
        case HardRestartRequested => trace := trace + [HardSent("webui")];
        case SoftRestartRequested => trace := trace + [SoftSent("webui")];
        case ShutdownRequested => trace := trace + [SignalSent(SIGTERM)];
        case _ =>
      }
      err := Notify(n);
    }

    /** ProcessRestartEvents: events are handled in order until the context is cancelled,
        which returns nil. A hard restart stops the stored child, a task runs on the stored
        child reporting to every consumer, and a failed soft restart is only warned about. */
    method ProcessRestartEvents(events: seq<RestartEvent>) returns (err: Option<string>)
      modifies this`trace
      ensures err.None?
      ensures trace == old(trace) + RestartEffects(events, hasChild, Consumers, FirstCancel(events))
    {
      var i := 0;
      while i < |events|
        invariant i <= FirstCancel(events)
        invariant trace == old(trace) + RestartEffects(events, hasChild, Consumers, i)
      {
        if events[i].Cancelled? {
          return None;
        }
        assert i < FirstCancel(events);
        ghost var done := RestartEffects(events, hasChild, Consumers, i);
        HandleRestartEvent(events[i]);
        AppendAssoc(old(trace), done, RestartStep(events[i], hasChild, Consumers));
        i := i + 1;
      }
      return None;
    }

    /** One iteration of the restart loop. */
    method HandleRestartEvent(e: RestartEvent)
      requires !e.Cancelled?
      modifies this`trace
      ensures trace == old(trace) + RestartStep(e, hasChild, Consumers)
    {
      match e {
        case HardRequest(hint) =>
          if hasChild {
            trace := trace + [ChildStopped];
          }
        case SoftRequest(hint, sendErr) =>
          trace := trace + [SoftRestartForwarded(hint)];
          if sendErr.Some? {
            trace := trace + [Warned("notifying child process: " + sendErr.value)];
          }
        case OobRequest(task) =>
          if hasChild {
            trace := trace + [OobRun(task, Consumers)];
          }
      }
    }

    /** ProcessSignals: SIGHUP and SIGUSR1 become restart requests; SIGINT or SIGTERM ends
        the loop with an error. When the signal channel is drained the result is nil. */
    method ProcessSignals(signals: seq<Signal>) returns (err: Option<string>)
      modifies this`trace
      ensures trace == old(trace) + SignalEffects(signals, SignalsHandled(signals))
      ensures err.Some? <==> exists i :: 0 <= i < |signals| && Terminates(signals[i])
      ensures err.Some? ==> err.value == "shutdown requested"
    {
      for i := 0 to |signals|
        invariant i <= SignalsHandled(signals)
        invariant forall j :: 0 <= j < i ==> !Terminates(signals[j])
        invariant trace == old(trace) + SignalEffects(signals, i)
      {
        ghost var done := SignalEffects(signals, i);
        match signals[i] {
          case SIGHUP => trace := trace + [SoftSent("sighup")];
          case SIGUSR1 => trace := trace + [HardSent("sigusr1")];
          case _ =>
            assert SignalsHandled(signals) == i + 1;
            assert SignalEffects(signals, i + 1) == done + [];
            return Some("shutdown requested");
        }
        AppendAssoc(old(trace), done, SignalSend(signals[i]));
      }
      return None;
    }

    /** A component is closed only when it exists (a nil component is skipped). */
    method CloseIfPresent(c: Component)
      modifies this`trace
      ensures trace == old(trace) + ClosedIf(c, components)
    {
      if c in components {
        trace := trace + [ComponentClosed(c)];
      }
    }

    /** Close: the stored child is stopped first; then each component that exists is
        closed, in a fixed order. */
    method Close()
      modifies this`trace
      ensures trace == old(trace) + (if hasChild then [ChildStopped] else []) + CloseSequence(components)
    {
      if hasChild {
        trace := trace + [ChildStopped];
      }
      CloseComponents();
    }

    /** The component closings of Close, in its fixed order. */
    method CloseComponents()
      modifies this`trace
      ensures trace == old(trace) + CloseSequence(components)
    {
      ghost var p := components;
      CloseIfPresent(Db);
      CloseIfPresent(Proxy);
      AppendAssoc(old(trace), ClosedIf(Db, p), ClosedIf(Proxy, p));
      CloseIfPresent(WatcherComponent);
      AppendAssoc(old(trace), ClosedIf(Db, p) + ClosedIf(Proxy, p), ClosedIf(WatcherComponent, p));
      CloseIfPresent(NotifierSink);
      AppendAssoc(old(trace), ClosedIf(Db, p) + ClosedIf(Proxy, p) + ClosedIf(WatcherComponent, p), ClosedIf(NotifierSink, p));
      CloseIfPresent(ConsoleWriter);
      AppendAssoc(old(trace), ClosedIf(Db, p) + ClosedIf(Proxy, p) + ClosedIf(WatcherComponent, p) + ClosedIf(NotifierSink, p),
            ClosedIf(ConsoleWriter, p));
      CloseIfPresent(WebUi);
      AppendAssoc(old(trace), ClosedIf(Db, p) + ClosedIf(Proxy, p) + ClosedIf(WatcherComponent, p) + ClosedIf(NotifierSink, p)
                    + ClosedIf(ConsoleWriter, p), ClosedIf(WebUi, p));
    }
  }

}
