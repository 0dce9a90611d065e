/** The IPC notifier that relays soft-restart requests to the child process and turns the
    child's inbound messages and connection changes into notifications. The IPC library is
    abstracted: its connection state, write outcome and stream of states are parameters. */
module Notifier {
  import opened Wrappers
  import opened Notification

  /** The message a child sends back once it has finished a soft reload. */
  const SoftRestartMessage: string := "__soft_reload"

  /** The connection states the IPC library reports to the listen callback. */
  datatype ConnectionState = Connected | OtherState(code: int)

  /** What one Notify call did: the payloads written to the child, and the error returned. */
  datatype WriteOutcome = WriteOutcome(written: seq<string>, err: Option<string>)

  /** Notifier.Notify: a disconnected server refuses the message and writes nothing; a connected
      one writes the message exactly once and wraps the write error, if any. */
  function Notify(connected: bool, msg: string, writeErr: Option<string>): (o: WriteOutcome)
    ensures !connected ==> o.written == [] && o.err == Some("IPC server is not connected")
    ensures connected ==> o.written == [msg]
    ensures connected && writeErr.None? ==> o.err.None?
    ensures connected && writeErr.Some? ==> o.err == Some("writing to IPC server: " + writeErr.value)
  {
    if !connected then WriteOutcome([], Some("IPC server is not connected"))
    else if writeErr.Some? then WriteOutcome([msg], Some("writing to IPC server: " + writeErr.value))
    else WriteOutcome([msg], None)
  }

  /** The notification reporting a finished soft reload. */
  const SoftRestartCompleted: Notification := Plain(SoftRestart, "soft restart completed")

  /** Notifier.handleInboundMessage: the callbacks it makes for one inbound message. Only the
      soft-reload acknowledgement yields a notification; the handler never reports an error,
      so the result carries only the callbacks. */
  function HandleInboundMessage(data: string): (callbacks: seq<Notification>)
    ensures data == SoftRestartMessage <==> callbacks == [SoftRestartCompleted]
    ensures data != SoftRestartMessage <==> callbacks == []
  {
    if |data| == 0 then []
    else if data == SoftRestartMessage then [SoftRestartCompleted]
    else []
  }

  /** The notification reporting that the child has connected. */
  const ChildConnected: Notification := Plain(IPC, "child process connected")

  /** The listen callback of Notifier.Start for one state change. */
  function OnConnectionState(state: ConnectionState): (callbacks: seq<Notification>)
    ensures state.Connected? <==> callbacks == [ChildConnected]
    ensures !state.Connected? <==> callbacks == []
  {
    match state
    case Connected => [ChildConnected]
    case OtherState(_) => []
  }

  function ConnectedCount(states: seq<ConnectionState>): nat {
    if states == [] then 0
    else ConnectedCount(states[..|states| - 1]) + (if states[|states| - 1].Connected? then 1 else 0)
  }

  /** The callbacks Notifier.Start makes for a sequence of state changes: one "child process
      connected" notification per Connected state, and nothing else. */
  function StartCallbacks(states: seq<ConnectionState>): (callbacks: seq<Notification>)
    ensures |callbacks| == ConnectedCount(states)
    ensures forall i :: 0 <= i < |callbacks| ==> callbacks[i] == ChildConnected
  {
    if states == [] then []
    else StartCallbacks(states[..|states| - 1]) + OnConnectionState(states[|states| - 1])
  }

  /** Notifier.Start: the callbacks made while serving, and the listen error wrapped. */
  function Start(states: seq<ConnectionState>, listenErr: Option<string>): (r: (seq<Notification>, Option<string>))
    ensures r.0 == StartCallbacks(states)
    ensures listenErr.None? <==> r.1.None?
    ensures listenErr.Some? ==> r.1 == Some("starting IPC server: " + listenErr.value)
  {
    (StartCallbacks(states), if listenErr.Some? then Some("starting IPC server: " + listenErr.value) else None)
  }
}
