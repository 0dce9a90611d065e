/** Notifications: the typed events every component emits and consumes, and the two log
    records (a run and a log line) that travel in their metadata. */
module Notification {

  /** The notification kinds, in the order of their integer codes. */
  datatype NotificationType =
    | SystemError | SoftRestartRequested | HardRestartRequested | OOBTaskRequested
    | ShutdownRequested | SystemShutdown | Startup | HardRestart | SoftRestart | Shutdown
    | LogEvent | StdOut | StdErr | OOBTaskStartup | OOBTaskStdOut | OOBTaskStdErr | IPC
  {
    /** The integer the kind is stored as (Go's iota numbering). */
    function Code(): (c: nat)
      ensures c <= 16
    {
      match this
      case SystemError => 0
      case SoftRestartRequested => 1
      case HardRestartRequested => 2
      case OOBTaskRequested => 3
      case ShutdownRequested => 4
      case SystemShutdown => 5
      case Startup => 6
      case HardRestart => 7
      case SoftRestart => 8
      case Shutdown => 9
      case LogEvent => 10
      case StdOut => 11
      case StdErr => 12
      case OOBTaskStartup => 13
      case OOBTaskStdOut => 14
      case OOBTaskStdErr => 15
      case IPC => 16
    }
  }

  /** Distinct kinds are stored as distinct codes. */
  lemma CodeInjective(a: NotificationType, b: NotificationType)
    requires a.Code() == b.Code()
    ensures a == b
  {
  }

  /** A run of the child process (console.LogRun); times are abstract clock readings. */
  datatype LogRun = LogRun(id: int, createdAt: int)

  /** One captured log line (console.LogEvent). Run ids come from an autoincrement key. */
  datatype LogEventRecord = LogEventRecord(id: int, runId: int, eventType: string, eventData: string, createdAt: int)

  datatype Metadata = NoMetadata | RunMetadata(run: LogRun) | EventMetadata(event: LogEventRecord)

  /** A notification. The snowflake ID and the timestamp are not modelled. */
  datatype Notification = Notification(childProcessId: string, ntype: NotificationType, message: string, metadata: Metadata)

  /** A notification with only a kind and a message, as most call sites build it. */
  function Plain(t: NotificationType, message: string): (n: Notification)
    ensures n.ntype == t && n.message == message && n.childProcessId == "" && n.metadata.NoMetadata?
  {
    Notification("", t, message, NoMetadata)
  }
}
