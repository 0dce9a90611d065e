/** The lifecycle state both platform variants of `Stop` guard on, and the synchronisation
    events a stop goes through. Only `Started` and `Stopping` are named by the stopping
    code; every other state is carried as its integer value. */
module Lifecycle {

  datatype ProcessState = Started | Stopping | OtherState(code: int)

  datatype StopEvent =
    | CloseLockAcquired
    | CloseLockReleased
    | TermChildClosed       // the graceful-termination channel was closed
    | KillChildClosed       // the forced-kill channel was closed
    | ChildLockAcquired
    | ChildLockReleased

  const NotRunning: string := "process is not running"
}
