/** `Stop` on Windows: there is no graceful signal and no timeout; a started child gets its
    kill channel closed at once, and Stop returns once it holds the child lock. */
module ProcessWindows {
  import opened Wrappers
  import opened Lifecycle

  class WindowsChild {
    var state: ProcessState
    var killCloses: nat
    var events: seq<StopEvent>

    predicate Valid()
      reads this
    {
      killCloses <= 1 && (state == Started ==> killCloses == 0)
    }

    constructor (initial: ProcessState)
      ensures state == initial && killCloses == 0 && events == []
      ensures Valid()
    {
      state := initial;
      killCloses := 0;
      events := [];
    }

    /** Stop holds the close lock throughout. Outside Started it fails with no state change.
        From Started: Stopping, `killChild` closed, then the child lock is acquired; both
        locks are released on return, the child lock first. */
    method Stop() returns (err: Option<string>)
      requires Valid()
      modifies this
      ensures Valid()
      ensures old(state) != Started ==>
        err == Some(NotRunning) && state == old(state) && killCloses == old(killCloses)
        && events == old(events) + [CloseLockAcquired, CloseLockReleased]
      ensures old(state) == Started ==>
        err.None? && state == Stopping && killCloses == 1
        && events == old(events) + [CloseLockAcquired, KillChildClosed, ChildLockAcquired, ChildLockReleased, CloseLockReleased]
    {
      events := events + [CloseLockAcquired];
      if state != Started {
        events := events + [CloseLockReleased];
        return Some(NotRunning);
      }
      state := Stopping;
      killCloses := killCloses + 1;
      events := events + [KillChildClosed];
      events := events + [ChildLockAcquired];
      events := events + [ChildLockReleased, CloseLockReleased];
      return None;
    }
  }
}
