/** `Stop` on Linux and macOS: a started child is asked to terminate by closing `termChild`;
    if the child lock is not released within the kill timeout, `killChild` is closed too.
    The timeout race is an outcome parameter. A Go channel may be closed only once, so the
    number of times each channel was closed is kept and bounded by the invariant. */
module ProcessPosix {
  import opened Wrappers
  import opened Lifecycle

  class PosixChild {
    var state: ProcessState
    var termCloses: nat
    var killCloses: nat
    /** Lock and channel events so far, oldest first. */
    var events: seq<StopEvent>

    /** No channel is closed twice, and while the child counts as started neither channel
        has been closed yet. */
    predicate Valid()
      reads this
    {
      termCloses <= 1 && killCloses <= 1
      && (state == Started ==> termCloses == 0 && killCloses == 0)
    }

    constructor (initial: ProcessState)
      ensures state == initial && termCloses == 0 && killCloses == 0 && events == []
      ensures Valid()
    {
      state := initial;
      termCloses := 0;
      killCloses := 0;
      events := [];
    }

    /** Closing a channel that is still open. */
    method CloseTerm()
      requires termCloses == 0
      modifies this`termCloses, this`events
      ensures termCloses == 1 && events == old(events) + [TermChildClosed]
    {
      termCloses := termCloses + 1;
      events := events + [TermChildClosed];
    }

    method CloseKill()
      requires killCloses == 0
      modifies this`killCloses, this`events
      ensures killCloses == 1 && events == old(events) + [KillChildClosed]
    {
      killCloses := killCloses + 1;
      events := events + [KillChildClosed];
    }

    /** Stop, serialised by the close lock. Outside Started it fails and changes nothing else.
        From Started the state becomes Stopping before `termChild` is closed, and `killChild`
        is closed only when the kill timeout fires before the child lock is obtained. */
    method Stop(childClosedFirst: bool) returns (err: Option<string>)
      requires Valid()
      modifies this
      ensures Valid()
      ensures old(state) != Started ==>
        err == Some(NotRunning) && state == old(state)
        && termCloses == old(termCloses) && killCloses == old(killCloses)
        && events == old(events) + [CloseLockAcquired, CloseLockReleased]
      ensures old(state) == Started ==>
        err.None? && state == Stopping && termCloses == 1
        && killCloses == (if childClosedFirst then 0 else 1)
        && events == old(events) + [CloseLockAcquired, TermChildClosed]
                   + (if childClosedFirst then [] else [KillChildClosed]) + [CloseLockReleased]
    {
      events := events + [CloseLockAcquired];
      if state != Started {
        events := events + [CloseLockReleased];
        return Some(NotRunning);
      }
      state := Stopping;
      CloseTerm();
      if !childClosedFirst {
        CloseKill();
      }
      events := events + [CloseLockReleased];
      return None;
    }
  }

  /** A second Stop after a successful one fails, whatever the race outcomes: the terminate
      channel is never closed twice. */
  method StopTwice(c: PosixChild, first: bool, second: bool) returns (e1: Option<string>, e2: Option<string>)
    requires c.Valid() && c.state == Started
    modifies c
    ensures e1.None? && e2 == Some(NotRunning) && c.termCloses == 1
  {
    e1 := c.Stop(first);
    e2 := c.Stop(second);
  }
}
