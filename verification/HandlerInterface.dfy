/**
 The hand-over between run_lock_ and shutdown_lock_ that every websocket service
 and the service handler inherit.
 */
module HandlerLocks {

  /** The lock state of one handler: which of its two locks is set, its locker's count, and the on_shutdown() calls so far. */
  datatype Locks = Locks(run: bool, shutdown: bool, count: int, onShutdowns: nat)

  const RUNNING := Locks(true, false, 1, 0)

  function MakeLock(l: Locks): Locks {
    l.(count := l.count + 1)
  }

  function Unlock(l: Locks): Locks {
    l.(count := l.count - 1)
  }

  predicate IsShutdown(l: Locks) {
    !l.run
  }

  function Shutdown(l: Locks): Locks {
    if !l.shutdown && l.run then l.(run := false, shutdown := true, onShutdowns := l.onShutdowns + 1) else l
  }

  predicate FinishSucceeds(l: Locks) {
    !l.run && l.shutdown
  }

  function Finish(l: Locks): Locks {
    if FinishSucceeds(l) then Unlock(l.(shutdown := false)) else l
  }

  /** The counts the two locks hold. */
  function Own(l: Locks): nat {
    (if l.run then 1 else 0) + if l.shutdown then 1 else 0
  }

  /** Over every sequence of calls. */
  datatype Call = CallShutdown | CallFinished

  function After(l: Locks, calls: seq<Call>): Locks
    decreases |calls|
  {
    if calls == [] then l
    else After(if calls[0].CallShutdown? then Shutdown(l) else Finish(l), calls[1..])
  }

  /** The calls to shutdown_finished() that do not throw. */
  function Finishes(l: Locks, calls: seq<Call>): nat
    decreases |calls|
  {
    if calls == [] then 0
    else if calls[0].CallShutdown? then Finishes(Shutdown(l), calls[1..])
    else (if FinishSucceeds(l) then 1 else 0) + Finishes(Finish(l), calls[1..])
  }

  predicate ShutdownThenFinished(calls: seq<Call>) {
    exists i, j :: 0 <= i < j < |calls| && calls[i].CallShutdown? && calls[j].CallFinished?
  }

  /**
   Whatever the order of calls: on_shutdown() runs exactly once if shutdown() is
   called at all, shutdown_finished() succeeds exactly once if it is called at all
   after a shutdown(), the two locks are never set together, and the count falls
   by exactly the one lock that is given up.
   */
  lemma {:induction false} HandOver(calls: seq<Call>)
    ensures var end := After(RUNNING, calls);
            && !(end.run && end.shutdown)
            && end.count == Own(end)
            && end.onShutdowns == (if CallShutdown in calls then 1 else 0)
            && Finishes(RUNNING, calls) == (if ShutdownThenFinished(calls) then 1 else 0)
            && (end.count == 0 <==> ShutdownThenFinished(calls))
  {
    if calls != [] {
      if calls[0].CallShutdown? {
        var rest := calls[1..];
        AfterShutdown(Shutdown(RUNNING), rest);
        if CallFinished in rest {
          var j :| 0 <= j < |rest| && rest[j] == CallFinished;
          assert calls[0].CallShutdown? && calls[j + 1].CallFinished?;
        }
        assert forall j | 0 < j < |calls| :: calls[j] == rest[j - 1];
      } else {
        var rest := calls[1..];
        assert calls == [CallFinished] + rest;
        HandOver(rest);
        if ShutdownThenFinished(rest) {
          var i, j :| 0 <= i < j < |rest| && rest[i].CallShutdown? && rest[j].CallFinished?;
          assert calls[i + 1].CallShutdown? && calls[j + 1].CallFinished?;
        }
        if ShutdownThenFinished(calls) {
          var i, j :| 0 <= i < j < |calls| && calls[i].CallShutdown? && calls[j].CallFinished?;
          assert rest[i - 1].CallShutdown? && rest[j - 1].CallFinished?;
        }
      }
    }
  }

  lemma {:induction false} AfterShutdown(l: Locks, calls: seq<Call>)
    requires !l.run
    ensures var end := After(l, calls);
            && !end.run && end.onShutdowns == l.onShutdowns
            && end.shutdown == (l.shutdown && CallFinished !in calls)
            && Finishes(l, calls) == (if l.shutdown && CallFinished in calls then 1 else 0)
            && end.count == l.count - Finishes(l, calls)
    decreases |calls|
  {
    if calls != [] {
      AfterShutdown(if calls[0].CallShutdown? then Shutdown(l) else Finish(l), calls[1..]);
    }
  }
}

/** The same protocol in place, on the handles of one locker. */
module HandlerInterface {
  import opened Outcomes
  import opened LockSets
  import HandlerLocks

  class WsHandlerInterface {
    const locks: LockSet
    var onShutdownCalls: nat

    ghost predicate Valid()
      reads this, locks, locks.locker, locks.locker.live, locks.runLock, locks.shutdownLock
    {
      locks.Valid() && onShutdownCalls == if locks.runLock.IsLocked() then 0 else 1
    }

    /** The value-level lock state. */
    ghost function View(): HandlerLocks.Locks
      reads this, locks.locker, locks.runLock, locks.shutdownLock
    {
      HandlerLocks.Locks(locks.runLock.IsLocked(), locks.shutdownLock.IsLocked(), locks.locker.lockCount, onShutdownCalls)
    }

    ghost function Repr(): set<object>
      reads this, locks
    {
      {this} + locks.Repr()
    }

    constructor ()
      ensures Valid() && View() == HandlerLocks.RUNNING && locks.captured == {}
      ensures fresh(Repr())
    {
      locks := new LockSet();
      onShutdownCalls := 0;
    }

    /** The move never hits a set target, so no count leaks (Valid() has none). */
    method Shutdown()
      requires Valid()
      modifies this, locks.locker, locks.runLock, locks.shutdownLock
      ensures Valid() && View() == HandlerLocks.Shutdown(old(View()))
      ensures locks.locker.callbackCalls == old(locks.locker.callbackCalls)
      ensures locks.locker.hasCallback == old(locks.locker.hasCallback)
    {
      if !locks.shutdownLock.IsLocked() {
        locks.HandOver();
        if locks.shutdownLock.IsLocked() {
          onShutdownCalls := onShutdownCalls + 1;
        }
      }
    }

    /** shutdown(fn): the callback is replaced on every call, also on repeated ones. */
    method ShutdownThen()
      requires Valid()
      modifies this, locks.locker, locks.runLock, locks.shutdownLock
      ensures Valid() && View() == HandlerLocks.Shutdown(old(View()))
      ensures locks.locker.hasCallback && locks.locker.callbackCalls == old(locks.locker.callbackCalls)
    {
      locks.locker.SetCallback();
      Shutdown();
    }

    method ShutdownFinished() returns (r: Result<()>)
      requires Valid()
      modifies locks.locker, locks.shutdownLock
      ensures Valid() && View() == HandlerLocks.Finish(old(View()))
      ensures r.Success? <==> HandlerLocks.FinishSucceeds(old(View()))
      ensures r == Failure(FinishedWithoutShutdown) <==> old(View()).run
      ensures locks.locker.callbackCalls == old(locks.locker.callbackCalls) +
                if r.Success? && locks.locker.lockCount == 0 && locks.locker.hasCallback then 1 else 0
    {
      if locks.runLock.IsLocked() {
        return Failure(FinishedWithoutShutdown);
      }
      var had := locks.GiveUp();
      r := if had then Success(()) else Failure(FinishedTwice);
    }

    predicate IsShutdown()
      reads locks.runLock
    {
      !locks.runLock.IsLocked()
    }

    /** A closure captures a lock; once the last one is released that is refused. */
    method Capture() returns (refused: bool)
      requires Valid()
      modifies locks`captured, locks.locker`lockCount, locks.locker`live
      ensures Valid() && refused == (old(View()).count == 0)
      ensures View() == if refused then old(View()) else HandlerLocks.MakeLock(old(View()))
      ensures old(locks.captured) <= locks.captured && fresh(locks.captured - old(locks.captured))
      ensures |locks.captured| == |old(locks.captured)| + if refused then 0 else 1
    {
      refused := locks.Capture();
    }

    /** A closure ends and releases its lock. */
    method Release()
      requires Valid() && locks.captured != {}
      modifies locks`captured, locks.captured, locks.locker
      ensures Valid() && View() == HandlerLocks.Unlock(old(View()))
      ensures locks.captured <= old(locks.captured) && |locks.captured| == |old(locks.captured)| - 1
    {
      locks.Release();
    }
  }
}
