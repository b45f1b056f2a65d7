/**
 The handles of one object that is shut down through a pair of locks: run_lock_,
 shutdown_lock_, and the locks captured by the closures under way.
 */
module LockSets {
  import opened Outcomes
  import opened AsyncLocker

  class LockSet {
    const locker: Locker
    const runLock: Lock
    const shutdownLock: Lock
    var captured: set<Lock>

    /** The number of the two locks that are set. */
    ghost function Own(): nat
      reads runLock, shutdownLock
    {
      (if runLock.IsLocked() then 1 else 0) + if shutdownLock.IsLocked() then 1 else 0
    }

    /** The counter is accounted for by these handles. */
    ghost predicate Valid()
      reads this, locker, locker.live, runLock, shutdownLock
    {
      && locker.Valid() && locker.leaked == 0
      && runLock != shutdownLock && runLock !in captured && shutdownLock !in captured
      && !(runLock.IsLocked() && shutdownLock.IsLocked())
      && (runLock.IsLocked() ==> runLock in locker.live)
      && (shutdownLock.IsLocked() ==> shutdownLock in locker.live)
      && captured <= locker.live
      && locker.lockCount == Own() + |captured|
    }

    ghost function Repr(): set<object>
      reads this
    {
      {this, locker, runLock, shutdownLock} + captured
    }

    constructor ()
      ensures Valid() && fresh(Repr())
      ensures runLock.IsLocked() && !shutdownLock.IsLocked() && captured == {}
      ensures locker.lockCount == 1 && !locker.hasCallback && locker.callbackCalls == 0
    {
      var l := new Locker();
      var first := l.MakeFirstLock();
      var run := new Lock.Moved(first.value);
      var empty := new Lock.Empty();
      locker, runLock, shutdownLock, captured := l, run, empty, {};
    }

    /** make_lock() for a closure; it throws when the count is zero. */
    method Capture() returns (refused: bool)
      requires Valid()
      modifies this`captured, locker`lockCount, locker`live
      ensures Valid() && refused == (old(locker.lockCount) == 0)
      ensures old(captured) <= captured && fresh(captured - old(captured))
      ensures |captured| == |old(captured)| + if refused then 0 else 1
      ensures locker.lockCount == old(locker.lockCount) + if refused then 0 else 1
    {
      var lock := locker.MakeLock();
      if lock.Failure? {
        return true;
      }
      captured := captured + {lock.value};
      refused := false;
    }

    /** A closure ends and releases the lock it captured. */
    method Release()
      requires Valid() && captured != {}
      modifies this`captured, captured, locker
      ensures Valid() && captured <= old(captured) && |captured| == |old(captured)| - 1
      ensures locker.lockCount == old(locker.lockCount) - 1
      ensures locker.hasCallback == old(locker.hasCallback)
      ensures locker.callbackCalls == old(locker.callbackCalls) +
                if locker.lockCount == 0 && locker.hasCallback then 1 else 0
    {
      var lock :| lock in captured;
      captured := captured - {lock};
      lock.Unlock();
    }

    /** The run lock is handed over; the target is empty, so no count leaks. */
    method HandOver()
      requires Valid() && !shutdownLock.IsLocked()
      modifies locker, runLock, shutdownLock
      ensures Valid() && locker.lockCount == old(locker.lockCount)
      ensures !runLock.IsLocked() && shutdownLock.IsLocked() == old(runLock.IsLocked())
      ensures locker.hasCallback == old(locker.hasCallback) && locker.callbackCalls == old(locker.callbackCalls)
    {
      shutdownLock.MoveFrom(runLock);
    }

    /** The same by way of a local handle: both moves have empty targets. */
    method HandOverTwice() returns (first: bool)
      requires Valid()
      modifies locker, runLock, shutdownLock
      ensures Valid() && locker.lockCount == old(locker.lockCount)
      ensures first == old(runLock.IsLocked()) && !runLock.IsLocked()
      ensures shutdownLock.IsLocked() == (old(shutdownLock.IsLocked()) || first)
      ensures locker.hasCallback == old(locker.hasCallback) && locker.callbackCalls == old(locker.callbackCalls)
    {
      var lock := new Lock.Moved(runLock);
      first := lock.IsLocked();
      if first {
        shutdownLock.MoveFrom(lock);
      }
    }

    /** The shutdown lock is moved to a local handle, which gives up its count, if there is one. */
    method GiveUp() returns (had: bool)
      requires Valid()
      modifies locker, shutdownLock
      ensures Valid() && had == old(shutdownLock.IsLocked())
      ensures !shutdownLock.IsLocked()
      ensures locker.lockCount == old(locker.lockCount) - if had then 1 else 0
      ensures locker.hasCallback == old(locker.hasCallback)
      ensures locker.callbackCalls == old(locker.callbackCalls) +
                if had && locker.lockCount == 0 && locker.hasCallback then 1 else 0
    {
      var lock := new Lock.Moved(shutdownLock);
      had := lock.IsLocked();
      lock.Unlock();
    }

    /** The same without the local handle. */
    method Unlock() returns (had: bool)
      requires Valid()
      modifies locker, shutdownLock
      ensures Valid() && had == old(shutdownLock.IsLocked())
      ensures !shutdownLock.IsLocked()
      ensures locker.lockCount == old(locker.lockCount) - if had then 1 else 0
    {
      had := shutdownLock.IsLocked();
      shutdownLock.Unlock();
    }
  }
}
