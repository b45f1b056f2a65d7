/**
 The counted-handle protocol in place: a locker counts its live handles, and the
 handle that gives up the last count calls the locker's callback.
 */
module AsyncLocker {
  import opened Outcomes

  class Locker {
    var lockCount: nat
    var hasCallback: bool
    var callbackCalls: nat

    /** The handles that point here, and the counts no handle points to any more. */
    ghost var live: set<Lock>
    ghost var leaked: nat

    ghost predicate Valid()
      reads this, live
    {
      && lockCount == |live| + leaked
      && forall h <- live :: h.locker == this
    }

    constructor ()
      ensures Valid() && lockCount == 0 && !hasCallback && callbackCalls == 0 && live == {} && leaked == 0
    {
      lockCount, hasCallback, callbackCalls := 0, false, 0;
      live, leaked := {}, 0;
    }

    method SetCallback()
      modifies this`hasCallback
      ensures hasCallback
    {
      hasCallback := true;
    }

    /** Succeeds exactly from count zero and leaves exactly one counted handle. */
    method MakeFirstLock() returns (r: Result<Lock>)
      requires Valid()
      modifies this`lockCount, this`live
      ensures Valid()
      ensures r.Success? <==> old(lockCount) == 0
      ensures r.Success? ==> fresh(r.value) && r.value.locker == this && live == {r.value} && lockCount == 1
      ensures r.Failure? ==> r.error == FirstLockTwice && live == old(live) && lockCount == old(lockCount)
    {
      if lockCount != 0 {
        return Failure(FirstLockTwice);
      }
      lockCount := 1;
      var lock := new Lock.Counted(this);
      lockCount := lockCount - 1;
      r := Success(lock);
    }

    method MakeLock() returns (r: Result<Lock>)
      requires Valid()
      modifies this`lockCount, this`live
      ensures Valid()
      ensures r.Success? <==> old(lockCount) != 0
      ensures r.Success? ==> fresh(r.value) && r.value.locker == this && live == old(live) + {r.value} && lockCount == old(lockCount) + 1
      ensures r.Failure? ==> r.error == AsyncCallAfterShutdown && live == old(live) && lockCount == 0
    {
      if lockCount == 0 {
        return Failure(AsyncCallAfterShutdown);
      }
      var lock := new Lock.Counted(this);
      r := Success(lock);
    }
  }

  class Lock {
    var locker: Locker?

    /** A handle that points to a locker is one of the handles the locker counts. */
    ghost predicate Valid()
      reads this, locker, if locker == null then {} else locker.live
    {
      locker != null ==> locker.Valid() && this in locker.live
    }

    ghost function Target(): set<Locker>
      reads this
    {
      if locker == null then {} else {locker}
    }

    constructor Empty()
      ensures locker == null
    {
      locker := null;
    }

    /** The counting constructor, after its check that the count is not zero. */
    constructor Counted(l: Locker)
      requires l.lockCount != 0
      modifies l`lockCount, l`live
      ensures locker == l && l.lockCount == old(l.lockCount) + 1 && l.live == old(l.live) + {this}
    {
      locker := l;
      new;
      l.lockCount := l.lockCount + 1;
      l.live := l.live + {this};
    }

    /** Move construction hands the count over; no locker's count changes. */
    constructor Moved(other: Lock)
      requires other.Valid()
      modifies other, other.Target()`live
      ensures locker == old(other.locker) && other.locker == null
      ensures locker != null ==> locker.live == old(other.locker.live) - {other} + {this}
      ensures Valid()
    {
      locker := other.locker;
      new;
      other.locker := null;
      if locker != null {
        locker.live := locker.live - {other} + {this};
      }
    }

    /** The exchanged-out pointer is released; the last count calls the callback. */
    method Unlock()
      requires Valid()
      modifies this, locker
      ensures locker == null
      ensures old(locker) != null ==>
                var l := old(locker);
                && l.Valid()
                && l.live == old(locker.live) - {this}
                && l.leaked == old(locker.leaked)
                && l.lockCount == old(locker.lockCount) - 1
                && l.hasCallback == old(locker.hasCallback)
                && l.callbackCalls == old(locker.callbackCalls) + if l.lockCount == 0 && l.hasCallback then 1 else 0
    {
      var l := locker;
      locker := null;
      if l != null {
        l.live := l.live - {this};
        l.lockCount := l.lockCount - 1;
        if l.lockCount == 0 {
          if l.hasCallback {
            l.callbackCalls := l.callbackCalls + 1;
          }
        }
      }
    }

    /**
     Move assignment overwrites the target's pointer without releasing it: a
     count the target held is lost for good.
     */
    method MoveFrom(other: Lock)
      requires Valid() && other.Valid()
      modifies this`locker, other`locker, Target()`live, Target()`leaked, other.Target()`live
      ensures locker == old(other.locker) && (other != this ==> other.locker == null)
      ensures Valid()
      ensures locker != null ==> locker.live == old(other.locker.live) - {other} + {this}
      ensures old(locker) != null && old(locker) != locker ==> old(locker).Valid() && old(locker).live == old(locker.live) - {this}
      ensures old(locker) != null ==>
                old(locker).leaked == old(locker.leaked) + if other == this then 0 else 1
      ensures old(other.locker) != null && old(other.locker) != old(locker) ==> old(other.locker).leaked == old(other.locker.leaked)
    {
      var moved := other.locker;
      other.locker := null;
      if other != this && locker != null {
        locker.live, locker.leaked := locker.live - {this}, locker.leaked + 1;
      }
      locker := moved;
      if locker != null {
        locker.live := locker.live - {other} + {this};
      }
    }

    predicate IsLocked()
      reads this
    {
      locker != null
    }
  }
}
