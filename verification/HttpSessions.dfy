/**
 The set of HTTP sessions as an object: the closures on its strand update the set in
 place and hold real lock handles.  The sessions are held by value.
 */
module HttpSessions {
  import opened LockSets
  import H = HttpSessionModel
  import HT = HttpSessionTheorems
  import M = HttpSessionsModel
  import T = HttpSessionsTheorems

  class HttpSessions {
    const locks: LockSet
    var sessions: map<M.Id, H.Session>
    var pending: multiset<M.Closure>
    var emplacing: bool

    // history
    var closureRan: bool
    var unlocks: nat
    var gone: map<M.Id, H.Session>

    ghost function View(): M.Sessions
      reads this, locks.locker, locks.runLock, locks.shutdownLock
    {
      M.Sessions(locks.runLock.IsLocked(), locks.shutdownLock.IsLocked(), locks.locker.lockCount,
                 sessions, pending, emplacing, closureRan, unlocks, gone)
    }

    /** Every closure under way has captured one lock. */
    ghost predicate Linked()
      reads this, locks, locks.locker, locks.locker.live, locks.runLock, locks.shutdownLock
    {
      locks.Valid() && |locks.captured| == |pending|
    }

    ghost predicate Valid()
      reads this, locks, locks.locker, locks.locker.live, locks.runLock, locks.shutdownLock
    {
      Linked() && T.Inv(View())
    }

    constructor ()
      ensures Valid() && View() == M.INITIAL
      ensures fresh(locks.Repr())
    {
      locks := new LockSet();
      sessions, pending, emplacing := map[], multiset{}, false;
      closureRan, unlocks, gone := false, 0, map[];
      new;
      T.InitialInv();
    }

    predicate IsShutdown()
      reads locks.runLock
    {
      !locks.runLock.IsLocked()
    }

    method Dispatch(c: M.Closure) returns (refused: bool)
      requires Linked()
      modifies this`pending, locks`captured, locks.locker`lockCount, locks.locker`live
      ensures Linked() && View() == M.Dispatch(old(View()), c)
      ensures fresh(locks.Repr() - old(locks.Repr()))
      ensures refused == (old(View()).count == 0)
    {
      ghost var s := View();
      refused := locks.Capture();
      if refused {
        return;
      }
      pending := pending + multiset{c};
      assert View() == s.(count := s.count + 1, pending := s.pending + multiset{c});
    }

    method Done(c: M.Closure)
      requires Linked() && c in pending
      modifies this`pending, locks`captured, locks.captured, locks.locker
      ensures Linked() && View() == M.Done(old(View()), c)
      ensures locks.Repr() <= old(locks.Repr())
    {
      assert |pending - multiset{c}| == |pending| - 1;
      locks.Release();
      pending := pending - multiset{c};
    }

    /** shutdown_lock_.unlock(): gives up a count at most once. */
    method UnlockShutdown()
      requires Linked()
      modifies this`unlocks, locks.locker, locks.shutdownLock
      ensures Linked() && View() == M.UnlockShutdown(old(View()))
    {
      var had := locks.Unlock();
      if had {
        unlocks := unlocks + 1;
      }
    }

    static lemma CheckMeans(s: M.Sessions)
      requires T.Inv(s) && M.Enabled(s, M.CheckEmplace)
      ensures var t := M.Step(s, M.CheckEmplace);
              t.emplacing == !M.IsShutdown(s) && t.sessions == s.sessions
    {
      hide HT.Inv;
    }

    /** The emplace closure begins: it goes on exactly if shutdown() was not called. */
    method CheckEmplace()
      requires Valid() && M.Enabled(View(), M.CheckEmplace)
      modifies this, locks.Repr()
      ensures Valid() && View() == M.Step(old(View()), M.CheckEmplace)
      ensures fresh(locks.Repr() - old(locks.Repr()))
      ensures emplacing == !old(IsShutdown()) && sessions == old(sessions)
    {
      hide T.Inv;
      T.StepKeepsInv(View(), M.CheckEmplace);
      CheckMeans(View());
      if IsShutdown() {
        Done(M.EmplaceClosure);
      } else {
        emplacing := true;
      }
    }

    static lemma EmplaceMeans(s: M.Sessions, id: M.Id, socketOpen: bool)
      requires T.Inv(s) && M.Enabled(s, M.RunEmplace(id, socketOpen))
      ensures M.EmplaceClosure in M.Emplace(s, id, socketOpen).pending
      ensures var t := M.Step(s, M.RunEmplace(id, socketOpen)).sessions;
              && t.Keys == s.sessions.Keys + {id}
              && (forall i <- s.sessions :: t[i] == s.sessions[i])
              && HT.Inv(t[id]) && t[id].locks > 0
    {
      hide HT.Inv, H.Running;
      HT.InitialInv(socketOpen);
    }

    /** A session enters, whatever was called since the check; it is alive, and the others are left alone. */
    method RunEmplace(id: M.Id, socketOpen: bool)
      requires Valid() && M.Enabled(View(), M.RunEmplace(id, socketOpen))
      modifies this, locks.Repr()
      ensures Valid() && View() == M.Step(old(View()), M.RunEmplace(id, socketOpen))
      ensures fresh(locks.Repr() - old(locks.Repr()))
      ensures sessions.Keys == old(sessions).Keys + {id} && sessions[id].locks > 0
      ensures forall i <- old(sessions) :: sessions[i] == old(sessions)[i]
    {
      hide T.Inv, HT.Inv, H.Running;
      ghost var s := View();
      T.StepKeepsInv(s, M.RunEmplace(id, socketOpen));
      EmplaceMeans(s, id, socketOpen);
      sessions := sessions[id := H.Running(socketOpen)];
      emplacing := false;
      assert View() == M.Emplace(s, id, socketOpen);
      Done(M.EmplaceClosure);
    }

    static lemma InnerMeans(s: M.Sessions, id: M.Id, e: H.Event)
      requires T.Inv(s) && M.Enabled(s, M.Inner(id, e))
      ensures s.sessions[id].locks > 0 && s.sessions[id].erases == 0 && s.count != 0
      ensures var t := H.Step(s.sessions[id], e); t.erases == if t.locks == 0 then 1 else 0
    {
      SetNotEmpty(s, id);
      hide T.CountsKept, H.Step, H.Enabled;
      T.InnerSessionStep(s.sessions[id], e);
      DrainedIsErased(s.sessions[id]);
      DrainedIsErased(H.Step(s.sessions[id], e));
    }

    static lemma SetNotEmpty(s: M.Sessions, id: M.Id)
      requires T.Inv(s) && id in s.sessions
      ensures s.count != 0
    {
      hide HT.Inv;
      T.SetHoldsCount(s);
    }

    /** Drained means that async_erase() was called. */
    static lemma DrainedIsErased(t: H.Session)
      requires HT.Inv(t)
      ensures t.locks >= 0 && t.erases == if t.locks == 0 then 1 else 0
    {
    }

    /**
     A session's own step.  Its erase closure is dispatched exactly when its last
     lock goes: the set always has a count left for that.
     */
    method SessionStep(id: M.Id, e: H.Event)
      requires Valid() && M.Enabled(View(), M.Inner(id, e))
      modifies this, locks.Repr()
      ensures Valid() && View() == M.Step(old(View()), M.Inner(id, e))
      ensures fresh(locks.Repr() - old(locks.Repr()))
      ensures old(id in sessions && sessions[id].locks > 0) && sessions.Keys == old(sessions).Keys
      ensures pending == if sessions[id].locks == 0 then old(pending) + multiset{M.EraseClosure(id)} else old(pending)
    {
      hide T.Inv, HT.Inv, H.Step, H.Enabled;
      ghost var s := View();
      T.StepKeepsInv(s, M.Inner(id, e));
      InnerMeans(s, id, e);
      var before := sessions[id];
      var after := H.Step(before, e);
      sessions := sessions[id := after];
      if after.erases > before.erases {
        var _ := Dispatch(M.EraseClosure(id));
      }
    }

    method EraseSession(id: M.Id)
      requires Linked() && id in sessions
      modifies this`sessions, this`gone, this`unlocks, locks.locker, locks.shutdownLock
      ensures Linked() && View() == M.Erase(old(View()), id)
    {
      hide M.UnlockShutdown;
      gone := gone[id := sessions[id]];
      sessions := sessions - {id};
      if sessions == map[] && IsShutdown() {
        UnlockShutdown();
      }
    }

    static lemma EraseMeans(s: M.Sessions, id: M.Id)
      requires T.Inv(s) && M.Enabled(s, M.RunErase(id))
      ensures id in s.sessions && s.sessions[id].locks == 0
      ensures M.EraseClosure(id) in M.Erase(s, id).pending
      ensures M.Step(s, M.RunErase(id)) == M.Done(M.Erase(s, id), M.EraseClosure(id))
      ensures var t := M.Erase(s, id);
              && t.sessions == s.sessions - {id} && t.runLock == s.runLock
              && (t.sessions == map[] && !t.runLock ==> !t.shutdownLock)
              && (t.sessions != map[] ==> t.shutdownLock == s.shutdownLock)
    {
      T.EraseFindsDrained(s, id);
      hide HT.Inv;
    }

    /**
     The erase closure finds its session, drained.  The last one after shutdown()
     leaves the shutdown lock without a count, and no other one touches it.
     */
    method RunErase(id: M.Id)
      requires Valid() && M.Enabled(View(), M.RunErase(id))
      modifies this, locks.Repr()
      ensures Valid() && View() == M.Step(old(View()), M.RunErase(id))
      ensures fresh(locks.Repr() - old(locks.Repr()))
      ensures old(id in sessions && sessions[id].locks == 0) && sessions == old(sessions) - {id}
      ensures sessions == map[] && IsShutdown() ==> !locks.shutdownLock.IsLocked()
      ensures sessions != map[] ==> locks.shutdownLock.IsLocked() == old(locks.shutdownLock.IsLocked())
    {
      hide T.Inv, M.Erase, M.Step;
      T.StepKeepsInv(View(), M.RunErase(id));
      EraseMeans(View(), id);
      EraseSession(id);
      Done(M.EraseClosure(id));
    }

    /** Both moves have empty targets: the count is handed over, not leaked. */
    method Shutdown()
      requires Valid()
      modifies this, locks.Repr()
      ensures Valid() && View() == M.Step(old(View()), M.Shutdown)
      ensures fresh(locks.Repr() - old(locks.Repr()))
      ensures IsShutdown() && sessions == old(sessions)
    {
      hide T.Inv, M.Step;
      ghost var s := View();
      StepShutsDown(s);
      T.StepKeepsInv(s, M.Shutdown);
      var first := locks.HandOverTwice();
      if first {
        assert View() == s.(runLock := false, shutdownLock := true);
        var _ := Dispatch(M.ShutdownClosure);
      }
    }

    static lemma StepShutsDown(s: M.Sessions)
      ensures M.Enabled(s, M.Shutdown) && M.Step(s, M.Shutdown) == M.ShutdownCall(s)
    {
      hide M.ShutdownCall;
    }

    method CloseAll()
      modifies this`sessions
      ensures sessions == M.CloseAll(old(sessions))
    {
      var todo := sessions.Keys;
      while todo != {}
        invariant todo <= old(sessions).Keys == sessions.Keys
        invariant forall id | id in sessions ::
                    sessions[id] == if id in todo then old(sessions)[id] else H.DoClose(old(sessions)[id])
        decreases todo
      {
        var id :| id in todo;
        sessions := sessions[id := H.DoClose(sessions[id])];
        todo := todo - {id};
      }
    }

    method OnShutdown()
      requires Linked()
      modifies this`sessions, this`closureRan, this`unlocks, locks.locker, locks.shutdownLock
      ensures Linked() && View() == M.ShutdownBody(old(View()))
    {
      hide M.CloseAll, M.UnlockShutdown;
      if sessions == map[] {
        UnlockShutdown();
      } else {
        CloseAll();
      }
      closureRan := true;
    }

    static lemma ShutdownStaysPending(s: M.Sessions)
      ensures M.ShutdownBody(s).pending == s.pending
    {
    }

    method RunShutdown()
      requires Valid() && M.Enabled(View(), M.RunShutdown)
      modifies this, locks.Repr()
      ensures Valid() && View() == M.Step(old(View()), M.RunShutdown)
      ensures fresh(locks.Repr() - old(locks.Repr()))
    {
      hide T.Inv, M.ShutdownBody;
      T.StepKeepsInv(View(), M.RunShutdown);
      ShutdownStaysPending(View());
      OnShutdown();
      Done(M.ShutdownClosure);
    }
  }
}
