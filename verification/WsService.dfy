/**
 The service object: the closures that run on its strand, updating the map and the
 flag in place and holding real lock handles.  Its sessions are held by value.
 */
module WsService {
  import opened HandlerInterface
  import HandlerLocks
  import S = WsSessionModel
  import SE = WsSessionEffects
  import SI = WsSessionInvariants
  import M = WsServiceModel
  import I = WsServiceInvariants
  import T = WsServiceTheorems
  import R = WsServiceSessions

  class WsServiceBase {
    const handler: WsHandlerInterface
    var shutdownRan: bool
    var sessions: map<M.Id, S.Session>
    var pending: multiset<M.Closure>
    var connecting: bool

    // history
    var log: seq<S.Message>
    var gone: map<M.Id, S.Session>
    var finishCalls: nat
    var finishErrors: nat

    ghost function View(): M.Service
      reads this, handler, handler.locks.locker, handler.locks.runLock, handler.locks.shutdownLock
    {
      M.Service(handler.View(), shutdownRan, sessions, pending, connecting, log, gone, finishCalls, finishErrors)
    }

    /** Every closure under way has captured one lock. */
    ghost predicate Linked()
      reads this, handler, handler.locks, handler.locks.locker, handler.locks.locker.live
      reads handler.locks.runLock, handler.locks.shutdownLock
    {
      handler.Valid() && |handler.locks.captured| == |pending|
    }

    ghost predicate Valid()
      reads this, handler, handler.locks, handler.locks.locker, handler.locks.locker.live
      reads handler.locks.runLock, handler.locks.shutdownLock
    {
      Linked() && I.Inv(View())
    }

    constructor ()
      ensures Valid() && View() == M.INITIAL
      ensures fresh(handler.Repr())
    {
      handler := new WsHandlerInterface();
      shutdownRan, sessions, pending, connecting := false, map[], multiset{}, false;
      log, gone, finishCalls, finishErrors := [], map[], 0, 0;
      new;
      T.InitialInv();
    }

    /** make_lock() for the closure and dispatch to the strand. */
    method Dispatch(c: M.Closure) returns (refused: bool)
      requires Linked()
      modifies this`pending, handler.locks`captured, handler.locks.locker`lockCount, handler.locks.locker`live
      ensures Linked() && View() == M.Dispatch(old(View()), c)
      ensures fresh(handler.Repr() - old(handler.Repr()))
      ensures refused == (old(View()).locks.count == 0)
    {
      ghost var s := View();
      refused := handler.Capture();
      if refused {
        return;
      }
      pending := pending + multiset{c};
      assert View() == s.(locks := HandlerLocks.MakeLock(s.locks), pending := s.pending + multiset{c});
    }

    method Done(c: M.Closure)
      requires Linked() && c in pending
      modifies this`pending, handler.locks`captured, handler.locks.captured, handler.locks.locker
      ensures Linked() && View() == M.Done(old(View()), c)
      ensures handler.Repr() <= old(handler.Repr())
    {
      assert |pending - multiset{c}| == |pending| - 1;
      handler.Release();
      pending := pending - multiset{c};
    }

    method OnShutdownFinished()
      requires Linked()
      modifies this`finishCalls, this`finishErrors, handler.locks.locker, handler.locks.shutdownLock
      ensures Linked() && View() == M.Finish(old(View()))
    {
      hide HandlerLocks.Finish, HandlerLocks.FinishSucceeds;
      ghost var l := handler.View();
      var r := handler.ShutdownFinished();
      assert handler.View() == HandlerLocks.Finish(l);
      finishCalls := finishCalls + 1;
      finishErrors := finishErrors + if r.Failure? then 1 else 0;
    }

    static lemma StepChecks(s: M.Service)
      requires M.Enabled(s, M.CheckConnect)
      ensures M.Step(s, M.CheckConnect) == M.PassCheck(s)
      ensures M.Done(s, M.ConnectClosure).sessions == s.sessions
      ensures M.Done(s, M.ConnectClosure).connecting == s.connecting
      ensures M.Done(s, M.ConnectClosure).pending == s.pending - multiset{M.ConnectClosure}
    {
      hide M.PassCheck;
    }

    /** The connect closure begins: it goes on exactly if shutdown() was not called. */
    method CheckConnect()
      requires Valid() && M.Enabled(View(), M.CheckConnect)
      modifies this, handler.Repr()
      ensures Valid() && View() == M.Step(old(View()), M.CheckConnect)
      ensures fresh(handler.Repr() - old(handler.Repr()))
      ensures connecting == !old(handler.IsShutdown()) && sessions == old(sessions)
      ensures pending == if connecting then old(pending) else old(pending) - multiset{M.ConnectClosure}
    {
      hide I.Inv, M.Step, M.Done;
      StepChecks(View());
      I.StepKeepsInv(View(), M.CheckConnect);
      if handler.IsShutdown() {
        Done(M.ConnectClosure);
      } else {
        connecting := true;
      }
    }

    method Enter(id: M.Id, beginning: M.Beginning)
      modifies this`sessions, this`connecting
      ensures View() == M.Connect(old(View()), id, beginning)
    {
      hide S.Accepting, S.Starting;
      match beginning {
        case ConnectFails =>
        case Accepts(streamOpen) => sessions := sessions[id := S.Accepting(streamOpen)];
        case Starts(streamOpen) => sessions := sessions[id := S.Starting(streamOpen)];
      }
      connecting := false;
    }

    static lemma ConnectMeans(s: M.Service, id: M.Id, beginning: M.Beginning)
      requires I.Inv(s) && M.Enabled(s, M.RunConnect(id, beginning))
      ensures M.ConnectClosure in M.Connect(s, id, beginning).pending
      ensures M.Step(s, M.RunConnect(id, beginning)) == M.Done(M.Connect(s, id, beginning), M.ConnectClosure)
      ensures var t := M.Step(s, M.RunConnect(id, beginning)).sessions;
              && t.Keys == s.sessions.Keys + (if beginning.ConnectFails? then {} else {id})
              && (forall i <- s.sessions :: t[i] == s.sessions[i])
              && (!beginning.ConnectFails? ==> S.Initial(t[id]) && SE.Begun(t[id], beginning.Starts?, beginning.streamOpen))
    {
      hide I.SessionsKept, I.OrderKept, S.Accepting, S.Starting, S.Initial, SE.Begun;
      if !beginning.ConnectFails? {
        R.EntersInitial(s, id, beginning);
      }
    }

    static lemma BegunMeans(t: S.Session, beginning: M.Beginning)
      requires !beginning.ConnectFails? && SE.Begun(t, beginning.Starts?, beginning.streamOpen)
      ensures t.isOpen == beginning.Starts? && t.streamOpen == beginning.streamOpen
      ensures t.accepting == if beginning.Accepts? then 1 else 0
      ensures t.reading == if beginning.Starts? && beginning.streamOpen then 1 else 0
      ensures t.callbacks == if beginning.Starts? then [S.OnOpen] else []
    {
    }

    /**
     A session enters, whatever was called since the check: a server session waits
     for its handshake, a client session is open, reports on_open and reads.
     */
    method RunConnect(id: M.Id, beginning: M.Beginning)
      requires Valid() && M.Enabled(View(), M.RunConnect(id, beginning))
      modifies this, handler.Repr()
      ensures Valid() && View() == M.Step(old(View()), M.RunConnect(id, beginning))
      ensures fresh(handler.Repr() - old(handler.Repr()))
      ensures sessions.Keys == old(sessions).Keys + if beginning.ConnectFails? then {} else {id}
      ensures forall i <- old(sessions) :: sessions[i] == old(sessions)[i]
      ensures !beginning.ConnectFails? ==>
                var t := sessions[id];
                && S.Initial(t)
                && t.isOpen == beginning.Starts? && t.streamOpen == beginning.streamOpen
                && t.accepting == (if beginning.Accepts? then 1 else 0)
                && t.reading == (if beginning.Starts? && beginning.streamOpen then 1 else 0)
                && t.callbacks == (if beginning.Starts? then [S.OnOpen] else [])
    {
      hide I.Inv, M.Step, M.Connect, M.Done, S.Initial, SE.Begun;
      I.StepKeepsInv(View(), M.RunConnect(id, beginning));
      ConnectMeans(View(), id, beginning);
      if !beginning.ConnectFails? {
        BegunMeans(M.Step(View(), M.RunConnect(id, beginning)).sessions[id], beginning);
      }
      Enter(id, beginning);
      Done(M.ConnectClosure);
    }

    /** The sessions the caller's function accepts. */
    static ghost function Accepted(m: map<M.Id, S.Session>, fn: M.Id -> bool): set<M.Id> {
      set id | id in m && fn(id)
    }

    /** The loop over map_ in send_*_if, close_if and on_shutdown. */
    method Tell(fn: M.Id -> bool, c: S.Closure)
      modifies this`sessions
      ensures sessions == M.ToChosen(old(sessions), Accepted(old(sessions), fn), c)
    {
      var todo := sessions.Keys;
      while todo != {}
        invariant todo <= old(sessions).Keys == sessions.Keys
        invariant forall id | id in sessions ::
                    sessions[id] == if id !in todo && fn(id) then S.Dispatch(old(sessions)[id], c) else old(sessions)[id]
        decreases todo
      {
        var id :| id in todo;
        if fn(id) {
          sessions := sessions[id := S.Dispatch(sessions[id], c)];
        }
        todo := todo - {id};
      }
    }

    method SendIf(isText: bool, data: string, fn: M.Id -> bool)
      modifies this`sessions, this`log
      ensures View() == M.Send(old(View()), isText, data, Accepted(old(sessions), fn))
    {
      hide M.ToChosen;
      var m := S.Message(|log|, isText, data);
      log := log + [m];
      Tell(fn, S.SendClosure(m));
    }

    static lemma StepSends(s: M.Service, isText: bool, data: string, chosen: set<M.Id>)
      requires M.Enabled(s, M.RunSend(isText, data, chosen))
      ensures M.SendClosure(isText, data) in M.Send(s, isText, data, chosen).pending
      ensures M.Step(s, M.RunSend(isText, data, chosen)) ==
              M.Done(M.Send(s, isText, data, chosen), M.SendClosure(isText, data))
    {
      hide M.ToChosen, M.Done;
    }

    static lemma StepCloses(s: M.Service, reason: string, chosen: set<M.Id>)
      requires M.Enabled(s, M.RunClose(reason, chosen))
      ensures M.CloseClosure(reason) in M.Close(s, reason, chosen).pending
      ensures M.Step(s, M.RunClose(reason, chosen)) == M.Done(M.Close(s, reason, chosen), M.CloseClosure(reason))
    {
      hide M.ToChosen, M.Done;
    }

    /** Every session the function accepts, and no other, is sent the message, under the next number of the log. */
    method RunSendIf(isText: bool, data: string, fn: M.Id -> bool)
      requires Valid() && M.SendClosure(isText, data) in pending && !connecting
      modifies this, handler.Repr()
      ensures Valid()
      ensures View() == M.Step(old(View()), M.RunSend(isText, data, Accepted(old(sessions), fn)))
      ensures fresh(handler.Repr() - old(handler.Repr()))
    {
      hide I.Inv, M.Step, M.Send, M.Done, Accepted;
      ghost var chosen := Accepted(sessions, fn);
      StepSends(View(), isText, data, chosen);
      I.StepKeepsInv(View(), M.RunSend(isText, data, chosen));
      SendIf(isText, data, fn);
      Done(M.SendClosure(isText, data));
    }

    method SendTo(isText: bool, data: string, id: M.Id)
      modifies this`sessions, this`log
      ensures View() == M.Send(old(View()), isText, data, {id})
    {
      hide S.Dispatch;
      var m := S.Message(|log|, isText, data);
      log := log + [m];
      if id in sessions {
        sessions := sessions[id := S.Dispatch(sessions[id], S.SendClosure(m))];
      }
      assert sessions == M.ToChosen(old(sessions), {id}, S.SendClosure(m));
    }

    /** send_text(identifier, ...): to one session, if it is still in the map. */
    method RunSendTo(isText: bool, data: string, id: M.Id)
      requires Valid() && M.SendClosure(isText, data) in pending && !connecting
      modifies this, handler.Repr()
      ensures Valid() && View() == M.Step(old(View()), M.RunSend(isText, data, {id}))
      ensures fresh(handler.Repr() - old(handler.Repr()))
    {
      hide I.Inv, M.Step, M.Send, M.Done;
      StepSends(View(), isText, data, {id});
      I.StepKeepsInv(View(), M.RunSend(isText, data, {id}));
      SendTo(isText, data, id);
      Done(M.SendClosure(isText, data));
    }

    method CloseIf(reason: string, fn: M.Id -> bool)
      modifies this`sessions
      ensures View() == M.Close(old(View()), reason, Accepted(old(sessions), fn))
    {
      hide M.ToChosen;
      Tell(fn, S.CloseClosure(reason));
    }

    method RunCloseIf(reason: string, fn: M.Id -> bool)
      requires Valid() && M.CloseClosure(reason) in pending && !connecting
      modifies this, handler.Repr()
      ensures Valid()
      ensures View() == M.Step(old(View()), M.RunClose(reason, Accepted(old(sessions), fn)))
      ensures fresh(handler.Repr() - old(handler.Repr()))
    {
      hide I.Inv, M.Step, M.Close, M.Done, Accepted;
      ghost var chosen := Accepted(sessions, fn);
      StepCloses(View(), reason, chosen);
      I.StepKeepsInv(View(), M.RunClose(reason, chosen));
      CloseIf(reason, fn);
      Done(M.CloseClosure(reason));
    }

    /** Drained means that on_erase() was called. */
    static lemma DrainedIsErased(t: S.Session)
      requires SI.Inv(t)
      ensures t.locks >= 0 && t.erases == if t.locks == 0 then 1 else 0
    {
    }

    static lemma SessionFacts(s: M.Service, id: M.Id)
      requires I.Inv(s) && id in s.sessions
      ensures SI.Inv(s.sessions[id]) && !s.sessions[id].destroyed && s.locks.count != 0
    {
      hide SI.Inv, I.OrderKept;
      I.MapHoldsService(s);
    }

    static lemma LastUnlock(s: M.Service, id: M.Id, e: S.Event)
      requires I.Inv(s) && id in s.sessions && M.IsOwn(e) && S.Enabled(s.sessions[id], e)
      ensures s.sessions[id].locks > 0 && s.sessions[id].erases == 0 && s.locks.count != 0
      ensures var t := S.Step(s.sessions[id], e); t.erases == if t.locks == 0 then 1 else 0
    {
      hide I.Inv, SI.Inv, S.Step, S.Enabled;
      SessionFacts(s, id);
      I.InnerSessionStep(s.sessions[id], e);
      DrainedIsErased(s.sessions[id]);
      DrainedIsErased(S.Step(s.sessions[id], e));
    }

    static lemma MoveMeans(s: M.Service, id: M.Id, e: S.Event)
      requires I.Inv(s) && M.Enabled(s, M.Inner(id, e))
      ensures M.Step(s, M.Inner(id, e)) == M.InnerStep(s, id, e)
      ensures s.sessions[id].locks > 0
      ensures var t := M.InnerStep(s, id, e);
              && t.sessions.Keys == s.sessions.Keys
              && t.pending == if t.sessions[id].locks == 0 then s.pending + multiset{M.EraseClosure(id)} else s.pending
    {
      hide I.Inv, S.Step, S.Enabled;
      LastUnlock(s, id, e);
      assert s.sessions[id := S.Step(s.sessions[id], e)].Keys == s.sessions.Keys;
    }

    method MoveSession(id: M.Id, e: S.Event)
      requires Linked() && id in sessions && S.Enabled(sessions[id], e)
      modifies this`sessions, this`pending, handler.Repr()
      ensures Linked() && View() == M.InnerStep(old(View()), id, e)
      ensures fresh(handler.Repr() - old(handler.Repr()))
    {
      hide S.Step, S.Enabled, M.Dispatch;
      var before := sessions[id];
      var after := S.Step(before, e);
      sessions := sessions[id := after];
      if after.erases > before.erases {
        var _ := Dispatch(M.EraseClosure(id));
      }
    }

    /**
     A session's own step.  Its erase closure is dispatched exactly when its last
     lock goes: the service always has a lock left for that.
     */
    method SessionStep(id: M.Id, e: S.Event)
      requires Valid() && M.Enabled(View(), M.Inner(id, e))
      modifies this, handler.Repr()
      ensures Valid() && View() == M.Step(old(View()), M.Inner(id, e))
      ensures fresh(handler.Repr() - old(handler.Repr()))
      ensures old(id in sessions && sessions[id].locks > 0) && sessions.Keys == old(sessions).Keys
      ensures pending == if sessions[id].locks == 0 then old(pending) + multiset{M.EraseClosure(id)} else old(pending)
    {
      hide I.Inv, M.Step, M.InnerStep, S.Enabled;
      I.StepKeepsInv(View(), M.Inner(id, e));
      MoveMeans(View(), id, e);
      MoveSession(id, e);
    }

    method EraseSession(id: M.Id)
      requires Linked() && id in sessions
      modifies this`sessions, this`gone, this`finishCalls, this`finishErrors, handler.locks.locker, handler.locks.shutdownLock
      ensures Linked() && View() == M.Erase(old(View()), id, old(shutdownRan))
    {
      hide S.DestroyStep, M.Finish;
      gone := gone[id := S.DestroyStep(sessions[id])];
      sessions := sessions - {id};
      // shutdownRan is tested, not is_shutdown()
      if sessions == map[] && shutdownRan {
        OnShutdownFinished();
      }
    }

    static lemma EraseMeans(s: M.Service, id: M.Id)
      requires I.Inv(s) && M.Enabled(s, M.RunErase(id))
      ensures id in s.sessions && s.sessions[id].locks == 0
      ensures M.EraseClosure(id) in M.Erase(s, id, s.shutdownRan).pending
      ensures var t := M.Step(s, M.RunErase(id));
              && t.sessions == s.sessions - {id} && id in t.gone && t.gone[id].destroyed
              && t.finishErrors == 0
              && (t.finishCalls == s.finishCalls + 1 <==> t.sessions == map[] && t.shutdownRan)
    {
      hide I.SessionsKept, I.OrderKept, I.LocksKept, I.ErasesKept, M.Finish;
      T.EraseFindsDrained(s, id);
      I.EraseCounts(s, id);
      FinishCounts(s.(sessions := s.sessions - {id}, gone := s.gone[id := S.DestroyStep(s.sessions[id])]));
    }

    static lemma FinishCounts(s: M.Service)
      ensures M.Finish(s).finishCalls == s.finishCalls + 1
      ensures M.Finish(s) == s.(locks := M.Finish(s).locks, finishCalls := M.Finish(s).finishCalls, finishErrors := M.Finish(s).finishErrors)
    {
    }

    /**
     The erase closure finds its session, drained.  The service finishes, without
     error, exactly if the map is empty then and the shutdown closure has run.
     */
    method RunErase(id: M.Id)
      requires Valid() && M.Enabled(View(), M.RunErase(id))
      modifies this, handler.Repr()
      ensures Valid() && View() == M.Step(old(View()), M.RunErase(id))
      ensures fresh(handler.Repr() - old(handler.Repr()))
      ensures old(id in sessions && sessions[id].locks == 0) && sessions == old(sessions) - {id}
      ensures id in gone && gone[id].destroyed
      ensures finishErrors == 0 && (finishCalls == old(finishCalls) + 1 <==> sessions == map[] && shutdownRan)
    {
      hide I.Inv, M.Step, M.Enabled;
      ghost var s := View();
      I.StepKeepsInv(s, M.RunErase(id));
      EraseMeans(s, id);
      EraseAndDone(id);
    }

    static lemma StepErases(s: M.Service, id: M.Id)
      requires M.Enabled(s, M.RunErase(id))
      ensures M.Step(s, M.RunErase(id)) == M.Done(M.Erase(s, id, s.shutdownRan), M.EraseClosure(id))
    {
      hide M.Erase, M.Done;
    }

    method EraseAndDone(id: M.Id)
      requires Linked() && M.Enabled(View(), M.RunErase(id)) && id in sessions
      requires M.EraseClosure(id) in M.Erase(View(), id, shutdownRan).pending
      modifies this, handler.Repr()
      ensures Linked() && View() == M.Step(old(View()), M.RunErase(id))
      ensures fresh(handler.Repr() - old(handler.Repr()))
    {
      hide M.Erase, M.Step, M.Done;
      StepErases(View(), id);
      EraseSession(id);
      Done(M.EraseClosure(id));
    }

    static lemma StepShutsDown(s: M.Service)
      ensures M.Enabled(s, M.Shutdown) && M.Step(s, M.Shutdown) == M.ShutdownCall(s)
    {
      hide M.ShutdownCall;
    }

    method Shutdown()
      requires Valid()
      modifies this, handler.Repr()
      ensures Valid() && View() == M.Step(old(View()), M.Shutdown)
      ensures fresh(handler.Repr() - old(handler.Repr()))
      ensures handler.IsShutdown() && sessions == old(sessions)
    {
      hide I.Inv, M.Step;
      ghost var s := View();
      StepShutsDown(s);
      I.StepKeepsInv(s, M.Shutdown);
      var calls := handler.onShutdownCalls;
      handler.Shutdown();
      assert View() == s.(locks := HandlerLocks.Shutdown(s.locks));
      if handler.onShutdownCalls > calls {
        var _ := Dispatch(M.ShutdownClosure); // on_shutdown()
      }
    }

    method OnShutdown()
      requires Linked()
      modifies this`sessions, this`shutdownRan, this`finishCalls, this`finishErrors, handler.locks.locker, handler.locks.shutdownLock
      ensures Linked() && View() == M.ShutdownBody(old(View()))
    {
      hide M.ToChosen, M.Finish, S.Dispatch;
      if sessions == map[] {
        OnShutdownFinished();
      } else {
        var all: M.Id -> bool := _ => true;
        Tell(all, S.CloseClosure("shutdown"));
        assert Accepted(old(sessions), all) == old(sessions).Keys;
      }
      shutdownRan := true;
    }

    method RunShutdown()
      requires Valid() && M.Enabled(View(), M.RunShutdown)
      modifies this, handler.Repr()
      ensures Valid() && View() == M.Step(old(View()), M.RunShutdown)
      ensures fresh(handler.Repr() - old(handler.Repr()))
    {
      hide I.Inv, M.Step, M.ShutdownBody, M.Done;
      StepFinishes(View());
      I.StepKeepsInv(View(), M.RunShutdown);
      OnShutdown();
      Done(M.ShutdownClosure);
    }

    static lemma StepFinishes(s: M.Service)
      requires M.Enabled(s, M.RunShutdown)
      ensures M.ShutdownClosure in M.ShutdownBody(s).pending
      ensures M.Step(s, M.RunShutdown) == M.Done(M.ShutdownBody(s), M.ShutdownClosure)
    {
      hide M.ToChosen, M.Done;
    }
  }
}
