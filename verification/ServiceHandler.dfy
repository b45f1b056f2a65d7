/**
 The service handler object: the closures that run on its strand, updating the map
 and the flag in place and holding real lock handles.  Its services are held by
 value.
 */
module ServiceHandler {
  import opened HandlerInterface
  import HandlerLocks
  import V = WsServiceModel
  import VI = WsServiceInvariants
  import M = ServiceHandlerModel
  import I = ServiceHandlerInvariants
  import T = ServiceHandlerTheorems

  class WsServiceHandler {
    const handler: WsHandlerInterface
    var shutdownRan: bool
    var services: map<M.Name, M.Slot>
    var queue: seq<M.Closure>

    // history
    var finishCalls: nat
    var finishErrors: nat

    ghost function View(): M.Handler
      reads this, handler, handler.locks.locker, handler.locks.runLock, handler.locks.shutdownLock
    {
      M.Handler(handler.View(), shutdownRan, services, queue, finishCalls, finishErrors)
    }

    /** Every closure under way has captured one lock, but for those that erase a service. */
    ghost predicate Linked()
      reads this, handler, handler.locks, handler.locks.locker, handler.locks.locker.live
      reads handler.locks.runLock, handler.locks.shutdownLock
    {
      handler.Valid() && |handler.locks.captured| == I.Holders(queue)
    }

    ghost predicate Valid()
      reads this, handler, handler.locks, handler.locks.locker, handler.locks.locker.live
      reads handler.locks.runLock, handler.locks.shutdownLock
    {
      Linked() && I.Inv(View())
    }

    constructor ()
      ensures Linked() && View() == M.INITIAL
      ensures fresh(handler.Repr())
    {
      handler := new WsHandlerInterface();
      shutdownRan, services, queue, finishCalls, finishErrors := false, map[], [], 0, 0;
    }

    lemma NewIsValid()
      requires Linked() && View() == M.INITIAL
      ensures Valid()
    {
      hide I.Inv;
      I.InitialInv();
    }

    /** make_lock() for the closure and dispatch to the strand. */
    method Dispatch(c: M.Closure) returns (refused: bool)
      requires Linked() && !c.DropClosure?
      modifies this`queue, handler.locks`captured, handler.locks.locker`lockCount, handler.locks.locker`live
      ensures Linked() && View() == M.Dispatch(old(View()), c)
      ensures fresh(handler.Repr() - old(handler.Repr()))
      ensures refused == (old(View()).locks.count == 0)
    {
      hide I.Holders;
      ghost var h := View();
      refused := handler.Capture();
      if refused {
        return;
      }
      I.Pushed(queue, c);
      queue := queue + [c];
      assert View() == h.(locks := HandlerLocks.MakeLock(h.locks), queue := h.queue + [c]);
    }

    /** The first closure is taken off the strand; its lock is not released yet. */
    ghost predicate Running()
      reads this, handler, handler.locks, handler.locks.locker, handler.locks.locker.live
      reads handler.locks.runLock, handler.locks.shutdownLock
    {
      handler.Valid() && |handler.locks.captured| == I.Holders(queue) + 1
    }

    method Take()
      requires Linked() && queue != []
      modifies this`queue
      ensures View() == old(View()).(queue := old(queue)[1..])
      ensures if old(queue)[0].DropClosure? then Linked() else Running()
    {
      hide I.Holders;
      I.Popped(queue);
      queue := queue[1..];
    }

    method Done()
      requires Running()
      modifies handler.locks`captured, handler.locks.captured, handler.locks.locker
      ensures Linked() && View() == M.Unlock(old(View()))
      ensures handler.Repr() <= old(handler.Repr())
    {
      hide I.Holders;
      handler.Release();
    }

    method ShutdownFinished()
      requires handler.Valid()
      modifies this`finishCalls, this`finishErrors, handler.locks.locker, handler.locks.shutdownLock
      ensures handler.Valid() && View() == M.Finish(old(View()))
    {
      hide HandlerLocks.Finish, HandlerLocks.FinishSucceeds;
      ghost var l := handler.View();
      var r := handler.ShutdownFinished();
      assert handler.View() == HandlerLocks.Finish(l);
      finishCalls := finishCalls + 1;
      finishErrors := finishErrors + if r.Failure? then 1 else 0;
    }

    static lemma AddMeans(h: M.Handler, name: M.Name)
      requires h.queue != [] && h.queue[0] == M.AddClosure(name)
      ensures M.Step(h, M.RunFirst) == M.Unlock(M.Add(h.(queue := h.queue[1..]), name))
      ensures var t := M.Step(h, M.RunFirst).services;
              && t.Keys == h.services.Keys + {name}
              && (forall n <- h.services :: t[n] == h.services[n])
              && (name !in h.services ==> t[name] == M.Slot(V.INITIAL, false, false))
    {
      hide V.INITIAL;
    }

    /** A running service is added under a new name; a name that is taken keeps its service. */
    method RunAdd(name: M.Name)
      requires Valid() && queue != [] && queue[0] == M.AddClosure(name)
      modifies this, handler.Repr()
      ensures Valid() && View() == M.Step(old(View()), M.RunFirst)
      ensures fresh(handler.Repr() - old(handler.Repr()))
      ensures services.Keys == old(services).Keys + {name}
      ensures forall n <- old(services) :: services[n] == old(services)[n]
      ensures name !in old(services) ==> services[name] == M.Slot(V.INITIAL, false, false)
    {
      hide I.Inv, I.Holders, M.Step, M.Add, M.Unlock;
      CanRun(View());
      I.StepKeepsInv(View(), M.RunFirst);
      AddMeans(View(), name);
      Take();
      Add(name);
      Done();
    }

    static lemma CanRun(h: M.Handler)
      requires h.queue != []
      ensures M.Enabled(h, M.RunFirst)
    {
    }

    method Add(name: M.Name)
      modifies this`services
      ensures View() == M.Add(old(View()), name)
    {
      hide V.INITIAL;
      if name !in services {
        services := services[name := M.Slot(V.INITIAL, false, false)];
      }
    }

    static lemma ShutdownHolds(s: V.Service)
      requires VI.Inv(s)
      ensures HandlerLocks.IsShutdown(V.ShutdownCall(s).locks)
    {
      hide VI.SessionsKept, VI.OrderKept, VI.ErasesKept;
    }

    static lemma EraseMeans(h: M.Handler, name: M.Name)
      requires I.Inv(h) && h.queue != [] && h.queue[0] == M.EraseClosure(name)
      ensures M.Step(h, M.RunFirst) == M.Unlock(M.EraseService(h.(queue := h.queue[1..]), name))
      ensures var t := M.Step(h, M.RunFirst).services;
              && t.Keys == h.services.Keys
              && (forall n <- h.services :: n != name ==> t[n] == h.services[n])
              && (name in h.services ==> t[name].callback && HandlerLocks.IsShutdown(t[name].service.locks))
    {
      hide I.Inv, VI.Inv, V.ShutdownCall;
      if name in h.services {
        I.SlotFact(h, name);
        ShutdownHolds(h.services[name].service);
      }
    }

    /** The service takes no more sessions and will report that it is done; the others are left alone. */
    method RunErase(name: M.Name)
      requires Valid() && queue != [] && queue[0] == M.EraseClosure(name)
      modifies this, handler.Repr()
      ensures Valid() && View() == M.Step(old(View()), M.RunFirst)
      ensures fresh(handler.Repr() - old(handler.Repr()))
      ensures services.Keys == old(services).Keys
      ensures forall n <- old(services) :: n != name ==> services[n] == old(services)[n]
      ensures name in services ==> services[name].callback && HandlerLocks.IsShutdown(services[name].service.locks)
    {
      hide I.Inv, I.Holders, M.Step, M.EraseService, M.Unlock;
      CanRun(View());
      I.StepKeepsInv(View(), M.RunFirst);
      EraseMeans(View(), name);
      Take();
      ShutdownService(name);
      Done();
    }

    /** shutdown(fn) on the service: set the callback, then shut down. */
    method ShutdownService(name: M.Name)
      modifies this`services
      ensures View() == M.EraseService(old(View()), name)
    {
      hide V.ShutdownCall;
      if name in services {
        var slot := services[name];
        slot := slot.(callback := true);
        services := services[name := slot.(service := V.ShutdownCall(slot.service))];
      }
    }

    method RunConnect(name: M.Name)
      requires Valid() && queue != [] && queue[0] == M.ConnectClosure(name)
      modifies this, handler.Repr()
      ensures Valid() && View() == M.Step(old(View()), M.RunFirst)
      ensures fresh(handler.Repr() - old(handler.Repr()))
    {
      hide I.Inv, I.Holders, M.Step, M.Connect, M.Unlock;
      StepConnects(View(), name);
      I.StepKeepsInv(View(), M.RunFirst);
      Take();
      ConnectService(name);
      Done();
    }

    static lemma StepConnects(h: M.Handler, name: M.Name)
      requires h.queue != [] && h.queue[0] == M.ConnectClosure(name)
      ensures M.Enabled(h, M.RunFirst)
      ensures M.Step(h, M.RunFirst) == M.Unlock(M.Connect(h.(queue := h.queue[1..]), name))
    {
      hide M.Connect;
    }

    method ConnectService(name: M.Name)
      modifies this`services
      ensures View() == M.Connect(old(View()), name)
    {
      hide V.Dispatch;
      if name in services {
        var slot := services[name];
        services := services[name := slot.(service := V.Dispatch(slot.service, V.ConnectClosure))];
      }
    }

    static lemma QueuedDrop(h: M.Handler, name: M.Name)
      requires I.Inv(h) && name in h.services
      ensures M.DropClosure(name) in h.queue <==> h.services[name].dropping
      ensures h.services[name].dropping ==> h.services[name].callback && h.services[name].service.locks.count == 0
    {
      hide VI.Inv, I.LocksKept;
      assert M.DropClosure(name) in h.queue <==> multiset(h.queue)[M.DropClosure(name)] > 0;
    }

    static lemma DrainMeans(h: M.Handler, name: M.Name, e: V.Event)
      requires I.Inv(h) && M.Enabled(h, M.Inner(name, e))
      ensures var t := M.InnerStep(h, name, e);
              && name in t.services
              && (M.DropClosure(name) in t.queue <==>
                   M.DropClosure(name) in h.queue
                   || (h.services[name].service.locks.count != 0
                       && t.services[name].service.locks.count == 0 && t.services[name].callback))
              && (M.DropClosure(name) in t.queue ==> t.services[name].service.locks.count == 0)
    {
      hide I.Inv, V.Step, V.Enabled;
      I.InnerKeeps(h, name, e);
      QueuedDrop(h, name);
      QueuedDrop(M.InnerStep(h, name, e), name);
    }

    /**
     A service's own step.  Its erase closure is on the strand exactly if its last
     unlock found the callback set, and only while the service is without locks.
     */
    method ServiceStep(name: M.Name, e: V.Event)
      requires Valid() && M.Enabled(View(), M.Inner(name, e))
      modifies this`services, this`queue
      ensures Valid() && View() == M.Step(old(View()), M.Inner(name, e))
      ensures name in services
      ensures M.DropClosure(name) in queue <==>
                old(M.DropClosure(name) in queue)
                || (old(name in services && services[name].service.locks.count != 0)
                    && services[name].service.locks.count == 0 && services[name].callback)
      ensures M.DropClosure(name) in queue ==> services[name].service.locks.count == 0
    {
      hide I.Inv, I.Holders, V.Step, V.Enabled;
      ghost var h := View();
      I.StepKeepsInv(h, M.Inner(name, e));
      DrainMeans(h, name, e);
      I.Pushed(queue, M.DropClosure(name));
      var slot := services[name];
      var after := V.Step(slot.service, e);
      if slot.service.locks.count != 0 && after.locks.count == 0 && slot.callback {
        services := services[name := M.Slot(after, true, true)];
        queue := queue + [M.DropClosure(name)];
      } else {
        services := services[name := slot.(service := after)];
      }
      assert View() == M.InnerStep(h, name, e);
    }

    method EraseDrained(name: M.Name)
      requires Linked()
      modifies this`services, this`finishCalls, this`finishErrors, handler.locks.locker, handler.locks.shutdownLock
      ensures Linked() && View() == M.Drop(old(View()), name)
    {
      hide M.Finish, I.Holders;
      services := services - {name};
      if services == map[] && shutdownRan {
        ShutdownFinished();
      }
    }

    static lemma DropMeans(h: M.Handler, name: M.Name)
      requires I.Inv(h) && T.DropsNext(h, name)
      ensures name in h.services
      ensures var s := h.services[name].service;
              s.locks.count == 0 && s.finishCalls == 1 && s.finishErrors == 0 && s.sessions == map[] && s.pending == multiset{}
      ensures var t := M.Step(h, M.RunFirst);
              && t.services == h.services - {name} && M.DropClosure(name) !in t.queue
              && (t.finishCalls == h.finishCalls + 1 <==> t.services == map[] && t.shutdownRan)
    {
      hide I.Inv, I.Holders;
      T.DroppedIsDone(h, name);
      T.DropQueued(h, name);
      I.Popped(h.queue);
    }

    static lemma StepDrops(h: M.Handler, name: M.Name)
      requires T.DropsNext(h, name)
      ensures M.Enabled(h, M.RunFirst) && M.Step(h, M.RunFirst) == M.Drop(h.(queue := h.queue[1..]), name)
    {
      hide M.Drop;
    }

    /** The erase closure takes out a service that is done.  The handler finishes if that was the last one after its shutdown closure. */
    method RunDrop(name: M.Name)
      requires Valid() && T.DropsNext(View(), name)
      modifies this, handler.Repr()
      ensures Valid() && View() == M.Step(old(View()), M.RunFirst)
      ensures fresh(handler.Repr() - old(handler.Repr()))
      ensures old(name in services && services[name].service.locks.count == 0)
      ensures old(services)[name].service.finishCalls == 1 && old(services)[name].service.sessions == map[]
      ensures services == old(services) - {name} && M.DropClosure(name) !in queue
      ensures finishCalls == old(finishCalls) + 1 <==> services == map[] && shutdownRan
    {
      hide I.Inv, I.Holders, M.Drop, M.Step;
      ghost var h := View();
      StepDrops(h, name);
      I.StepKeepsInv(h, M.RunFirst);
      DropMeans(h, name);
      Take();
      EraseDrained(name);
    }

    method Shutdown()
      requires Valid()
      modifies this, handler.Repr()
      ensures Valid() && View() == M.Step(old(View()), M.Shutdown)
      ensures fresh(handler.Repr() - old(handler.Repr()))
      ensures handler.IsShutdown() && services == old(services)
    {
      hide I.Inv, I.Holders, M.Step;
      ghost var h := View();
      StepShutsDown(h);
      I.StepKeepsInv(h, M.Shutdown);
      var calls := handler.onShutdownCalls;
      handler.Shutdown();
      assert View() == h.(locks := HandlerLocks.Shutdown(h.locks));
      if handler.onShutdownCalls > calls {
        var _ := Dispatch(M.ShutdownClosure); // on_shutdown()
      }
    }

    static lemma StepShutsDown(h: M.Handler)
      ensures M.Enabled(h, M.Shutdown) && M.Step(h, M.Shutdown) == M.ShutdownCall(h)
    {
      hide M.ShutdownCall;
    }

    /** The loop over services_: each service is shut down, without an erase callback. */
    method ShutdownServices()
      modifies this`services
      ensures services == M.AllShutdown(old(services))
    {
      var todo := services.Keys;
      while todo != {}
        invariant todo <= old(services).Keys == services.Keys
        invariant forall name | name in services ::
                    services[name] == if name in todo then old(services)[name]
                                      else old(services)[name].(service := V.ShutdownCall(old(services)[name].service))
        decreases todo
      {
        var name :| name in todo;
        services := services[name := services[name].(service := V.ShutdownCall(services[name].service))];
        todo := todo - {name};
      }
    }

    method OnShutdown()
      requires Running()
      modifies this`services, this`shutdownRan, this`finishCalls, this`finishErrors, handler.locks.locker, handler.locks.shutdownLock
      ensures Running() && View() == M.ShutdownBody(old(View()))
    {
      hide M.AllShutdown, M.Finish, V.ShutdownCall, I.Holders;
      if services == map[] {
        ShutdownFinished();
      } else {
        ShutdownServices();
      }
      shutdownRan := true;
    }

    method RunShutdown()
      requires Valid() && queue != [] && queue[0] == M.ShutdownClosure
      modifies this, handler.Repr()
      ensures Valid() && View() == M.Step(old(View()), M.RunFirst)
      ensures fresh(handler.Repr() - old(handler.Repr()))
    {
      hide I.Inv, I.Holders, M.Step, M.ShutdownBody, M.Unlock;
      StepFinishes(View());
      I.StepKeepsInv(View(), M.RunFirst);
      Take();
      OnShutdown();
      Done();
    }

    static lemma StepFinishes(h: M.Handler)
      requires h.queue != [] && h.queue[0] == M.ShutdownClosure
      ensures M.Enabled(h, M.RunFirst)
      ensures M.Step(h, M.RunFirst) == M.Unlock(M.ShutdownBody(h.(queue := h.queue[1..])))
    {
      hide M.ShutdownBody;
    }

    /** The strand runs its first closure, whichever it is. */
    method RunFirst()
      requires Valid() && queue != []
      modifies this, handler.Repr()
      ensures Valid() && View() == M.Step(old(View()), M.RunFirst)
      ensures fresh(handler.Repr() - old(handler.Repr()))
    {
      hide I.Inv, I.Holders, M.Step;
      match queue[0] {
        case AddClosure(name) => RunAdd(name);
        case EraseClosure(name) => RunErase(name);
        case ConnectClosure(name) => RunConnect(name);
        case ShutdownClosure => RunShutdown();
        case DropClosure(name) => RunDrop(name);
      }
    }
  }
}
