/** What every step of the service handler keeps. */
module ServiceHandlerInvariants {
  import HandlerLocks
  import V = WsServiceModel
  import VI = WsServiceInvariants
  import VT = WsServiceTheorems
  import opened ServiceHandlerModel

  predicate IsFinished(h: Handler) {
    !h.locks.run && !h.locks.shutdown
  }

  /** The closures in a queue that hold a lock of the handler. */
  function Holders(q: seq<Closure>): nat {
    if q == [] then 0 else (if q[0].DropClosure? then 0 else 1) + Holders(q[1..])
  }

  ghost predicate LocksKept(h: Handler) {
    && !(h.locks.run && h.locks.shutdown)
    && h.locks.count == HandlerLocks.Own(h.locks) + Holders(h.queue)
    && h.locks.onShutdowns == (if h.locks.run then 0 else 1)
    && (h.locks.run ==> !h.shutdownRan)
    && multiset(h.queue)[ShutdownClosure] == (if !h.locks.run && !h.shutdownRan then 1 else 0)
    && h.finishErrors <= h.finishCalls
    && h.finishCalls - h.finishErrors == (if IsFinished(h) then 1 else 0)
  }

  /** A service whose callback was called has one erase closure under way; nothing else has one. */
  ghost predicate DropsKept(h: Handler) {
    forall name :: multiset(h.queue)[DropClosure(name)] == if name in h.services && h.services[name].dropping then 1 else 0
  }

  /** The callback is called only by a service that has given up its last lock. */
  ghost predicate SlotKept(slot: Slot) {
    && VI.Inv(slot.service)
    && (slot.dropping ==> slot.callback && slot.service.locks.count == 0)
  }

  ghost predicate SlotsKept(h: Handler) {
    forall name <- h.services :: SlotKept(h.services[name])
  }

  ghost predicate Inv(h: Handler) {
    LocksKept(h) && DropsKept(h) && SlotsKept(h)
  }

  lemma InitialInv()
    ensures Inv(INITIAL)
  {
    hide Inv;
    EmptyHandler(INITIAL);
  }

  lemma EmptyHandler(h: Handler)
    requires h.locks == HandlerLocks.RUNNING && !h.shutdownRan && h.services == map[]
    requires h.queue == [] && h.finishCalls == h.finishErrors == 0
    ensures Inv(h)
  {
    hide SlotKept;
  }

  // ---- facts about one service ----

  lemma NewSlot()
    ensures SlotKept(Slot(V.INITIAL, false, false)) && V.INITIAL.locks.count == 1
  {
    VT.InitialInv();
  }

  lemma ZeroStays(s: V.Service, e: V.Event)
    requires VI.Inv(s) && s.locks.count == 0 && V.Enabled(s, e)
    ensures V.Step(s, e).locks.count == 0
  {
    hide VI.OrderKept, VI.SessionsKept;
    VT.ZeroMeansDone(s);
  }

  lemma ServiceStep(s: V.Service, e: V.Event)
    requires VI.Inv(s) && V.Enabled(s, e)
    ensures VI.Inv(V.Step(s, e))
    ensures s.locks.count == 0 ==> V.Step(s, e).locks.count == 0
  {
    hide VI.Inv;
    VI.StepKeepsInv(s, e);
    if s.locks.count == 0 {
      ZeroStays(s, e);
    }
  }

  lemma ServiceShutdown(s: V.Service)
    requires VI.Inv(s)
    ensures VI.Inv(V.ShutdownCall(s)) && (V.ShutdownCall(s).locks.count == 0 <==> s.locks.count == 0)
  {
    hide VI.OrderKept, VI.SessionsKept;
    VI.StepKeepsInv(s, V.Shutdown);
  }

  lemma ServiceConnect(s: V.Service)
    requires VI.Inv(s)
    ensures VI.Inv(V.Dispatch(s, V.ConnectClosure))
    ensures V.Dispatch(s, V.ConnectClosure).locks.count == 0 <==> s.locks.count == 0
  {
    hide VI.OrderKept, VI.SessionsKept;
    VI.StepKeepsInv(s, V.CallConnect);
  }

  // ---- the queue ----

  lemma {:induction false} Pushed(q: seq<Closure>, c: Closure)
    ensures Holders(q + [c]) == Holders(q) + if c.DropClosure? then 0 else 1
    ensures multiset(q + [c]) == multiset(q) + multiset{c}
    decreases |q|
  {
    if q != [] {
      Pushed(q[1..], c);
      assert (q + [c])[1..] == q[1..] + [c];
    } else {
      assert ([] + [c])[1..] == [];
    }
  }

  lemma Popped(q: seq<Closure>)
    requires q != []
    ensures Holders(q) == Holders(q[1..]) + if q[0].DropClosure? then 0 else 1
    ensures multiset(q[1..]) == multiset(q) - multiset{q[0]} && q[0] in multiset(q)
  {
    assert q == [q[0]] + q[1..];
  }

  // ---- steps ----

  lemma DispatchKeeps(h: Handler, c: Closure)
    requires Inv(h) && !c.ShutdownClosure? && !c.DropClosure?
    ensures Inv(Dispatch(h, c))
  {
    hide SlotKept, Holders;
    Pushed(h.queue, c);
  }

  lemma ShutdownCallKeeps(h: Handler)
    requires Inv(h)
    ensures Inv(ShutdownCall(h))
  {
    hide SlotKept, Holders;
    Pushed(h.queue, ShutdownClosure);
  }

  /** A service in the map has moved on. */
  lemma MovedKeeps(h: Handler, name: Name, slot: Slot)
    requires Inv(h) && name in h.services && SlotKept(slot) && slot.dropping == h.services[name].dropping
    ensures Inv(h.(services := h.services[name := slot]))
  {
    hide SlotKept, LocksKept;
    assert h.services[name := slot].Keys == h.services.Keys;
    SameLocks(h, h.services[name := slot]);
  }

  lemma SameLocks(h: Handler, services: map<Name, Slot>)
    requires LocksKept(h)
    ensures LocksKept(h.(services := services))
  {
  }

  /** A service in the map has called its callback. */
  lemma DrainedKeeps(h: Handler, name: Name, slot: Slot)
    requires Inv(h) && name in h.services && SlotKept(slot) && slot.dropping && !h.services[name].dropping
    ensures Inv(h.(services := h.services[name := slot], queue := h.queue + [DropClosure(name)]))
  {
    hide SlotKept, Holders;
    Pushed(h.queue, DropClosure(name));
  }

  lemma InnerKeeps(h: Handler, name: Name, e: V.Event)
    requires Inv(h) && Enabled(h, Inner(name, e))
    ensures Inv(InnerStep(h, name, e))
  {
    hide Inv, VI.Inv, V.Step, V.Enabled;
    var slot := h.services[name];
    SlotFact(h, name);
    ServiceStep(slot.service, e);
    var service := V.Step(slot.service, e);
    if slot.service.locks.count != 0 && service.locks.count == 0 && slot.callback {
      DrainedKeeps(h, name, slot.(service := service, dropping := true));
    } else {
      MovedKeeps(h, name, slot.(service := service));
    }
  }

  /** A closure was taken off the strand and has not done anything yet. */
  ghost predicate Taken(h: Handler, u: Handler) {
    h.queue != [] && u == h.(queue := h.queue[1..])
  }

  /** A closure with a lock, other than that of shutdown(), that changed no more than one service, which stays in the map. */
  lemma ClosureKeeps(h: Handler, u: Handler, t: Handler, name: Name, slot: Slot)
    requires Inv(h) && Taken(h, u) && !h.queue[0].DropClosure? && !h.queue[0].ShutdownClosure?
    requires t == u || t == u.(services := u.services[name := slot])
    requires SlotKept(slot) && slot.dropping == (name in h.services && h.services[name].dropping)
    ensures Inv(Unlock(t))
  {
    hide SlotKept, Holders;
    Popped(h.queue);
  }

  lemma AddKeeps(h: Handler, u: Handler, name: Name)
    requires Inv(h) && Taken(h, u) && h.queue[0] == AddClosure(name)
    ensures Inv(Unlock(Add(u, name)))
  {
    hide Inv, SlotKept;
    NewSlot();
    if name !in u.services {
      ClosureKeeps(h, u, Add(u, name), name, Slot(V.INITIAL, false, false));
    } else {
      SlotFact(h, name);
      ClosureKeeps(h, u, u, name, h.services[name]);
    }
  }

  lemma SlotFact(h: Handler, name: Name)
    requires Inv(h) && name in h.services
    ensures SlotKept(h.services[name])
  {
    hide SlotKept, Holders;
  }

  lemma EraseServiceKeeps(h: Handler, u: Handler, name: Name)
    requires Inv(h) && Taken(h, u) && h.queue[0] == EraseClosure(name)
    ensures Inv(Unlock(EraseService(u, name)))
  {
    hide Inv, VI.Inv, V.ShutdownCall;
    if name in h.services {
      SlotFact(h, name);
      ServiceShutdown(h.services[name].service);
      ClosureKeeps(h, u, EraseService(u, name), name, EraseService(u, name).services[name]);
    } else {
      NewSlot();
      ClosureKeeps(h, u, u, name, Slot(V.INITIAL, false, false));
    }
  }

  lemma ConnectKeeps(h: Handler, u: Handler, name: Name)
    requires Inv(h) && Taken(h, u) && h.queue[0] == ConnectClosure(name)
    ensures Inv(Unlock(Connect(u, name)))
  {
    hide Inv, VI.Inv, V.Dispatch;
    if name in h.services {
      SlotFact(h, name);
      ServiceConnect(h.services[name].service);
      ClosureKeeps(h, u, Connect(u, name), name, Connect(u, name).services[name]);
    } else {
      NewSlot();
      ClosureKeeps(h, u, u, name, Slot(V.INITIAL, false, false));
    }
  }

  lemma DropKeeps(h: Handler, u: Handler, name: Name)
    requires Inv(h) && Taken(h, u) && h.queue[0] == DropClosure(name)
    ensures Inv(Drop(u, name))
  {
    hide SlotKept, Holders;
    Popped(h.queue);
  }

  lemma ShutdownBodyKeeps(h: Handler, u: Handler)
    requires Inv(h) && Taken(h, u) && h.queue[0] == ShutdownClosure
    ensures Inv(Unlock(ShutdownBody(u)))
  {
    hide VI.Inv, V.ShutdownCall, SlotKept, Holders;
    forall name | name in h.services
      ensures SlotKept(h.services[name].(service := V.ShutdownCall(h.services[name].service)))
    {
      ShutdownSlot(h.services[name]);
    }
    assert AllShutdown(h.services).Keys == h.services.Keys;
    assert forall name <- h.services :: AllShutdown(h.services)[name].dropping == h.services[name].dropping;
    Popped(h.queue);
  }

  lemma ShutdownSlot(slot: Slot)
    requires SlotKept(slot)
    ensures SlotKept(slot.(service := V.ShutdownCall(slot.service)))
  {
    hide VI.Inv, V.ShutdownCall;
    ServiceShutdown(slot.service);
  }

  lemma RunFirstKeeps(h: Handler)
    requires Inv(h) && h.queue != []
    ensures Inv(RunFirstStep(h))
  {
    hide Inv, Add, EraseService, Connect, ShutdownBody, Drop, Unlock;
    var u := h.(queue := h.queue[1..]);
    match h.queue[0]
    case AddClosure(name) => AddKeeps(h, u, name);
    case EraseClosure(name) => EraseServiceKeeps(h, u, name);
    case ConnectClosure(name) => ConnectKeeps(h, u, name);
    case ShutdownClosure => ShutdownBodyKeeps(h, u);
    case DropClosure(name) => DropKeeps(h, u, name);
  }

  lemma StepKeepsInv(h: Handler, e: Event)
    requires Inv(h) && Enabled(h, e)
    ensures Inv(Step(h, e))
  {
    hide Inv, InnerStep, RunFirstStep, Dispatch, ShutdownCall;
    match e
    case CallAdd(name) => DispatchKeeps(h, AddClosure(name));
    case CallErase(name) => DispatchKeeps(h, EraseClosure(name));
    case CallConnect(name) => DispatchKeeps(h, ConnectClosure(name));
    case Inner(name, own) => InnerKeeps(h, name, own);
    case Shutdown => ShutdownCallKeeps(h);
    case RunFirst => RunFirstKeeps(h);
  }

  lemma {:induction false} RunKeepsInv(h: Handler, run: Run)
    requires Inv(h) && Possible(h, run)
    ensures Inv(Exec(h, run))
    decreases run
  {
    hide Inv, Step, Enabled;
    if run.Then? {
      StepKeepsInv(h, run.event);
      RunKeepsInv(Step(h, run.event), run.rest);
    }
  }
}
