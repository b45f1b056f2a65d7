/**
 What each step of the service handler comes to: which closures come onto the strand,
 which services enter and leave, what every service goes through, and when the finish
 is reported.  Together with the invariant these equations leave no choice, and every
 run of the handler is a run of each of its services.
 */
module ServiceHandlerEffects {
  import HandlerLocks
  import V = WsServiceModel
  import VI = WsServiceInvariants
  import opened ServiceHandlerModel
  import opened ServiceHandlerInvariants

  predicate RunsFirst(h: Handler, e: Event, c: Closure) {
    e.RunFirst? && h.queue != [] && h.queue[0] == c
  }

  /** What a step of the handler is for one of its services: a connect and a shutdown reach exactly those they are meant for. */
  function OwnEvent(h: Handler, e: Event, name: Name): (own: seq<V.Event>)
    ensures |own| <= 1
  {
    match e
    case Inner(n, own) => if n == name then [own] else []
    case RunFirst =>
      if RunsFirst(h, e, ConnectClosure(name)) then [V.CallConnect]
      else if RunsFirst(h, e, EraseClosure(name)) || RunsFirst(h, e, ShutdownClosure) then [V.Shutdown]
      else []
    case _ => []
  }

  ghost predicate StepsAlong(h: Handler, t: Handler, e: Event, name: Name) {
    && name in h.services && name in t.services
    && var own := OwnEvent(h, e, name);
       var s, u := h.services[name].service, t.services[name].service;
       if own == [] then u == s else V.Enabled(s, own[0]) && u == V.Step(s, own[0])
  }

  /** The closures that come onto the strand. */
  function Added(h: Handler, t: Handler, e: Event): seq<Closure> {
    match e
    case CallAdd(name) => if h.locks.count != 0 then [AddClosure(name)] else []
    case CallErase(name) => if h.locks.count != 0 then [EraseClosure(name)] else []
    case CallConnect(name) => if h.locks.count != 0 then [ConnectClosure(name)] else []
    case Shutdown => if h.locks.run then [ShutdownClosure] else []
    case Inner(name, _) =>
      if name in h.services && name in t.services && h.services[name].callback
         && h.services[name].service.locks.count != 0 && t.services[name].service.locks.count == 0
      then [DropClosure(name)] else []
    case RunFirst => []
  }

  /** shutdown_finished() is called: by the shutdown closure on an empty map, or after it with the last service erased. */
  predicate Finishes(h: Handler, t: Handler, e: Event) {
    && e.RunFirst? && h.queue != [] && t.services == map[]
    && (h.queue[0].ShutdownClosure? || (h.queue[0].DropClosure? && h.shutdownRan))
  }

  function EnteredBy(h: Handler, e: Event): set<Name> {
    if e.RunFirst? && h.queue != [] && h.queue[0].AddClosure? then {h.queue[0].name} else {}
  }

  function ErasedBy(h: Handler, e: Event): set<Name> {
    if e.RunFirst? && h.queue != [] && h.queue[0].DropClosure? then {h.queue[0].name} else {}
  }

  ghost predicate StrandEffects(h: Handler, t: Handler, e: Event) {
    && t.queue == (if e.RunFirst? && h.queue != [] then h.queue[1..] else h.queue) + Added(h, t, e)
    && t.shutdownRan == (h.shutdownRan || RunsFirst(h, e, ShutdownClosure))
    && t.locks.run == (h.locks.run && !e.Shutdown?)
    && t.finishCalls == h.finishCalls + (if Finishes(h, t, e) then 1 else 0)
    && t.finishErrors == h.finishErrors + (if Finishes(h, t, e) && IsFinished(h) then 1 else 0)
  }

  ghost predicate MapEffects(h: Handler, t: Handler, e: Event) {
    && t.services.Keys == h.services.Keys + EnteredBy(h, e) - ErasedBy(h, e)
    && (forall name | name in h.services && name in t.services ::
          && StepsAlong(h, t, e, name)
          && t.services[name].callback == (h.services[name].callback || RunsFirst(h, e, EraseClosure(name))))
    && (forall name | name in t.services && name !in h.services ::
          t.services[name].service == V.INITIAL && !t.services[name].callback)
  }

  ghost predicate Effects(h: Handler, t: Handler, e: Event) {
    StrandEffects(h, t, e) && MapEffects(h, t, e)
  }

  // ---- the steps have these effects ----

  lemma SameMap(h: Handler, t: Handler, e: Event)
    requires t.services == h.services && !e.RunFirst? && !e.Inner?
    ensures MapEffects(h, t, e)
  {
  }

  lemma CallEffects(h: Handler, e: Event)
    requires e.CallAdd? || e.CallErase? || e.CallConnect?
    ensures Effects(h, Step(h, e), e)
  {
    assert h.queue + [] == h.queue;
    SameMap(h, Step(h, e), e);
    hide MapEffects;
  }

  lemma ShutdownCallEffects(h: Handler)
    requires Inv(h)
    ensures Effects(h, ShutdownCall(h), Shutdown)
  {
    hide SlotKept, Holders;
    assert h.queue + [] == h.queue;
    SameMap(h, ShutdownCall(h), Shutdown);
    hide MapEffects;
  }

  lemma InnerEffects(h: Handler, name: Name, e: V.Event)
    requires Enabled(h, Inner(name, e))
    ensures Effects(h, InnerStep(h, name, e), Inner(name, e))
  {
    hide V.Step, V.Enabled;
    assert InnerStep(h, name, e).services.Keys == h.services.Keys;
    assert h.queue + [] == h.queue;
  }

  lemma AddEffects(h: Handler, name: Name)
    requires h.queue != [] && h.queue[0] == AddClosure(name)
    ensures Effects(h, RunFirstStep(h), RunFirst)
  {
    hide V.INITIAL;
    assert h.queue[1..] + [] == h.queue[1..];
  }

  lemma StepsOfService(s: V.Service)
    ensures V.Enabled(s, V.Shutdown) && V.Step(s, V.Shutdown) == V.ShutdownCall(s)
    ensures V.Enabled(s, V.CallConnect) && V.Step(s, V.CallConnect) == V.Dispatch(s, V.ConnectClosure)
  {
    hide V.ShutdownCall, V.Dispatch;
  }

  lemma EraseMap(h: Handler, name: Name)
    requires h.queue != [] && h.queue[0] == EraseClosure(name)
    ensures MapEffects(h, RunFirstStep(h), RunFirst) && RunFirstStep(h).services.Keys == h.services.Keys
  {
    hide V.ShutdownCall, V.Step, V.Enabled, V.INITIAL;
    if name in h.services {
      StepsOfService(h.services[name].service);
    }
    assert RunFirstStep(h).services.Keys == h.services.Keys;
  }

  lemma EraseEffects(h: Handler, name: Name)
    requires h.queue != [] && h.queue[0] == EraseClosure(name)
    ensures Effects(h, RunFirstStep(h), RunFirst)
  {
    hide MapEffects, V.ShutdownCall, V.Dispatch;
    EraseMap(h, name);
    assert h.queue[1..] + [] == h.queue[1..];
    assert h.services == map[] <==> h.services.Keys == {};
    assert RunFirstStep(h).services == map[] <==> RunFirstStep(h).services.Keys == {};
  }

  lemma ConnectMap(h: Handler, name: Name)
    requires h.queue != [] && h.queue[0] == ConnectClosure(name)
    ensures MapEffects(h, RunFirstStep(h), RunFirst) && RunFirstStep(h).services.Keys == h.services.Keys
  {
    hide V.Dispatch, V.Step, V.Enabled, V.INITIAL;
    if name in h.services {
      StepsOfService(h.services[name].service);
    }
    assert RunFirstStep(h).services.Keys == h.services.Keys;
  }

  lemma ConnectEffects(h: Handler, name: Name)
    requires h.queue != [] && h.queue[0] == ConnectClosure(name)
    ensures Effects(h, RunFirstStep(h), RunFirst)
  {
    hide MapEffects, V.ShutdownCall, V.Dispatch;
    ConnectMap(h, name);
    assert h.queue[1..] + [] == h.queue[1..];
    assert h.services == map[] <==> h.services.Keys == {};
    assert RunFirstStep(h).services == map[] <==> RunFirstStep(h).services.Keys == {};
  }

  lemma ShutdownServices(h: Handler)
    requires h.queue != [] && h.queue[0] == ShutdownClosure
    ensures RunFirstStep(h).services == AllShutdown(h.services)
    ensures AllShutdown(h.services).Keys == h.services.Keys
  {
    hide V.ShutdownCall;
    assert AllShutdown(h.services).Keys == h.services.Keys;
    assert h.services == map[] ==> AllShutdown(h.services) == map[];
  }

  lemma ShutdownAlong(h: Handler, t: Handler, e: Event, name: Name)
    requires name in h.services && RunsFirst(h, e, ShutdownClosure) && t.services == AllShutdown(h.services)
    ensures StepsAlong(h, t, e, name) && t.services[name].callback == h.services[name].callback
  {
    hide V.ShutdownCall, V.Step, V.Enabled;
    StepsOfService(h.services[name].service);
  }

  lemma ShutdownMap(h: Handler)
    requires h.queue != [] && h.queue[0] == ShutdownClosure
    ensures MapEffects(h, RunFirstStep(h), RunFirst) && RunFirstStep(h).services.Keys == h.services.Keys
  {
    hide RunFirstStep, StepsAlong, AllShutdown, V.INITIAL, V.ShutdownCall;
    ShutdownServices(h);
    forall name | name in h.services
      ensures StepsAlong(h, RunFirstStep(h), RunFirst, name)
      ensures RunFirstStep(h).services[name].callback == h.services[name].callback
    {
      ShutdownAlong(h, RunFirstStep(h), RunFirst, name);
    }
  }

  lemma ShutdownEffects(h: Handler)
    requires Inv(h) && h.queue != [] && h.queue[0] == ShutdownClosure
    ensures Effects(h, RunFirstStep(h), RunFirst)
  {
    hide V.ShutdownCall, AllShutdown, SlotsKept, DropsKept, Holders, MapEffects;
    ShutdownMap(h);
    assert h.services == map[] <==> h.services.Keys == {};
    assert RunFirstStep(h).services == map[] <==> RunFirstStep(h).services.Keys == {};
    assert h.queue[1..] + [] == h.queue[1..];
    Popped(h.queue);
  }

  lemma DropMap(h: Handler, name: Name)
    requires h.queue != [] && h.queue[0] == DropClosure(name)
    ensures MapEffects(h, RunFirstStep(h), RunFirst)
  {
  }

  lemma DropStrand(h: Handler, name: Name)
    requires Inv(h) && h.queue != [] && h.queue[0] == DropClosure(name)
    ensures StrandEffects(h, RunFirstStep(h), RunFirst)
  {
    hide SlotsKept, DropsKept, Holders;
    assert h.queue[1..] + [] == h.queue[1..];
  }

  lemma DropEffects(h: Handler, name: Name)
    requires Inv(h) && h.queue != [] && h.queue[0] == DropClosure(name)
    ensures Effects(h, RunFirstStep(h), RunFirst)
  {
    hide Inv, RunFirstStep, StrandEffects, MapEffects;
    DropMap(h, name);
    DropStrand(h, name);
  }

  /** Every step has exactly the effects of its equations. */
  lemma StepEffects(h: Handler, e: Event)
    requires Inv(h) && Enabled(h, e)
    ensures Effects(h, Step(h, e), e)
  {
    hide Inv, Effects, InnerStep, RunFirstStep, ShutdownCall, Dispatch;
    match e
    case RunFirst => FirstEffects(h);
    case Inner(name, own) => InnerEffects(h, name, own);
    case Shutdown => ShutdownCallEffects(h);
    case _ => CallEffects(h, e);
  }

  lemma FirstEffects(h: Handler)
    requires Inv(h) && h.queue != []
    ensures Effects(h, RunFirstStep(h), RunFirst)
  {
    hide Inv, Effects, RunFirstStep;
    match h.queue[0]
    case AddClosure(name) => AddEffects(h, name);
    case EraseClosure(name) => EraseEffects(h, name);
    case ConnectClosure(name) => ConnectEffects(h, name);
    case ShutdownClosure => ShutdownEffects(h);
    case DropClosure(name) => DropEffects(h, name);
  }

  // ---- whole runs ----

  ghost predicate StaysIn(h: Handler, run: Run, name: Name)
    requires Possible(h, run)
    decreases run
  {
    name in h.services && (run.Then? ==> StaysIn(Step(h, run.event), run.rest, name))
  }

  /** The part of the handler's run that one service takes part in. */
  ghost function OwnRun(h: Handler, run: Run, name: Name): V.Run
    requires Possible(h, run)
    decreases run
  {
    if run.End? then V.End
    else
      var own := OwnEvent(h, run.event, name);
      var rest := OwnRun(Step(h, run.event), run.rest, name);
      if own == [] then rest else V.Then(own[0], rest)
  }

  lemma AlongStep(h: Handler, e: Event, name: Name)
    requires Inv(h) && Enabled(h, e) && name in h.services && name in Step(h, e).services
    ensures StepsAlong(h, Step(h, e), e, name)
  {
    hide Inv, Step, Enabled, StrandEffects, StepsAlong;
    StepEffects(h, e);
  }

  /** Every run of the handler is a run of each of its services, for as long as it stays in the map. */
  lemma {:induction false} ServicesRunInside(h: Handler, run: Run, name: Name)
    requires Inv(h) && Possible(h, run) && StaysIn(h, run, name)
    ensures name in Exec(h, run).services
    ensures var own := OwnRun(h, run, name);
            V.Possible(h.services[name].service, own)
            && Exec(h, run).services[name].service == V.Exec(h.services[name].service, own)
    decreases run
  {
    hide Inv, Step, Enabled, V.Step, V.Enabled, StepsAlong;
    if run.Then? {
      AlongStep(h, run.event, name);
      StepKeepsInv(h, run.event);
      ServicesRunInside(Step(h, run.event), run.rest, name);
      AlongMeans(h, Step(h, run.event), run.event, name);
    }
  }

  lemma AlongMeans(h: Handler, t: Handler, e: Event, name: Name)
    requires StepsAlong(h, t, e, name)
    ensures var own := OwnEvent(h, e, name);
            var s, u := h.services[name].service, t.services[name].service;
            if own == [] then u == s else V.Enabled(s, own[0]) && u == V.Step(s, own[0])
  {
    hide V.Step, V.Enabled;
  }

  // ---- no choice ----

  lemma SlotAgrees(h: Handler, t: Handler, u: Handler, e: Event, name: Name)
    requires Inv(t) && Inv(u) && MapEffects(h, t, e) && MapEffects(h, u, e) && name in t.services && t.queue == u.queue
    ensures name in u.services && t.services[name] == u.services[name]
  {
    hide SlotKept, LocksKept, V.Step, V.Enabled, V.INITIAL, EnteredBy, ErasedBy, RunsFirst;
    if name in h.services {
      assert StepsAlong(h, t, e, name) && StepsAlong(h, u, e, name);
    }
    assert multiset(t.queue)[DropClosure(name)] == multiset(u.queue)[DropClosure(name)];
  }

  lemma QueuesAgree(h: Handler, t: Handler, u: Handler, e: Event)
    requires Enabled(h, e) && Effects(h, t, e) && Effects(h, u, e)
    ensures t.queue == u.queue
  {
    hide V.Step, V.Enabled, V.INITIAL;
    if e.Inner? {
      assert StepsAlong(h, t, e, e.name) && StepsAlong(h, u, e, e.name);
    }
  }

  lemma KeysAgree(h: Handler, t: Handler, u: Handler, e: Event)
    requires MapEffects(h, t, e) && MapEffects(h, u, e)
    ensures t.services.Keys == u.services.Keys
  {
  }

  lemma RestAgrees(h: Handler, t: Handler, u: Handler, e: Event)
    requires Inv(t) && Inv(u) && StrandEffects(h, t, e) && StrandEffects(h, u, e)
    requires t.queue == u.queue && t.services == u.services
    ensures t == u
  {
    hide SlotsKept, DropsKept, Holders;
  }

  /** The equations and the invariant leave no choice: they name one next state. */
  lemma EffectsDetermine(h: Handler, t: Handler, u: Handler, e: Event)
    requires Enabled(h, e) && Inv(t) && Inv(u) && Effects(h, t, e) && Effects(h, u, e)
    ensures t == u
  {
    hide Inv, Enabled, StrandEffects, MapEffects;
    QueuesAgree(h, t, u, e);
    KeysAgree(h, t, u, e);
    forall name | name in t.services ensures name in u.services && t.services[name] == u.services[name] {
      SlotAgrees(h, t, u, e, name);
    }
    assert t.services == u.services;
    RestAgrees(h, t, u, e);
  }
}
