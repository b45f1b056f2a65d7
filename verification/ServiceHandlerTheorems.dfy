/** What holds of whole runs of the service handler. */
module ServiceHandlerTheorems {
  import HandlerLocks
  import V = WsServiceModel
  import VI = WsServiceInvariants
  import VT = WsServiceTheorems
  import opened ServiceHandlerModel
  import opened ServiceHandlerInvariants

  // ---- children before parents ----

  /** The closure that erases a service is the next to run. */
  predicate DropsNext(h: Handler, name: Name) {
    h.queue != [] && h.queue[0] == DropClosure(name)
  }

  lemma OnlyDropRemoves(h: Handler, e: Event, name: Name)
    requires Enabled(h, e) && name in h.services && name !in Step(h, e).services
    ensures e.RunFirst? && DropsNext(h, name)
  {
    hide V.Step, V.Enabled, V.ShutdownCall, V.Dispatch;
  }

  /**
   A service leaves the map only after it gave up its last lock: its shutdown has
   finished, without error and once, with no session and no closure left.
   */
  lemma ChildrenFirst(run: Run, e: Event, name: Name)
    requires Possible(INITIAL, run) && Enabled(Exec(INITIAL, run), e)
    requires name in Exec(INITIAL, run).services && name !in Step(Exec(INITIAL, run), e).services
    ensures var s := Exec(INITIAL, run).services[name].service;
            && s.locks.count == 0 && s.finishCalls == 1 && s.finishErrors == 0
            && s.sessions == map[] && s.pending == multiset{}
  {
    hide Inv, Step, Enabled, VI.Inv;
    InitialInv();
    RunKeepsInv(INITIAL, run);
    OnlyDropRemoves(Exec(INITIAL, run), e, name);
    DroppedIsDone(Exec(INITIAL, run), name);
  }

  lemma DropQueued(h: Handler, name: Name)
    requires Inv(h) && DropClosure(name) in h.queue
    ensures name in h.services && h.services[name].dropping && multiset(h.queue)[DropClosure(name)] == 1
  {
    hide SlotKept, LocksKept;
    assert DropClosure(name) in multiset(h.queue);
  }

  /** The erase closure of a service finds it done. */
  lemma DroppedIsDone(h: Handler, name: Name)
    requires Inv(h) && DropClosure(name) in h.queue
    ensures name in h.services
    ensures var s := h.services[name].service;
            && s.locks.count == 0 && s.finishCalls == 1 && s.finishErrors == 0
            && s.sessions == map[] && s.pending == multiset{}
  {
    DropQueued(h, name);
    SlotFact(h, name);
    hide VI.SessionsKept, VI.OrderKept, VI.ErasesKept, LocksKept, DropsKept, SlotsKept;
    VT.ZeroMeansDone(h.services[name].service);
  }

  /** Over any run and any repetition of erase_service(): such a closure finds its service, and no other one follows it. */
  lemma DropsFindTheirService(run: Run, name: Name)
    requires Possible(INITIAL, run) && DropsNext(Exec(INITIAL, run), name)
    ensures var h := Exec(INITIAL, run);
            && name in h.services && name !in Step(h, RunFirst).services
            && DropClosure(name) !in Step(h, RunFirst).queue
  {
    hide Exec, Possible, Inv, Holders;
    InitialInv();
    RunKeepsInv(INITIAL, run);
    var h := Exec(INITIAL, run);
    DropQueued(h, name);
    Popped(h.queue);
  }

  // ---- nothing new after finish, and when that fails ----

  /** The handler has given up its locks although a service is in the map. */
  ghost predicate Abandoned(h: Handler) {
    IsFinished(h) && h.services != map[]
  }

  ghost predicate EverAbandoned(h: Handler, run: Run)
    requires Possible(h, run)
    decreases run
  {
    Abandoned(h) || (run.Then? && EverAbandoned(Step(h, run.event), run.rest))
  }

  /** The next step runs a closure of add_service() although the handler has finished. */
  ghost predicate AddsLate(h: Handler, e: Event) {
    e.RunFirst? && h.queue != [] && h.queue[0].AddClosure? && IsFinished(h)
  }

  ghost predicate EverAddsLate(h: Handler, run: Run)
    requires Possible(h, run)
    decreases run
  {
    run.Then? && (AddsLate(h, run.event) || EverAddsLate(Step(h, run.event), run.rest))
  }

  /** Finished without error, and exactly when the shutdown closure has run and the map is empty. */
  ghost predicate Tidy(h: Handler) {
    h.finishErrors == 0 && (IsFinished(h) <==> h.shutdownRan && h.services == map[])
  }

  /** The closures that change neither the locks nor the flag, and keep the names in the map. */
  lemma SameNames(h: Handler, t: Handler)
    requires Tidy(h) && t.services.Keys == h.services.Keys && t.shutdownRan == h.shutdownRan
    requires t.locks.run == h.locks.run && t.locks.shutdown == h.locks.shutdown && t.finishErrors == h.finishErrors
    ensures Tidy(t)
  {
    assert t.services == map[] <==> t.services.Keys == {};
    assert h.services == map[] <==> h.services.Keys == {};
  }

  lemma TidyFirst(h: Handler)
    requires Inv(h) && Tidy(h) && h.queue != [] && !AddsLate(h, RunFirst)
    ensures Tidy(RunFirstStep(h))
  {
    hide Tidy, V.ShutdownCall, V.Dispatch, V.INITIAL, SlotsKept, DropsKept, LocksKept, Drop, ShutdownBody, Add;
    match h.queue[0]
    case AddClosure(name) => TidyAdd(h, name);
    case EraseClosure(name) => SameNames(h, RunFirstStep(h));
    case ConnectClosure(name) => SameNames(h, RunFirstStep(h));
    case ShutdownClosure => TidyShutdown(h);
    case DropClosure(name) => TidyDrop(h, name);
  }

  lemma TidyAdd(h: Handler, name: Name)
    requires Tidy(h) && h.queue != [] && h.queue[0] == AddClosure(name) && !IsFinished(h)
    ensures Tidy(RunFirstStep(h))
  {
    hide V.INITIAL;
    assert name in RunFirstStep(h).services;
  }

  lemma TidyDrop(h: Handler, name: Name)
    requires Inv(h) && Tidy(h) && DropsNext(h, name)
    ensures Tidy(RunFirstStep(h))
  {
    hide SlotKept, Holders;
    DropQueued(h, name);
  }

  lemma TidyShutdown(h: Handler)
    requires Inv(h) && Tidy(h) && h.queue != [] && h.queue[0] == ShutdownClosure
    ensures Tidy(RunFirstStep(h))
  {
    hide V.ShutdownCall, SlotKept, Holders;
    Popped(h.queue);
    assert AllShutdown(h.services).Keys == h.services.Keys;
  }

  lemma TidyStep(h: Handler, e: Event)
    requires Inv(h) && Tidy(h) && Enabled(h, e) && !AddsLate(h, e)
    ensures Tidy(Step(h, e))
  {
    hide Tidy, RunFirstStep, InnerStep, Inv;
    match e
    case RunFirst => TidyFirst(h);
    case Inner(name, own) => TidyInner(h, name, own);
    case Shutdown => TidyShutdownCall(h);
    case _ => SameNames(h, Step(h, e));
  }

  lemma TidyInner(h: Handler, name: Name, own: V.Event)
    requires Tidy(h) && Enabled(h, Inner(name, own))
    ensures Tidy(InnerStep(h, name, own))
  {
    hide V.Step, V.Enabled, Tidy;
    assert InnerStep(h, name, own).services.Keys == h.services.Keys;
    SameNames(h, InnerStep(h, name, own));
  }

  lemma TidyShutdownCall(h: Handler)
    requires Inv(h) && Tidy(h)
    ensures Tidy(ShutdownCall(h))
  {
    hide SlotsKept, DropsKept, Holders;
  }

  lemma LateAddAbandons(h: Handler)
    requires AddsLate(h, RunFirst)
    ensures Abandoned(Step(h, RunFirst))
  {
    hide V.INITIAL;
    assert h.queue[0].name in Step(h, RunFirst).services;
  }

  lemma {:induction false} AbandonedIffAddsLate(h: Handler, run: Run)
    requires Inv(h) && Possible(h, run) && Tidy(h)
    ensures EverAbandoned(h, run) <==> EverAddsLate(h, run)
    decreases run
  {
    hide Inv, Step, Enabled;
    if run.Then? {
      var t := Step(h, run.event);
      StepKeepsInv(h, run.event);
      if AddsLate(h, run.event) {
        LateAddAbandons(h);
        assert EverAbandoned(t, run.rest);
      } else {
        TidyStep(h, run.event);
        AbandonedIffAddsLate(t, run.rest);
      }
    }
  }

  lemma InitialTidy(h: Handler)
    requires h == INITIAL
    ensures Tidy(h)
  {
  }

  /**
   A finished handler has no service in its map, in every state of a run, if and
   only if no closure of add_service() runs after the handler finished.  The code
   does not check for that.
   */
  lemma NothingNewAfterFinish(run: Run)
    requires Possible(INITIAL, run)
    ensures EverAbandoned(INITIAL, run) <==> EverAddsLate(INITIAL, run)
  {
    hide EverAbandoned, EverAddsLate, Possible, Inv;
    InitialInv();
    InitialTidy(INITIAL);
    AbandonedIffAddsLate(INITIAL, run);
  }

  // ---- in terms of the calls ----

  /** No call of add_service() comes after the call of shutdown(). */
  predicate AddsInTime(run: Run, shut: bool) {
    run.Then? ==> !(run.event.CallAdd? && shut) && AddsInTime(run.rest, shut || run.event.Shutdown?)
  }

  /** The strand's order keeps every add closure ahead of the shutdown closure. */
  ghost predicate AddsAhead(h: Handler) {
    !h.locks.run ==> forall i | 0 <= i < |h.queue| && h.queue[i].AddClosure? :: ShutdownClosure in h.queue[i + 1..]
  }

  lemma AheadPushed(q: seq<Closure>, c: Closure)
    requires !c.AddClosure?
    requires forall i | 0 <= i < |q| && q[i].AddClosure? :: ShutdownClosure in q[i + 1..]
    ensures forall i | 0 <= i < |q + [c]| && (q + [c])[i].AddClosure? :: ShutdownClosure in (q + [c])[i + 1..]
  {
    forall i | 0 <= i < |q + [c]| && (q + [c])[i].AddClosure? ensures ShutdownClosure in (q + [c])[i + 1..] {
      assert (q + [c])[i + 1..] == q[i + 1..] + [c];
    }
  }

  lemma AheadOfShutdown(q: seq<Closure>)
    ensures var r := q + [ShutdownClosure];
            forall i | 0 <= i < |r| && r[i].AddClosure? :: ShutdownClosure in r[i + 1..]
  {
    var r := q + [ShutdownClosure];
    forall i | 0 <= i < |r| && r[i].AddClosure? ensures ShutdownClosure in r[i + 1..] {
      assert r[i + 1..][|q| - i - 1] == ShutdownClosure;
    }
  }

  lemma AheadPopped(q: seq<Closure>)
    requires q != [] && forall i | 0 <= i < |q| && q[i].AddClosure? :: ShutdownClosure in q[i + 1..]
    ensures var r := q[1..]; forall i | 0 <= i < |r| && r[i].AddClosure? :: ShutdownClosure in r[i + 1..]
  {
    var r := q[1..];
    forall i | 0 <= i < |r| && r[i].AddClosure? ensures ShutdownClosure in r[i + 1..] {
      assert r[i + 1..] == q[i + 2..] && q[i + 1].AddClosure?;
    }
  }

  /** What the closures leave of the queue and the run lock. */
  lemma FirstQueue(h: Handler)
    requires h.queue != []
    ensures RunFirstStep(h).queue == h.queue[1..] && RunFirstStep(h).locks.run == h.locks.run
  {
    hide V.ShutdownCall, V.Dispatch, V.INITIAL, AllShutdown;
  }

  lemma AheadStep(h: Handler, e: Event)
    requires Inv(h) && AddsAhead(h) && Enabled(h, e) && !(e.CallAdd? && !h.locks.run)
    ensures AddsAhead(Step(h, e))
    ensures Step(h, e).locks.run == (h.locks.run && !e.Shutdown?)
  {
    hide SlotsKept, DropsKept, Holders, RunFirstStep, V.Step, V.Enabled;
    match e
    case RunFirst =>
      FirstQueue(h);
      if !h.locks.run {
        AheadPopped(h.queue);
      }
    case Shutdown => AheadOfShutdown(h.queue);
    case Inner(name, _) =>
      if !h.locks.run {
        AheadPushed(h.queue, DropClosure(name));
      }
    case CallErase(name) =>
      if !h.locks.run {
        AheadPushed(h.queue, EraseClosure(name));
      }
    case CallConnect(name) =>
      if !h.locks.run {
        AheadPushed(h.queue, ConnectClosure(name));
      }
    case CallAdd(_) =>
  }

  /** A finished handler's shutdown closure has run, so no add closure can be ahead of it. */
  lemma AheadIsNotLate(h: Handler, e: Event)
    requires Inv(h) && Tidy(h) && AddsAhead(h)
    ensures !AddsLate(h, e)
  {
    hide SlotsKept, DropsKept, Holders;
    if !h.locks.run && h.queue != [] && h.queue[0].AddClosure? {
      assert ShutdownClosure in h.queue[1..];
      assert ShutdownClosure in multiset(h.queue);
      assert !h.shutdownRan;
    }
  }

  lemma {:induction false} InTimeIsNotLate(h: Handler, run: Run)
    requires Inv(h) && Tidy(h) && AddsAhead(h) && Possible(h, run) && AddsInTime(run, !h.locks.run)
    ensures !EverAddsLate(h, run)
    decreases run
  {
    hide Inv, Tidy, AddsAhead, AddsLate, Step, Enabled;
    if run.Then? {
      AheadIsNotLate(h, run.event);
      TidyStep(h, run.event);
      AheadStep(h, run.event);
      StepKeepsInv(h, run.event);
      InTimeIsNotLate(Step(h, run.event), run.rest);
    }
  }

  lemma InitialAhead(h: Handler)
    requires h == INITIAL
    ensures AddsAhead(h) && h.locks.run
  {
  }

  /** If every call of add_service() comes before that of shutdown(), the handler is never abandoned. */
  lemma AddsBeforeShutdown(run: Run)
    requires Possible(INITIAL, run) && AddsInTime(run, false)
    ensures !EverAbandoned(INITIAL, run)
  {
    hide EverAbandoned, EverAddsLate, Possible, Inv, Tidy, AddsAhead, AddsInTime, INITIAL;
    InitialInv();
    InitialTidy(INITIAL);
    InitialAhead(INITIAL);
    InTimeIsNotLate(INITIAL, run);
    NothingNewAfterFinish(run);
  }

  /** The strand runs n closures. */
  function Flush(n: nat): Run {
    if n == 0 then End else Then(RunFirst, Flush(n - 1))
  }

  /** No service is in the map, and none is on its way. */
  ghost predicate Vacant(h: Handler) {
    h.services == map[] && forall c <- h.queue :: !c.AddClosure? && !c.DropClosure?
  }

  lemma VacantFirst(h: Handler, rest: seq<Closure>, last: Closure)
    requires Inv(h) && h.services == map[] && h.queue == rest + [last] && rest != []
    requires forall c <- rest :: !c.AddClosure? && !c.DropClosure?
    ensures RunFirstStep(h).services == map[] && RunFirstStep(h).queue == rest[1..] + [last]
    ensures RunFirstStep(h).locks.run == h.locks.run
  {
    hide Inv;
    assert h.queue[0] == rest[0];
    assert h.queue[1..] == rest[1..] + [last];
  }

  lemma {:induction false} FlushVacant(h: Handler, rest: seq<Closure>, name: Name)
    requires Inv(h) && Tidy(h) && h.services == map[] && h.queue == rest + [AddClosure(name)]
    requires forall c <- rest :: !c.AddClosure? && !c.DropClosure?
    ensures var run := Flush(|rest| + 1);
            && Possible(h, run)
            && Exec(h, run).services.Keys == {name} && Exec(h, run).queue == []
            && Exec(h, run).locks.run == h.locks.run
            && (Abandoned(Exec(h, run)) <==> HandlerLocks.IsShutdown(h.locks))
    decreases |rest|
  {
    hide Tidy, Inv;
    if rest == [] {
      LastAdd(h, name);
      assert Flush(1).rest == End;
    } else {
      hide RunFirstStep, Abandoned;
      var t := Step(h, RunFirst);
      assert h.queue[0] == rest[0] && !AddsLate(h, RunFirst);
      VacantFirst(h, rest, AddClosure(name));
      StepKeepsInv(h, RunFirst);
      TidyStep(h, RunFirst);
      FlushVacant(t, rest[1..], name);
      assert Flush(|rest| + 1) == Then(RunFirst, Flush(|rest|));
    }
  }

  lemma LastAdd(h: Handler, name: Name)
    requires Inv(h) && Tidy(h) && h.services == map[] && h.queue == [AddClosure(name)]
    ensures var t := RunFirstStep(h);
            && t.services.Keys == {name} && t.queue == [] && t.locks.run == h.locks.run
            && (Abandoned(t) <==> HandlerLocks.IsShutdown(h.locks))
  {
    hide V.INITIAL, SlotsKept, DropsKept, Holders;
    var t := RunFirstStep(h);
    assert multiset(h.queue)[ShutdownClosure] == 0;
    assert t.services.Keys == {name};
    assert name in t.services;
  }

  /**
   What add_service() does to a handler without services, for the closures it finds
   on the strand: the service ends up in the map of a handler that has given up its
   locks exactly if is_shutdown() holds when add_service() is called.
   */
  lemma AddAbandonsIff(h: Handler, name: Name)
    requires Inv(h) && Tidy(h) && Vacant(h) && h.locks.count != 0
    ensures var run := Then(CallAdd(name), Flush(|h.queue| + 1));
            && Possible(h, run)
            && Exec(h, run).services.Keys == {name}
            && (Abandoned(Exec(h, run)) <==> HandlerLocks.IsShutdown(h.locks))
  {
    var t := Step(h, CallAdd(name));
    assert t.services == h.services && t.locks.run == h.locks.run && t.queue == h.queue + [AddClosure(name)];
    hide Inv, Tidy, Abandoned, Step, Enabled;
    assert Enabled(h, CallAdd(name)) && !AddsLate(h, CallAdd(name)) by { CanCall(h, name); }
    StepKeepsInv(h, CallAdd(name));
    TidyStep(h, CallAdd(name));
    FlushVacant(t, h.queue, name);
    Prepend(h, CallAdd(name), Flush(|h.queue| + 1));
  }

  lemma CanCall(h: Handler, name: Name)
    ensures Enabled(h, CallAdd(name))
  {
  }

  lemma Prepend(h: Handler, e: Event, rest: Run)
    requires Enabled(h, e) && Possible(Step(h, e), rest)
    ensures Possible(h, Then(e, rest)) && Exec(h, Then(e, rest)) == Exec(Step(h, e), rest)
  {
    hide Step, Enabled;
  }

  /** So a run that calls shutdown() and then add_service() ends with the service in a finished handler's map. */
  lemma AddServiceAfterFinish(h: Handler, name: Name) returns (run: Run)
    requires h == INITIAL
    ensures Possible(h, run) && !AddsInTime(run, false)
    ensures Abandoned(Exec(h, run))
  {
    hide Inv, Tidy, Vacant, Step, Enabled, INITIAL, Abandoned, Possible, Exec, AddsLate, HandlerLocks.IsShutdown;
    ShutFresh(h);
    InitialInv();
    InitialTidy(h);
    StepKeepsInv(h, Shutdown);
    TidyStep(h, Shutdown);
    AddAbandonsIff(Step(h, Shutdown), name);
    run := Then(Shutdown, Then(CallAdd(name), Flush(2)));
    Prepend(h, Shutdown, run.rest);
  }

  lemma ShutFresh(h: Handler)
    requires h == INITIAL
    ensures Enabled(h, Shutdown) && !AddsLate(h, Shutdown)
    ensures var t := Step(h, Shutdown);
            Vacant(t) && |t.queue| == 1 && t.locks.count != 0 && HandlerLocks.IsShutdown(t.locks)
  {
    assert Step(h, Shutdown).queue == [ShutdownClosure];
  }

  // ---- finish ----

  lemma {:induction false} TidyRun(h: Handler, run: Run)
    requires Inv(h) && Possible(h, run) && Tidy(h) && !EverAddsLate(h, run)
    ensures Tidy(Exec(h, run))
    decreases run
  {
    hide Inv, Step, Enabled, Tidy;
    if run.Then? {
      StepKeepsInv(h, run.event);
      TidyStep(h, run.event);
      TidyRun(Step(h, run.event), run.rest);
    }
  }

  lemma TidyCounts(h: Handler)
    requires Inv(h) && Tidy(h)
    ensures h.finishErrors == 0 && h.finishCalls == if h.shutdownRan && h.services == map[] then 1 else 0
  {
    hide SlotsKept, DropsKept, Holders;
  }

  lemma TidyEnd(run: Run)
    requires Possible(INITIAL, run) && !EverAddsLate(INITIAL, run)
    ensures Inv(Exec(INITIAL, run)) && Tidy(Exec(INITIAL, run))
  {
    hide EverAddsLate, Possible, Inv, Tidy, Exec, INITIAL;
    InitialInv();
    InitialTidy(INITIAL);
    TidyRun(INITIAL, run);
    RunKeepsInv(INITIAL, run);
  }

  /**
   Without such an add, shutdown_finished() is called at most once, never in error,
   and has been called exactly when the shutdown closure has run and all services
   are erased.
   */
  lemma FinishOnce(run: Run)
    requires Possible(INITIAL, run) && !EverAddsLate(INITIAL, run)
    ensures var end := Exec(INITIAL, run);
            && end.finishErrors == 0
            && end.finishCalls == (if end.shutdownRan && end.services == map[] then 1 else 0)
  {
    hide EverAddsLate, Possible, Inv, Tidy, Exec, INITIAL;
    TidyEnd(run);
    TidyCounts(Exec(INITIAL, run));
  }

  /**
   The closure that erases a service takes no lock of the handler.  Without a late
   add it needs none: while one is under way, the handler still holds its own.
   */
  lemma DropHoldsHandler(run: Run, name: Name)
    requires Possible(INITIAL, run) && !EverAddsLate(INITIAL, run)
    requires DropClosure(name) in Exec(INITIAL, run).queue
    ensures HandlerLocks.Own(Exec(INITIAL, run).locks) == 1 && Exec(INITIAL, run).locks.count > 0
  {
    hide EverAddsLate, Possible, Exec, INITIAL;
    TidyEnd(run);
    DropQueued(Exec(INITIAL, run), name);
    NotFinishedOwns(Exec(INITIAL, run), name);
  }

  lemma NotFinishedOwns(h: Handler, name: Name)
    requires Inv(h) && Tidy(h) && name in h.services
    ensures HandlerLocks.Own(h.locks) == 1 && h.locks.count > 0
  {
    hide SlotsKept, DropsKept, Holders;
  }

  /** A service that was erased on time is done when its own shutdown closure has run. */
  lemma AskedServiceDrops(h: Handler, name: Name)
    requires name in h.services && h.services[name] == Slot(V.ShutdownCall(V.INITIAL), true, false)
    ensures Enabled(h, Inner(name, V.RunShutdown))
    ensures var t := Step(h, Inner(name, V.RunShutdown));
            t.queue == h.queue + [DropClosure(name)] && t.locks == h.locks
  {
    hide V.Step, V.Enabled, V.ShutdownCall, V.INITIAL;
    IdleServiceFinishes();
  }

  /** After a late add it does: the handler has no lock left while the service's erase closure is under way. */
  lemma DropWithoutLock(h: Handler, name: Name) returns (run: Run)
    requires h == INITIAL
    ensures Possible(h, run)
    ensures DropClosure(name) in Exec(h, run).queue && Exec(h, run).locks.count == 0
  {
    var h3, h4, h5, h6 := LateErase(h, name);
    hide V.INITIAL, V.ShutdownCall;
    AskedServiceDrops(h6, name);
    var r6 := Then(Inner(name, V.RunShutdown), End);
    hide V.Step, V.Enabled;
    assert Possible(h6, r6) && Exec(h6, r6) == Step(h6, r6.event) by { hide Step, Enabled; }
    assert h6.queue + [DropClosure(name)] == [DropClosure(name)];
    hide Step, Enabled, Possible, Exec, INITIAL;
    Prepend(h5, RunFirst, r6);
    Prepend(h4, RunFirst, Then(RunFirst, r6));
    Prepend(h3, RunFirst, Then(RunFirst, Then(RunFirst, r6)));
    run := LateCalls(h, name, h3, Then(RunFirst, Then(RunFirst, Then(RunFirst, r6))));
  }

  lemma LateCalls(h: Handler, name: Name, h3: Handler, rest: Run) returns (run: Run)
    requires Possible(h3, rest) && h3 == Step(Step(Step(h, Shutdown), CallAdd(name)), CallErase(name))
    ensures Possible(h, run) && Exec(h, run) == Exec(h3, rest)
  {
    var h1 := Step(h, Shutdown);
    var h2 := Step(h1, CallAdd(name));
    assert Enabled(h, Shutdown) && Enabled(h1, CallAdd(name)) && Enabled(h2, CallErase(name));
    hide Step, Enabled, Possible, Exec;
    Prepend(h2, CallErase(name), rest);
    Prepend(h1, CallAdd(name), Then(CallErase(name), rest));
    Prepend(h, Shutdown, Then(CallAdd(name), Then(CallErase(name), rest)));
    run := Then(Shutdown, Then(CallAdd(name), Then(CallErase(name), rest)));
  }

  lemma LateErase(h: Handler, name: Name) returns (h3: Handler, h4: Handler, h5: Handler, h6: Handler)
    requires h == INITIAL
    ensures h3 == Step(Step(Step(h, Shutdown), CallAdd(name)), CallErase(name))
    ensures Enabled(h3, RunFirst) && h4 == Step(h3, RunFirst)
    ensures Enabled(h4, RunFirst) && h5 == Step(h4, RunFirst)
    ensures Enabled(h5, RunFirst) && h6 == Step(h5, RunFirst)
    ensures h6.queue == [] && h6.locks.count == 0
    ensures name in h6.services && h6.services[name] == Slot(V.ShutdownCall(V.INITIAL), true, false)
  {
    hide V.INITIAL, V.ShutdownCall;
    var h1 := Step(h, Shutdown);
    assert h1.queue == [ShutdownClosure];
    var h2 := Step(h1, CallAdd(name));
    assert h2.queue == [ShutdownClosure, AddClosure(name)];
    h3 := Step(h2, CallErase(name));
    assert h3.queue == [ShutdownClosure, AddClosure(name), EraseClosure(name)];
    h4 := Step(h3, RunFirst);
    assert h4.queue == [AddClosure(name), EraseClosure(name)] && h4.locks.count == 2;
    h5 := Step(h4, RunFirst);
    assert h5.queue == [EraseClosure(name)] && h5.locks.count == 1;
    h6 := Step(h5, RunFirst);
  }

  // ---- services that can never be erased ----

  /** A service that gave up its last lock without a callback. */
  ghost predicate Stranded(h: Handler, name: Name) {
    name in h.services && h.services[name].service.locks.count == 0 && !h.services[name].dropping
  }

  ghost predicate EverStranded(h: Handler, run: Run, name: Name)
    requires Possible(h, run)
    decreases run
  {
    Stranded(h, name) || (run.Then? && EverStranded(Step(h, run.event), run.rest, name))
  }

  /** Whether a closure of erase_service() has met the service now in the map. */
  predicate Asked(h: Handler, e: Event, name: Name, asked: bool)
    requires Enabled(h, e)
  {
    && name in h.services && name in Step(h, e).services
    && (asked || (e.RunFirst? && h.queue[0] == EraseClosure(name)))
  }

  /** The service gives up its last lock in this step. */
  predicate Drains(h: Handler, e: Event, name: Name)
    requires Enabled(h, e)
  {
    && e.Inner? && e.name == name
    && h.services[name].service.locks.count != 0
    && V.Step(h.services[name].service, e.e).locks.count == 0
  }

  ghost predicate EverDrainsUnasked(h: Handler, run: Run, name: Name, asked: bool)
    requires Possible(h, run)
    decreases run
  {
    run.Then? &&
    ((Drains(h, run.event, name) && !asked)
     || EverDrainsUnasked(Step(h, run.event), run.rest, name, Asked(h, run.event, name, asked)))
  }

  /** erase_service() has come so far exactly if the callback is set. */
  ghost predicate CallbackIs(h: Handler, name: Name, asked: bool) {
    name in h.services ==> h.services[name].callback == asked
  }

  /** What one step does to one service that is not stranded. */
  ghost predicate Follows(h: Handler, t: Handler, name: Name, drainsUnasked: bool, asked: bool) {
    && (Stranded(t, name) <==> drainsUnasked)
    && CallbackIs(t, name, asked)
  }

  lemma FollowInner(h: Handler, n: Name, own: V.Event, name: Name, asked: bool)
    requires Inv(h) && !Stranded(h, name) && CallbackIs(h, name, asked) && Enabled(h, Inner(n, own))
    ensures Follows(h, InnerStep(h, n, own), name, Drains(h, Inner(n, own), name) && !asked, asked)
  {
    hide Inv, VI.Inv, V.Step, V.Enabled;
    SlotFact(h, n);
    ServiceStep(h.services[n].service, own);
  }

  // Closures move a service without taking its last lock.

  lemma FollowAdd(h: Handler, n: Name, name: Name, asked: bool)
    requires Inv(h) && !Stranded(h, name) && CallbackIs(h, name, asked) && h.queue != [] && h.queue[0] == AddClosure(n)
    ensures Follows(h, RunFirstStep(h), name, false, Asked(h, RunFirst, name, asked))
  {
    hide Inv, V.INITIAL;
    NewSlot();
  }

  lemma FollowErase(h: Handler, n: Name, name: Name, asked: bool)
    requires Inv(h) && !Stranded(h, name) && CallbackIs(h, name, asked) && h.queue != [] && h.queue[0] == EraseClosure(n)
    ensures Follows(h, RunFirstStep(h), name, false, Asked(h, RunFirst, name, asked))
  {
    hide Inv, VI.Inv, V.ShutdownCall;
    if n in h.services {
      SlotFact(h, n);
      ServiceShutdown(h.services[n].service);
    }
  }

  lemma FollowConnect(h: Handler, n: Name, name: Name, asked: bool)
    requires Inv(h) && !Stranded(h, name) && CallbackIs(h, name, asked) && h.queue != [] && h.queue[0] == ConnectClosure(n)
    ensures Follows(h, RunFirstStep(h), name, false, Asked(h, RunFirst, name, asked))
  {
    hide Inv, VI.Inv, V.Dispatch;
    if n in h.services {
      SlotFact(h, n);
      ServiceConnect(h.services[n].service);
    }
  }

  lemma FollowShutdown(h: Handler, name: Name, asked: bool)
    requires Inv(h) && !Stranded(h, name) && CallbackIs(h, name, asked) && h.queue != [] && h.queue[0] == ShutdownClosure
    ensures Follows(h, RunFirstStep(h), name, false, Asked(h, RunFirst, name, asked))
  {
    hide Inv, VI.Inv, V.ShutdownCall;
    if name in h.services {
      SlotFact(h, name);
      ServiceShutdown(h.services[name].service);
    }
  }

  lemma FollowDrop(h: Handler, n: Name, name: Name, asked: bool)
    requires !Stranded(h, name) && CallbackIs(h, name, asked) && DropsNext(h, n)
    ensures Follows(h, RunFirstStep(h), name, false, Asked(h, RunFirst, name, asked))
  {
  }

  lemma FollowFirst(h: Handler, name: Name, asked: bool)
    requires Inv(h) && !Stranded(h, name) && CallbackIs(h, name, asked) && h.queue != []
    ensures Follows(h, RunFirstStep(h), name, false, Asked(h, RunFirst, name, asked))
  {
    hide Inv, Stranded, CallbackIs, Follows, Asked, RunFirstStep;
    match h.queue[0]
    case AddClosure(n) => FollowAdd(h, n, name, asked);
    case EraseClosure(n) => FollowErase(h, n, name, asked);
    case ConnectClosure(n) => FollowConnect(h, n, name, asked);
    case ShutdownClosure => FollowShutdown(h, name, asked);
    case DropClosure(n) => FollowDrop(h, n, name, asked);
  }

  lemma FollowStep(h: Handler, e: Event, name: Name, asked: bool)
    requires Inv(h) && !Stranded(h, name) && CallbackIs(h, name, asked) && Enabled(h, e)
    ensures Follows(h, Step(h, e), name, Drains(h, e, name) && !asked, Asked(h, e, name, asked))
  {
    hide Inv, RunFirstStep, InnerStep, V.Step, V.Enabled;
    match e
    case Inner(n, own) =>
      FollowInner(h, n, own, name, asked);
      assert name in h.services <==> name in InnerStep(h, n, own).services by { InnerNames(h, n, own); }
    case RunFirst => FollowFirst(h, name, asked);
    case _ =>
  }

  lemma InnerNames(h: Handler, n: Name, own: V.Event)
    requires Enabled(h, Inner(n, own))
    ensures InnerStep(h, n, own).services.Keys == h.services.Keys
  {
    hide V.Step, V.Enabled;
  }

  lemma {:induction false} StrandedIff(h: Handler, run: Run, name: Name, asked: bool)
    requires Inv(h) && Possible(h, run) && !Stranded(h, name) && CallbackIs(h, name, asked)
    ensures EverStranded(h, run, name) <==> EverDrainsUnasked(h, run, name, asked)
    decreases run
  {
    hide Inv, Step, Enabled, Stranded, CallbackIs, Drains, Asked;
    if run.Then? {
      FollowStep(h, run.event, name, asked);
      StepKeepsInv(h, run.event);
      if !(Drains(h, run.event, name) && !asked) {
        StrandedIff(Step(h, run.event), run.rest, name, Asked(h, run.event, name, asked));
      } else {
        assert EverStranded(Step(h, run.event), run.rest, name);
      }
    }
  }

  /**
   Over every run: a service is ever stranded if and only if it gives up its last
   lock before a closure of erase_service() has met it.
   */
  lemma StrandedIffDrainsUnasked(run: Run, name: Name)
    requires Possible(INITIAL, run)
    ensures EverStranded(INITIAL, run, name) <==> EverDrainsUnasked(INITIAL, run, name, false)
  {
    hide Inv, Possible, EverStranded, EverDrainsUnasked;
    InitialInv();
    StrandedIff(INITIAL, run, name, false);
  }

  /** What a service without locks looks like after anything the handler does with it. */
  ghost predicate StaysAtZero(s: V.Service) {
    && s.locks.count == 0
    && V.ShutdownCall(s).locks.count == 0
    && V.Dispatch(s, V.ConnectClosure).locks.count == 0
    && forall e | V.Enabled(s, e) :: V.Step(s, e).locks.count == 0
  }

  lemma ZeroServiceStays(s: V.Service)
    requires VI.Inv(s) && s.locks.count == 0
    ensures StaysAtZero(s)
  {
    hide VI.Inv, V.Step, V.Enabled, V.ShutdownCall, V.Dispatch;
    ServiceShutdown(s);
    ServiceConnect(s);
    forall e | V.Enabled(s, e) ensures V.Step(s, e).locks.count == 0 {
      ServiceStep(s, e);
    }
  }

  lemma NotDropping(h: Handler, name: Name)
    requires Inv(h) && Stranded(h, name)
    ensures DropClosure(name) !in h.queue && SlotKept(h.services[name])
  {
    hide SlotKept, LocksKept;
    assert multiset(h.queue)[DropClosure(name)] == 0;
  }

  lemma StrandedStep(h: Handler, e: Event, name: Name)
    requires Inv(h) && Stranded(h, name) && Enabled(h, e) && !IsFinished(h)
    ensures Stranded(Step(h, e), name) && !IsFinished(Step(h, e))
  {
    NotDropping(h, name);
    hide Inv, VI.Inv, V.Enabled, Step, Enabled;
    ZeroServiceStays(h.services[name].service);
    StrandedMove(h, e, name);
  }

  lemma StrandedMove(h: Handler, e: Event, name: Name)
    requires Stranded(h, name) && DropClosure(name) !in h.queue && !IsFinished(h)
    requires StaysAtZero(h.services[name].service) && Enabled(h, e)
    ensures Stranded(Step(h, e), name) && !IsFinished(Step(h, e))
  {
    hide V.Step, V.Enabled, V.ShutdownCall, V.Dispatch, V.INITIAL, RunFirstStep;
    match e
    case Inner(n, own) => StrandedInner(h, n, own, name);
    case RunFirst => StrandedFirst(h, name);
    case _ =>
  }

  lemma StrandedInner(h: Handler, n: Name, own: V.Event, name: Name)
    requires Stranded(h, name) && !IsFinished(h)
    requires StaysAtZero(h.services[name].service) && Enabled(h, Inner(n, own))
    ensures Stranded(InnerStep(h, n, own), name) && !IsFinished(InnerStep(h, n, own))
  {
    hide V.Step, V.Enabled, V.ShutdownCall, V.Dispatch;
  }

  lemma StrandedFirst(h: Handler, name: Name)
    requires Stranded(h, name) && DropClosure(name) !in h.queue && !IsFinished(h) && h.queue != []
    requires StaysAtZero(h.services[name].service)
    ensures Stranded(RunFirstStep(h), name) && !IsFinished(RunFirstStep(h))
  {
    hide V.Step, V.Enabled, V.ShutdownCall, V.Dispatch, V.INITIAL;
    var c := h.queue[0];
    if c.DropClosure? {
      assert c in h.queue && c.name != name;
      assert name in (h.services - {c.name});
    }
  }

  /**
   Such a service stays in the map for good, whatever erase_service() calls follow,
   and the handler never finishes.
   */
  lemma {:induction false} StrandedForever(h: Handler, run: Run, name: Name)
    requires Inv(h) && Possible(h, run) && Stranded(h, name) && !IsFinished(h)
    ensures Stranded(Exec(h, run), name) && !IsFinished(Exec(h, run))
    decreases run
  {
    hide Inv, Step, Enabled, Stranded;
    if run.Then? {
      StrandedStep(h, run.event, name);
      StepKeepsInv(h, run.event);
      StrandedForever(Step(h, run.event), run.rest, name);
    }
  }

  /** It happens to a service that is idle when the handler is shut down. */
  lemma IdleServiceIsStranded(h: Handler, name: Name) returns (run: Run)
    requires h == INITIAL
    ensures Possible(h, run)
    ensures var end := Exec(h, run); end.shutdownRan && Stranded(end, name) && !IsFinished(end)
  {
    var h1, h2, h3, h4 := IdleStates(h, name);
    var r4 := Then(Inner(name, V.RunShutdown), End);
    assert Possible(h4, r4) && Exec(h4, r4) == Step(h4, Inner(name, V.RunShutdown)) by { hide Step, Enabled; }
    hide Step, Enabled, Possible, Exec, INITIAL;
    Prepend(h3, RunFirst, r4);
    Prepend(h2, Shutdown, Then(RunFirst, r4));
    Prepend(h1, RunFirst, Then(Shutdown, Then(RunFirst, r4)));
    run := Then(CallAdd(name), Then(RunFirst, Then(Shutdown, Then(RunFirst, r4))));
    Prepend(h, CallAdd(name), run.rest);
  }

  lemma IdleStates(h: Handler, name: Name) returns (h1: Handler, h2: Handler, h3: Handler, h4: Handler)
    requires h == INITIAL
    ensures Enabled(h, CallAdd(name)) && h1 == Step(h, CallAdd(name))
    ensures Enabled(h1, RunFirst) && h2 == Step(h1, RunFirst)
    ensures Enabled(h2, Shutdown) && h3 == Step(h2, Shutdown)
    ensures Enabled(h3, RunFirst) && h4 == Step(h3, RunFirst)
    ensures Enabled(h4, Inner(name, V.RunShutdown))
    ensures var end := Step(h4, Inner(name, V.RunShutdown)); end.shutdownRan && Stranded(end, name) && !IsFinished(end)
  {
    hide V.Step, V.Enabled, V.ShutdownCall, V.INITIAL;
    h1 := Step(h, CallAdd(name));
    assert h1.queue == [AddClosure(name)];
    h2 := Step(h1, RunFirst);
    assert h2.services == map[name := Slot(V.INITIAL, false, false)] && h2.queue == [];
    h3 := Step(h2, Shutdown);
    assert h3.services == h2.services && h3.queue == [ShutdownClosure];
    h4 := Step(h3, RunFirst);
    IdleShutdown(h3, name);
  }

  lemma IdleShutdown(h: Handler, name: Name)
    requires h.queue == [ShutdownClosure] && name in h.services && !IsFinished(h)
    requires h.services[name] == Slot(V.INITIAL, false, false)
    ensures var u := Step(h, RunFirst);
            && Enabled(u, Inner(name, V.RunShutdown))
            && var end := Step(u, Inner(name, V.RunShutdown));
               end.shutdownRan && Stranded(end, name) && !IsFinished(end)
  {
    hide V.Step, V.Enabled, V.ShutdownCall, V.INITIAL;
    IdleServiceFinishes();
    assert Step(h, RunFirst).services[name] == Slot(V.ShutdownCall(V.INITIAL), false, false);
  }

  lemma IdleServiceFinishes()
    ensures var s := V.ShutdownCall(V.INITIAL);
            V.Enabled(s, V.RunShutdown) && s.locks.count == 2 && V.Step(s, V.RunShutdown).locks.count == 0
  {
  }
}
