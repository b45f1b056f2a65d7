/** What every step of the set of HTTP sessions keeps, and what holds of whole runs. */
module HttpSessionsTheorems {
  import H = HttpSessionModel
  import HT = HttpSessionTheorems
  import opened Outcomes
  import opened HttpSessionsModel

  /** The counts that the two locks hold. */
  function Own(s: Sessions): nat {
    (if s.runLock then 1 else 0) + if s.shutdownLock then 1 else 0
  }

  ghost predicate LocksKept(s: Sessions) {
    && !(s.runLock && s.shutdownLock)
    && s.count == Own(s) + |s.pending|
    && (s.runLock ==> !s.closureRan)
    && s.pending[ShutdownClosure] == (if !s.runLock && !s.closureRan then 1 else 0)
    && (s.emplacing ==> EmplaceClosure in s.pending && Own(s) > 0 && !s.closureRan)
  }

  /** The shutdown lock is given up once, only with the set empty, and at the latest by the closure or the last erase. */
  ghost predicate UnlockKept(s: Sessions) {
    && s.unlocks == (if Own(s) == 0 then 1 else 0)
    && (Own(s) == 0 ==> s.sessions == map[])
    && (s.closureRan && s.sessions == map[] ==> Own(s) == 0)
  }

  ghost predicate ErasesKept(s: Sessions) {
    forall id :: s.pending[EraseClosure(id)] == if id in s.sessions && s.sessions[id].erases > 0 then 1 else 0
  }

  ghost predicate CountsKept(s: Sessions) {
    LocksKept(s) && UnlockKept(s) && ErasesKept(s)
  }

  /** A session that outlives the closure of shutdown() has been closed by it: its socket is shut down, its timer stopped. */
  ghost predicate SessionsKept(s: Sessions) {
    && s.sessions.Keys !! s.gone.Keys
    && (forall id <- s.sessions :: HT.Inv(s.sessions[id]))
    && (forall id <- s.gone :: HT.Inv(s.gone[id]) && s.gone[id].locks == 0)
    && (s.closureRan ==> forall id <- s.sessions :: s.sessions[id].shut && s.sessions[id].waits == 0)
  }

  ghost predicate Inv(s: Sessions) {
    CountsKept(s) && SessionsKept(s)
  }

  lemma InitialInv()
    ensures Inv(INITIAL)
  {
  }

  lemma SetHoldsCount(s: Sessions)
    requires CountsKept(s) && s.sessions != map[]
    ensures s.count > 0 && Own(s) > 0
  {
  }

  lemma CallKeeps(s: Sessions)
    requires Inv(s)
    ensures Inv(Dispatch(s, EmplaceClosure))
  {
    hide HT.Inv;
  }

  lemma CheckKeeps(s: Sessions)
    requires Inv(s) && Enabled(s, CheckEmplace)
    ensures Inv(Step(s, CheckEmplace))
  {
    hide HT.Inv;
  }

  lemma EmplaceKeeps(s: Sessions, id: Id, socketOpen: bool)
    requires Inv(s) && Enabled(s, RunEmplace(id, socketOpen))
    ensures Inv(Step(s, RunEmplace(id, socketOpen)))
  {
    hide HT.Inv, H.Running, CountsKept;
    HT.InitialInv(socketOpen);
    NewSession(socketOpen);
    EmplaceCounts(s, id, H.Running(socketOpen));
    assert Emplace(s, id, socketOpen).sessions.Keys == s.sessions.Keys + {id};
  }

  lemma EmplaceCounts(s: Sessions, id: Id, t: H.Session)
    requires CountsKept(s) && s.emplacing && id !in s.sessions && t.erases == 0
    ensures CountsKept(Done(s.(sessions := s.sessions[id := t], emplacing := false), EmplaceClosure))
    ensures !s.closureRan
  {
  }

  lemma NewSession(socketOpen: bool)
    ensures H.Running(socketOpen).erases == 0
  {
  }

  lemma StaysShut(s: H.Session, e: H.Event)
    requires H.Enabled(s, e) && s.shut
    ensures H.Step(s, e).shut
  {
    match e
    case ReadDone(_) =>
    case WriteDone(_) =>
    case _ =>
  }

  lemma InnerSessionStep(s: H.Session, e: H.Event)
    requires HT.Inv(s) && H.Enabled(s, e) && !e.ForceClose?
    ensures var t := H.Step(s, e);
            HT.Inv(t) && s.erases == 0 && t.erases <= 1 && (s.waits == 0 ==> t.waits == 0) && (s.shut ==> t.shut)
  {
    hide H.Step;
    HT.StepKeepsInv(s, e);
    if s.shut {
      StaysShut(s, e);
    }
    if s.waits == 0 {
      HT.DeadStep(s, e);
    }
  }

  lemma InnerKeeps(s: Sessions, id: Id, e: H.Event)
    requires Inv(s) && Enabled(s, Inner(id, e))
    ensures Inv(InnerStep(s, id, e))
  {
    hide HT.Inv, H.Step, H.Enabled, CountsKept;
    var t := H.Step(s.sessions[id], e);
    InnerSessionStep(s.sessions[id], e);
    InnerCounts(s, id, t);
    assert s.sessions[id := t].Keys == s.sessions.Keys;
  }

  lemma InnerCounts(s: Sessions, id: Id, t: H.Session)
    requires CountsKept(s) && id in s.sessions && s.sessions[id].erases == 0 && t.erases <= 1
    ensures var u := s.(sessions := s.sessions[id := t]);
            CountsKept(if t.erases > 0 then Dispatch(u, EraseClosure(id)) else u)
  {
    SetHoldsCount(s);
    assert s.sessions[id := t].Keys == s.sessions.Keys;
  }

  lemma EraseKeeps(s: Sessions, id: Id)
    requires Inv(s) && Enabled(s, RunErase(id))
    ensures Inv(Step(s, RunErase(id)))
  {
    hide CountsKept;
    EraseCounts(s, id);
    Drained(s.sessions[id]);
    hide HT.Inv;
  }

  lemma Drained(s: H.Session)
    requires HT.Inv(s) && s.erases > 0
    ensures s.locks == 0
  {
  }

  lemma EraseCounts(s: Sessions, id: Id)
    requires CountsKept(s) && Enabled(s, RunErase(id))
    ensures id in s.sessions && s.sessions[id].erases > 0
    ensures CountsKept(Step(s, RunErase(id)))
  {
    SetHoldsCount(s);
    var t := Step(s, RunErase(id));
    assert t.sessions == s.sessions - {id};
    assert t.pending == s.pending - multiset{EraseClosure(id)};
  }

  lemma ShutdownCallKeeps(s: Sessions)
    requires Inv(s)
    ensures Inv(ShutdownCall(s))
  {
    hide HT.Inv;
  }

  lemma ClosedSession(s: H.Session)
    requires HT.Inv(s)
    ensures HT.Inv(H.DoClose(s)) && H.DoClose(s).shut && H.DoClose(s).waits == 0 && H.DoClose(s).erases == s.erases
  {
    HT.StepKeepsInv(s, H.ForceClose);
  }

  lemma ShutdownBodyKeeps(s: Sessions)
    requires Inv(s) && Enabled(s, RunShutdown)
    ensures Inv(Step(s, RunShutdown))
  {
    hide HT.Inv, H.DoClose;
    forall id | id in s.sessions
      ensures HT.Inv(H.DoClose(s.sessions[id])) && H.DoClose(s.sessions[id]).shut && H.DoClose(s.sessions[id]).waits == 0
      ensures H.DoClose(s.sessions[id]).erases == s.sessions[id].erases
    {
      ClosedSession(s.sessions[id]);
    }
    assert CloseAll(s.sessions).Keys == s.sessions.Keys;
    assert s.sessions == map[] <==> s.sessions.Keys == {};
    assert CloseAll(s.sessions) == map[] <==> CloseAll(s.sessions).Keys == {};
  }

  lemma StepKeepsInv(s: Sessions, e: Event)
    requires Inv(s) && Enabled(s, e)
    ensures Inv(Step(s, e))
  {
    hide Inv, Emplace, PassCheck, Erase, InnerStep, ShutdownBody;
    match e
    case CallEmplace => CallKeeps(s);
    case CheckEmplace => CheckKeeps(s);
    case RunEmplace(id, socketOpen) => EmplaceKeeps(s, id, socketOpen);
    case Inner(id, own) => InnerKeeps(s, id, own);
    case RunErase(id) => EraseKeeps(s, id);
    case Shutdown => ShutdownCallKeeps(s);
    case RunShutdown => ShutdownBodyKeeps(s);
  }

  lemma {:induction false} RunKeepsInv(s: Sessions, run: Run)
    requires Inv(s) && Possible(s, run)
    ensures Inv(Exec(s, run))
    decreases run
  {
    hide Inv, Step, Enabled;
    if run.Then? {
      StepKeepsInv(s, run.event);
      RunKeepsInv(Step(s, run.event), run.rest);
    }
  }

  /**
   Over every interleaving: the shutdown lock gives up its count at most once and
   only with the set empty; it has done so whenever the closure has run and the set
   is empty, whichever of the closure and the last erase came first; and every
   session still in the set after the closure has been closed by it.
   */
  lemma ShutdownOnce(run: Run)
    requires Possible(INITIAL, run)
    ensures var end := Exec(INITIAL, run);
            && end.unlocks <= 1
            && (end.unlocks == 1 <==> Own(end) == 0)
            && (end.unlocks == 1 ==> end.sessions == map[] && IsShutdown(end))
            && (end.closureRan && end.sessions == map[] ==> end.unlocks == 1)
            && (end.closureRan ==> forall id <- end.sessions :: end.sessions[id].shut && end.sessions[id].waits == 0)
            && end.count == Own(end) + |end.pending|
  {
    hide HT.Inv, Exec, Possible;
    InitialInv();
    RunKeepsInv(INITIAL, run);
  }

  // ---- entries after shutdown() ----

  /** Every session that ever entered the set. */
  function Known(s: Sessions): set<Id> {
    s.sessions.Keys + s.gone.Keys
  }

  function EnteredBy(e: Event): set<Id> {
    if e.RunEmplace? then {e.id} else {}
  }

  function Entered(run: Run): set<Id> {
    if run.End? then {} else EnteredBy(run.event) + Entered(run.rest)
  }

  /** What a step leaves to say about later entries: is_shutdown(), and whether a closure has passed its check. */
  predicate SameFlags(s: Sessions, t: Sessions) {
    t.runLock == s.runLock && t.emplacing == s.emplacing
  }

  lemma KnownStep(s: Sessions, e: Event)
    requires Enabled(s, e)
    ensures Known(Step(s, e)) == Known(s) + EnteredBy(e)
    ensures e.RunEmplace? ==> s.emplacing
    ensures !s.runLock ==> !Step(s, e).runLock && Step(s, e).emplacing == (s.emplacing && !e.RunEmplace?)
  {
    hide InnerStep, ShutdownBody, Erase, H.Enabled, H.Running;
    match e
    case RunEmplace(id, socketOpen) => KnownPut(s, id, H.Running(socketOpen));
    case Inner(id, own) => KnownInner(s, id, own);
    case RunErase(id) => KnownErased(s, id);
    case RunShutdown => KnownClosed(s);
    case _ =>
  }

  lemma KnownInner(s: Sessions, id: Id, own: H.Event)
    requires Enabled(s, Inner(id, own))
    ensures Known(InnerStep(s, id, own)) == Known(s) && SameFlags(s, InnerStep(s, id, own))
  {
    hide H.Step, H.Enabled;
    KnownPut(s, id, H.Step(s.sessions[id], own));
  }

  lemma KnownErased(s: Sessions, id: Id)
    ensures Known(Erase(s, id)) == Known(s) && SameFlags(s, Erase(s, id))
  {
  }

  lemma KnownPut(s: Sessions, id: Id, t: H.Session)
    ensures s.sessions[id := t].Keys + s.gone.Keys == Known(s) + {id}
  {
  }

  lemma KnownClosed(s: Sessions)
    ensures Known(ShutdownBody(s)) == Known(s) && SameFlags(s, ShutdownBody(s))
  {
    assert CloseAll(s.sessions).Keys == s.sessions.Keys;
  }

  /**
   From the call of shutdown() on, at most one more session enters the set, and only
   if its closure had passed the is_shutdown() check before.
   */
  lemma {:induction false} EntriesAfterShutdown(s: Sessions, run: Run)
    requires Possible(s, run) && !s.runLock
    ensures Known(Exec(s, run)) == Known(s) + Entered(run)
    ensures |Entered(run)| <= 1 && (Entered(run) != {} ==> s.emplacing)
    decreases run
  {
    hide Step, Enabled, Known;
    if run.Then? {
      KnownStep(s, run.event);
      EntriesAfterShutdown(Step(s, run.event), run.rest);
      assert Entered(run) == if run.event.RunEmplace? then {run.event.id} else Entered(run.rest);
    }
  }

  /** And it can enter exactly then. */
  lemma EntersIffPassedCheck(s: Sessions)
    requires !s.runLock
    ensures (exists run :: Possible(s, run) && Entered(run) != {}) <==> s.emplacing
  {
    if s.emplacing {
      var last := LastEntry(s);
      assert Possible(s, last) && Entered(last) != {};
    }
    hide Possible, Entered;
    forall run | Possible(s, run) && Entered(run) != {} ensures s.emplacing {
      EntriesAfterShutdown(s, run);
    }
  }

  lemma LastEntry(s: Sessions) returns (run: Run)
    requires s.emplacing
    ensures Possible(s, run) && Entered(run) != {}
  {
    hide Step;
    var id := UnusedId(Known(s));
    run := Then(RunEmplace(id, true), End);
    assert Entered(run) == {id} + {};
  }

  /** It does happen: shutdown() is called between the check and the rest of the closure. */
  lemma EntryAfterShutdown(h: Sessions) returns (run: Run)
    requires h == INITIAL
    ensures Possible(h, run) && Exec(h, run).emplacing && !Exec(h, run).runLock
  {
    var s1 := Step(h, CallEmplace);
    var s2 := Step(s1, CheckEmplace);
    var r2 := Then(Shutdown, End);
    assert Possible(s2, r2) && Exec(s2, r2) == Step(s2, Shutdown);
    var r1 := Then(CheckEmplace, r2);
    assert Possible(s1, r1) && Exec(s1, r1) == Exec(s2, r2);
    run := Then(CallEmplace, r1);
  }

  /** An erase closure finds its session in the set, drained, and is the only one for it. */
  lemma EraseFindsDrained(s: Sessions, id: Id)
    requires Inv(s) && Enabled(s, RunErase(id))
    ensures id in s.sessions && s.sessions[id].locks == 0 && s.pending[EraseClosure(id)] == 1
    ensures Step(s, RunErase(id)).pending[EraseClosure(id)] == 0
  {
    Drained(s.sessions[id]);
    hide HT.Inv;
  }

  lemma Prepend(s: Sessions, e: Event, rest: Run)
    requires Enabled(s, e) && Possible(Step(s, e), rest)
    ensures Possible(s, Then(e, rest)) && Exec(s, Then(e, rest)) == Exec(Step(s, e), rest)
  {
    hide Step, Enabled;
  }

  /** The erase may win: the last session is erased between shutdown() and its closure, and the closure adds nothing. */
  lemma EraseBeforeClosure(s: Sessions, id: Id)
    requires Inv(s) && s.runLock && Enabled(s, RunErase(id)) && s.sessions.Keys == {id}
    ensures var erased := Step(Step(s, Shutdown), RunErase(id));
            && erased.unlocks == 1 && !erased.closureRan
            && Enabled(erased, RunShutdown)
            && Step(erased, RunShutdown).unlocks == 1
            && Step(erased, RunShutdown).count == erased.count - 1
  {
    hide HT.Inv;
    assert (s.sessions - {id}).Keys == {};
    assert s.sessions - {id} == map[];
  }

  /** The peer ends the connection of a fresh session: one read and two cancelled waits complete. */
  lemma EndedSession(s: H.Session)
    requires s == H.Running(true)
    ensures H.Enabled(s, H.ReadDone(H.ReadEnded))
    ensures var t := H.Step(s, H.ReadDone(H.ReadEnded));
            && t.erases == 0 && H.Enabled(t, H.AbortedTimerHandler)
            && var u := H.Step(t, H.AbortedTimerHandler);
               && u.erases == 0 && H.Enabled(u, H.AbortedTimerHandler)
               && H.Step(u, H.AbortedTimerHandler).erases == 1
    ensures s.erases == 0
  {
  }

  /** One session in the set, and its own steps so far. */
  predicate Single(s: Sessions, t: H.Session) {
    s == INITIAL.(sessions := map[0 := t])
  }

  lemma SingleStep(s: Sessions, t: H.Session, e: H.Event)
    requires Single(s, t) && H.Enabled(t, e) && !e.ForceClose?
    ensures Enabled(s, Inner(0, e))
    ensures t.erases == H.Step(t, e).erases ==> Single(Step(s, Inner(0, e)), H.Step(t, e))
    ensures t.erases < H.Step(t, e).erases ==>
              Step(s, Inner(0, e)) == Dispatch(INITIAL.(sessions := map[0 := H.Step(t, e)]), EraseClosure(0))
  {
    hide H.Step, H.Enabled;
    assert s.sessions[0 := H.Step(t, e)] == map[0 := H.Step(t, e)];
  }

  lemma EndingDrains(s: Sessions) returns (run: Run)
    requires Single(s, H.Running(true))
    ensures Possible(s, run)
    ensures var end := Exec(s, run); end.runLock && Enabled(end, RunErase(0)) && end.sessions.Keys == {0}
  {
    hide H.Step, H.Enabled, H.Running, Step, Enabled, Single, INITIAL, Dispatch;
    var a := H.Running(true);
    EndedSession(a);
    var b := H.Step(a, H.ReadDone(H.ReadEnded));
    var c := H.Step(b, H.AbortedTimerHandler);
    SingleStep(s, a, H.ReadDone(H.ReadEnded));
    var t := Step(s, Inner(0, H.ReadDone(H.ReadEnded)));
    SingleStep(t, b, H.AbortedTimerHandler);
    var u := Step(t, Inner(0, H.AbortedTimerHandler));
    SingleStep(u, c, H.AbortedTimerHandler);
    var v := Step(u, Inner(0, H.AbortedTimerHandler));
    ErasePending(v, H.Step(c, H.AbortedTimerHandler));
    assert Possible(v, End) && Exec(v, End) == v;
    hide Possible, Exec;
    Prepend(u, Inner(0, H.AbortedTimerHandler), End);
    run := Then(Inner(0, H.AbortedTimerHandler), End);
    Prepend(t, Inner(0, H.AbortedTimerHandler), run);
    run := Then(Inner(0, H.AbortedTimerHandler), run);
    Prepend(s, Inner(0, H.ReadDone(H.ReadEnded)), run);
    run := Then(Inner(0, H.ReadDone(H.ReadEnded)), run);
  }

  lemma ErasePending(u: Sessions, d: H.Session)
    requires u == Dispatch(INITIAL.(sessions := map[0 := d]), EraseClosure(0))
    ensures u.runLock && Enabled(u, RunErase(0)) && u.sessions.Keys == {0}
  {
  }

  /** EraseBeforeClosure() starts from a state that runs reach: a session enters and its peer ends the connection. */
  lemma LastSessionDrains(h: Sessions) returns (run: Run)
    requires h == INITIAL
    ensures Possible(h, run)
    ensures var s := Exec(h, run); s.runLock && Enabled(s, RunErase(0)) && s.sessions.Keys == {0}
  {
    var s1, s2, s3 := FirstEntry(h);
    hide H.Running, Step, Enabled, Possible, Exec, Single, INITIAL;
    run := EndingDrains(s3);
    Prepend(s2, RunEmplace(0, true), run);
    run := Then(RunEmplace(0, true), run);
    Prepend(s1, CheckEmplace, run);
    run := Then(CheckEmplace, run);
    Prepend(h, CallEmplace, run);
    run := Then(CallEmplace, run);
  }

  lemma FirstEntry(h: Sessions) returns (s1: Sessions, s2: Sessions, s3: Sessions)
    requires h == INITIAL
    ensures Enabled(h, CallEmplace) && s1 == Step(h, CallEmplace)
    ensures Enabled(s1, CheckEmplace) && s2 == Step(s1, CheckEmplace)
    ensures Enabled(s2, RunEmplace(0, true)) && s3 == Step(s2, RunEmplace(0, true))
    ensures Single(s3, H.Running(true))
  {
    hide H.Running;
    s1 := Step(h, CallEmplace);
    s2 := Step(s1, CheckEmplace);
    s3 := Step(s2, RunEmplace(0, true));
    assert s3.pending == multiset{};
  }
}
