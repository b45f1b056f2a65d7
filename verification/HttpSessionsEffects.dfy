/**
 What each step of the set of HTTP sessions comes to: which closures are dispatched
 and ended, who enters and leaves, what every session goes through, and when the
 shutdown lock is given up.  Together with the invariant these equations leave no
 choice, and every run of the set is a run of each of its sessions.
 */
module HttpSessionsEffects {
  import H = HttpSessionModel
  import HT = HttpSessionTheorems
  import HE = HttpSessionEffects
  import opened HttpSessionsModel
  import opened HttpSessionsTheorems

  /** A session in the set, or one that was erased. */
  ghost predicate IsSession(s: Sessions, id: Id) {
    id in s.sessions || id in s.gone
  }

  ghost function SessionOf(s: Sessions, id: Id): H.Session
    requires IsSession(s, id)
  {
    if id in s.sessions then s.sessions[id] else s.gone[id]
  }

  /** What a step of the set is for one of its sessions: one event or nothing. */
  function OwnEvent(s: Sessions, e: Event, id: Id): (own: seq<H.Event>)
    ensures |own| <= 1
  {
    match e
    case Inner(i, own) => if i == id then [own] else []
    case RunShutdown => if id in s.sessions then [H.ForceClose] else []
    case _ => []
  }

  ghost predicate StepsAlong(s: Sessions, t: Sessions, e: Event, id: Id) {
    && IsSession(s, id) && IsSession(t, id)
    && var own := OwnEvent(s, e, id);
       if own == [] then SessionOf(t, id) == SessionOf(s, id)
       else H.Enabled(SessionOf(s, id), own[0]) && SessionOf(t, id) == H.Step(SessionOf(s, id), own[0])
  }

  function Dispatched(s: Sessions, t: Sessions, e: Event): multiset<Closure> {
    match e
    case CallEmplace => if s.count != 0 then multiset{EmplaceClosure} else multiset{}
    case Shutdown => if s.runLock then multiset{ShutdownClosure} else multiset{}
    case Inner(id, _) => if id in t.sessions && t.sessions[id].locks == 0 then multiset{EraseClosure(id)} else multiset{}
    case _ => multiset{}
  }

  function Ended(s: Sessions, e: Event): multiset<Closure> {
    match e
    case CheckEmplace => if s.runLock then multiset{} else multiset{EmplaceClosure}
    case RunEmplace(_, _) => multiset{EmplaceClosure}
    case RunErase(id) => multiset{EraseClosure(id)}
    case RunShutdown => multiset{ShutdownClosure}
    case _ => multiset{}
  }

  function ErasedBy(e: Event): set<Id> {
    if e.RunErase? then {e.id} else {}
  }

  /** After the call of shutdown(): its closure finds the set empty, or the last session is erased. */
  predicate GivesUp(s: Sessions, t: Sessions, e: Event) {
    !s.runLock && t.sessions == map[] && (e.RunShutdown? || e.RunErase?)
  }

  ghost predicate StrandEffects(s: Sessions, t: Sessions, e: Event) {
    && t.pending == s.pending - Ended(s, e) + Dispatched(s, t, e)
    && t.emplacing == ((e.CheckEmplace? && s.runLock) || (s.emplacing && !e.RunEmplace?))
    && t.closureRan == (s.closureRan || e.RunShutdown?)
    && t.runLock == (s.runLock && !e.Shutdown?)
    && t.shutdownLock == ((s.shutdownLock || (e.Shutdown? && s.runLock)) && !GivesUp(s, t, e))
  }

  ghost predicate MapEffects(s: Sessions, t: Sessions, e: Event) {
    && t.sessions.Keys == s.sessions.Keys + EnteredBy(e) - ErasedBy(e)
    && t.gone.Keys == s.gone.Keys + ErasedBy(e)
    && (forall id | IsSession(s, id) :: StepsAlong(s, t, e, id))
    && (e.RunEmplace? ==> e.id in t.sessions && t.sessions[e.id] == H.Running(e.socketOpen))
  }

  ghost predicate Effects(s: Sessions, t: Sessions, e: Event) {
    StrandEffects(s, t, e) && MapEffects(s, t, e)
  }

  // ---- the steps have these effects ----

  /** The steps that leave the sessions alone. */
  lemma SameMaps(s: Sessions, t: Sessions, e: Event)
    requires t.sessions == s.sessions && t.gone == s.gone && (e.CallEmplace? || e.CheckEmplace? || e.Shutdown?)
    ensures MapEffects(s, t, e)
  {
  }

  lemma CallMaps(s: Sessions)
    ensures MapEffects(s, Dispatch(s, EmplaceClosure), CallEmplace)
    ensures MapEffects(s, PassCheck(s), CheckEmplace)
    ensures MapEffects(s, ShutdownCall(s), Shutdown)
  {
    hide MapEffects;
    SameMaps(s, Dispatch(s, EmplaceClosure), CallEmplace);
    SameMaps(s, PassCheck(s), CheckEmplace);
    SameMaps(s, ShutdownCall(s), Shutdown);
  }

  lemma CallStrand(s: Sessions)
    ensures StrandEffects(s, Dispatch(s, EmplaceClosure), CallEmplace)
  {
    assert s.pending - multiset{} == s.pending && s.pending + multiset{} == s.pending;
  }

  lemma CheckStrand(s: Sessions)
    requires Enabled(s, CheckEmplace)
    ensures StrandEffects(s, PassCheck(s), CheckEmplace)
  {
    assert s.pending - multiset{} == s.pending && s.pending + multiset{} == s.pending;
  }

  lemma ShutdownCallStrand(s: Sessions)
    requires Inv(s)
    ensures StrandEffects(s, ShutdownCall(s), Shutdown)
  {
    hide SessionsKept, ErasesKept;
    assert s.pending - multiset{} == s.pending && s.pending + multiset{} == s.pending;
  }

  lemma EmplaceEffects(s: Sessions, id: Id, socketOpen: bool)
    requires Enabled(s, RunEmplace(id, socketOpen))
    ensures Effects(s, Step(s, RunEmplace(id, socketOpen)), RunEmplace(id, socketOpen))
  {
    hide H.Running;
  }

  lemma LastUnlock(t: H.Session)
    requires HT.Inv(t)
    ensures t.erases == if t.locks == 0 then 1 else 0
  {
  }

  lemma MovedSession(s: Sessions, id: Id, e: H.Event)
    requires Inv(s) && id in s.sessions && H.Enabled(s.sessions[id], e) && !e.ForceClose?
    ensures s.sessions[id].erases == 0 && s.count != 0 && id !in s.gone
    ensures H.Step(s.sessions[id], e).erases == if H.Step(s.sessions[id], e).locks == 0 then 1 else 0
  {
    SetHoldsCount(s);
    hide CountsKept, HT.Inv, H.Step, H.Enabled;
    InnerSessionStep(s.sessions[id], e);
    LastUnlock(H.Step(s.sessions[id], e));
  }

  lemma MovedStrand(s: Sessions, u: Sessions, id: Id, e: H.Event)
    requires id in u.sessions && u == s.(sessions := u.sessions) && s.count != 0
    ensures StrandEffects(s, if u.sessions[id].locks == 0 then Dispatch(u, EraseClosure(id)) else u, Inner(id, e))
  {
    assert s.pending - multiset{} == s.pending && s.pending + multiset{} == s.pending;
  }

  lemma MovedMap(s: Sessions, u: Sessions, id: Id, e: H.Event)
    requires id in s.sessions && H.Enabled(s.sessions[id], e) && id !in s.gone
    requires u.sessions == s.sessions[id := H.Step(s.sessions[id], e)] && u.gone == s.gone
    ensures MapEffects(s, u, Inner(id, e))
  {
    hide H.Step, H.Enabled;
    assert u.sessions.Keys == s.sessions.Keys;
  }

  lemma InnerEffects(s: Sessions, id: Id, e: H.Event)
    requires Inv(s) && id in s.sessions && H.Enabled(s.sessions[id], e) && !e.ForceClose?
    ensures Effects(s, InnerStep(s, id, e), Inner(id, e))
  {
    hide Inv, H.Step, H.Enabled, StrandEffects, MapEffects;
    MovedSession(s, id, e);
    var u := s.(sessions := s.sessions[id := H.Step(s.sessions[id], e)]);
    MovedStrand(s, u, id, e);
    MovedMap(s, InnerStep(s, id, e), id, e);
    assert InnerStep(s, id, e) == if u.sessions[id].locks == 0 then Dispatch(u, EraseClosure(id)) else u;
  }

  lemma EraseStrand(s: Sessions, id: Id)
    requires Enabled(s, RunErase(id)) && id in s.sessions
    ensures StrandEffects(s, Step(s, RunErase(id)), RunErase(id))
  {
  }

  lemma EraseMap(s: Sessions, t: Sessions, id: Id)
    requires id in s.sessions && id !in s.gone
    requires t.sessions == s.sessions - {id} && t.gone == s.gone[id := s.sessions[id]]
    ensures MapEffects(s, t, RunErase(id))
  {
    assert t.sessions.Keys == s.sessions.Keys + {} - {id};
    assert t.gone.Keys == s.gone.Keys + {id};
  }

  lemma EraseFound(s: Sessions, id: Id)
    requires Inv(s) && Enabled(s, RunErase(id))
    ensures id in s.sessions && id !in s.gone
  {
    EraseCounts(s, id);
    hide HT.Inv, CountsKept;
  }

  lemma ErasedMaps(s: Sessions, id: Id)
    requires Enabled(s, RunErase(id)) && id in s.sessions
    ensures Step(s, RunErase(id)).sessions == s.sessions - {id}
    ensures Step(s, RunErase(id)).gone == s.gone[id := s.sessions[id]]
  {
  }

  lemma EraseEffects(s: Sessions, id: Id)
    requires Inv(s) && Enabled(s, RunErase(id))
    ensures Effects(s, Step(s, RunErase(id)), RunErase(id))
  {
    hide Inv, Step, Enabled, StrandEffects, MapEffects;
    EraseFound(s, id);
    ErasedMaps(s, id);
    EraseStrand(s, id);
    EraseMap(s, Step(s, RunErase(id)), id);
  }

  lemma ClosedKeys(m: map<Id, H.Session>)
    ensures CloseAll(m).Keys == m.Keys && (CloseAll(m) == map[] <==> m == map[])
  {
    assert CloseAll(m).Keys == m.Keys;
    assert m == map[] <==> m.Keys == {};
    assert CloseAll(m) == map[] <==> CloseAll(m).Keys == {};
  }

  lemma ShutdownStrand(s: Sessions)
    requires Inv(s) && Enabled(s, RunShutdown)
    ensures StrandEffects(s, Step(s, RunShutdown), RunShutdown)
  {
    hide SessionsKept, ErasesKept, CloseAll;
    ClosedKeys(s.sessions);
  }

  lemma ShutdownMap(s: Sessions)
    requires Inv(s) && Enabled(s, RunShutdown)
    ensures MapEffects(s, Step(s, RunShutdown), RunShutdown)
  {
    ClosedKeys(s.sessions);
    hide CountsKept, HT.Inv, H.DoClose;
  }

  lemma ShutdownEffects(s: Sessions)
    requires Inv(s) && Enabled(s, RunShutdown)
    ensures Effects(s, Step(s, RunShutdown), RunShutdown)
  {
    hide Inv, Step, Enabled, StrandEffects, MapEffects;
    ShutdownStrand(s);
    ShutdownMap(s);
  }

  /** Every step has exactly the effects of its equations. */
  lemma StepEffects(s: Sessions, e: Event)
    requires Inv(s) && Enabled(s, e)
    ensures Effects(s, Step(s, e), e)
  {
    hide Inv, StrandEffects, MapEffects, InnerStep, Erase, ShutdownBody, Emplace, PassCheck, Dispatch, ShutdownCall, Done;
    match e
    case CallEmplace =>
      CallStrand(s);
      CallMaps(s);
    case CheckEmplace =>
      CheckStrand(s);
      CallMaps(s);
    case Shutdown =>
      ShutdownCallStrand(s);
      CallMaps(s);
    case RunEmplace(id, socketOpen) => EmplaceEffects(s, id, socketOpen);
    case Inner(id, own) => InnerEffects(s, id, own);
    case RunErase(id) => EraseEffects(s, id);
    case RunShutdown => ShutdownEffects(s);
  }

  // ---- whole runs ----

  /** The part of the set's run that one session takes part in. */
  ghost function OwnRun(s: Sessions, run: Run, id: Id): H.Run
    requires Possible(s, run)
    decreases run
  {
    if run.End? then H.End
    else
      var own := OwnEvent(s, run.event, id);
      var rest := OwnRun(Step(s, run.event), run.rest, id);
      if own == [] then rest else H.Then(own[0], rest)
  }

  /** Every run of the set is a run of each of its sessions. */
  lemma {:induction false} SessionsRunInside(s: Sessions, run: Run, id: Id)
    requires Inv(s) && Possible(s, run) && IsSession(s, id)
    ensures IsSession(Exec(s, run), id)
    ensures var own := OwnRun(s, run, id);
            H.Possible(SessionOf(s, id), own) && SessionOf(Exec(s, run), id) == H.Exec(SessionOf(s, id), own)
    decreases run
  {
    hide Inv, Step, Enabled, SessionOf, IsSession, H.Step, H.Enabled, StrandEffects;
    if run.Then? {
      StepEffects(s, run.event);
      assert StepsAlong(s, Step(s, run.event), run.event, id);
      StepKeepsInv(s, run.event);
      SessionsRunInside(Step(s, run.event), run.rest, id);
    }
  }

  // ---- no choice ----

  lemma SameSessionAfter(s: Sessions, t: Sessions, u: Sessions, e: Event, id: Id)
    requires MapEffects(s, t, e) && MapEffects(s, u, e) && IsSession(t, id)
    requires e.RunErase? ==> e.id in s.sessions
    ensures IsSession(u, id) && SessionOf(t, id) == SessionOf(u, id)
  {
    hide H.Step, H.Enabled, H.Running;
    if IsSession(s, id) {
      assert StepsAlong(s, t, e, id) && StepsAlong(s, u, e, id);
    } else {
      assert id in s.sessions.Keys + EnteredBy(e) - ErasedBy(e) || id in s.gone.Keys + ErasedBy(e);
    }
  }

  /** The equations and the invariant leave no choice: they name one next state. */
  lemma EffectsDetermine(s: Sessions, t: Sessions, u: Sessions, e: Event)
    requires Inv(s) && Enabled(s, e) && Inv(t) && Inv(u) && Effects(s, t, e) && Effects(s, u, e)
    ensures t == u
  {
    assert t.sessions.Keys == u.sessions.Keys && t.gone.Keys == u.gone.Keys;
    if e.RunErase? {
      EraseFound(s, e.id);
    }
    Disjoint(t);
    hide Inv, Enabled, StrandEffects, MapEffects;
    forall id | IsSession(t, id) ensures IsSession(u, id) && SessionOf(t, id) == SessionOf(u, id) {
      SameSessionAfter(s, t, u, e, id);
    }
    MapsAgree(t, u);
    RestAgrees(s, t, u, e);
  }

  lemma Disjoint(t: Sessions)
    requires Inv(t)
    ensures t.sessions.Keys !! t.gone.Keys
  {
    hide HT.Inv, CountsKept;
  }

  lemma MapsAgree(t: Sessions, u: Sessions)
    requires t.sessions.Keys == u.sessions.Keys && t.gone.Keys == u.gone.Keys && t.sessions.Keys !! t.gone.Keys
    requires forall id | IsSession(t, id) :: SessionOf(t, id) == SessionOf(u, id)
    ensures t.sessions == u.sessions && t.gone == u.gone
  {
    forall id | id in t.sessions ensures t.sessions[id] == u.sessions[id] {
      assert SessionOf(t, id) == SessionOf(u, id);
    }
    forall id | id in t.gone ensures t.gone[id] == u.gone[id] {
      assert SessionOf(t, id) == SessionOf(u, id);
    }
  }

  lemma RestAgrees(s: Sessions, t: Sessions, u: Sessions, e: Event)
    requires Inv(t) && Inv(u) && StrandEffects(s, t, e) && StrandEffects(s, u, e)
    requires t.sessions == u.sessions && t.gone == u.gone
    ensures t == u
  {
    hide SessionsKept, ErasesKept;
  }
}
