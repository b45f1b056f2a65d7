/**
 What each step of a WebSocket service comes to: which closures are dispatched and
 ended, what enters the log, who enters and leaves the map, and as what.  Together
 with the invariant these equations leave no choice.
 */
module WsServiceEffects {
  import HandlerLocks
  import S = WsSessionModel
  import SI = WsSessionInvariants
  import SE = WsSessionEffects
  import T = WsServiceTheorems
  import opened WsServiceModel
  import opened WsServiceInvariants
  import opened WsServiceSessions

  /** The closures a call or a session's last unlock brings onto the strand. */
  function Dispatched(s: Service, t: Service, e: Event): multiset<Closure> {
    match e
    case CallConnect => if s.locks.count != 0 then multiset{ConnectClosure} else multiset{}
    case CallSend(isText, data) => if s.locks.count != 0 then multiset{SendClosure(isText, data)} else multiset{}
    case CallClose(reason) => if s.locks.count != 0 then multiset{CloseClosure(reason)} else multiset{}
    case Shutdown => if s.locks.run then multiset{ShutdownClosure} else multiset{}
    case Inner(id, _) => if id in t.sessions && t.sessions[id].locks == 0 then multiset{EraseClosure(id)} else multiset{}
    case _ => multiset{}
  }

  /** The closure that ends with a step. */
  function Ended(s: Service, e: Event): multiset<Closure> {
    match e
    case CheckConnect => if s.locks.run then multiset{} else multiset{ConnectClosure}
    case RunConnect(_, _) => multiset{ConnectClosure}
    case RunSend(isText, data, _) => multiset{SendClosure(isText, data)}
    case RunClose(reason, _) => multiset{CloseClosure(reason)}
    case RunErase(id) => multiset{EraseClosure(id)}
    case RunShutdown => multiset{ShutdownClosure}
    case _ => multiset{}
  }

  function Logged(s: Service, e: Event): seq<S.Message> {
    match e
    case RunSend(isText, data, _) => [S.Message(|s.log|, isText, data)]
    case _ => []
  }

  function ErasedBy(s: Service, e: Event): set<Id> {
    if e.RunErase? && e.id in s.sessions then {e.id} else {}
  }

  ghost predicate StrandEffects(s: Service, t: Service, e: Event) {
    && t.pending == s.pending - Ended(s, e) + Dispatched(s, t, e)
    && t.log == s.log + Logged(s, e)
    && t.connecting == ((e.CheckConnect? && s.locks.run) || (s.connecting && !e.RunConnect?))
    && t.shutdownRan == (s.shutdownRan || e.RunShutdown?)
    && t.locks.run == (s.locks.run && !e.Shutdown?)
  }

  ghost predicate MapEffects(s: Service, t: Service, e: Event) {
    && t.sessions.Keys == s.sessions.Keys + T.EnteredBy(e) - ErasedBy(s, e)
    && t.gone.Keys == s.gone.Keys + ErasedBy(s, e)
    && (forall id | IsSession(s, id) :: StepsAlong(s, t, e, id))
    && (e.RunConnect? && !e.beginning.ConnectFails? ==>
          && e.id in t.sessions
          && SE.Begun(t.sessions[e.id], e.beginning.Starts?, e.beginning.streamOpen))
  }

  ghost predicate Effects(s: Service, t: Service, e: Event) {
    StrandEffects(s, t, e) && MapEffects(s, t, e)
  }

  // ---- the strand ----

  lemma CallStrand(s: Service, e: Event, c: Closure)
    requires (e.CallConnect? && c == ConnectClosure)
          || (e.CallSend? && c == SendClosure(e.isText, e.data))
          || (e.CallClose? && c == CloseClosure(e.reason))
    ensures StrandEffects(s, Dispatch(s, c), e)
  {
    assert s.pending - multiset{} + multiset{} == s.pending;
    assert s.pending - multiset{} + multiset{c} == s.pending + multiset{c};
    assert s.log + [] == s.log;
  }

  lemma ShutdownCallStrand(s: Service)
    requires Inv(s)
    ensures StrandEffects(s, ShutdownCall(s), Shutdown)
  {
    hide SessionsKept, OrderKept, ErasesKept;
  }

  lemma CheckStrand(s: Service)
    requires Enabled(s, CheckConnect)
    ensures StrandEffects(s, PassCheck(s), CheckConnect)
  {
    assert s.pending - multiset{} + multiset{} == s.pending;
    assert s.log + [] == s.log;
  }

  lemma ConnectStrand(s: Service, id: Id, beginning: Beginning)
    requires Enabled(s, RunConnect(id, beginning))
    ensures StrandEffects(s, Step(s, RunConnect(id, beginning)), RunConnect(id, beginning))
  {
    hide S.Accepting, S.Starting;
    var u := Connect(s, id, beginning);
    assert u.pending == s.pending && u.log == s.log && u.locks == s.locks && u.shutdownRan == s.shutdownRan && !u.connecting;
    hide Connect;
    assert s.log + [] == s.log;
  }

  lemma RequestStrand(s: Service, e: Event)
    requires Enabled(s, e) && (e.RunSend? || e.RunClose?)
    ensures StrandEffects(s, Step(s, e), e)
  {
    hide ToChosen;
  }

  lemma EraseStrand(s: Service, id: Id)
    requires Enabled(s, RunErase(id))
    ensures StrandEffects(s, Step(s, RunErase(id)), RunErase(id))
  {
    ErasedRest(s, id);
    hide Erase;
    assert s.log + [] == s.log;
  }

  lemma ErasedRest(s: Service, id: Id)
    ensures var u := Erase(s, id, s.shutdownRan);
            && u.pending == s.pending && u.log == s.log && u.connecting == s.connecting
            && u.shutdownRan == s.shutdownRan && u.locks.run == s.locks.run
  {
    hide S.DestroyStep;
  }

  lemma ShutdownStrand(s: Service)
    requires Enabled(s, RunShutdown)
    ensures StrandEffects(s, Step(s, RunShutdown), RunShutdown)
  {
    hide ToChosen;
  }

  lemma MovedSession(s: Service, id: Id, e: S.Event)
    requires Inv(s) && id in s.sessions && S.Enabled(s.sessions[id], e) && IsOwn(e)
    ensures s.sessions[id].erases == 0 && s.locks.count != 0
    ensures S.Step(s.sessions[id], e).erases == if S.Step(s.sessions[id], e).locks == 0 then 1 else 0
  {
    InMap(s, id);
    SessionFacts(s, id);
    HoldsLock(s);
    hide Inv, SI.Inv, S.Step, S.Enabled;
    InnerSessionStep(s.sessions[id], e);
    LastUnlock(S.Step(s.sessions[id], e));
  }

  lemma HoldsLock(s: Service)
    requires Inv(s) && s.sessions != map[]
    ensures s.locks.count != 0
  {
    hide SessionsKept, OrderKept;
    MapHoldsService(s);
  }

  lemma MovedStrand(s: Service, u: Service, id: Id, e: S.Event)
    requires id in u.sessions && u == s.(sessions := u.sessions) && s.locks.count != 0
    ensures StrandEffects(s, if u.sessions[id].locks == 0 then Dispatch(u, EraseClosure(id)) else u, Inner(id, e))
  {
    assert s.pending - multiset{} == s.pending;
    assert s.pending + multiset{} == s.pending;
    assert s.log + [] == s.log;
  }

  /** on_erase() is called exactly when a session's last lock goes, and the service always has a lock for it. */
  lemma InnerStrand(s: Service, id: Id, e: S.Event)
    requires Inv(s) && id in s.sessions && S.Enabled(s.sessions[id], e) && IsOwn(e)
    ensures StrandEffects(s, InnerStep(s, id, e), Inner(id, e))
  {
    hide Inv, S.Step, S.Enabled, StrandEffects, Dispatch;
    MovedSession(s, id, e);
    var u := s.(sessions := s.sessions[id := S.Step(s.sessions[id], e)]);
    MovedStrand(s, u, id, e);
    assert InnerStep(s, id, e) == if u.sessions[id].locks == 0 then Dispatch(u, EraseClosure(id)) else u;
  }

  lemma LastUnlock(t: S.Session)
    requires SI.Inv(t)
    ensures t.erases == if t.locks == 0 then 1 else 0
  {
  }

  // ---- the map ----

  lemma ConnectMap(s: Service, id: Id, beginning: Beginning)
    requires Enabled(s, RunConnect(id, beginning))
    ensures var t := Step(s, RunConnect(id, beginning));
            && t.sessions.Keys == s.sessions.Keys + T.EnteredBy(RunConnect(id, beginning)) && t.gone == s.gone
            && (!beginning.ConnectFails? ==>
                  id in t.sessions && SE.Begun(t.sessions[id], beginning.Starts?, beginning.streamOpen))
  {
    hide S.Accepting, S.Starting, SE.Begun;
    if !beginning.ConnectFails? {
      SE.AcceptingBegins(beginning.streamOpen);
      SE.StartingBegins(beginning.streamOpen);
    }
  }

  /** Nobody enters and nobody leaves. */
  ghost predicate SameKeys(s: Service, t: Service) {
    t.sessions.Keys == s.sessions.Keys && t.gone.Keys == s.gone.Keys
  }

  lemma ToldKeys(m: map<Id, S.Session>, chosen: set<Id>, c: S.Closure)
    ensures ToChosen(m, chosen, c).Keys == m.Keys
  {
  }

  lemma SendKeys(s: Service, isText: bool, data: string, chosen: set<Id>)
    ensures SameKeys(s, Send(s, isText, data, chosen))
  {
    ToldKeys(s.sessions, chosen, S.SendClosure(S.Message(|s.log|, isText, data)));
    hide ToChosen;
  }

  lemma CloseKeys(s: Service, reason: string, chosen: set<Id>)
    ensures SameKeys(s, Close(s, reason, chosen))
  {
    ToldKeys(s.sessions, chosen, S.CloseClosure(reason));
    hide ToChosen;
  }

  lemma ShutdownKeys(s: Service)
    ensures SameKeys(s, ShutdownBody(s))
  {
    CloseKeys(s, "shutdown", s.sessions.Keys);
    hide Close;
  }

  lemma InnerKeys(s: Service, id: Id, e: S.Event)
    requires Enabled(s, Inner(id, e))
    ensures SameKeys(s, InnerStep(s, id, e))
  {
    hide S.Step, S.Enabled;
    assert s.sessions[id := S.Step(s.sessions[id], e)].Keys == s.sessions.Keys;
  }

  lemma CallKeys(s: Service, c: Closure)
    ensures SameKeys(s, Dispatch(s, c)) && SameKeys(s, PassCheck(s)) && SameKeys(s, ShutdownCall(s))
  {
  }

  lemma EraseKeys(s: Service, id: Id)
    requires Enabled(s, RunErase(id)) && id in s.sessions
    ensures Step(s, RunErase(id)).sessions.Keys == s.sessions.Keys - {id}
    ensures Step(s, RunErase(id)).gone.Keys == s.gone.Keys + {id}
  {
    hide S.DestroyStep;
  }

  lemma AllAlong(s: Service, e: Event)
    requires Inv(s) && Enabled(s, e)
    ensures forall id | IsSession(s, id) :: StepsAlong(s, Step(s, e), e, id)
  {
    hide Inv, Enabled, Step, StepsAlong, IsSession;
    forall id | IsSession(s, id) ensures StepsAlong(s, Step(s, e), e, id) {
      StepAlong(s, e, id);
    }
  }

  lemma StrandStep(s: Service, e: Event)
    requires Inv(s) && Enabled(s, e)
    ensures StrandEffects(s, Step(s, e), e)
  {
    hide Inv, StrandEffects, ShutdownCall, InnerStep, PassCheck, Dispatch, Connect, Send, Close, Erase, ShutdownBody, Done;
    match e
    case CallConnect => CallStrand(s, e, ConnectClosure);
    case CallSend(isText, data) => CallStrand(s, e, SendClosure(isText, data));
    case CallClose(reason) => CallStrand(s, e, CloseClosure(reason));
    case Shutdown => ShutdownCallStrand(s);
    case CheckConnect => CheckStrand(s);
    case RunConnect(id, beginning) => ConnectStrand(s, id, beginning);
    case RunSend(_, _, _) => RequestStrand(s, e);
    case RunClose(_, _) => RequestStrand(s, e);
    case RunErase(id) => EraseStrand(s, id);
    case RunShutdown => ShutdownStrand(s);
    case Inner(id, own) => InnerStrand(s, id, own);
  }

  lemma EraseFound(s: Service, id: Id)
    requires Inv(s) && Enabled(s, RunErase(id))
    ensures id in s.sessions
  {
    hide Inv;
    InMap(s, id);
  }

  lemma KeysStep(s: Service, e: Event)
    requires Inv(s) && Enabled(s, e)
    ensures Step(s, e).sessions.Keys == s.sessions.Keys + T.EnteredBy(e) - ErasedBy(s, e)
    ensures Step(s, e).gone.Keys == s.gone.Keys + ErasedBy(s, e)
  {
    hide Inv, Step, Enabled, SameKeys;
    if e.RunErase? {
      EraseFound(s, e.id);
      EraseKeys(s, e.id);
    } else if e.RunConnect? {
      ConnectMap(s, e.id, e.beginning);
    } else {
      NoKeys(s, e);
      SameKeysMeans(s, Step(s, e));
    }
  }

  lemma SameKeysMeans(s: Service, t: Service)
    requires SameKeys(s, t)
    ensures t.sessions.Keys == s.sessions.Keys + {} - {} && t.gone.Keys == s.gone.Keys + {}
  {
  }

  lemma NoKeys(s: Service, e: Event)
    requires Enabled(s, e) && !e.RunErase? && !e.RunConnect?
    ensures SameKeys(s, Step(s, e))
  {
    hide InnerStep, Send, Close, ShutdownBody, Dispatch, ShutdownCall, PassCheck;
    match e
    case Inner(id, own) => InnerKeys(s, id, own);
    case RunSend(isText, data, chosen) => SendKeys(s, isText, data, chosen);
    case RunClose(reason, chosen) => CloseKeys(s, reason, chosen);
    case RunShutdown => ShutdownKeys(s);
    case CallConnect => CallKeys(s, ConnectClosure);
    case CallSend(isText, data) => CallKeys(s, SendClosure(isText, data));
    case CallClose(reason) => CallKeys(s, CloseClosure(reason));
    case _ => CallKeys(s, ConnectClosure);
  }

  /** Every step has exactly the effects of its equations. */
  lemma StepEffects(s: Service, e: Event)
    requires Inv(s) && Enabled(s, e)
    ensures Effects(s, Step(s, e), e)
  {
    StrandStep(s, e);
    AllAlong(s, e);
    KeysStep(s, e);
    hide Inv, Step, Enabled, StrandEffects, StepsAlong, SE.Begun;
    if e.RunConnect? {
      ConnectMap(s, e.id, e.beginning);
    }
  }

  /** Two sessions that have begun alike are alike. */
  lemma BegunDetermines(t: S.Session, u: S.Session, isClient: bool, streamOpen: bool)
    requires SE.Begun(t, isClient, streamOpen) && SE.Begun(u, isClient, streamOpen) && SI.Inv(t) && SI.Inv(u)
    ensures t == u
  {
    hide SI.WriterKept, SI.NoStall, SI.AcceptKept, SI.TimerKept, SI.CallbacksKept;
  }

  lemma EnteredSession(s: Service, t: Service, e: Event, id: Id)
    requires MapEffects(s, t, e) && IsSession(t, id) && !IsSession(s, id)
    ensures e.RunConnect? && !e.beginning.ConnectFails? && id == e.id && id in t.sessions
    ensures SE.Begun(t.sessions[id], e.beginning.Starts?, e.beginning.streamOpen)
  {
    hide SE.Begun, StepsAlong;
    assert id in s.sessions.Keys + T.EnteredBy(e) - ErasedBy(s, e) || id in s.gone.Keys + ErasedBy(s, e);
  }

  lemma SameSessionsAfter(s: Service, t: Service, u: Service, e: Event, id: Id)
    requires Inv(t) && Inv(u) && Enabled(s, e) && MapEffects(s, t, e) && MapEffects(s, u, e) && IsSession(t, id)
    requires t.sessions.Keys == u.sessions.Keys && t.gone.Keys == u.gone.Keys
    ensures IsSession(u, id) && SessionOf(t, id) == SessionOf(u, id)
  {
    hide Inv, SE.Begun, SI.Inv, Enabled;
    if IsSession(s, id) {
      assert StepsAlong(s, t, e, id) && StepsAlong(s, u, e, id);
    } else {
      EnteredSession(s, t, e, id);
      EnteredSession(s, u, e, id);
      SessionFacts(t, id);
      SessionFacts(u, id);
      BegunDetermines(t.sessions[id], u.sessions[id], e.beginning.Starts?, e.beginning.streamOpen);
    }
  }

  /** The equations and the invariant leave no choice: they name one next state. */
  lemma EffectsDetermine(s: Service, t: Service, u: Service, e: Event)
    requires Enabled(s, e) && Inv(t) && Inv(u) && Effects(s, t, e) && Effects(s, u, e)
    ensures t == u
  {
    assert t.sessions.Keys == u.sessions.Keys && t.gone.Keys == u.gone.Keys && t.log == u.log && t.connecting == u.connecting;
    DisjointMaps(t);
    SameFlags(s, t, u, e);
    hide Effects, StrandEffects, MapEffects, Enabled, Inv;
    forall id | IsSession(t, id) ensures IsSession(u, id) && SessionOf(t, id) == SessionOf(u, id) {
      SameSessionsAfter(s, t, u, e, id);
    }
    MapsAgree(t, u);
    SamePending(s, t, u, e);
    CountsAgree(t, u);
  }

  lemma MapsAgree(t: Service, u: Service)
    requires t.sessions.Keys == u.sessions.Keys && t.gone.Keys == u.gone.Keys
    requires t.sessions.Keys !! t.gone.Keys
    requires forall id | IsSession(t, id) :: SessionOf(t, id) == SessionOf(u, id)
    ensures t.sessions == u.sessions && t.gone == u.gone
  {
    forall id | id in t.sessions ensures t.sessions[id] == u.sessions[id] {
      assert SessionOf(t, id) == SessionOf(u, id);
    }
    forall id | id in t.gone ensures t.gone[id] == u.gone[id] {
      assert SessionOf(t, id) == SessionOf(u, id);
    }
  }

  lemma CountsAgree(t: Service, u: Service)
    requires Inv(t) && Inv(u)
    requires t.pending == u.pending && t.sessions == u.sessions && t.shutdownRan == u.shutdownRan && t.locks.run == u.locks.run
    ensures t.locks == u.locks && t.finishCalls == u.finishCalls && t.finishErrors == u.finishErrors
  {
    hide SessionsKept, OrderKept, ErasesKept;
  }

  lemma DisjointMaps(t: Service)
    requires Inv(t)
    ensures t.sessions.Keys !! t.gone.Keys
  {
    hide SI.Inv, CountsKept, OrderKept;
  }

  lemma SameFlags(s: Service, t: Service, u: Service, e: Event)
    requires StrandEffects(s, t, e) && StrandEffects(s, u, e)
    ensures t.shutdownRan == u.shutdownRan && t.locks.run == u.locks.run
  {
  }

  lemma SamePending(s: Service, t: Service, u: Service, e: Event)
    requires Effects(s, t, e) && Effects(s, u, e) && t.sessions == u.sessions
    ensures t.pending == u.pending
  {
    hide MapEffects;
  }
}
