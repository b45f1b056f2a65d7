/** What every step of a WebSocket service keeps. */
module WsServiceInvariants {
  import HandlerLocks
  import S = WsSessionModel
  import SI = WsSessionInvariants
  import opened WsServiceModel

  predicate IsFinished(s: Service) {
    !s.locks.run && !s.locks.shutdown
  }

  ghost predicate LocksKept(s: Service) {
    && !(s.locks.run && s.locks.shutdown)
    && s.locks.count == HandlerLocks.Own(s.locks) + |s.pending|
    && s.locks.onShutdowns == (if s.locks.run then 0 else 1)
  }

  ghost predicate ShutdownKept(s: Service) {
    && (s.locks.run ==> !s.shutdownRan)
    && s.pending[ShutdownClosure] == (if !s.locks.run && !s.shutdownRan then 1 else 0)
    && s.finishErrors == 0
    && s.finishCalls == (if IsFinished(s) then 1 else 0)
    && (IsFinished(s) <==> s.shutdownRan && s.sessions == map[])
    && (s.connecting ==> ConnectClosure in s.pending && !s.shutdownRan)
  }

  /** Drained sessions have exactly one erase closure under way; nothing else has one. */
  ghost predicate ErasesKept(s: Service) {
    forall id :: s.pending[EraseClosure(id)] == if id in s.sessions && s.sessions[id].erases > 0 then 1 else 0
  }

  ghost predicate SessionsKept(s: Service) {
    && s.sessions.Keys !! s.gone.Keys
    && (forall id <- s.sessions :: SI.Inv(s.sessions[id]) && !s.sessions[id].destroyed)
    && (forall id <- s.gone :: SI.Inv(s.gone[id]) && s.gone[id].destroyed)
  }

  // ---- the order of sends ----

  function Sends(cs: seq<S.Closure>): seq<S.Message> {
    if cs == [] then []
    else (if cs[0].SendClosure? then [cs[0].message] else []) + Sends(cs[1..])
  }

  /** Everything a session has accepted or may still accept, in order. */
  function Inbox(s: S.Session): seq<S.Message> {
    s.writer.accepted + Sends(s.closures)
  }

  /** ms is a subsequence of the log, in the log's order. */
  ghost predicate InLogOrder(ms: seq<S.Message>, log: seq<S.Message>) {
    && (forall i | 0 <= i < |ms| :: ms[i].serial < |log| && log[ms[i].serial] == ms[i])
    && (forall i, j | 0 <= i < j < |ms| :: ms[i].serial < ms[j].serial)
  }

  ghost predicate OrderKept(s: Service) {
    && (forall id <- s.sessions :: InLogOrder(Inbox(s.sessions[id]), s.log))
    && (forall id <- s.gone :: InLogOrder(Inbox(s.gone[id]), s.log))
  }

  /** What depends on the sessions only through who is in the map and who has drained. */
  ghost predicate CountsKept(s: Service) {
    LocksKept(s) && ShutdownKept(s) && ErasesKept(s)
  }

  ghost predicate Inv(s: Service) {
    CountsKept(s) && SessionsKept(s) && OrderKept(s)
  }

  lemma {:induction false} SendsAppend(cs: seq<S.Closure>, c: S.Closure)
    ensures Sends(cs + [c]) == Sends(cs) + Sends([c])
    decreases |cs|
  {
    if cs == [] {
      assert cs + [c] == [c];
      assert Sends([c]) == [] + Sends([c]);
    } else {
      SendsAppend(cs[1..], c);
      assert (cs + [c])[1..] == cs[1..] + [c];
      var head := if cs[0].SendClosure? then [cs[0].message] else [];
      assert head + (Sends(cs[1..]) + Sends([c])) == (head + Sends(cs[1..])) + Sends([c]);
    }
  }

  lemma SingleSend(c: S.Closure)
    ensures Sends([c]) == if c.SendClosure? then [c.message] else []
  {
    assert [c][1..] == [];
    assert Sends([]) == [];
  }

  lemma DispatchInbox(s: S.Session, c: S.Closure)
    ensures Inbox(S.Dispatch(s, c)) ==
            if s.locks != 0 && c.SendClosure? then Inbox(s) + [c.message] else Inbox(s)
  {
    SendsAppend(s.closures, c);
    SingleSend(c);
  }

  lemma DroppedKeepsOrder(a: seq<S.Message>, m: S.Message, b: seq<S.Message>, log: seq<S.Message>)
    requires InLogOrder(a + [m] + b, log)
    ensures InLogOrder(a + b, log)
  {
    var all := a + [m] + b;
    assert forall i | 0 <= i < |a + b| :: (a + b)[i] == all[if i < |a| then i else i + 1];
  }

  lemma StepAccepts(s: S.Session, e: S.Event)
    requires S.Enabled(s, e) && IsOwn(e) && !e.RunClosure?
    ensures S.Step(s, e).writer.accepted == s.writer.accepted && S.Step(s, e).closures == s.closures
  {
    match e
    case ReadDone(_) =>
    case WriteDone(_) =>
    case PingDone(_) =>
    case _ =>
  }

  lemma RunClosureKeepsOrder(s: S.Session, log: seq<S.Message>)
    requires s.closures != [] && InLogOrder(Inbox(s), log)
    ensures InLogOrder(Inbox(S.RunClosureStep(s)), log)
  {
    var a, b := s.writer.accepted, Sends(s.closures[1..]);
    var t := S.RunClosureStep(s);
    if s.closures[0].SendClosure? {
      var m := s.closures[0].message;
      assert Inbox(s) == a + [m] + b;
      DroppedKeepsOrder(a, m, b, log);
      assert t.writer.accepted == a || t.writer.accepted == a + [m];
    } else {
      assert [] + b == b;
      assert Inbox(t) == Inbox(s);
    }
  }

  lemma StepKeepsOrder(s: S.Session, e: S.Event, log: seq<S.Message>)
    requires S.Enabled(s, e) && IsOwn(e) && InLogOrder(Inbox(s), log)
    ensures InLogOrder(Inbox(S.Step(s, e)), log)
  {
    if e.RunClosure? {
      RunClosureKeepsOrder(s, log);
    } else {
      StepAccepts(s, e);
    }
  }

  // ---- steps ----

  lemma CallKeeps(s: Service, c: Closure)
    requires CountsKept(s) && (c.ConnectClosure? || c.SendClosure? || c.CloseClosure?)
    ensures CountsKept(Dispatch(s, c))
  {
  }

  lemma DoneKeeps(s: Service, c: Closure)
    requires CountsKept(s) && !s.connecting && c in s.pending && (c.ConnectClosure? || c.SendClosure? || c.CloseClosure?)
    ensures CountsKept(Done(s, c))
  {
  }

  lemma PassCheckKeeps(s: Service)
    requires Inv(s) && Enabled(s, CheckConnect)
    ensures Inv(PassCheck(s))
  {
    hide SI.Inv, InLogOrder, Inbox;
    if HandlerLocks.IsShutdown(s.locks) {
      DoneKeeps(s, ConnectClosure);
    }
  }

  /** A session put into the map, as a new one or as the next state of an old one. */
  lemma PutKeeps(s: Service, id: Id, t: S.Session)
    requires SessionsKept(s) && OrderKept(s) && id !in s.gone
    requires SI.Inv(t) && !t.destroyed && InLogOrder(Inbox(t), s.log)
    ensures var u := s.(sessions := s.sessions[id := t]); SessionsKept(u) && OrderKept(u)
  {
    PutKeepsSessions(s, id, t);
    PutKeepsOrder(s, id, t);
  }

  lemma PutKeepsSessions(s: Service, id: Id, t: S.Session)
    requires SessionsKept(s) && id !in s.gone && SI.Inv(t) && !t.destroyed
    ensures SessionsKept(s.(sessions := s.sessions[id := t]))
  {
    hide SI.Inv;
    assert s.sessions[id := t].Keys == s.sessions.Keys + {id};
  }

  lemma PutKeepsOrder(s: Service, id: Id, t: S.Session)
    requires OrderKept(s) && InLogOrder(Inbox(t), s.log)
    ensures OrderKept(s.(sessions := s.sessions[id := t]))
  {
    hide InLogOrder, Inbox;
  }

  lemma ConnectCounts(s: Service, id: Id, t: S.Session)
    requires CountsKept(s) && !s.shutdownRan && id !in s.sessions && t.erases == 0
    ensures CountsKept(s.(sessions := s.sessions[id := t], connecting := false))
  {
  }

  lemma ConnectKeeps(s: Service, id: Id, beginning: Beginning)
    requires Inv(s) && Enabled(s, RunConnect(id, beginning))
    ensures Inv(Connect(s, id, beginning))
  {
    hide SI.Inv, S.Accepting, S.Starting, Inbox;
    if !beginning.ConnectFails? {
      var t := Connect(s, id, beginning).sessions[id];
      NewSession(beginning.streamOpen);
      ConnectCounts(s, id, t);
      PutKeeps(s, id, t);
      SameSessions(s.(sessions := s.sessions[id := t]), Connect(s, id, beginning));
    } else {
      SameSessions(s, Connect(s, id, beginning));
    }
  }

  lemma NewSession(streamOpen: bool)
    ensures var t := S.Accepting(streamOpen); SI.Inv(t) && Inbox(t) == [] && t.erases == 0 && !t.destroyed
    ensures var t := S.Starting(streamOpen); SI.Inv(t) && Inbox(t) == [] && t.erases == 0 && !t.destroyed
  {
    hide SI.Inv;
    assert S.Accepting(streamOpen).armed == S.Starting(streamOpen).armed == streamOpen;
    SI.InitialInv(S.Accepting(streamOpen));
    SI.InitialInv(S.Starting(streamOpen));
  }

  /** A dispatch changes neither what a session has been through nor how far it has drained. */
  lemma DispatchToSession(s: S.Session, c: S.Closure)
    requires SI.Inv(s)
    ensures var t := S.Dispatch(s, c); SI.Inv(t) && t.erases == s.erases && t.destroyed == s.destroyed
  {
    SI.DispatchKeeps(s, c);
  }

  lemma ToChosenKeeps(s: Service, chosen: set<Id>, c: S.Closure)
    requires SessionsKept(s)
    ensures var t := s.(sessions := ToChosen(s.sessions, chosen, c));
            && SessionsKept(t)
            && t.sessions.Keys == s.sessions.Keys
            && (forall id <- s.sessions :: t.sessions[id].erases == s.sessions[id].erases)
  {
    hide SI.Inv, S.Dispatch;
    forall id | id in s.sessions
      ensures var t := S.Dispatch(s.sessions[id], c);
              SI.Inv(t) && t.erases == s.sessions[id].erases && !t.destroyed
    {
      DispatchToSession(s.sessions[id], c);
    }
  }

  /** The counts do not change when the map keeps its keys and their drained flags. */
  lemma SameCounts(s: Service, t: Service)
    requires CountsKept(s) && t.sessions.Keys == s.sessions.Keys
    requires forall id <- s.sessions :: t.sessions[id].erases == s.sessions[id].erases
    requires t == s.(sessions := t.sessions, log := t.log)
    ensures CountsKept(t)
  {
    assert t.sessions == map[] <==> t.sessions.Keys == {};
    assert s.sessions == map[] <==> s.sessions.Keys == {};
  }

  lemma SendKeeps(s: Service, isText: bool, data: string, chosen: set<Id>)
    requires Inv(s)
    ensures Inv(Send(s, isText, data, chosen))
  {
    var m := S.Message(|s.log|, isText, data);
    var t := Send(s, isText, data, chosen);
    ToChosenKeeps(s, chosen, S.SendClosure(m));
    SameCounts(s, t);
    SendOrder(s, m, chosen);
  }

  lemma SendOrder(s: Service, m: S.Message, chosen: set<Id>)
    requires OrderKept(s) && m.serial == |s.log|
    ensures OrderKept(s.(log := s.log + [m], sessions := ToChosen(s.sessions, chosen, S.SendClosure(m))))
  {
    hide S.Dispatch, Inbox;
    forall id | id in s.sessions
      ensures InLogOrder(Inbox(S.Dispatch(s.sessions[id], S.SendClosure(m))), s.log + [m])
    {
      DispatchInbox(s.sessions[id], S.SendClosure(m));
    }
  }

  lemma CloseKeeps(s: Service, reason: string, chosen: set<Id>)
    requires Inv(s)
    ensures Inv(Close(s, reason, chosen))
  {
    ToChosenKeeps(s, chosen, S.CloseClosure(reason));
    SameCounts(s, Close(s, reason, chosen));
    CloseOrder(s, reason, chosen);
  }

  lemma CloseOrder(s: Service, reason: string, chosen: set<Id>)
    requires OrderKept(s)
    ensures OrderKept(Close(s, reason, chosen))
  {
    forall id | id in s.sessions
      ensures InLogOrder(Inbox(S.Dispatch(s.sessions[id], S.CloseClosure(reason))), s.log)
    {
      DispatchInbox(s.sessions[id], S.CloseClosure(reason));
    }
  }

  lemma InnerSessionStep(s: S.Session, e: S.Event)
    requires SI.Inv(s) && !s.destroyed && S.Enabled(s, e) && IsOwn(e)
    ensures var t := S.Step(s, e); SI.Inv(t) && !t.destroyed && s.erases == 0 && t.erases <= 1
  {
    SI.StepKeepsInv(s, e);
    match e
    case ReadDone(_) =>
    case WriteDone(_) =>
    case PingDone(_) =>
    case _ =>
  }

  /** While a session is in the map the service still holds a lock, so on_erase() is never refused. */
  lemma MapHoldsService(s: Service)
    requires CountsKept(s) && s.sessions != map[]
    ensures s.locks.count > 0 && !IsFinished(s)
  {
  }

  /** A session of the service, in the map or already erased. */
  ghost predicate IsSession(s: Service, id: Id) {
    id in s.sessions || id in s.gone
  }

  ghost function SessionOf(s: Service, id: Id): S.Session
    requires IsSession(s, id)
  {
    if id in s.sessions then s.sessions[id] else s.gone[id]
  }

  lemma SessionFacts(s: Service, id: Id)
    requires Inv(s) && IsSession(s, id)
    ensures SI.Inv(SessionOf(s, id)) && InLogOrder(Inbox(SessionOf(s, id)), s.log)
  {
    hide SI.Inv, CountsKept, Inbox, InLogOrder;
  }

  lemma SameSessions(s: Service, t: Service)
    requires SessionsKept(s) && OrderKept(s)
    requires t == s.(locks := t.locks, pending := t.pending, connecting := t.connecting,
                     finishCalls := t.finishCalls, finishErrors := t.finishErrors)
    ensures SessionsKept(t) && OrderKept(t)
  {
    hide SI.Inv, InLogOrder, Inbox;
  }

  lemma InnerKeeps(s: Service, id: Id, e: S.Event)
    requires Inv(s) && Enabled(s, Inner(id, e))
    ensures Inv(InnerStep(s, id, e))
  {
    hide SI.Inv, S.Step, S.Enabled, CountsKept, OrderKept, InLogOrder, Inbox;
    var t := S.Step(s.sessions[id], e);
    SessionFacts(s, id);
    InnerSessionStep(s.sessions[id], e);
    StepKeepsOrder(s.sessions[id], e, s.log);
    assert id !in s.gone;
    hide SessionsKept;
    PutKeeps(s, id, t);
    InnerCounts(s, id, t);
    SameSessions(s.(sessions := s.sessions[id := t]), InnerStep(s, id, e));
  }

  lemma InnerCounts(s: Service, id: Id, t: S.Session)
    requires CountsKept(s) && id in s.sessions && s.sessions[id].erases == 0 && t.erases <= 1
    ensures var u := s.(sessions := s.sessions[id := t]);
            CountsKept(if t.erases > 0 then Dispatch(u, EraseClosure(id)) else u)
  {
    MapHoldsService(s);
    var u := s.(sessions := s.sessions[id := t]);
    assert u.sessions.Keys == s.sessions.Keys;
  }

  lemma EraseKeeps(s: Service, id: Id)
    requires Inv(s) && Enabled(s, RunErase(id))
    ensures Inv(Step(s, RunErase(id)))
  {
    hide SI.Inv, S.DestroyStep, CountsKept, OrderKept, InLogOrder, Inbox;
    EraseCounts(s, id);
    DestroyedSession(s.sessions[id]);
    hide SessionsKept;
    var d := S.DestroyStep(s.sessions[id]);
    EraseSessions(s, id, d);
    var u := s.(sessions := s.sessions - {id}, gone := s.gone[id := d]);
    SameSessions(u, Step(s, RunErase(id)));
  }

  lemma DestroyedSession(s: S.Session)
    requires SI.Inv(s) && s.erases > 0 && !s.destroyed
    ensures var d := S.DestroyStep(s); SI.Inv(d) && d.destroyed && Inbox(d) == Inbox(s)
  {
    SI.DestroyKeeps(s);
  }

  lemma EraseSessions(s: Service, id: Id, d: S.Session)
    requires SessionsKept(s) && OrderKept(s) && id in s.sessions
    requires SI.Inv(d) && d.destroyed && Inbox(d) == Inbox(s.sessions[id])
    ensures var u := s.(sessions := s.sessions - {id}, gone := s.gone[id := d]); SessionsKept(u) && OrderKept(u)
  {
  }

  lemma EraseCounts(s: Service, id: Id)
    requires CountsKept(s) && Enabled(s, RunErase(id))
    ensures id in s.sessions && s.sessions[id].erases > 0
    ensures CountsKept(Step(s, RunErase(id)))
  {
    MapHoldsService(s);
    var t := Step(s, RunErase(id));
    assert t.sessions == s.sessions - {id};
    assert t.pending == s.pending - multiset{EraseClosure(id)};
  }

  lemma ShutdownCallKeeps(s: Service)
    requires CountsKept(s)
    ensures CountsKept(ShutdownCall(s))
  {
  }

  lemma ShutdownBodyKeeps(s: Service)
    requires Inv(s) && Enabled(s, RunShutdown)
    ensures Inv(Step(s, RunShutdown))
  {
    hide SI.Inv, LocksKept, ErasesKept, InLogOrder, Inbox, ToChosen;
    if s.sessions == map[] {
      ShutdownCounts(s, s.sessions);
    } else {
      CloseKeeps(s, "shutdown", s.sessions.Keys);
      ToChosenKeeps(s, s.sessions.Keys, S.CloseClosure("shutdown"));
      ShutdownCounts(s, Close(s, "shutdown", s.sessions.Keys).sessions);
    }
  }

  lemma ShutdownCounts(s: Service, closed: map<Id, S.Session>)
    requires CountsKept(s) && Enabled(s, RunShutdown) && closed.Keys == s.sessions.Keys
    requires forall id <- closed :: closed[id].erases == s.sessions[id].erases
    ensures var u := if s.sessions == map[] then Finish(s) else s.(sessions := closed);
            CountsKept(Done(u.(shutdownRan := true), ShutdownClosure))
  {
    assert s.sessions == map[] <==> s.sessions.Keys == {};
    assert closed == map[] <==> closed.Keys == {};
  }

  /** The counts carry over, and the rest does not look at the locks. */
  lemma LocksOnly(s: Service, t: Service)
    requires Inv(s) && CountsKept(t) && t == s.(locks := t.locks, pending := t.pending)
    ensures Inv(t)
  {
    hide SI.Inv, CountsKept, InLogOrder, Inbox;
  }

  lemma StepKeepsInv(s: Service, e: Event)
    requires Inv(s) && Enabled(s, e)
    ensures Inv(Step(s, e))
  {
    hide Inv, Connect, PassCheck, Send, Close, InnerStep, ShutdownBody, Erase;
    assert CountsKept(s) by { StrongCounts(s); }
    match e
    case CallConnect =>
      CallKeeps(s, ConnectClosure);
      LocksOnly(s, Dispatch(s, ConnectClosure));
    case CallSend(isText, data) =>
      CallKeeps(s, SendClosure(isText, data));
      LocksOnly(s, Dispatch(s, SendClosure(isText, data)));
    case CallClose(reason) =>
      CallKeeps(s, CloseClosure(reason));
      LocksOnly(s, Dispatch(s, CloseClosure(reason)));
    case Shutdown =>
      ShutdownCallKeeps(s);
      LocksOnly(s, ShutdownCall(s));
    case CheckConnect => PassCheckKeeps(s);
    case RunConnect(id, beginning) => RunConnectKeeps(s, id, beginning);
    case RunSend(isText, data, chosen) => RunSendKeeps(s, isText, data, chosen);
    case RunClose(reason, chosen) => RunCloseKeeps(s, reason, chosen);
    case Inner(id, own) => InnerKeeps(s, id, own);
    case RunErase(id) => EraseKeeps(s, id);
    case RunShutdown => ShutdownBodyKeeps(s);
  }

  lemma StrongCounts(s: Service)
    requires Inv(s)
    ensures CountsKept(s)
  {
    hide CountsKept, SessionsKept, OrderKept;
  }

  lemma ConnectPending(s: Service)
    requires CountsKept(s) && s.connecting
    ensures ConnectClosure in s.pending
  {
  }

  lemma RunConnectKeeps(s: Service, id: Id, beginning: Beginning)
    requires Inv(s) && Enabled(s, RunConnect(id, beginning))
    ensures Inv(Step(s, RunConnect(id, beginning)))
  {
    ConnectPending(s);
    hide SI.Inv, CountsKept, SessionsKept, OrderKept, S.Accepting, S.Starting;
    ConnectKeeps(s, id, beginning);
    var t := Connect(s, id, beginning);
    DoneKeeps(t, ConnectClosure);
    LocksOnly(t, Done(t, ConnectClosure));
  }

  lemma RunSendKeeps(s: Service, isText: bool, data: string, chosen: set<Id>)
    requires Inv(s) && Enabled(s, RunSend(isText, data, chosen))
    ensures Inv(Step(s, RunSend(isText, data, chosen)))
  {
    hide SI.Inv, CountsKept, SessionsKept, OrderKept, ToChosen;
    SendKeeps(s, isText, data, chosen);
    var t := Send(s, isText, data, chosen);
    DoneKeeps(t, SendClosure(isText, data));
    LocksOnly(t, Done(t, SendClosure(isText, data)));
  }

  lemma RunCloseKeeps(s: Service, reason: string, chosen: set<Id>)
    requires Inv(s) && Enabled(s, RunClose(reason, chosen))
    ensures Inv(Step(s, RunClose(reason, chosen)))
  {
    hide SI.Inv, CountsKept, SessionsKept, OrderKept, ToChosen;
    CloseKeeps(s, reason, chosen);
    var t := Close(s, reason, chosen);
    DoneKeeps(t, CloseClosure(reason));
    LocksOnly(t, Done(t, CloseClosure(reason)));
  }

  lemma {:induction false} RunKeepsInv(s: Service, run: Run)
    requires Inv(s) && Possible(s, run)
    ensures Inv(Exec(s, run))
    decreases run
  {
    if run.Then? {
      StepKeepsInv(s, run.event);
      RunKeepsInv(Step(s, run.event), run.rest);
    }
  }
}
