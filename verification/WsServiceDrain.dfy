/**
 Teardown of a WebSocket service comes to its end: after the shutdown closure has
 run and the streams are down, every run makes a bounded number of progress steps,
 whatever is still queued on the strand, and it can only stop with the service
 finished and its last lock given up.
 */
module WsServiceDrain {
  import S = WsSessionModel
  import SI = WsSessionInvariants
  import ST = WsSessionTheorems
  import opened WsServiceModel
  import opened WsServiceInvariants

  /**
   What one session still costs: its completions and, until it has drained, the
   erase closure it will dispatch.  A closure on the service's strand weighs one
   more than the number n of sessions it may reach.
   */
  function Load(s: S.Session, n: nat): nat {
    ST.Work(s) + if s.erases == 0 then n + 1 else 0
  }

  ghost function Total(m: map<Id, S.Session>, n: nat): nat
    decreases |m|
  {
    if m == map[] then 0
    else
      var id :| id in m;
      Load(m[id], n) + Total(m - {id}, n)
  }

  lemma {:induction false} TotalWithout(m: map<Id, S.Session>, n: nat, id: Id)
    requires id in m
    ensures Total(m, n) == Load(m[id], n) + Total(m - {id}, n)
    decreases |m|
  {
    hide Load;
    var first :| first in m && Total(m, n) == Load(m[first], n) + Total(m - {first}, n);
    if first != id {
      TotalWithout(m - {first}, n, id);
      TotalWithout(m - {id}, n, first);
      assert m - {first} - {id} == m - {id} - {first};
    }
  }

  lemma TotalUpdated(m: map<Id, S.Session>, n: nat, id: Id, t: S.Session)
    requires id in m
    ensures Total(m[id := t], n) == Total(m, n) - Load(m[id], n) + Load(t, n)
  {
    hide Load;
    TotalWithout(m, n, id);
    TotalWithout(m[id := t], n, id);
    assert m[id := t] - {id} == m - {id};
  }

  /** A request to every session raises the total by at most one for each. */
  lemma {:induction false} TotalRaised(m: map<Id, S.Session>, m': map<Id, S.Session>, n: nat)
    requires m'.Keys == m.Keys && forall id <- m :: Load(m'[id], n) <= Load(m[id], n) + 1
    ensures Total(m', n) <= Total(m, n) + |m|
    decreases |m|
  {
    hide Load;
    if m == map[] {
      assert m' == map[];
    } else {
      var id :| id in m;
      TotalWithout(m, n, id);
      TotalWithout(m', n, id);
      assert (m' - {id}).Keys == (m - {id}).Keys;
      TotalRaised(m - {id}, m' - {id}, n);
    }
  }

  ghost function Measure(s: Service, n: nat): nat {
    (n + 1) * |s.pending| + Total(s.sessions, n)
  }

  predicate IsDown(s: S.Session) {
    !s.streamOpen && s.accepting == 0
  }

  /** The shutdown closure has run, and the streams of the sessions, n at most, are down. */
  ghost predicate Quiet(s: Service, n: nat) {
    && s.shutdownRan
    && |s.sessions| <= n
    && (forall id <- s.sessions :: IsDown(s.sessions[id]))
  }

  /** The steps that the service and its sessions make by themselves, but for the arrival of a control frame. */
  predicate IsProgress(e: Event) {
    match e
    case CheckConnect | RunConnect(_, _) | RunSend(_, _, _) | RunClose(_, _) | RunErase(_) | RunShutdown => true
    case Inner(_, own) => ST.IsCompletion(own)
    case CallConnect | CallSend(_, _) | CallClose(_) | Shutdown => false
  }

  /** Calls from outside that dispatch one more closure. */
  predicate IsCall(e: Event) {
    e.CallConnect? || e.CallSend? || e.CallClose?
  }

  /** What a step costs: progress uses up at least one unit, a call brings one more closure. */
  ghost predicate Drains(s: Service, t: Service, n: nat, e: Event) {
    && Quiet(t, n)
    && Measure(t, n) + (if IsProgress(e) then 1 else 0) <= Measure(s, n) + if IsCall(e) then n + 1 else 0
  }

  lemma DownSession(s: S.Session, e: S.Event)
    requires SI.Inv(s) && S.Enabled(s, e) && IsOwn(e) && IsDown(s)
    ensures var t := S.Step(s, e);
            && IsDown(t)
            && ST.Work(t) + (if ST.IsCompletion(e) then 1 else 0) <= ST.Work(s)
            && (t.erases > s.erases ==> ST.IsCompletion(e))
  {
    ST.DrainStep(s, e);
    hide ST.Work, SI.Inv;
    if !ST.IsCompletion(e) {
      assert e.ControlFrame? || e.StreamLost?;
    }
  }

  lemma SessionIn(s: Service, n: nat, id: Id)
    requires Inv(s) && Quiet(s, n) && id in s.sessions
    ensures SI.Inv(s.sessions[id]) && !s.sessions[id].destroyed && IsDown(s.sessions[id])
  {
    hide SI.Inv, CountsKept, OrderKept, IsDown;
  }

  lemma InnerDrains(s: Service, n: nat, id: Id, e: S.Event)
    requires Inv(s) && Quiet(s, n) && id in s.sessions && S.Enabled(s.sessions[id], e) && IsOwn(e)
    ensures Drains(s, InnerStep(s, id, e), n, Inner(id, e))
  {
    hide Inv, SI.Inv, S.Step, S.Enabled, ST.Work, InnerStep, Measure, IsDown, Quiet;
    SessionIn(s, n, id);
    InnerSessionStep(s.sessions[id], e);
    DownSession(s.sessions[id], e);
    InnerQuiet(s, n, id, e);
    InnerMeasure(s, n, id, e);
  }

  lemma InnerQuiet(s: Service, n: nat, id: Id, e: S.Event)
    requires Quiet(s, n) && id in s.sessions && S.Enabled(s.sessions[id], e) && IsDown(S.Step(s.sessions[id], e))
    ensures Quiet(InnerStep(s, id, e), n)
  {
    hide S.Step, S.Enabled, IsDown;
    var t := S.Step(s.sessions[id], e);
    assert s.sessions[id := t].Keys == s.sessions.Keys;
    SameSize(s.sessions, s.sessions[id := t]);
  }

  lemma InnerMeasure(s: Service, n: nat, id: Id, e: S.Event)
    requires id in s.sessions && S.Enabled(s.sessions[id], e) && s.sessions[id].erases == 0
    ensures Measure(InnerStep(s, id, e), n) + ST.Work(s.sessions[id]) <= Measure(s, n) + ST.Work(S.Step(s.sessions[id], e))
  {
    hide S.Step, S.Enabled, ST.Work, Total;
    var t := S.Step(s.sessions[id], e);
    TotalUpdated(s.sessions, n, id, t);
    DispatchedWeight(s, n, id, t);
  }

  lemma SameSize(m: map<Id, S.Session>, m': map<Id, S.Session>)
    requires m'.Keys == m.Keys
    ensures |m'| == |m|
  {
    assert |m'.Keys| == |m'| && |m.Keys| == |m|;
  }

  /** When a session drains, the weight of its erase closure moves from the session to the strand. */
  lemma DispatchedWeight(s: Service, n: nat, id: Id, t: S.Session)
    requires id in s.sessions && s.sessions[id].erases == 0
    ensures var u := s.(sessions := s.sessions[id := t]);
            var v := if t.erases > 0 then Dispatch(u, EraseClosure(id)) else u;
            (n + 1) * |v.pending| + Load(t, n) <= (n + 1) * |s.pending| + (n + 1) + ST.Work(t)
  {
    hide ST.Work;
    var p := |s.pending|;
    assert |s.pending + multiset{EraseClosure(id)}| == p + 1;
    OneMore(n, p);
  }

  lemma EraseDrains(s: Service, n: nat, id: Id)
    requires Inv(s) && Quiet(s, n) && Enabled(s, RunErase(id))
    ensures Drains(s, Step(s, RunErase(id)), n, RunErase(id))
  {
    hide SI.Inv, S.DestroyStep, Load, CountsKept, SessionsKept, OrderKept, Total, IsDown;
    EraseCounts(s, id);
    TotalWithout(s.sessions, n, id);
    var t := Step(s, RunErase(id));
    assert t.sessions == s.sessions - {id} && t.pending == s.pending - multiset{EraseClosure(id)};
    Fewer(n, s.pending, EraseClosure(id));
    assert |(s.sessions - {id}).Keys| <= |s.sessions.Keys|;
  }

  /** A closure has run. */
  lemma Fewer(n: nat, pending: multiset<Closure>, c: Closure)
    requires c in pending
    ensures (n + 1) * |pending - multiset{c}| + (n + 1) == (n + 1) * |pending|
  {
    var p := |pending - multiset{c}|;
    assert p + 1 == |pending|;
    OneMore(n, p);
  }

  /** A request to a session that is down: at most one more closure. */
  lemma DispatchRaises(s: S.Session, c: S.Closure, n: nat)
    requires SI.Inv(s) && IsDown(s)
    ensures Load(S.Dispatch(s, c), n) <= Load(s, n) + 1 && IsDown(S.Dispatch(s, c))
  {
  }

  lemma TellDrains(s: Service, t: Service, n: nat, chosen: set<Id>, c: S.Closure)
    requires Inv(s) && Quiet(s, n) && t.shutdownRan && t.sessions == ToChosen(s.sessions, chosen, c)
    ensures Quiet(t, n) && Total(t.sessions, n) <= Total(s.sessions, n) + n
  {
    hide SI.Inv, S.Dispatch, Load, CountsKept, OrderKept, Total, IsDown;
    forall id | id in s.sessions
      ensures Load(S.Dispatch(s.sessions[id], c), n) <= Load(s.sessions[id], n) + 1 && IsDown(S.Dispatch(s.sessions[id], c))
    {
      DispatchRaises(s.sessions[id], c, n);
    }
    assert t.sessions.Keys == s.sessions.Keys;
    SameSize(s.sessions, t.sessions);
    TotalRaised(s.sessions, t.sessions, n);
  }

  lemma RequestDrains(s: Service, n: nat, e: Event)
    requires Inv(s) && Quiet(s, n) && Enabled(s, e) && (e.RunSend? || e.RunClose?)
    ensures Drains(s, Step(s, e), n, e)
  {
    hide Inv, Total, ToChosen, IsDown;
    match e {
      case RunSend(isText, data, chosen) =>
        TellDrains(s, Step(s, e), n, chosen, S.SendClosure(S.Message(|s.log|, isText, data)));
        Fewer(n, s.pending, SendClosure(isText, data));
      case RunClose(reason, chosen) =>
        TellDrains(s, Step(s, e), n, chosen, S.CloseClosure(reason));
        Fewer(n, s.pending, CloseClosure(reason));
    }
  }

  /** After the shutdown closure a connect closure is turned away, and none is in progress. */
  lemma ConnectDrains(s: Service, n: nat)
    requires Inv(s) && Quiet(s, n) && Enabled(s, CheckConnect)
    ensures Drains(s, PassCheck(s), n, CheckConnect)
  {
    hide SessionsKept, OrderKept, Total, IsDown;
    Fewer(n, s.pending, ConnectClosure);
  }

  lemma DispatchDrains(s: Service, n: nat, c: Closure, e: Event)
    requires Quiet(s, n) && IsCall(e)
    ensures Drains(s, Dispatch(s, c), n, e)
  {
    hide Total, IsDown;
    var p := |s.pending|;
    assert |s.pending + multiset{c}| == p + 1;
    OneMore(n, p);
  }

  lemma OneMore(n: nat, p: nat)
    ensures (n + 1) * (p + 1) == (n + 1) * p + (n + 1)
  {
  }

  /** A repeated shutdown() does nothing. */
  lemma ShutdownAgainDrains(s: Service, n: nat)
    requires Inv(s) && Quiet(s, n)
    ensures Drains(s, ShutdownCall(s), n, Shutdown)
  {
    hide SessionsKept, OrderKept, ErasesKept, Total, IsDown;
    assert ShutdownCall(s) == s;
  }

  lemma NotAgain(s: Service, e: Event)
    requires Inv(s) && s.shutdownRan && Enabled(s, e)
    ensures !e.RunShutdown? && !e.RunConnect?
  {
    hide SessionsKept, OrderKept;
  }

  lemma DrainStep(s: Service, n: nat, e: Event)
    requires Inv(s) && Quiet(s, n) && Enabled(s, e)
    ensures Drains(s, Step(s, e), n, e)
  {
    hide Inv, Drains, InnerStep, Erase, PassCheck, Dispatch, ShutdownCall, ShutdownBody, Connect, Send, Close, Done;
    NotAgain(s, e);
    match e
    case Inner(id, own) => InnerDrains(s, n, id, own);
    case RunErase(id) => EraseDrains(s, n, id);
    case RunSend(_, _, _) => RequestDrains(s, n, e);
    case RunClose(_, _) => RequestDrains(s, n, e);
    case CheckConnect => ConnectDrains(s, n);
    case CallConnect => DispatchDrains(s, n, ConnectClosure, e);
    case CallSend(isText, data) => DispatchDrains(s, n, SendClosure(isText, data), e);
    case CallClose(reason) => DispatchDrains(s, n, CloseClosure(reason), e);
    case Shutdown => ShutdownAgainDrains(s, n);
  }

  function Progress(run: Run): nat {
    if run.End? then 0 else (if IsProgress(run.event) then 1 else 0) + Progress(run.rest)
  }

  function Calls(run: Run): nat {
    if run.End? then 0 else (if IsCall(run.event) then 1 else 0) + Calls(run.rest)
  }

  /**
   In every run, the progress steps are bounded by the work left, plus a fixed
   amount for each call made on the way.  No session enters any more.
   */
  lemma {:induction false} Teardown(s: Service, n: nat, run: Run)
    requires Inv(s) && Quiet(s, n) && Possible(s, run)
    ensures Quiet(Exec(s, run), n)
    ensures Progress(run) + Measure(Exec(s, run), n) <= Measure(s, n) + (n + 1) * Calls(run)
    decreases run
  {
    hide Inv, Step, Enabled, Measure, Quiet;
    if run.Then? {
      DrainStep(s, n, run.event);
      StepKeepsInv(s, run.event);
      Teardown(Step(s, run.event), n, run.rest);
      OneMore(n, Calls(run.rest));
    }
  }

  lemma SessionCanGoOn(s: S.Session)
    requires SI.Inv(s) && IsDown(s) && s.erases == 0
    ensures var e := ST.NextCompletion(s); S.Enabled(s, e) && IsOwn(e) && ST.IsCompletion(e)
  {
    ST.DrainEndsWithErase(s);
  }

  /** The event that runs a closure; none of them is held up once the shutdown closure has run. */
  function Running(c: Closure): Event {
    match c
    case ConnectClosure => CheckConnect
    case EraseClosure(id) => RunErase(id)
    case ShutdownClosure => RunShutdown
    case SendClosure(isText, data) => RunSend(isText, data, {})
    case CloseClosure(reason) => RunClose(reason, {})
  }

  lemma ClosureCanRun(s: Service, c: Closure)
    requires Inv(s) && s.shutdownRan && c in s.pending
    ensures Enabled(s, Running(c)) && IsProgress(Running(c))
  {
    hide SessionsKept, OrderKept;
  }

  lemma SomeSession(s: Service)
    requires Inv(s) && s.shutdownRan && s.locks.count > 0 && s.pending == multiset{}
    ensures exists id :: id in s.sessions && s.sessions[id].erases == 0
  {
    hide SI.Inv, OrderKept;
    assert s.sessions != map[];
    var id :| id in s.sessions;
    assert s.pending[EraseClosure(id)] == 0;
    assert SI.Inv(s.sessions[id]);
  }

  lemma SessionGoesOn(s: Service, n: nat, id: Id) returns (e: Event)
    requires Inv(s) && Quiet(s, n) && id in s.sessions && s.sessions[id].erases == 0
    ensures IsProgress(e) && Enabled(s, e)
  {
    hide Inv, SI.Inv, IsDown, Quiet, S.Enabled;
    SessionIn(s, n, id);
    SessionCanGoOn(s.sessions[id]);
    e := Inner(id, ST.NextCompletion(s.sessions[id]));
  }

  /** As long as the service holds a lock, some step that makes progress can happen. */
  lemma TeardownIsNotStuck(s: Service, n: nat) returns (e: Event)
    requires Inv(s) && Quiet(s, n) && s.locks.count > 0
    ensures IsProgress(e) && Enabled(s, e)
  {
    if c :| c in s.pending {
      hide Inv, Enabled;
      ClosureCanRun(s, c);
      e := Running(c);
    } else {
      assert s.pending == multiset{};
      hide Inv, Enabled;
      SomeSession(s);
      var id :| id in s.sessions && s.sessions[id].erases == 0;
      e := SessionGoesOn(s, n, id);
    }
  }

  /** With the last lock gone the service has finished, and no session is left. */
  lemma TeardownEnds(s: Service, n: nat)
    requires Inv(s) && Quiet(s, n)
    ensures s.locks.count == 0 <==> s.sessions == map[] && s.pending == multiset{}
    ensures s.locks.count == 0 ==> s.finishCalls == 1 && s.finishErrors == 0
  {
    hide SI.Inv, InLogOrder, Inbox, IsDown;
  }
}
