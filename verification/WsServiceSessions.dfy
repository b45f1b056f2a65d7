/**
 The sessions of a service run as the session machine does: every run of a service
 contains, for each session, a run of that session.  What holds of all runs of one
 session therefore holds inside the service.
 */
module WsServiceSessions {
  import S = WsSessionModel
  import opened Outcomes
  import SE = WsSessionEffects
  import SI = WsSessionInvariants
  import ST = WsSessionTheorems
  import opened WsServiceModel
  import opened WsServiceInvariants

  /** What a step of the service is for one of its sessions: one event or nothing. */
  function OwnEvent(s: Service, e: Event, id: Id): (own: seq<S.Event>)
    ensures |own| <= 1
  {
    match e
    case Inner(i, own) => if i == id then [own] else []
    case RunErase(i) => if i == id && id in s.sessions then [S.Destroy] else []
    case RunSend(isText, data, chosen) =>
      if id in s.sessions && id in chosen then [S.CallSend(S.Message(|s.log|, isText, data))] else []
    case RunClose(reason, chosen) => if id in s.sessions && id in chosen then [S.CallClose(reason)] else []
    case RunShutdown => if id in s.sessions then [S.CallClose("shutdown")] else []
    case _ => []
  }

  /** The part of a service's run that one session takes part in. */
  ghost function OwnRun(s: Service, run: Run, id: Id): S.Run
    requires Possible(s, run)
    decreases run
  {
    if run.End? then S.End
    else
      var own := OwnEvent(s, run.event, id);
      var rest := OwnRun(Step(s, run.event), run.rest, id);
      if own == [] then rest else S.Then(own[0], rest)
  }

  /** One step of the service is at most one step of the session. */
  ghost predicate StepsAlong(s: Service, t: Service, e: Event, id: Id) {
    && IsSession(s, id) && IsSession(t, id)
    && var own := OwnEvent(s, e, id);
       if own == [] then SessionOf(t, id) == SessionOf(s, id)
       else S.Enabled(SessionOf(s, id), own[0]) && SessionOf(t, id) == S.Step(SessionOf(s, id), own[0])
  }

  lemma InMap(s: Service, id: Id)
    requires Inv(s)
    ensures id in s.sessions ==> id !in s.gone && !s.sessions[id].destroyed
    ensures id in s.sessions && EraseClosure(id) in s.pending ==> s.sessions[id].erases > 0
    ensures EraseClosure(id) in s.pending ==> id in s.sessions
  {
    hide SI.Inv, LocksKept, ShutdownKept, OrderKept;
  }

  lemma ToldAlong(s: Service, t: Service, e: Event, id: Id, chosen: set<Id>, c: S.Closure)
    requires IsSession(s, id) && (id in s.sessions ==> !s.sessions[id].destroyed)
    requires t.sessions == ToChosen(s.sessions, chosen, c) && t.gone == s.gone
    requires OwnEvent(s, e, id) == if id in s.sessions && id in chosen then
                                     [if c.SendClosure? then S.CallSend(c.message) else S.CallClose(c.reason)]
                                   else []
    ensures StepsAlong(s, t, e, id)
  {
    hide S.Dispatch;
    assert t.sessions.Keys == s.sessions.Keys;
  }

  lemma InnerAlong(s: Service, i: Id, own: S.Event, id: Id)
    requires IsSession(s, id) && (id in s.sessions ==> id !in s.gone) && Enabled(s, Inner(i, own)) && i !in s.gone
    ensures StepsAlong(s, InnerStep(s, i, own), Inner(i, own), id)
  {
    hide S.Step, S.Enabled;
  }

  lemma EraseAlong(s: Service, i: Id, id: Id)
    requires IsSession(s, id) && Enabled(s, RunErase(i)) && i in s.sessions
    requires s.sessions[i].erases > 0 && !s.sessions[i].destroyed && i !in s.gone
    ensures StepsAlong(s, Step(s, RunErase(i)), RunErase(i), id)
  {
    hide S.DestroyStep;
  }

  lemma ConnectAlong(s: Service, i: Id, beginning: Beginning, id: Id)
    requires IsSession(s, id) && Enabled(s, RunConnect(i, beginning))
    ensures StepsAlong(s, Step(s, RunConnect(i, beginning)), RunConnect(i, beginning), id)
  {
    hide S.Accepting, S.Starting;
  }

  lemma CallAlong(s: Service, t: Service, e: Event, id: Id)
    requires IsSession(s, id) && t.sessions == s.sessions && t.gone == s.gone && OwnEvent(s, e, id) == []
    ensures StepsAlong(s, t, e, id)
  {
  }

  lemma RequestAlong(s: Service, e: Event, id: Id)
    requires IsSession(s, id) && (id in s.sessions ==> !s.sessions[id].destroyed)
    requires Enabled(s, e) && (e.RunSend? || e.RunClose?)
    ensures StepsAlong(s, Step(s, e), e, id)
  {
    hide StepsAlong, ToChosen;
    match e
    case RunSend(isText, data, chosen) =>
      ToldAlong(s, Step(s, e), e, id, chosen, S.SendClosure(S.Message(|s.log|, isText, data)));
    case RunClose(reason, chosen) => ToldAlong(s, Step(s, e), e, id, chosen, S.CloseClosure(reason));
  }

  lemma DispatchAlong(s: Service, c: Closure, e: Event, id: Id)
    requires IsSession(s, id) && OwnEvent(s, e, id) == []
    ensures StepsAlong(s, Dispatch(s, c), e, id)
  {
  }

  lemma CheckAlong(s: Service, id: Id)
    requires IsSession(s, id)
    ensures StepsAlong(s, PassCheck(s), CheckConnect, id)
  {
  }

  lemma ShutdownCallAlong(s: Service, id: Id)
    requires IsSession(s, id)
    ensures StepsAlong(s, ShutdownCall(s), Shutdown, id)
  {
  }

  lemma StepAlong(s: Service, e: Event, id: Id)
    requires Inv(s) && Enabled(s, e) && IsSession(s, id)
    ensures StepsAlong(s, Step(s, e), e, id)
  {
    hide Inv, StepsAlong, InnerStep, ShutdownBody, Send, Close, Erase, Connect, PassCheck, Dispatch, ShutdownCall, Done;
    InMap(s, id);
    match e
    case RunSend(_, _, _) => RequestAlong(s, e, id);
    case RunClose(_, _) => RequestAlong(s, e, id);
    case RunShutdown => ShutdownAlong(s, id);
    case Inner(i, own) =>
      InMap(s, i);
      InnerAlong(s, i, own, id);
    case RunErase(i) =>
      InMap(s, i);
      EraseAlong(s, i, id);
    case RunConnect(i, beginning) => ConnectAlong(s, i, beginning, id);
    case CallConnect => DispatchAlong(s, ConnectClosure, e, id);
    case CallSend(isText, data) => DispatchAlong(s, SendClosure(isText, data), e, id);
    case CallClose(reason) => DispatchAlong(s, CloseClosure(reason), e, id);
    case CheckConnect => CheckAlong(s, id);
    case Shutdown => ShutdownCallAlong(s, id);
  }

  lemma ShutdownAlong(s: Service, id: Id)
    requires IsSession(s, id) && (id in s.sessions ==> !s.sessions[id].destroyed) && Enabled(s, RunShutdown)
    ensures StepsAlong(s, Step(s, RunShutdown), RunShutdown, id)
  {
    hide StepsAlong, ToChosen;
    var t := Step(s, RunShutdown);
    if s.sessions == map[] {
      CallAlong(s, t, RunShutdown, id);
    } else {
      ToldAlong(s, t, RunShutdown, id, s.sessions.Keys, S.CloseClosure("shutdown"));
    }
  }

  /** Every run of a service is a run of each of its sessions. */
  lemma {:induction false} SessionsRunInside(s: Service, run: Run, id: Id)
    requires Inv(s) && Possible(s, run) && IsSession(s, id)
    ensures IsSession(Exec(s, run), id)
    ensures var own := OwnRun(s, run, id);
            S.Possible(SessionOf(s, id), own) && SessionOf(Exec(s, run), id) == S.Exec(SessionOf(s, id), own)
    decreases run
  {
    hide Inv, Step, Enabled, SessionOf, IsSession, S.Step, S.Enabled;
    if run.Then? {
      StepAlong(s, run.event, id);
      StepKeepsInv(s, run.event);
      SessionsRunInside(Step(s, run.event), run.rest, id);
    }
  }

  /** What enters the map is a session at its beginning. */
  lemma EntersInitial(s: Service, id: Id, beginning: Beginning)
    requires Enabled(s, RunConnect(id, beginning)) && !beginning.ConnectFails?
    ensures id in Step(s, RunConnect(id, beginning)).sessions
    ensures S.Initial(Step(s, RunConnect(id, beginning)).sessions[id])
    ensures SE.Begun(Step(s, RunConnect(id, beginning)).sessions[id], beginning.Starts?, beginning.streamOpen)
  {
    hide S.Accepting, S.Starting, SE.Begun;
    SE.AcceptingBegins(beginning.streamOpen);
    SE.StartingBegins(beginning.streamOpen);
    BegunInitial(beginning.streamOpen);
  }

  lemma BegunInitial(streamOpen: bool)
    ensures S.Initial(S.Accepting(streamOpen)) && S.Initial(S.Starting(streamOpen))
  {
    assert S.Accepting(streamOpen).armed == streamOpen;
    assert S.Starting(streamOpen).armed == streamOpen;
  }

  /**
   From its entry to its erasure, over any run of the service: a session reports
   either nothing or on_open, every message in the order it was read, on_close.
   */
  lemma LifeOfSession(s: Service, id: Id, beginning: Beginning, run: Run)
    requires Inv(s) && Enabled(s, RunConnect(id, beginning)) && !beginning.ConnectFails?
    requires Possible(s, Then(RunConnect(id, beginning), run)) && id in Exec(s, Then(RunConnect(id, beginning), run)).gone
    ensures var t := Step(s, RunConnect(id, beginning));
            var d := Exec(t, run).gone[id];
            d.delivered == if d.isOpen then [S.OnOpen] + ST.Messages(OwnRun(t, run, id)) + [S.OnClose] else []
  {
    hide Inv, Step, Enabled, S.Step, S.Enabled, S.Initial;
    var t := Step(s, RunConnect(id, beginning));
    EntersInitial(s, id, beginning);
    StepKeepsInv(s, RunConnect(id, beginning));
    SessionsRunInside(t, run, id);
    ST.CallbackTrace(t.sessions[id], OwnRun(t, run, id));
    RunKeepsInv(t, run);
    GoneIsDestroyed(Exec(t, run), id);
  }

  lemma GoneIsDestroyed(s: Service, id: Id)
    requires Inv(s) && id in s.gone
    ensures id !in s.sessions && s.gone[id].destroyed
  {
    hide SI.Inv, CountsKept, OrderKept;
  }

  /**
   What the shutdown closure does to a session that still holds a lock, over every
   continuation that runs the close closure it queues: an earlier reason stays, else
   the reason is "shutdown" if the stream is open when that closure's turn comes, else
   it is that of the first later request that finds the stream open.
   */
  lemma ShutdownClosesIff(s: Service, run: Run, id: Id)
    requires Inv(s) && Enabled(s, RunShutdown) && id in s.sessions && s.sessions[id].locks != 0
    requires Possible(Step(s, RunShutdown), run)
    requires |s.sessions[id].closures| < ST.ClosuresRun(OwnRun(Step(s, RunShutdown), run, id))
    ensures var t := Step(s, RunShutdown);
            var own := OwnRun(t, run, id);
            && IsSession(t, id) && SessionOf(t, id).closures == s.sessions[id].closures + [S.CloseClosure("shutdown")]
            && S.Possible(SessionOf(t, id), own)
            && IsSession(Exec(t, run), id)
            && var (at, rest) := ST.FromClosure(SessionOf(t, id), own, |s.sessions[id].closures|);
               && at.closures != [] && at.closures[0] == S.CloseClosure("shutdown")
               && SessionOf(Exec(t, run), id).writer.closeReason ==
                  if at.writer.closeReason.Some? then at.writer.closeReason
                  else if at.streamOpen then Some("shutdown")
                  else SE.FirstRequest(S.Step(at, S.RunClosure), rest.rest)
  {
    var t := Step(s, RunShutdown);
    ShutdownQueues(s, id);
    hide Inv, Step, Enabled, S.Step, S.Enabled, SessionOf, IsSession;
    StepKeepsInv(s, RunShutdown);
    SessionsRunInside(t, run, id);
    SessionFacts(t, id);
    ST.QueuedClose(SessionOf(t, id), OwnRun(t, run, id), |s.sessions[id].closures|);
  }

  lemma ShutdownQueues(s: Service, id: Id)
    requires Enabled(s, RunShutdown) && id in s.sessions && s.sessions[id].locks != 0
    ensures var t := Step(s, RunShutdown);
            && id in t.sessions && IsSession(t, id) && SessionOf(t, id) == t.sessions[id]
            && t.sessions[id].closures == s.sessions[id].closures + [S.CloseClosure("shutdown")]
  {
  }
}
