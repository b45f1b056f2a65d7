/** What holds of whole runs of one WebSocket service. */
module WsServiceTheorems {
  import HandlerLocks
  import opened Outcomes
  import S = WsSessionModel
  import SI = WsSessionInvariants
  import opened WsServiceModel
  import opened WsServiceInvariants

  lemma InitialInv()
    ensures Inv(INITIAL)
  {
  }

  // ---- shutdown ----

  /**
   Over every interleaving: on_shutdown_finished() is called at most once, never in
   error, and it has been called exactly when the shutdown closure has run and all
   sessions are erased.
   */
  lemma FinishOnce(run: Run)
    requires Possible(INITIAL, run)
    ensures var end := Exec(INITIAL, run);
            && end.finishErrors == 0
            && end.finishCalls == (if end.shutdownRan && end.sessions == map[] then 1 else 0)
            && end.locks.count == HandlerLocks.Own(end.locks) + |end.pending|
            && (end.finishCalls == 1 <==> HandlerLocks.Own(end.locks) == 0)
  {
    InitialInv();
    RunKeepsInv(INITIAL, run);
  }

  // ---- entries after shutdown() ----

  /** Every session that ever entered the map. */
  function Known(s: Service): set<Id> {
    s.sessions.Keys + s.gone.Keys
  }

  function EnteredBy(e: Event): set<Id> {
    if e.RunConnect? && !e.beginning.ConnectFails? then {e.id} else {}
  }

  /** The sessions that enter the map in a run. */
  function Entered(run: Run): set<Id> {
    if run.End? then {} else EnteredBy(run.event) + Entered(run.rest)
  }

  /** What a closure does to who is in the map, apart from entries; the flags stay. */
  predicate NoEntry(s: Service, t: Service) {
    && Known(t) == Known(s) && t.sessions.Keys <= s.sessions.Keys
    && t.locks.run == s.locks.run && t.connecting == s.connecting
  }

  lemma EraseEntersNone(s: Service, id: Id)
    ensures NoEntry(s, Step(s, RunErase(id)))
    requires Enabled(s, RunErase(id))
  {
    hide S.DestroyStep;
  }

  lemma InnerEntersNone(s: Service, id: Id, e: S.Event)
    requires Enabled(s, Inner(id, e))
    ensures NoEntry(s, InnerStep(s, id, e))
  {
    hide S.Step, S.Enabled;
    assert s.sessions[id := S.Step(s.sessions[id], e)].Keys == s.sessions.Keys;
  }

  lemma ToChosenEntersNone(s: Service, t: Service, chosen: set<Id>, c: S.Closure)
    requires t.sessions == ToChosen(s.sessions, chosen, c)
    requires t.gone == s.gone && t.locks.run == s.locks.run && t.connecting == s.connecting
    ensures NoEntry(s, t)
  {
  }

  lemma ShutdownEntersNone(s: Service)
    requires Enabled(s, RunShutdown)
    ensures NoEntry(s, Step(s, RunShutdown))
  {
    hide ToChosen;
    if s.sessions != map[] {
      ToChosenEntersNone(s, Step(s, RunShutdown), s.sessions.Keys, S.CloseClosure("shutdown"));
    }
  }

  lemma ConnectEnters(s: Service, id: Id, beginning: Beginning)
    ensures var t := Connect(s, id, beginning);
            && Known(t) == Known(s) + EnteredBy(RunConnect(id, beginning))
            && t.sessions.Keys == s.sessions.Keys + EnteredBy(RunConnect(id, beginning))
            && t.locks == s.locks && !t.connecting
  {
    hide S.Accepting, S.Starting;
    var t := Connect(s, id, beginning);
    assert t.sessions.Keys == s.sessions.Keys + EnteredBy(RunConnect(id, beginning));
  }

  /** What a step does to who is known, who is in the map, and whether anyone may still enter. */
  predicate Entries(s: Service, t: Service, e: Event) {
    && Known(t) == Known(s) + EnteredBy(e)
    && t.sessions.Keys <= s.sessions.Keys + EnteredBy(e)
    && (e.RunConnect? ==> s.connecting)
    && (!s.locks.run ==> !t.locks.run && t.connecting == (s.connecting && !e.RunConnect?))
  }

  lemma NoEntryEntries(s: Service, t: Service, e: Event)
    requires NoEntry(s, t) && EnteredBy(e) == {} && !e.RunConnect?
    ensures Entries(s, t, e)
  {
  }

  lemma EntryStep(s: Service, e: Event)
    requires Enabled(s, e)
    ensures Entries(s, Step(s, e), e)
  {
    hide Entries, PassCheck, ShutdownCall;
    match e
    case CheckConnect => CheckEntries(s);
    case Shutdown => ShutdownCallEntries(s);
    case RunConnect(id, beginning) => ConnectEntries(s, id, beginning);
    case _ => OtherStep(s, e);
  }

  lemma ConnectEntries(s: Service, id: Id, beginning: Beginning)
    requires Enabled(s, RunConnect(id, beginning))
    ensures Entries(s, Step(s, RunConnect(id, beginning)), RunConnect(id, beginning))
  {
    ConnectEnters(s, id, beginning);
    hide Connect;
  }

  lemma CheckEntries(s: Service)
    requires Enabled(s, CheckConnect)
    ensures Entries(s, PassCheck(s), CheckConnect)
  {
    hide Entries;
    FlagEntries(s, PassCheck(s), CheckConnect);
  }

  lemma ShutdownCallEntries(s: Service)
    ensures Entries(s, ShutdownCall(s), Shutdown)
  {
    hide Entries;
    FlagEntries(s, ShutdownCall(s), Shutdown);
  }

  lemma FlagEntries(s: Service, t: Service, e: Event)
    requires t == s.(locks := t.locks, pending := t.pending, connecting := t.connecting) && EnteredBy(e) == {} && !e.RunConnect?
    requires !s.locks.run ==> !t.locks.run && t.connecting == s.connecting
    ensures Entries(s, t, e)
  {
  }

  lemma OtherStep(s: Service, e: Event)
    requires Enabled(s, e) && !e.RunConnect? && !e.CheckConnect? && !e.Shutdown?
    ensures Entries(s, Step(s, e), e)
  {
    hide Entries, NoEntry, Step, Enabled;
    OtherEntersNone(s, e);
    NoEntryEntries(s, Step(s, e), e);
  }

  lemma RequestEntersNone(s: Service, e: Event)
    requires Enabled(s, e) && (e.RunSend? || e.RunClose?)
    ensures NoEntry(s, Step(s, e))
  {
    hide NoEntry, ToChosen;
    match e
    case RunSend(isText, data, chosen) =>
      ToChosenEntersNone(s, Step(s, e), chosen, S.SendClosure(S.Message(|s.log|, isText, data)));
    case RunClose(reason, chosen) => ToChosenEntersNone(s, Step(s, e), chosen, S.CloseClosure(reason));
  }

  lemma OtherEntersNone(s: Service, e: Event)
    requires Enabled(s, e) && !e.RunConnect? && !e.CheckConnect? && !e.Shutdown?
    ensures NoEntry(s, Step(s, e))
  {
    hide NoEntry, InnerStep, Erase, Send, Close, ShutdownBody, Dispatch, Done;
    match e
    case RunSend(_, _, _) => RequestEntersNone(s, e);
    case RunClose(_, _) => RequestEntersNone(s, e);
    case Inner(id, own) => InnerEntersNone(s, id, own);
    case RunErase(id) => EraseEntersNone(s, id);
    case RunShutdown => ShutdownEntersNone(s);
    case CallConnect => DispatchEntersNone(s, ConnectClosure);
    case CallSend(isText, data) => DispatchEntersNone(s, SendClosure(isText, data));
    case CallClose(reason) => DispatchEntersNone(s, CloseClosure(reason));
  }

  lemma DispatchEntersNone(s: Service, c: Closure)
    ensures NoEntry(s, Dispatch(s, c))
  {
  }

  lemma JoinEntries(known: set<Id>, entered: set<Id>, later: set<Id>, inMap: set<Id>, inMapThen: set<Id>, inMapLater: set<Id>)
    requires inMapThen <= inMap + entered && inMapLater <= inMapThen + later
    ensures (known + entered) + later == known + (entered + later) && inMapLater <= inMap + (entered + later)
  {
  }

  /**
   From the call of shutdown() on, at most one more session enters the map, and only
   if its connect closure had passed the is_shutdown() check before.
   */
  lemma {:induction false} EntriesAfterShutdown(s: Service, run: Run)
    requires Possible(s, run) && !s.locks.run
    ensures Known(Exec(s, run)) == Known(s) + Entered(run)
    ensures Exec(s, run).sessions.Keys <= s.sessions.Keys + Entered(run)
    ensures |Entered(run)| <= 1 && (Entered(run) != {} ==> s.connecting)
    decreases run
  {
    hide Step, Enabled, Known;
    if run.Then? {
      var t := Step(s, run.event);
      EntryStep(s, run.event);
      EntriesAfterShutdown(t, run.rest);
      JoinEntries(Known(s), EnteredBy(run.event), Entered(run.rest), s.sessions.Keys, t.sessions.Keys, Exec(s, run).sessions.Keys);
      if run.event.RunConnect? {
        assert Entered(run.rest) == {};
        assert Entered(run) == EnteredBy(run.event);
      } else {
        assert Entered(run) == Entered(run.rest);
      }
    }
  }

  /** And one can enter exactly then. */
  lemma EntersIffPassedCheck(s: Service)
    requires !s.locks.run
    ensures (exists run :: Possible(s, run) && Entered(run) != {}) <==> s.connecting
  {
    if s.connecting {
      var last := LastEntry(s);
      assert Possible(s, last) && Entered(last) != {};
    }
    hide Possible, Entered;
    forall run | Possible(s, run) && Entered(run) != {} ensures s.connecting {
      EntriesAfterShutdown(s, run);
    }
  }

  lemma LastEntry(s: Service) returns (run: Run)
    requires s.connecting
    ensures Possible(s, run) && Entered(run) != {}
  {
    hide Step;
    var id := UnusedId(Known(s));
    run := Then(RunConnect(id, Starts(true)), End);
    assert Entered(run) == {id} + {};
  }

  /** It does happen: shutdown() is called while a connect is in progress. */
  lemma EntryAfterShutdown(h: Service) returns (run: Run)
    requires h == INITIAL
    ensures Possible(h, run) && Exec(h, run).connecting && !Exec(h, run).locks.run
  {
    var s1 := Step(h, CallConnect);
    var s2 := Step(s1, CheckConnect);
    var r2 := Then(Shutdown, End);
    assert Possible(s2, r2) && Exec(s2, r2) == Step(s2, Shutdown);
    var r1 := Then(CheckConnect, r2);
    assert Possible(s1, r1) && Exec(s1, r1) == Exec(s2, r2);
    run := Then(CallConnect, r1);
  }

  /** After on_shutdown_finished() the map stays empty and the call is not repeated. */
  lemma NothingAfterFinish(s: Service, run: Run)
    requires Inv(s) && Possible(s, run) && IsFinished(s)
    ensures Exec(s, run).sessions == map[] && Exec(s, run).finishCalls == s.finishCalls == 1
  {
    hide SI.Inv, Inbox, InLogOrder, Step, Enabled, Exec, Possible;
    EntriesAfterShutdown(s, run);
    RunKeepsInv(s, run);
    assert s.sessions.Keys == {};
    assert Exec(s, run).sessions.Keys == {};
    StaysFinished(s, run);
  }

  lemma {:induction false} StaysFinished(s: Service, run: Run)
    requires Possible(s, run) && s.shutdownRan
    ensures Exec(s, run).shutdownRan
    decreases run
  {
    hide Enabled;
    if run.Then? {
      FlagStays(s, run.event);
      StaysFinished(Step(s, run.event), run.rest);
    }
  }

  lemma FlagStays(s: Service, e: Event)
    requires Enabled(s, e) && s.shutdownRan
    ensures Step(s, e).shutdownRan
  {
    hide S.Step, S.Dispatch, S.DestroyStep, S.Accepting, S.Starting;
  }

  /** The last lock of the service is given up only with nothing left: no session, no closure. */
  lemma ZeroMeansDone(s: Service)
    requires Inv(s) && s.locks.count == 0
    ensures IsFinished(s) && s.finishCalls == 1 && s.sessions == map[] && s.pending == multiset{}
  {
  }

  /** The erase closure with is_shutdown() in the place of its flag. */
  function EraseTestingLock(s: Service, id: Id): Service {
    Done(Erase(s, id, HandlerLocks.IsShutdown(s.locks)), EraseClosure(id))
  }

  /** The shutdown closure reports the finish a second time, in error. */
  ghost predicate FinishesAgain(s: Service) {
    && Enabled(s, RunShutdown)
    && Step(s, RunShutdown).finishCalls == 2 && Step(s, RunShutdown).finishErrors == 1
  }

  lemma CalledBeforeErase(s: Service, id: Id)
    requires Inv(s) && s.locks.run && Enabled(s, RunErase(id)) && s.sessions.Keys == {id}
    ensures Enabled(s, Shutdown)
    ensures var t := Step(s, Shutdown);
            && t.sessions == s.sessions && t.finishCalls == t.finishErrors == 0 && !t.connecting
            && !t.locks.run && t.locks.shutdown && ShutdownClosure in t.pending
  {
    hide SessionsKept, OrderKept, ErasesKept;
  }

  lemma ErasedTooEarly(t: Service, id: Id)
    requires t.sessions.Keys == {id} && t.finishCalls == t.finishErrors == 0 && !t.connecting
    requires !t.locks.run && t.locks.shutdown && ShutdownClosure in t.pending
    ensures EraseTestingLock(t, id).finishCalls == 1 && FinishesAgain(EraseTestingLock(t, id))
  {
    hide S.DestroyStep, ToChosen;
    assert (t.sessions - {id}).Keys == {};
    assert t.sessions - {id} == map[];
  }

  /**
   The erase closure has to test its own flag.  Tested against is_shutdown()
   instead, a service whose last session is erased between the call of shutdown()
   and its closure is reported finished twice, the second time in error.
   */
  lemma NeedsOwnFlag(s: Service, id: Id)
    requires Inv(s) && s.locks.run && Enabled(s, RunErase(id)) && s.sessions.Keys == {id}
    ensures Enabled(s, Shutdown)
    ensures EraseTestingLock(Step(s, Shutdown), id).finishCalls == 1
    ensures FinishesAgain(EraseTestingLock(Step(s, Shutdown), id))
  {
    hide Inv, Enabled, Step, EraseTestingLock, FinishesAgain;
    CalledBeforeErase(s, id);
    ErasedTooEarly(Step(s, Shutdown), id);
  }

  lemma Prepend(s: Service, e: Event, rest: Run)
    requires Enabled(s, e) && Possible(Step(s, e), rest)
    ensures Possible(s, Then(e, rest)) && Exec(s, Then(e, rest)) == Exec(Step(s, e), rest)
  {
    hide Step, Enabled;
  }

  /** A server session whose handshake fails. */
  lemma RefusedSession(s: S.Session)
    requires s == S.Accepting(false)
    ensures S.Enabled(s, S.AcceptDone(S.Failed)) && s.erases == 0
    ensures var t := S.Step(s, S.AcceptDone(S.Failed));
            && t.erases == 0 && S.Enabled(t, S.AbortedTimerHandler)
            && S.Step(t, S.AbortedTimerHandler).erases == 1
  {
    hide S.NoActivity, S.NoNewWait;
  }

  /** One session in the map, and its own steps so far. */
  predicate Single(s: Service, t: S.Session) {
    s == INITIAL.(sessions := map[0 := t])
  }

  lemma SingleStep(s: Service, t: S.Session, e: S.Event)
    requires Single(s, t) && S.Enabled(t, e) && IsOwn(e)
    ensures Enabled(s, Inner(0, e))
    ensures t.erases == S.Step(t, e).erases ==> Single(Step(s, Inner(0, e)), S.Step(t, e))
    ensures t.erases < S.Step(t, e).erases ==>
              Step(s, Inner(0, e)) == Dispatch(INITIAL.(sessions := map[0 := S.Step(t, e)]), EraseClosure(0))
  {
    hide S.Step, S.Enabled;
    assert s.sessions[0 := S.Step(t, e)] == map[0 := S.Step(t, e)];
  }

  lemma FirstEntry(h: Service) returns (s1: Service, s2: Service, s3: Service)
    requires h == INITIAL
    ensures Enabled(h, CallConnect) && s1 == Step(h, CallConnect)
    ensures Enabled(s1, CheckConnect) && s2 == Step(s1, CheckConnect)
    ensures Enabled(s2, RunConnect(0, Accepts(false))) && s3 == Step(s2, RunConnect(0, Accepts(false)))
    ensures Single(s3, S.Accepting(false))
  {
    hide S.Accepting;
    s1 := Step(h, CallConnect);
    s2 := Step(s1, CheckConnect);
    s3 := Step(s2, RunConnect(0, Accepts(false)));
    assert s3.pending == multiset{};
  }

  lemma RefusalDrains(s: Service) returns (run: Run)
    requires Single(s, S.Accepting(false))
    ensures Possible(s, run)
    ensures var end := Exec(s, run); end.locks.run && Enabled(end, RunErase(0)) && end.sessions.Keys == {0}
  {
    hide S.Step, S.Enabled, S.Accepting, Step, Enabled, Single, INITIAL, Dispatch;
    var a := S.Accepting(false);
    RefusedSession(a);
    var b := S.Step(a, S.AcceptDone(S.Failed));
    SingleStep(s, a, S.AcceptDone(S.Failed));
    var t := Step(s, Inner(0, S.AcceptDone(S.Failed)));
    SingleStep(t, b, S.AbortedTimerHandler);
    var u := Step(t, Inner(0, S.AbortedTimerHandler));
    ErasePending(u, S.Step(b, S.AbortedTimerHandler));
    assert Possible(u, End) && Exec(u, End) == u;
    hide Possible, Exec;
    Prepend(t, Inner(0, S.AbortedTimerHandler), End);
    run := Then(Inner(0, S.AbortedTimerHandler), End);
    Prepend(s, Inner(0, S.AcceptDone(S.Failed)), run);
    run := Then(Inner(0, S.AcceptDone(S.Failed)), run);
  }

  lemma ErasePending(u: Service, d: S.Session)
    requires u == Dispatch(INITIAL.(sessions := map[0 := d]), EraseClosure(0))
    ensures u.locks.run && Enabled(u, RunErase(0)) && u.sessions.Keys == {0}
  {
  }

  /** NeedsOwnFlag() starts from a state that runs reach: the only session's handshake fails. */
  lemma LastSessionDrains(h: Service) returns (run: Run)
    requires h == INITIAL
    ensures Possible(h, run)
    ensures var s := Exec(h, run); s.locks.run && Enabled(s, RunErase(0)) && s.sessions.Keys == {0}
  {
    var s1, s2, s3 := FirstEntry(h);
    hide S.Accepting, Step, Enabled, Possible, Exec, Single, INITIAL;
    run := RefusalDrains(s3);
    Prepend(s2, RunConnect(0, Accepts(false)), run);
    run := Then(RunConnect(0, Accepts(false)), run);
    Prepend(s1, CheckConnect, run);
    run := Then(CheckConnect, run);
    Prepend(h, CallConnect, run);
    run := Then(CallConnect, run);
  }

  // ---- erasing ----

  /** An erase closure runs only for a session that is in the map, has drained, and has no other erase under way. */
  lemma EraseFindsDrained(s: Service, id: Id)
    requires Inv(s) && Enabled(s, RunErase(id))
    ensures id in s.sessions && s.sessions[id].locks == 0 && SI.Outstanding(s.sessions[id]) == 0
    ensures s.pending[EraseClosure(id)] == 1
    ensures Step(s, RunErase(id)).pending[EraseClosure(id)] == 0
  {
    assert SI.Inv(s.sessions[id]);
    hide SI.WriterKept, SI.CallbacksKept, SI.TimerKept, SI.AcceptKept, Inbox, InLogOrder, S.DestroyStep;
  }

  /** An erased session's callbacks are complete: nothing, or open, its messages, close. */
  lemma ErasedSessionsReportedClose(run: Run, id: Id)
    requires Possible(INITIAL, run) && id in Exec(INITIAL, run).gone
    ensures var d := Exec(INITIAL, run).gone[id];
            d.delivered == if d.isOpen then [S.OnOpen] + d.received + [S.OnClose] else []
  {
    InitialInv();
    RunKeepsInv(INITIAL, run);
    GoneTrace(Exec(INITIAL, run).gone[id]);
  }

  lemma GoneTrace(d: S.Session)
    requires SI.Inv(d) && d.destroyed
    ensures d.delivered == if d.isOpen then [S.OnOpen] + d.received + [S.OnClose] else []
  {
    assert d.callbacks == [];
  }

  // ---- broadcast ----

  lemma OnWire(s: S.Session, i: nat)
    requires SI.Inv(s) && i < |s.writer.wire| && s.writer.wire[i].Data?
    ensures i < |s.writer.accepted| && s.writer.wire[i].message == s.writer.accepted[i]
  {
  }

  lemma WireInLog(s: S.Session, log: seq<S.Message>)
    requires SI.Inv(s) && InLogOrder(Inbox(s), log)
    ensures forall i | 0 <= i < |s.writer.wire| && s.writer.wire[i].Data? ::
              var m := s.writer.wire[i].message; m.serial < |log| && log[m.serial] == m
    ensures forall i, j | 0 <= i < j < |s.writer.wire| && s.writer.wire[i].Data? && s.writer.wire[j].Data? ::
              s.writer.wire[i].message.serial < s.writer.wire[j].message.serial
  {
    hide SI.Inv;
    var w := s.writer;
    assert forall i | 0 <= i < |w.accepted| :: Inbox(s)[i] == w.accepted[i];
    forall i | 0 <= i < |w.wire| && w.wire[i].Data? ensures i < |w.accepted| && w.wire[i].message == w.accepted[i] {
      OnWire(s, i);
    }
  }

  /** What a session puts on the wire was sent through the service, in the order the service executed the sends. */
  lemma WireFollowsLog(run: Run, id: Id)
    requires Possible(INITIAL, run) && IsSession(Exec(INITIAL, run), id)
    ensures var end := Exec(INITIAL, run);
            var wire := SessionOf(end, id).writer.wire;
            && (forall i | 0 <= i < |wire| && wire[i].Data? ::
                 wire[i].message.serial < |end.log| && end.log[wire[i].message.serial] == wire[i].message)
            && (forall i, j | 0 <= i < j < |wire| && wire[i].Data? && wire[j].Data? ::
                 wire[i].message.serial < wire[j].message.serial)
  {
    hide Inv, SI.Inv, Inbox, InLogOrder, Exec, Possible;
    InitialInv();
    RunKeepsInv(INITIAL, run);
    SessionFacts(Exec(INITIAL, run), id);
    WireInLog(SessionOf(Exec(INITIAL, run), id), Exec(INITIAL, run).log);
  }

  /**
   Total-order broadcast: two messages that two sessions of one service both put on
   the wire go out in the same order on both.
   */
  lemma SameOrderEverywhere(run: Run, a: Id, b: Id, i: nat, j: nat, k: nat, l: nat)
    requires Possible(INITIAL, run) && IsSession(Exec(INITIAL, run), a) && IsSession(Exec(INITIAL, run), b)
    requires var wire := SessionOf(Exec(INITIAL, run), a).writer.wire;
             i < j < |wire| && wire[i].Data? && wire[j].Data?
    requires var wire := SessionOf(Exec(INITIAL, run), b).writer.wire;
             k < |wire| && l < |wire|
    requires SessionOf(Exec(INITIAL, run), a).writer.wire[i] == SessionOf(Exec(INITIAL, run), b).writer.wire[k]
    requires SessionOf(Exec(INITIAL, run), a).writer.wire[j] == SessionOf(Exec(INITIAL, run), b).writer.wire[l]
    ensures k < l
  {
    hide Exec, Possible;
    WireFollowsLog(run, a);
    WireFollowsLog(run, b);
  }
}
