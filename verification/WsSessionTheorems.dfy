/** What holds of whole runs of one WebSocket session. */
module WsSessionTheorems {
  import opened Outcomes
  import opened WsSessionModel
  import opened WsSessionInvariants
  import opened WsSessionEffects

  // ---- callbacks ----

  /** The messages read in a run, in the order they were read. */
  function Messages(run: Run): seq<Callback> {
    if run.End? then [] else Reported(run.event) + Messages(run.rest)
  }

  lemma {:induction false} ReceivedAreMessages(s: Session, run: Run)
    requires Inv(s) && Possible(s, run)
    ensures Exec(s, run).received == s.received + Messages(run)
    decreases run
  {
    hide Inv, Step, Enabled, Reported, StreamEffects, WriterEffects, TimerEffects, WaitEffects;
    if run.Then? {
      StepEffects(s, run.event);
      StepKeepsInv(s, run.event);
      ReceivedAreMessages(Step(s, run.event), run.rest);
      var a, b, c := s.received, Reported(run.event), Messages(run.rest);
      assert a + (b + c) == (a + b) + c;
    }
  }

  /**
   A finished session has called back either nothing or on_open, then every message
   in the order it was read, then one on_close; an unfinished one a prefix of that.
   */
  lemma CallbackTrace(s: Session, run: Run)
    requires Initial(s) && Possible(s, run)
    ensures var end := Exec(s, run);
            var all := [OnOpen] + Messages(run) + [OnClose];
            && (end.destroyed ==> end.delivered == if end.isOpen then all else [])
            && (!end.destroyed ==> end.delivered <= all[..|all| - 1])
            && (!end.isOpen ==> Messages(run) == [] && end.delivered == [])
  {
    hide Inv, Exec, Possible, Messages;
    NothingReceived(s);
    hide Initial;
    InitialInv(s);
    RunKeepsInv(s, run);
    ReceivedAreMessages(s, run);
    assert [] + Messages(run) == Messages(run);
    TraceOf(Exec(s, run), Messages(run));
  }

  lemma NothingReceived(s: Session)
    requires Initial(s)
    ensures s.received == []
  {
    hide NoActivity, NoNewWait;
  }

  lemma TraceOf(end: Session, messages: seq<Callback>)
    requires Inv(end) && end.received == messages
    ensures var all := [OnOpen] + messages + [OnClose];
            && (end.destroyed ==> end.delivered == if end.isOpen then all else [])
            && (!end.destroyed ==> end.delivered <= all[..|all| - 1])
            && (!end.isOpen ==> messages == [] && end.delivered == [])
  {
    var all := [OnOpen] + messages + [OnClose];
    assert all[..|all| - 1] == [OnOpen] + messages;
    assert end.destroyed ==> end.callbacks == [];
    assert end.delivered <= end.delivered + end.callbacks;
  }

  // ---- writing ----

  /** The wire carries a prefix of the accepted messages, in order, then at most one close frame. */
  lemma WireShape(s: Session, run: Run)
    requires Initial(s) && Possible(s, run)
    ensures var w := Exec(s, run).writer;
            && w.writing + w.closing <= 1
            && Started(w) <= |w.accepted|
            && (w.wire == Frames(w.accepted[..Started(w)])
                || (w.closeReason.Some? && w.written == Started(w)
                    && w.wire == Frames(w.accepted[..Started(w)]) + [Close(w.closeReason.value)]))
  {
    InitialInv(s);
    RunKeepsInv(s, run);
  }

  lemma CloseRequestStep(s: Session, e: Event)
    requires Inv(s) && Enabled(s, e) && s.writer.closeReason.Some?
    ensures var w := Step(s, e).writer;
            w.closeReason == s.writer.closeReason && Started(w) == Started(s.writer) && w.accepted == s.writer.accepted
  {
    hide Step, LocksKept, AcceptKept, TimerKept, CallbacksKept, StreamEffects, TimerEffects, WaitEffects, QueueEffects;
    StepEffects(s, e);
  }

  /**
   A close request cuts the queue: in every continuation the messages on the wire
   are exactly those whose write was started before the request, and the first
   reason given stays.
   */
  lemma {:induction false} CloseRequestCuts(s: Session, run: Run)
    requires Inv(s) && Possible(s, run) && s.writer.closeReason.Some?
    ensures var w := Exec(s, run).writer;
            && w.closeReason == s.writer.closeReason
            && Started(w) <= |w.accepted| && Started(s.writer) <= |s.writer.accepted|
            && w.accepted[..Started(w)] == s.writer.accepted[..Started(s.writer)]
    decreases run
  {
    if run.Then? {
      CloseRequestStep(s, run.event);
      StepKeepsInv(s, run.event);
      CloseRequestCuts(Step(s, run.event), run.rest);
    }
  }

  function ClosuresRun(run: Run): nat {
    if run.End? then 0 else (if run.event.RunClosure? then 1 else 0) + ClosuresRun(run.rest)
  }

  /** The part of a run that begins with its closure number k, with the state at that point. */
  ghost function FromClosure(s: Session, run: Run, k: nat): (r: (Session, Run))
    requires Possible(s, run) && k < ClosuresRun(run)
    ensures Possible(r.0, r.1) && Exec(r.0, r.1) == Exec(s, run)
    ensures r.1.Then? && r.1.event.RunClosure?
    decreases run
  {
    if !run.event.RunClosure? then FromClosure(Step(s, run.event), run.rest, k)
    else if k == 0 then (s, run)
    else FromClosure(Step(s, run.event), run.rest, k - 1)
  }

  lemma ClosureQueueStep(s: Session, e: Event)
    requires Inv(s) && Enabled(s, e)
    ensures e.RunClosure? ==> s.closures != [] && Step(s, e).closures == s.closures[1..]
    ensures !e.RunClosure? ==> s.closures <= Step(s, e).closures
  {
    hide Inv, Step, StreamEffects, WriterEffects, TimerEffects, WaitEffects;
    StepEffects(s, e);
  }

  /** Closures run in the order they were dispatched. */
  lemma {:induction false} ClosuresInOrder(s: Session, run: Run, k: nat)
    requires Inv(s) && Possible(s, run) && k < ClosuresRun(run) && k < |s.closures|
    ensures var at := FromClosure(s, run, k).0; Inv(at) && at.closures != [] && at.closures[0] == s.closures[k]
    decreases run
  {
    hide Inv, Step, Enabled;
    ClosureQueueStep(s, run.event);
    StepKeepsInv(s, run.event);
    if !run.event.RunClosure? {
      ClosuresInOrder(Step(s, run.event), run.rest, k);
    } else if k > 0 {
      ClosuresInOrder(Step(s, run.event), run.rest, k - 1);
    }
  }

  /**
   The fate of a close closure in the queue, over every run that runs it: an earlier
   reason stays; else the closure's own reason is recorded if the stream is open when
   its turn comes; else it is lost, and the reason is that of the first later request
   that finds the stream open, if there is one.
   */
  lemma QueuedClose(s: Session, run: Run, k: nat)
    requires Inv(s) && Possible(s, run) && k < ClosuresRun(run) && k < |s.closures| && s.closures[k].CloseClosure?
    ensures var (at, rest) := FromClosure(s, run, k);
            && at.closures != [] && at.closures[0] == s.closures[k]
            && Exec(s, run).writer.closeReason ==
               if at.writer.closeReason.Some? then at.writer.closeReason
               else if at.streamOpen then Some(s.closures[k].reason)
               else FirstRequest(Step(at, RunClosure), rest.rest)
  {
    hide Inv, Step, Enabled;
    var (at, rest) := FromClosure(s, run, k);
    ClosuresInOrder(s, run, k);
    CloseReasonIs(at, rest);
    assert Asked(at, rest.event) == Some(s.closures[k].reason);
  }

  /**
   So a server session that is told to close during its handshake opens afterwards
   and goes on reading, with no close requested.
   */
  lemma CloseDuringHandshakeIsLost() returns (run: Run)
    ensures var s := Accepting(false);
            && run.Then? && run.event == CallClose("shutdown") && Possible(s, run)
            && Exec(s, run).closures == [] && Exec(s, run).writer.closeReason.None?
            && Exec(s, run).streamOpen && Exec(s, run).isOpen && Exec(s, run).reading == 1
  {
    var s := Accepting(false);
    var s2 := Step(Step(s, CallClose("shutdown")), RunClosure);
    var last := Then(AcceptDone(Fine), End);
    assert Possible(s2, last);
    run := Then(CallClose("shutdown"), Then(RunClosure, last));
    assert Exec(s, run) == Exec(s2, last) == Step(s2, AcceptDone(Fine));
  }

  /** On an open stream the ring stalls exactly when a write has failed or was aborted. */
  lemma StallsExactlyWhenBroken(s: Session, run: Run)
    requires Initial(s) && Possible(s, run)
    ensures var end := Exec(s, run);
            end.streamOpen ==> (NoStall(end.writer) <==> !end.writer.broken)
  {
    InitialInv(s);
    RunKeepsInv(s, run);
  }

  /** ... and such a stall is final: neither a message nor a close frame is ever started again. */
  lemma {:induction false} BrokenWriteIsFinal(s: Session, run: Run)
    requires Inv(s) && Possible(s, run) && s.writer.broken
    ensures Exec(s, run).writer.broken && Exec(s, run).writer.wire == s.writer.wire
    decreases run
  {
    if run.Then? {
      BrokenWriteStep(s, run.event);
      StepKeepsInv(s, run.event);
      BrokenWriteIsFinal(Step(s, run.event), run.rest);
    }
  }

  lemma BrokenWriteStep(s: Session, e: Event)
    requires Inv(s) && Enabled(s, e) && s.writer.broken
    ensures Step(s, e).writer.broken && Step(s, e).writer.wire == s.writer.wire
  {
    hide LocksKept, AcceptKept, TimerKept, CallbacksKept;
    match e
    case AcceptDone(_) =>
    case ReadDone(result) => BrokenRead(s.(reading := s.reading - 1), result);
    case WriteDone(_) =>
    case PingDone(_) => BrokenClose(s.(pinging := s.pinging - 1), "ping error");
    case RunClosure => BrokenClosure(s);
    case _ =>
  }

  lemma BrokenClose(s: Session, reason: string)
    requires s.writer.ring != []
    ensures CloseBody(s, reason).writer == s.writer.(closeReason := CloseBody(s, reason).writer.closeReason)
  {
  }

  lemma BrokenRead(s: Session, result: ReadResult)
    requires s.writer.ring != []
    ensures OnRead(s, result).writer == s.writer.(closeReason := OnRead(s, result).writer.closeReason)
  {
    if result.ReadFailed? {
      BrokenClose(Activity(s), "read error");
    }
  }

  lemma BrokenClosure(s: Session)
    requires s.closures != [] && s.writer.ring != []
    ensures var w := RunClosureStep(s).writer; w.broken == s.writer.broken && w.wire == s.writer.wire
  {
    var s0 := s.(closures := s.closures[1..]);
    match s.closures[0]
    case SendClosure(m) =>
    case CloseClosure(reason) => BrokenClose(s0, reason);
  }

  lemma Prepend(s: Session, e: Event, rest: Run)
    requires Enabled(s, e) && Possible(Step(s, e), rest)
    ensures Possible(s, Then(e, rest)) && Exec(s, Then(e, rest)) == Exec(Step(s, e), rest)
  {
    hide Step, Enabled;
  }

  lemma WriteFails(m: Message) returns (s1: Session, s2: Session)
    ensures Enabled(Starting(true), CallSend(m)) && s1 == Step(Starting(true), CallSend(m))
    ensures Enabled(s1, RunClosure) && s2 == Step(s1, RunClosure)
    ensures Enabled(s2, WriteDone(Failed))
    ensures var t := Step(s2, WriteDone(Failed));
            && t.streamOpen && t.writer.broken && t.writer.writing == 0
            && t.writer.closeReason.Some? && !CloseIssued(t.writer)
  {
    var s := Starting(true);
    assert s.streamOpen && s.locks > 0 && s.writer == Writer([], None, 0, 0, [], 0, false, []);
    s1 := Step(s, CallSend(m));
    assert s1.closures == [SendClosure(m)] && s1.writer == s.writer && s1.streamOpen;
    s2 := Step(s1, RunClosure);
    assert s2.writer == Writer([m], None, 1, 0, [m], 0, false, [Data(m)]) && s2.streamOpen;
  }

  /** A run that gets there: one message is sent, its write fails, and the stream stays open. */
  lemma BrokenWriteStalls() returns (run: Run)
    ensures var s := Starting(true);
            && Possible(s, run)
            && Exec(s, run).streamOpen && Exec(s, run).writer.broken
            && Exec(s, run).writer.closeReason.Some? && !CloseIssued(Exec(s, run).writer)
            && Exec(s, run).writer.writing == 0
  {
    var s := Starting(true);
    var m := Message(0, true, "a");
    var s1, s2 := WriteFails(m);
    var last := Then(WriteDone(Failed), End);
    assert Possible(s2, last) && Exec(s2, last) == Step(s2, WriteDone(Failed));
    hide Step, Enabled, Starting, Possible, Exec;
    Prepend(s1, RunClosure, last);
    Prepend(s, CallSend(m), Then(RunClosure, last));
    run := Then(CallSend(m), Then(RunClosure, last));
  }

  // ---- timer ----

  /**
   A session whose stream was open when start_timer() ran has exactly one wait
   pending or expired while the stream is open and nobody cancelled the timer; one
   whose stream was not has none at any time: it never pings and never times out.
   */
  lemma TimerToken(s: Session, run: Run)
    requires Initial(s) && Possible(s, run)
    ensures var end := Exec(s, run);
            && Tokens(end.timer) <= 1
            && (s.armed && end.streamOpen && !end.timer.cancelled ==> Tokens(end.timer) == 1)
            && (!s.armed ==> Tokens(end.timer) == end.pinging == end.timer.pingCounter == end.timer.timeouts == 0)
  {
    InitialInv(s);
    RunKeepsInv(s, run);
    ArmedIsConstant(s, run);
  }

  lemma {:induction false} ArmedIsConstant(s: Session, run: Run)
    requires Possible(s, run)
    ensures Exec(s, run).armed == s.armed
    decreases run
  {
    if run.Then? {
      ArmedStep(s, run.event);
      ArmedIsConstant(Step(s, run.event), run.rest);
    }
  }

  lemma ArmedStep(s: Session, e: Event)
    requires Enabled(s, e)
    ensures Step(s, e).armed == s.armed
  {
    match e
    case AcceptDone(_) =>
    case ReadDone(_) =>
    case WriteDone(_) =>
    case PingDone(_) =>
    case RunClosure =>
    case _ =>
  }

  function NextStrikes(strikes: nat, e: Event): nat {
    if IsActivity(e) then 0 else if e == TimerHandler(false) then strikes + 1 else strikes
  }

  /** The expiries handled since the last activity. */
  function Strikes(strikes: nat, run: Run): nat
    decreases run
  {
    if run.End? then strikes else Strikes(NextStrikes(strikes, run.event), run.rest)
  }

  /** The expiries handled in a run that are not the first since the last activity. */
  function SecondStrikes(strikes: nat, run: Run): nat
    decreases run
  {
    if run.End? then 0
    else (if run.event == TimerHandler(false) && strikes > 0 then 1 else 0)
         + SecondStrikes(NextStrikes(strikes, run.event), run.rest)
  }

  ghost predicate StrikesAgree(s: Session, strikes: nat) {
    && (s.timer.waitOnPong ==> strikes > 0)
    && (Tokens(s.timer) > 0 && strikes > 0 ==> s.timer.waitOnPong)
  }

  lemma StrikeStep(s: Session, e: Event, strikes: nat)
    requires Inv(s) && Enabled(s, e) && StrikesAgree(s, strikes)
    ensures StrikesAgree(Step(s, e), NextStrikes(strikes, e))
    ensures Step(s, e).timer.timeouts == s.timer.timeouts + if e == TimerHandler(false) && strikes > 0 then 1 else 0
  {
    if e.TimerHandler? {
      ExpiryStrikes(s, e.error, strikes);
    } else if !e.Expire? && !e.AbortedTimerHandler? {
      QuietStep(s, e);
    }
  }

  lemma QuietStep(s: Session, e: Event)
    requires Enabled(s, e) && !e.TimerHandler? && !e.Expire? && !e.AbortedTimerHandler?
    ensures NoNewWait(s.timer, Step(s, e).timer)
    ensures Step(s, e).timer.waitOnPong == (s.timer.waitOnPong && !IsActivity(e))
  {
    match e
    case AcceptDone(_) =>
    case ReadDone(_) =>
    case WriteDone(_) =>
    case PingDone(_) =>
    case RunClosure =>
    case _ =>
  }

  lemma ExpiryStrikes(s: Session, error: bool, strikes: nat)
    requires Inv(s) && s.timer.fired > 0 && StrikesAgree(s, strikes)
    ensures var t := Step(s, TimerHandler(error));
            && StrikesAgree(t, if error then strikes else strikes + 1)
            && t.timer.timeouts == s.timer.timeouts + if !error && strikes > 0 then 1 else 0
  {
  }

  lemma {:induction false} StrikesRun(s: Session, run: Run, strikes: nat)
    requires Inv(s) && Possible(s, run) && StrikesAgree(s, strikes)
    ensures StrikesAgree(Exec(s, run), Strikes(strikes, run))
    ensures Exec(s, run).timer.timeouts == s.timer.timeouts + SecondStrikes(strikes, run)
    decreases run
  {
    if run.Then? {
      StrikeStep(s, run.event, strikes);
      StepKeepsInv(s, run.event);
      StrikesRun(Step(s, run.event), run.rest, NextStrikes(strikes, run.event));
    }
  }

  /**
   The timer closes the socket without a timer error exactly at those handled
   expiries that follow another one with no activity in between, so a run with
   activity between every two handled expiries is never closed by a timeout.
   */
  lemma TwoStrikes(s: Session, run: Run)
    requires Initial(s) && Possible(s, run)
    ensures Exec(s, run).timer.timeouts == SecondStrikes(0, run)
  {
    InitialInv(s);
    StrikesRun(s, run, 0);
  }

  /** The expiries handled in a run that are the first since the last activity and find the stream open. */
  ghost function FirstStrikes(s: Session, strikes: nat, run: Run): nat
    requires Possible(s, run)
    decreases run
  {
    if run.End? then 0
    else One(run.event == TimerHandler(false) && strikes == 0 && s.streamOpen)
         + FirstStrikes(Step(s, run.event), NextStrikes(strikes, run.event), run.rest)
  }

  function PingsDone(run: Run): nat {
    if run.End? then 0 else One(run.event.PingDone?) + PingsDone(run.rest)
  }

  lemma PingStrike(s: Session, e: Event, strikes: nat)
    requires Inv(s) && Enabled(s, e) && StrikesAgree(s, strikes)
    ensures StartsPing(s, e) <==> e == TimerHandler(false) && strikes == 0 && s.streamOpen
  {
    hide LocksKept, WriterKept, NoStall, AcceptKept, CallbacksKept;
  }

  lemma {:induction false} PingsRun(s: Session, strikes: nat, run: Run)
    requires Inv(s) && Possible(s, run) && StrikesAgree(s, strikes)
    ensures Exec(s, run).timer.pingCounter == s.timer.pingCounter + FirstStrikes(s, strikes, run)
    ensures Exec(s, run).pinging + PingsDone(run) == s.pinging + FirstStrikes(s, strikes, run)
    decreases run
  {
    hide Inv, Step, Enabled, StrikesAgree, StartsPing, StreamEffects, WriterEffects, WaitEffects, QueueEffects;
    if run.Then? {
      PingStrike(s, run.event, strikes);
      StrikeStep(s, run.event, strikes);
      StepEffects(s, run.event);
      StepKeepsInv(s, run.event);
      PingsRun(Step(s, run.event), NextStrikes(strikes, run.event), run.rest);
    }
  }

  /**
   A peer is asked before it is given up: each first expiry since the last activity
   that finds the stream open starts one ping, and nothing else does.
   */
  lemma FirstStrikesPing(s: Session, run: Run)
    requires Initial(s) && Possible(s, run)
    ensures Exec(s, run).timer.pingCounter == FirstStrikes(s, 0, run)
    ensures Exec(s, run).pinging + PingsDone(run) == FirstStrikes(s, 0, run)
  {
    InitialInv(s);
    NoPingYet(s);
    hide Inv, Step, Enabled, Initial;
    PingsRun(s, 0, run);
  }

  lemma NoPingYet(s: Session)
    requires Initial(s)
    ensures s.pinging == s.timer.pingCounter == 0 && StrikesAgree(s, 0)
  {
    hide NoActivity, NoNewWait;
  }

  // ---- drain ----

  /** Weighted outstanding work: a read may defer a callback, a wait may become an aborted handler. */
  function Work(s: Session): nat {
    2 * s.reading + s.pinging + s.writer.writing + s.writer.closing
    + 2 * s.timer.waits + s.timer.fired + s.timer.aborted + |s.closures| + |s.callbacks|
  }

  /** Steps that finish outstanding work, and steps that bring new work from outside. */
  predicate IsCompletion(e: Event) {
    !e.ControlFrame? && !e.StreamLost? && !e.CallSend? && !e.CallClose? && !e.Destroy?
  }

  predicate IsCall(e: Event) {
    e.CallSend? || e.CallClose?
  }

  function Completions(run: Run): nat {
    if run.End? then 0 else (if IsCompletion(run.event) then 1 else 0) + Completions(run.rest)
  }

  function Calls(run: Run): nat {
    if run.End? then 0 else (if IsCall(run.event) then 1 else 0) + Calls(run.rest)
  }

  /** Once the stream is not open, no step starts a read, write, close, ping or wait. */
  ghost predicate StartsNothing(s: Session, t: Session) {
    && !t.streamOpen && t.accepting == 0
    && t.reading <= s.reading && t.pinging <= s.pinging && t.timer.waits <= s.timer.waits
    && t.writer.writing <= s.writer.writing && t.writer.closing <= s.writer.closing
    && t.writer.wire == s.writer.wire
  }

  lemma DrainStep(s: Session, e: Event)
    requires Inv(s) && Enabled(s, e) && !s.streamOpen && s.accepting == 0
    ensures StartsNothing(s, Step(s, e))
    ensures Work(Step(s, e)) + (if IsCompletion(e) then 1 else 0) <= Work(s) + if IsCall(e) then 1 else 0
  {
    if e.ReadDone? {
      DrainRead(s, e.read);
    } else if e.WriteDone? {
      DrainWrite(s, e.result);
    } else if e.TimerHandler? {
      DrainTimer(s, e.error);
    }
  }

  lemma DrainRead(s: Session, result: ReadResult)
    requires Inv(s) && s.reading > 0 && !s.streamOpen && s.accepting == 0
    ensures var t := Step(s, ReadDone(result)); StartsNothing(s, t) && Work(t) + 1 <= Work(s)
  {
  }

  lemma DrainWrite(s: Session, result: Completion)
    requires Inv(s) && s.writer.writing > 0 && !s.streamOpen && s.accepting == 0
    ensures var t := Step(s, WriteDone(result)); StartsNothing(s, t) && Work(t) + 1 <= Work(s)
  {
  }

  lemma DrainTimer(s: Session, error: bool)
    requires Inv(s) && s.timer.fired > 0 && !s.streamOpen && s.accepting == 0
    ensures var t := Step(s, TimerHandler(error)); StartsNothing(s, t) && Work(t) + 1 <= Work(s)
  {
  }

  /** In every run after the stream stopped being open, completions are paid for by the work left. */
  lemma {:induction false} Drain(s: Session, run: Run)
    requires Inv(s) && Possible(s, run) && !s.streamOpen && s.accepting == 0
    ensures StartsNothing(s, Exec(s, run))
    ensures Completions(run) + Work(Exec(s, run)) <= Work(s) + Calls(run)
    decreases run
  {
    if run.Then? {
      DrainStep(s, run.event);
      StepKeepsInv(s, run.event);
      Drain(Step(s, run.event), run.rest);
    }
  }

  /** Some completion that can happen while work is left. */
  function NextCompletion(s: Session): Event {
    if s.reading > 0 then ReadDone(ReadAborted)
    else if s.pinging > 0 then PingDone(Aborted)
    else if s.writer.writing > 0 then WriteDone(Aborted)
    else if s.writer.closing > 0 then CloseDone
    else if s.timer.waits > 0 then Expire
    else if s.timer.fired > 0 then TimerHandler(false)
    else if s.timer.aborted > 0 then AbortedTimerHandler
    else if s.closures != [] then RunClosure
    else Deliver
  }

  /** The drain ends, and it ends with the one on_erase(): until then some completion can happen. */
  lemma DrainEndsWithErase(s: Session)
    requires Inv(s) && !s.streamOpen && s.accepting == 0
    ensures s.erases == 1 <==> Work(s) == 0
    ensures s.erases == 0 ==> IsCompletion(NextCompletion(s)) && Enabled(s, NextCompletion(s))
  {
  }

  /** A count of zero is final, so on_erase() is called at most once in any run. */
  lemma {:induction false} ErasedOnce(s: Session, run: Run)
    requires Inv(s) && Possible(s, run)
    ensures Exec(s, run).erases <= 1
    ensures s.locks == 0 ==> Exec(s, run).locks == 0 && Exec(s, run).erases == 1
    decreases run
  {
    RunKeepsInv(s, run);
    if run.Then? {
      StepKeepsInv(s, run.event);
      ErasedOnce(Step(s, run.event), run.rest);
    }
  }
}
