/**
 What each step of a WebSocket session comes to, field by field and without the
 nested calls of its handlers: when a message is taken, a write, read, ping or close
 is started, the timer stopped or set again, and what is called back.  Together with
 the invariant these equations leave no choice, and over whole runs they add up.
 */
module WsSessionEffects {
  import opened Outcomes
  import opened WsSessionModel
  import opened WsSessionInvariants
  import CircularBuffers

  function One(b: bool): nat {
    if b then 1 else 0
  }

  // ---- what happens in a step ----

  /** A send closure is taken on an open stream, with no close requested and room in the ring. */
  predicate Takes(s: Session, e: Event) {
    && e.RunClosure? && s.closures != [] && s.closures[0].SendClosure?
    && s.streamOpen && s.writer.closeReason.None? && |s.writer.ring| < CircularBuffers.LIMIT
  }

  function TakenBy(s: Session, e: Event): seq<Message> {
    if Takes(s, e) then [s.closures[0].message] else []
  }

  /** The reason of the close that a step asks for: by a close closure or after a failed operation. */
  function Asked(s: Session, e: Event): Option<string> {
    match e
    case RunClosure => if s.closures != [] && s.closures[0].CloseClosure? then Some(s.closures[0].reason) else None
    case ReadDone(ReadFailed) => Some("read error")
    case WriteDone(Failed) => Some("write error")
    case PingDone(Failed) => Some("ping error")
    case _ => None
  }

  predicate Requests(s: Session, e: Event) {
    Asked(s, e).Some? && s.streamOpen && s.writer.closeReason.None?
  }

  predicate StartsWrite(s: Session, e: Event) {
    || (Takes(s, e) && s.writer.ring == [])
    || (e == WriteDone(Fine) && s.streamOpen && s.writer.closeReason.None? && |s.writer.ring| > 1)
  }

  predicate StartsClose(s: Session, e: Event) {
    || (Requests(s, e) && s.writer.ring == [])
    || (e == WriteDone(Fine) && s.streamOpen && s.writer.closeReason.Some?)
  }

  predicate StartsRead(s: Session, e: Event) {
    e == AcceptDone(Fine) || (e.ReadDone? && (e.read.Received? || e.read.ReadFailed?) && s.streamOpen)
  }

  /** The first expiry since the last sign of life, on an open stream. */
  predicate StartsPing(s: Session, e: Event) {
    e == TimerHandler(false) && s.streamOpen && !s.timer.waitOnPong
  }

  /** Messages (or read errors) and control frames from the peer count as activity. */
  predicate IsActivity(e: Event) {
    e.ControlFrame? || (e.ReadDone? && (e.read.Received? || e.read.ReadFailed?))
  }

  /** The steps that stop the timer for good. */
  predicate StopsTimer(s: Session, e: Event) {
    match e
    case ReadDone(ReadClosed) => true
    case TimerHandler(error) => error || s.timer.waitOnPong
    case CloseDone | RunClosure | WriteDone(Failed) | PingDone(Failed) => !s.streamOpen
    case _ => false
  }

  /** How often a step sets the timer again: a read, and the activity before it. */
  function Restarts(s: Session, e: Event): nat {
    One(IsActivity(e)) + One(StartsRead(s, e))
  }

  /** The callback a message is reported by. */
  function Reported(e: Event): seq<Callback> {
    match e
    case ReadDone(Received(isText, data)) => [if isText then OnText(data) else OnBinary(data)]
    case _ => []
  }

  // ---- the equations ----

  ghost predicate StreamEffects(s: Session, t: Session, e: Event) {
    && t.streamOpen == (e == AcceptDone(Fine) || (s.streamOpen && !e.StreamLost? && e != ReadDone(ReadClosed)))
    && t.isOpen == (s.isOpen || e == AcceptDone(Fine))
    && t.accepting == s.accepting - One(e.AcceptDone?)
    && t.reading == s.reading - One(e.ReadDone?) + One(StartsRead(s, e))
    && t.armed == s.armed
  }

  ghost predicate WriterEffects(s: Session, t: Session, e: Event) {
    var v, w := s.writer, t.writer;
    && w.accepted == v.accepted + TakenBy(s, e)
    && w.written == v.written + One(e == WriteDone(Fine))
    && w.broken == (v.broken || (e.WriteDone? && !e.result.Fine?))
    && w.closeReason == (if Requests(s, e) then Asked(s, e) else v.closeReason)
    && w.writing == v.writing - One(e.WriteDone?) + One(StartsWrite(s, e))
    && w.closing == v.closing - One(e.CloseDone?) + One(StartsClose(s, e))
    && |w.wire| == |v.wire| + One(StartsWrite(s, e)) + One(StartsClose(s, e))
  }

  ghost predicate TimerEffects(s: Session, t: Session, e: Event) {
    var v, w := s.timer, t.timer;
    && w.waitOnPong == ((v.waitOnPong && !IsActivity(e)) || StartsPing(s, e))
    && w.cancelled == (v.cancelled || StopsTimer(s, e))
    && w.pingCounter == v.pingCounter + One(StartsPing(s, e))
    && w.timeouts == v.timeouts + One(e == TimerHandler(false) && v.waitOnPong)
    && t.pinging == s.pinging - One(e.PingDone?) + One(StartsPing(s, e))
    && w.fired == v.fired + One(e.Expire?) - One(e.TimerHandler?)
  }

  /** A wait is set again only where one was pending and the stream is open; a ping sets one in any case. */
  ghost predicate WaitEffects(s: Session, t: Session, e: Event) {
    var v, w := s.timer, t.timer;
    && w.waits == (if e.Expire? then v.waits - 1
                   else if StopsTimer(s, e) then 0
                   else if Restarts(s, e) > 0 && !t.streamOpen then 0
                   else v.waits + One(StartsPing(s, e)))
    && w.aborted == v.aborted - One(e.AbortedTimerHandler?) + if v.waits == 0 then 0 else One(StopsTimer(s, e)) + Restarts(s, e)
  }

  ghost predicate QueueEffects(s: Session, t: Session, e: Event)
    requires Enabled(s, e)
  {
    && t.closures == (match e
                      case RunClosure => s.closures[1..]
                      case CallSend(m) => if s.locks != 0 then s.closures + [SendClosure(m)] else s.closures
                      case CallClose(reason) => if s.locks != 0 then s.closures + [CloseClosure(reason)] else s.closures
                      case _ => s.closures)
    && t.received == s.received + Reported(e)
    && t.callbacks == (if e.Deliver? then s.callbacks[1..]
                       else s.callbacks + (if e == AcceptDone(Fine) then [OnOpen] else []) + Reported(e))
    && t.delivered == s.delivered + (if e.Deliver? then [s.callbacks[0]] else if e.Destroy? && s.isOpen then [OnClose] else [])
    && t.destroyed == (s.destroyed || e.Destroy?)
  }

  ghost predicate Effects(s: Session, t: Session, e: Event)
    requires Enabled(s, e)
  {
    StreamEffects(s, t, e) && WriterEffects(s, t, e) && TimerEffects(s, t, e) && WaitEffects(s, t, e) && QueueEffects(s, t, e)
  }

  // ---- the steps have these effects ----

  /** What the equations need of the invariant. */
  ghost predicate Bounds(s: Session) {
    && s.timer.waits + s.timer.fired <= 1
    && (s.writer.writing > 0 ==> s.writer.ring != [])
  }

  lemma InvBounds(s: Session)
    requires Inv(s)
    ensures Bounds(s)
  {
    hide LocksKept, AcceptKept, CallbacksKept;
  }

  /** A close request in the session's strand: recorded and started on an open stream, else the timer stops. */
  lemma CloseBodyFields(s: Session, reason: string)
    ensures var v, w := s.writer, CloseBody(s, reason).writer;
            var requests := s.streamOpen && v.closeReason.None?;
            && w == v.(closeReason := w.closeReason, closing := w.closing, wire := w.wire, writing := w.writing)
            && w.closeReason == (if requests then Some(reason) else v.closeReason)
            && w.closing == v.closing + One(requests && v.ring == [])
            && w.writing == v.writing
            && |w.wire| == |v.wire| + One(requests && v.ring == [])
    ensures var t := CloseBody(s, reason).timer;
            t == if s.streamOpen then s.timer
                 else s.timer.(cancelled := true, waits := 0, aborted := s.timer.aborted + s.timer.waits)
  {
  }

  lemma DoReadFields(s: Session)
    ensures DoRead(s).reading == s.reading + One(s.streamOpen)
    ensures DoRead(s).timer == if !s.streamOpen then s.timer
              else s.timer.(waits := One(s.timer.waits != 0), aborted := s.timer.aborted + s.timer.waits)
  {
  }

  lemma DoWriteFields(s: Session)
    requires s.writer.ring != []
    ensures var v, w := s.writer, DoWrite(s).writer;
            && w == v.(writing := w.writing, closing := w.closing, wire := w.wire)
            && w.writing == v.writing + One(v.closeReason.None?) && w.closing == v.closing + One(v.closeReason.Some?)
            && |w.wire| == |v.wire| + 1
  {
  }

  lemma ReceivedEffects(s: Session, isText: bool, data: string)
    requires Bounds(s) && s.reading > 0
    ensures Effects(s, ReadStep(s, Received(isText, data)), ReadDone(Received(isText, data)))
  {
  }

  lemma ReadFailedEffects(s: Session)
    requires Bounds(s) && s.reading > 0
    ensures Effects(s, ReadStep(s, ReadFailed), ReadDone(ReadFailed))
  {
    hide CloseBody, DoRead, RestartTimer, NoActivity, NoNewWait;
    var a := Activity(s.(reading := s.reading - 1));
    CloseBodyFields(a, "read error");
    DoReadFields(CloseBody(a, "read error"));
  }

  lemma ReadEndedEffects(s: Session, result: ReadResult)
    requires Bounds(s) && s.reading > 0 && (result.ReadAborted? || result.ReadClosed?)
    ensures Effects(s, ReadStep(s, result), ReadDone(result))
  {
  }

  /** A message was written: the next one, or the close that was asked for, is started. */
  lemma WrittenFields(s: Session)
    requires s.writer.ring != []
    ensures var v, w := s.writer, OnWrite(s, Fine).writer;
            && w == v.(ring := w.ring, written := v.written + 1, writing := w.writing, closing := w.closing, wire := w.wire)
            && w.writing == v.writing + One(s.streamOpen && |v.ring| > 1 && v.closeReason.None?)
            && w.closing == v.closing + One(s.streamOpen && v.closeReason.Some?)
            && |w.wire| == |v.wire| + One(s.streamOpen && (|v.ring| > 1 || v.closeReason.Some?))
    ensures OnWrite(s, Fine).timer == s.timer
  {
  }

  lemma WrittenEffects(s: Session)
    requires Bounds(s) && s.writer.writing > 0
    ensures Effects(s, WriteStep(s, Fine), WriteDone(Fine))
  {
    hide OnWrite, NoActivity, NoNewWait;
    WrittenFields(s.(writer := s.writer.(writing := s.writer.writing - 1)));
  }

  lemma AbortedWriteEffects(s: Session)
    requires Bounds(s) && s.writer.writing > 0
    ensures Effects(s, WriteStep(s, Aborted), WriteDone(Aborted))
  {
    hide CloseBody, DoWrite, NoActivity, NoNewWait;
  }

  lemma FailedWriteEffects(s: Session)
    requires Bounds(s) && s.writer.writing > 0
    ensures Effects(s, WriteStep(s, Failed), WriteDone(Failed))
  {
    hide CloseBody, DoWrite, NoActivity, NoNewWait;
    CloseBodyFields(s.(writer := s.writer.(writing := s.writer.writing - 1, broken := true)), "write error");
  }

  lemma TimerHandlerEffects(s: Session, error: bool)
    requires Bounds(s) && s.timer.fired > 0
    ensures Effects(s, TimerStep(s, error), TimerHandler(error))
  {
  }

  /** A send in the session's strand: taken and, as the only message, started; on a stream that is not open the timer stops. */
  lemma SendBodyFields(s: Session, m: Message)
    ensures var v, w := s.writer, SendBody(s, m).writer;
            var takes := s.streamOpen && v.closeReason.None? && |v.ring| < CircularBuffers.LIMIT;
            && w == v.(ring := w.ring, accepted := w.accepted, writing := w.writing, wire := w.wire)
            && w.accepted == v.accepted + (if takes then [m] else [])
            && w.writing == v.writing + One(takes && v.ring == [])
            && |w.wire| == |v.wire| + One(takes && v.ring == [])
    ensures var t := SendBody(s, m).timer;
            t == if s.streamOpen then s.timer
                 else s.timer.(cancelled := true, waits := 0, aborted := s.timer.aborted + s.timer.waits)
  {
    hide NoActivity, NoNewWait;
  }

  lemma SendClosureEffects(s: Session)
    requires Bounds(s) && s.closures != [] && s.closures[0].SendClosure?
    ensures Effects(s, RunClosureStep(s), RunClosure)
  {
    hide SendBody, NoActivity, NoNewWait;
    SendBodyFields(s.(closures := s.closures[1..]), s.closures[0].message);
  }

  lemma CloseClosureEffects(s: Session)
    requires Bounds(s) && s.closures != [] && s.closures[0].CloseClosure?
    ensures Effects(s, RunClosureStep(s), RunClosure)
  {
    hide CloseBody, NoActivity, NoNewWait;
    CloseBodyFields(s.(closures := s.closures[1..]), s.closures[0].reason);
  }

  lemma AcceptEffects(s: Session, result: Completion)
    requires Bounds(s) && s.accepting > 0
    ensures Effects(s, AcceptStep(s, result), AcceptDone(result))
  {
  }

  lemma PingEffects(s: Session, result: Completion)
    requires Bounds(s) && s.pinging > 0
    ensures Effects(s, PingStep(s, result), PingDone(result))
  {
    hide CloseBody, NoActivity, NoNewWait;
    if result.Failed? {
      CloseBodyFields(s.(pinging := s.pinging - 1), "ping error");
    } else {
      assert OnPing(s.(pinging := s.pinging - 1), result) == s.(pinging := s.pinging - 1);
    }
  }

  lemma ControlEffects(s: Session)
    requires Bounds(s) && s.reading + s.writer.closing > 0
    ensures Effects(s, Activity(s), ControlFrame)
  {
  }

  lemma CloseDoneEffects(s: Session)
    requires Bounds(s) && s.writer.closing > 0
    ensures Effects(s, CloseStep(s), CloseDone)
  {
  }

  lemma OwnTimerEffects(s: Session, e: Event)
    requires Bounds(s) && Enabled(s, e) && (e.Expire? || e.AbortedTimerHandler? || e.StreamLost?)
    ensures Effects(s, Step(s, e), e)
  {
  }

  lemma DeliverEffects(s: Session)
    requires s.callbacks != []
    ensures Effects(s, DeliverStep(s), Deliver)
  {
  }

  lemma DispatchEffects(s: Session, e: Event)
    requires Enabled(s, e) && (e.CallSend? || e.CallClose?)
    ensures Effects(s, Step(s, e), e)
  {
  }

  lemma DestroyEffects(s: Session)
    requires Enabled(s, Destroy)
    ensures Effects(s, DestroyStep(s), Destroy)
  {
  }

  /** Every step has exactly the effects of its equations. */
  lemma StepEffects(s: Session, e: Event)
    requires Inv(s) && Enabled(s, e)
    ensures Effects(s, Step(s, e), e)
  {
    InvBounds(s);
    hide Inv, Bounds, Effects, AcceptStep, ReadStep, WriteStep, CloseStep, PingStep, TimerStep, RunClosureStep, DeliverStep, DestroyStep, Activity;
    match e
    case AcceptDone(result) => AcceptEffects(s, result);
    case ReadDone(Received(isText, data)) => ReceivedEffects(s, isText, data);
    case ReadDone(ReadFailed) => ReadFailedEffects(s);
    case ReadDone(result) => ReadEndedEffects(s, result);
    case WriteDone(Fine) => WrittenEffects(s);
    case WriteDone(Aborted) => AbortedWriteEffects(s);
    case WriteDone(Failed) => FailedWriteEffects(s);
    case CloseDone => CloseDoneEffects(s);
    case PingDone(result) => PingEffects(s, result);
    case TimerHandler(error) => TimerHandlerEffects(s, error);
    case ControlFrame => ControlEffects(s);
    case RunClosure => if s.closures[0].SendClosure? { SendClosureEffects(s); } else { CloseClosureEffects(s); }
    case Deliver => DeliverEffects(s);
    case CallSend(_) => DispatchEffects(s, e);
    case CallClose(_) => DispatchEffects(s, e);
    case Destroy => DestroyEffects(s);
    case _ => OwnTimerEffects(s, e);
  }

  lemma WriterDetermined(v: Writer, w: Writer)
    requires WriterKept(v) && WriterKept(w) && |v.wire| == |w.wire|
    requires v == w.(ring := v.ring, wire := v.wire)
    ensures v == w
  {
    assert |Frames(v.accepted[..Started(v)])| == Started(v);
  }

  /** The equations and the invariant leave no choice: they name one next state. */
  lemma EffectsDetermine(s: Session, t: Session, u: Session, e: Event)
    requires Enabled(s, e) && Effects(s, t, e) && Effects(s, u, e) && Inv(t) && Inv(u)
    ensures t == u
  {
    WriterDetermined(t.writer, u.writer);
  }

  // ---- the beginning ----

  /** A session that has just begun: a server session waits for its handshake, a client session is open and reads. */
  ghost predicate Begun(t: Session, isClient: bool, streamOpen: bool) {
    && t.streamOpen == t.armed == streamOpen && t.isOpen == isClient
    && t.accepting == One(!isClient) && t.reading == One(isClient && streamOpen) && t.pinging == 0
    && t.writer == Writer([], None, 0, 0, [], 0, false, [])
    && t.timer == Timer(One(streamOpen), 0, One(true) + One(isClient && streamOpen), false, false, 0, 0)
    && t.closures == [] && t.callbacks == (if isClient then [OnOpen] else [])
    && t.received == t.delivered == [] && !t.destroyed
  }

  lemma AcceptingBegins(streamOpen: bool)
    ensures Begun(Accepting(streamOpen), false, streamOpen)
  {
    hide NoActivity, NoNewWait;
  }

  lemma StartingBegins(streamOpen: bool)
    ensures Begun(Starting(streamOpen), true, streamOpen)
  {
    hide NoActivity, NoNewWait;
  }

  // ---- whole runs ----

  /** The messages a run takes: of the send closures whose turn comes on an open stream, with no close requested and room in the ring. */
  ghost function Taken(s: Session, run: Run): seq<Message>
    requires Possible(s, run)
    decreases run
  {
    if run.End? then []
    else TakenBy(s, run.event) + Taken(Step(s, run.event), run.rest)
  }

  /** The ring accepts exactly these, in the order their turns come: none is dropped and none slips in. */
  lemma {:induction false} AcceptedIsTaken(s: Session, run: Run)
    requires Inv(s) && Possible(s, run)
    ensures Exec(s, run).writer.accepted == s.writer.accepted + Taken(s, run)
    decreases run
  {
    hide Inv, Step, Enabled, TakenBy, StreamEffects, TimerEffects, WaitEffects, QueueEffects;
    if run.Then? {
      StepEffects(s, run.event);
      StepKeepsInv(s, run.event);
      AcceptedIsTaken(Step(s, run.event), run.rest);
      var a, b, c := s.writer.accepted, TakenBy(s, run.event), Taken(Step(s, run.event), run.rest);
      assert (a + b) + c == a + (b + c);
    }
  }

  /** The first close request of a run that finds the stream open and no other before it. */
  ghost function FirstRequest(s: Session, run: Run): Option<string>
    requires Possible(s, run)
    decreases run
  {
    if run.End? then None
    else if Requests(s, run.event) then Asked(s, run.event)
    else FirstRequest(Step(s, run.event), run.rest)
  }

  lemma RequestStep(s: Session, e: Event)
    requires Inv(s) && Enabled(s, e)
    ensures Step(s, e).writer.closeReason == if Requests(s, e) then Asked(s, e) else s.writer.closeReason
    ensures Requests(s, e) ==> s.writer.closeReason.None? && Asked(s, e).Some?
  {
    hide Inv, Step, Enabled, StreamEffects, TimerEffects, WaitEffects, QueueEffects;
    StepEffects(s, e);
  }

  /** A recorded reason stays. */
  lemma {:induction false} ReasonStays(s: Session, run: Run)
    requires Inv(s) && Possible(s, run) && s.writer.closeReason.Some?
    ensures Exec(s, run).writer.closeReason == s.writer.closeReason
    decreases run
  {
    hide Inv, Step, Enabled, Requests, Asked;
    if run.Then? {
      RequestStep(s, run.event);
      StepKeepsInv(s, run.event);
      ReasonStays(Step(s, run.event), run.rest);
    }
  }

  /** Over every run: the close reason, with its text, is that of the first such request. */
  lemma {:induction false} CloseReasonIs(s: Session, run: Run)
    requires Inv(s) && Possible(s, run)
    ensures Exec(s, run).writer.closeReason ==
            if s.writer.closeReason.Some? then s.writer.closeReason else FirstRequest(s, run)
    decreases run
  {
    hide Inv, Step, Enabled, Requests, Asked;
    if s.writer.closeReason.Some? {
      ReasonStays(s, run);
    } else if run.Then? {
      RequestStep(s, run.event);
      StepKeepsInv(s, run.event);
      if Requests(s, run.event) {
        ReasonStays(Step(s, run.event), run.rest);
      } else {
        CloseReasonIs(Step(s, run.event), run.rest);
      }
    }
  }

  ghost predicate EverStops(s: Session, run: Run)
    requires Possible(s, run)
    decreases run
  {
    run.Then? && (StopsTimer(s, run.event) || EverStops(Step(s, run.event), run.rest))
  }

  /** Over every run: the timer is stopped exactly if one of the steps that stop it happened. */
  lemma {:induction false} TimerStopped(s: Session, run: Run)
    requires Inv(s) && Possible(s, run)
    ensures Exec(s, run).timer.cancelled <==> s.timer.cancelled || EverStops(s, run)
    decreases run
  {
    hide Inv, Step, Enabled, StopsTimer, StreamEffects, WriterEffects, WaitEffects, QueueEffects;
    if run.Then? {
      StepEffects(s, run.event);
      StepKeepsInv(s, run.event);
      TimerStopped(Step(s, run.event), run.rest);
    }
  }

  /** A stopped timer has no wait pending, nor an expired one on an open stream. */
  ghost predicate StaysStopped(s: Session) {
    s.timer.cancelled ==> s.timer.waits == 0 && (s.streamOpen ==> s.timer.fired == 0)
  }

  lemma UnarmedHandshake(s: Session)
    requires Inv(s) && s.accepting > 0 && !s.streamOpen
    ensures Tokens(s.timer) == 0
  {
    hide WriterKept, CallbacksKept;
  }

  lemma StoppedByEffects(s: Session, t: Session, e: Event)
    requires StreamEffects(s, t, e) && TimerEffects(s, t, e) && WaitEffects(s, t, e)
    requires Bounds(s) && StaysStopped(s) && Enabled(s, e) && (s.accepting > 0 && !s.streamOpen ==> Tokens(s.timer) == 0)
    ensures StaysStopped(t)
  {
  }

  lemma StoppedStep(s: Session, e: Event)
    requires Inv(s) && Enabled(s, e) && StaysStopped(s)
    ensures StaysStopped(Step(s, e))
  {
    hide Step, Enabled, Inv, Bounds, StaysStopped, StreamEffects, TimerEffects, WaitEffects, WriterEffects, QueueEffects;
    InvBounds(s);
    if s.accepting > 0 && !s.streamOpen {
      UnarmedHandshake(s);
    }
    StepEffects(s, e);
    StoppedByEffects(s, Step(s, e), e);
  }

  lemma {:induction false} StoppedForGood(s: Session, run: Run)
    requires Inv(s) && Possible(s, run) && StaysStopped(s)
    ensures StaysStopped(Exec(s, run))
    decreases run
  {
    hide Inv, Step, Enabled, StaysStopped;
    if run.Then? {
      StoppedStep(s, run.event);
      StepKeepsInv(s, run.event);
      StoppedForGood(Step(s, run.event), run.rest);
    }
  }

  /** The reads that end without another one being started. */
  ghost function ReadsEnded(s: Session, run: Run): nat
    requires Possible(s, run)
    decreases run
  {
    if run.End? then 0
    else One(run.event.ReadDone? && !StartsRead(s, run.event)) + ReadsEnded(Step(s, run.event), run.rest)
  }

  function Handshakes(run: Run): nat {
    if run.End? then 0 else One(run.event == AcceptDone(Fine)) + Handshakes(run.rest)
  }

  /** Over every run: an open session goes on reading until a read is aborted, finds the peer gone, or finds the stream not open. */
  lemma {:induction false} ReadsGoOn(s: Session, run: Run)
    requires Inv(s) && Possible(s, run)
    ensures Exec(s, run).reading + ReadsEnded(s, run) == s.reading + Handshakes(run)
    decreases run
  {
    hide Inv, Step, Enabled, WriterEffects, TimerEffects, WaitEffects, QueueEffects;
    if run.Then? {
      StepEffects(s, run.event);
      StepKeepsInv(s, run.event);
      ReadsGoOn(Step(s, run.event), run.rest);
    }
  }
}
