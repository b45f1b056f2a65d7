/** What every step of a WebSocket session keeps. */
module WsSessionInvariants {
  import opened Outcomes
  import opened WsSessionModel
  import CircularBuffers

  function Outstanding(s: Session): nat {
    s.accepting + s.reading + s.pinging + s.writer.writing + s.writer.closing
    + s.timer.waits + s.timer.fired + s.timer.aborted + |s.closures| + |s.callbacks|
  }

  /**
   Each pending operation and closure holds one lock, and so do the held locks of
   the handler that is running; at zero the session has been handed to on_erase()
   once.
   */
  ghost predicate LocksKept(s: Session, held: nat) {
    && s.locks == Outstanding(s) + held
    && s.erases == (if s.locks == 0 then 1 else 0)
    && (s.destroyed ==> s.erases == 1)
    && s.accepting + s.reading <= 1
  }

  function Frames(ms: seq<Message>): (fs: seq<Frame>)
    ensures |fs| == |ms|
  {
    seq(|ms|, i requires 0 <= i < |ms| => Data(ms[i]))
  }

  predicate CloseIssued(w: Writer) {
    w.wire != [] && w.wire[|w.wire| - 1].Close?
  }

  /** The number of messages whose write was started. */
  function Started(w: Writer): nat {
    w.written + w.writing + if w.broken then 1 else 0
  }

  ghost predicate WriterKept(w: Writer) {
    && Started(w) <= |w.accepted|
    && w.ring == w.accepted[w.written..]
    && |w.ring| <= CircularBuffers.LIMIT
    && w.writing + w.closing <= 1
    && (w.broken ==> w.writing == 0 && !CloseIssued(w))
    && (w.closing == 1 ==> CloseIssued(w))
    && (CloseIssued(w) ==> w.closeReason.Some? && w.writing == 0)
    && w.wire == Frames(w.accepted[..Started(w)]) + if CloseIssued(w) then [Close(w.closeReason.value)] else []
  }

  /** Nothing waits in the ring without an operation in flight that will come back to it. */
  ghost predicate NoStall(w: Writer) {
    && (w.ring != [] && !CloseIssued(w) ==> w.writing == 1)
    && (w.closeReason.Some? ==> w.writing == 1 || CloseIssued(w))
  }

  /** Until the handshake is over the stream reports what it reported at the start, and nothing is written. */
  ghost predicate AcceptKept(s: Session) {
    && (s.accepting == 1 ==> s.streamOpen == s.armed)
    && (s.accepting == 1 && !s.streamOpen ==> s.writer.ring == [] && s.writer.closeReason.None?)
  }

  /** Pending waits plus expired waits whose handler has not run. */
  function Tokens(t: Timer): nat {
    t.waits + t.fired
  }

  ghost predicate TimerKept(s: Session) {
    && Tokens(s.timer) <= 1
    && (s.armed && s.streamOpen && !s.timer.cancelled ==> Tokens(s.timer) == 1)
    && (!s.armed ==> Tokens(s.timer) == s.pinging == s.timer.pingCounter == s.timer.timeouts == 0)
  }

  ghost predicate CallbacksKept(s: Session) {
    && (!s.isOpen ==> s.received == [])
    && (s.reading > 0 ==> s.isOpen)
    && (s.accepting > 0 ==> !s.isOpen)
    && s.delivered + s.callbacks ==
         (if s.isOpen then [OnOpen] + s.received else []) + (if s.destroyed && s.isOpen then [OnClose] else [])
    && OnClose !in s.received && OnOpen !in s.received
  }

  ghost predicate AlmostInv(s: Session, held: nat) {
    LocksKept(s, held) && WriterKept(s.writer) && AcceptKept(s) && TimerKept(s) && CallbacksKept(s)
  }

  /** The invariant inside a handler that still holds its own lock. */
  ghost predicate InvWith(s: Session, held: nat) {
    && AlmostInv(s, held)
    && (s.streamOpen && !s.writer.broken ==> NoStall(s.writer))
  }

  ghost predicate Inv(s: Session) {
    InvWith(s, 0)
  }

  lemma InitialWriter(s: Session)
    requires Initial(s)
    ensures WriterKept(s.writer) && NoStall(s.writer) && s.writer.accepted == [] && AcceptKept(s)
  {
  }

  lemma InitialCounters(s: Session, streamOpen: bool)
    requires s == Accepting(streamOpen) || s == Starting(streamOpen)
    ensures LocksKept(s, 0) && s.locks > 0 && s.closures == []
  {
    hide NoActivity, NoNewWait;
  }

  lemma InitialTimer(s: Session)
    requires Initial(s)
    ensures TimerKept(s)
  {
    hide NoActivity, NoNewWait;
  }

  lemma InitialCallbacks(s: Session)
    requires Initial(s)
    ensures CallbacksKept(s)
  {
  }

  lemma InitialInv(s: Session)
    requires Initial(s)
    ensures Inv(s) && s.locks > 0 && s.writer.accepted == [] && s.closures == []
  {
    hide LocksKept, WriterKept, NoStall, AcceptKept, TimerKept, CallbacksKept, Accepting, Starting;
    InitialWriter(s);
    InitialCounters(s, s.armed);
    InitialTimer(s);
    InitialCallbacks(s);
  }

  lemma UnlockKeeps(s: Session)
    requires InvWith(s, 1)
    ensures Inv(Unlock(s))
  {
  }

  lemma RestartTimerKeeps(s: Session, held: nat)
    requires InvWith(s, held)
    ensures InvWith(RestartTimer(s), held)
  {
  }

  lemma ActivityKeeps(s: Session, held: nat)
    requires InvWith(s, held)
    ensures InvWith(Activity(s), held)
  {
    RestartTimerKeeps(s.(timer := s.timer.(waitOnPong := false)), held);
  }

  lemma CancelTimerKeeps(s: Session, held: nat)
    requires InvWith(s, held)
    ensures InvWith(CancelTimer(s), held)
  {
  }

  lemma DoReadKeeps(s: Session, held: nat)
    requires InvWith(s, held) && s.locks > 0 && s.isOpen && s.accepting == s.reading == 0
    ensures InvWith(DoRead(s), held)
  {
    RestartTimerKeeps(s, held);
  }

  lemma DeferReadKeeps(s: Session, isText: bool, data: string, held: nat)
    requires InvWith(s, held) && s.locks > 0 && s.isOpen && !s.destroyed
    ensures var c := AsCallback(isText, data);
            InvWith(Defer(s.(received := s.received + [c]), c), held)
  {
    var c := AsCallback(isText, data);
    assert s.delivered + (s.callbacks + [c]) == (s.delivered + s.callbacks) + [c];
    assert [OnOpen] + (s.received + [c]) == [OnOpen] + s.received + [c];
  }

  lemma DoWriteKeeps(s: Session, held: nat)
    requires AlmostInv(s, held) && s.locks > 0
    requires s.writer.writing == 0 && !s.writer.broken && !CloseIssued(s.writer)
    requires s.writer.closeReason.Some? || s.writer.ring != []
    ensures InvWith(DoWrite(s), held)
  {
    var w := s.writer;
    if w.closeReason.None? {
      StartWriteKeeps(w, DoWrite(s).writer);
    }
  }

  lemma StartWriteKeeps(w: Writer, v: Writer)
    requires WriterKept(w) && w.writing == 0 && !w.broken && !CloseIssued(w) && w.ring != []
    requires v == w.(writing := 1, wire := w.wire + [Data(w.ring[0])])
    ensures WriterKept(v) && !CloseIssued(v)
  {
    assert w.ring[0] == w.accepted[w.written];
    assert w.accepted[..w.written + 1] == w.accepted[..w.written] + [w.ring[0]];
    assert v.wire == Frames(w.accepted[..w.written + 1]);
  }

  lemma PushKeeps(w: Writer, m: Message)
    requires WriterKept(w) && |w.ring| < CircularBuffers.LIMIT
    ensures WriterKept(w.(ring := CircularBuffers.Pushed(w.ring, m), accepted := w.accepted + [m]))
  {
    assert (w.accepted + [m])[..Started(w)] == w.accepted[..Started(w)];
  }

  lemma SendBodyKeeps(s: Session, m: Message, held: nat)
    requires InvWith(s, held) && s.locks > 0
    ensures InvWith(SendBody(s, m), held)
  {
    CancelTimerKeeps(s, held);
    var w := s.writer;
    if s.streamOpen && w.closeReason.None? && |w.ring| < CircularBuffers.LIMIT {
      PushKeeps(w, m);
      var pushed := s.(writer := w.(ring := CircularBuffers.Pushed(w.ring, m), accepted := w.accepted + [m]));
      assert AlmostInv(pushed, held);
      if w.ring == [] {
        DoWriteKeeps(pushed, held);
      }
    }
  }

  lemma CloseBodyKeeps(s: Session, reason: string, held: nat)
    requires InvWith(s, held) && s.locks > 0
    ensures InvWith(CloseBody(s, reason), held)
  {
    CancelTimerKeeps(s, held);
    if s.streamOpen && s.writer.closeReason.None? {
      var requested := s.(writer := s.writer.(closeReason := Some(reason)));
      assert AlmostInv(requested, held);
      if s.writer.ring == [] {
        DoWriteKeeps(requested, held);
      }
    }
  }

  lemma AcceptBegun(s: Session, s0: Session)
    requires Inv(s) && s.accepting > 0 && s0 == s.(accepting := s.accepting - 1)
    ensures InvWith(s0, 1)
    ensures InvWith(Defer(s0.(streamOpen := true, isOpen := true), OnOpen), 1)
    ensures s0.accepting == s0.reading == 0 && s0.locks > 0
  {
    hide WriterKept;
    assert s0.delivered + s0.callbacks == [] && s0.received == [];
  }

  lemma OnAcceptKeeps(s: Session, result: Completion)
    requires Inv(s) && s.accepting > 0
    ensures Inv(Step(s, AcceptDone(result)))
  {
    hide AlmostInv, NoStall;
    var s0 := s.(accepting := s.accepting - 1);
    AcceptBegun(s, s0);
    if result.Fine? {
      DoReadKeeps(Defer(s0.(streamOpen := true, isOpen := true), OnOpen), 1);
    }
    UnlockKeeps(OnAccept(s0, result));
  }

  lemma OnReadFailedKeeps(s: Session)
    requires InvWith(s, 1) && s.isOpen && s.accepting == s.reading == 0
    ensures InvWith(OnRead(s, ReadFailed), 1)
  {
    ActivityKeeps(s, 1);
    var a := Activity(s);
    assert a == s.(timer := a.timer, locks := a.locks);
    if s.streamOpen {
      CloseBodyKeeps(a, "read error", 1);
      var c := CloseBody(a, "read error");
      assert c == a.(writer := c.writer, locks := c.locks);
      DoReadKeeps(c, 1);
    }
  }

  lemma OnReceivedKeeps(s: Session, isText: bool, data: string)
    requires InvWith(s, 1) && s.isOpen && s.accepting == s.reading == 0 && !s.destroyed
    ensures InvWith(OnRead(s, Received(isText, data)), 1)
  {
    var c := AsCallback(isText, data);
    ActivityKeeps(s, 1);
    var a := Activity(s);
    assert a == s.(timer := a.timer, locks := a.locks);
    DeferReadKeeps(a, isText, data, 1);
    DoReadKeeps(Defer(a.(received := s.received + [c]), c), 1);
  }

  lemma ReadBegun(s: Session, s0: Session)
    requires Inv(s) && s.reading > 0 && s0 == s.(reading := s.reading - 1)
    ensures InvWith(s0, 1) && InvWith(s0.(streamOpen := false), 1)
    ensures s0.isOpen && s0.accepting == s0.reading == 0 && !s0.destroyed
  {
    hide WriterKept, NoStall;
  }

  lemma OnReadKeeps(s: Session, result: ReadResult)
    requires Inv(s) && s.reading > 0
    ensures Inv(Step(s, ReadDone(result)))
  {
    hide AlmostInv, NoStall;
    var s0 := s.(reading := s.reading - 1);
    ReadBegun(s, s0);
    match result {
      case ReadAborted =>
      case ReadClosed => CancelTimerKeeps(s0.(streamOpen := false), 1);
      case ReadFailed => OnReadFailedKeeps(s0);
      case Received(isText, data) => OnReceivedKeeps(s0, isText, data);
    }
    UnlockKeeps(OnRead(s0, result));
  }

  lemma PopKeeps(w: Writer)
    requires WriterKept(w) && w.writing == 1
    ensures WriterKept(w.(writing := 0, ring := CircularBuffers.Popped(w.ring), written := w.written + 1))
  {
  }

  lemma PoppedKeeps(s: Session, popped: Session)
    requires Inv(s) && s.writer.writing > 0
    requires popped == s.(writer := s.writer.(writing := s.writer.writing - 1,
                                              ring := CircularBuffers.Popped(s.writer.ring), written := s.writer.written + 1))
    ensures AlmostInv(popped, 1) && s.locks > 0
    ensures popped.writer.writing == 0 && !popped.writer.broken && !CloseIssued(popped.writer)
  {
    PopKeeps(s.writer);
    hide DoWrite, RestartTimer, Frames;
  }

  lemma OnWrittenKeeps(s: Session)
    requires Inv(s) && s.writer.writing > 0
    ensures InvWith(OnWrite(s.(writer := s.writer.(writing := s.writer.writing - 1)), Fine), 1)
  {
    hide LocksKept, WriterKept, AcceptKept, TimerKept, CallbacksKept, CloseIssued, DoWrite;
    var w := s.writer;
    var popped := s.(writer := w.(writing := w.writing - 1, ring := CircularBuffers.Popped(w.ring), written := w.written + 1));
    PoppedKeeps(s, popped);
    if s.streamOpen && (popped.writer.ring != [] || popped.writer.closeReason.Some?) {
      DoWriteKeeps(popped, 1);
    }
  }

  lemma OnBrokenWriteKeeps(s: Session, result: Completion)
    requires Inv(s) && s.writer.writing > 0 && !result.Fine?
    ensures InvWith(OnWrite(s.(writer := s.writer.(writing := s.writer.writing - 1)), result), 1)
  {
    var broken := s.(writer := s.writer.(writing := s.writer.writing - 1, broken := true));
    assert InvWith(broken, 1);
    CloseBodyKeeps(broken, "write error", 1);
  }

  lemma OnWriteKeeps(s: Session, result: Completion)
    requires Inv(s) && s.writer.writing > 0
    ensures Inv(Step(s, WriteDone(result)))
  {
    if result.Fine? {
      OnWrittenKeeps(s);
    } else {
      OnBrokenWriteKeeps(s, result);
    }
    UnlockKeeps(OnWrite(s.(writer := s.writer.(writing := s.writer.writing - 1)), result));
  }

  lemma PingBegun(s: Session, s0: Session)
    requires Inv(s) && s.pinging > 0 && s0 == s.(pinging := s.pinging - 1)
    ensures InvWith(s0, 1) && s0.locks > 0
  {
    hide WriterKept, NoStall;
  }

  lemma OnPingKeeps(s: Session, result: Completion)
    requires Inv(s) && s.pinging > 0
    ensures Inv(Step(s, PingDone(result)))
  {
    hide AlmostInv, NoStall;
    var s0 := s.(pinging := s.pinging - 1);
    PingBegun(s, s0);
    CloseBodyKeeps(s0, "ping error", 1);
    UnlockKeeps(OnPing(s0, result));
  }

  lemma OnTimerKeeps(s: Session, error: bool)
    requires Inv(s) && s.timer.fired > 0
    ensures Inv(Step(s, TimerHandler(error)))
  {
    hide WriterKept, NoStall;
  }

  lemma ClosureBegun(s: Session, s0: Session)
    requires Inv(s) && s.closures != [] && s0 == s.(closures := s.closures[1..])
    ensures InvWith(s0, 1) && s0.locks > 0
  {
    hide WriterKept, NoStall;
  }

  lemma RunClosureKeeps(s: Session)
    requires Inv(s) && s.closures != []
    ensures Inv(Step(s, RunClosure))
  {
    hide AlmostInv, NoStall;
    var s0 := s.(closures := s.closures[1..]);
    ClosureBegun(s, s0);
    match s.closures[0] {
      case SendClosure(m) => SendBodyKeeps(s0, m, 1);
      case CloseClosure(reason) => CloseBodyKeeps(s0, reason, 1);
    }
    UnlockKeeps(RunBody(s0, s.closures[0]));
  }

  lemma DeliverKeeps(s: Session)
    requires Inv(s) && s.callbacks != []
    ensures Inv(Step(s, Deliver))
  {
    assert s.delivered + s.callbacks == (s.delivered + [s.callbacks[0]]) + s.callbacks[1..];
  }

  lemma OnCloseKeeps(s: Session)
    requires Inv(s) && s.writer.closing > 0
    ensures Inv(Step(s, CloseDone))
  {
    var done := s.(writer := s.writer.(closing := s.writer.closing - 1));
    assert InvWith(done, 1);
    CancelTimerKeeps(done, 1);
    UnlockKeeps(if s.streamOpen then done else CancelTimer(done));
  }

  lemma DestroyKeeps(s: Session)
    requires Inv(s) && Enabled(s, Destroy)
    ensures Inv(Step(s, Destroy))
  {
    assert s.callbacks == [];
    assert s.delivered + s.callbacks == s.delivered;
    assert (s.delivered + [OnClose]) + s.callbacks == s.delivered + [OnClose];
    assert s.isOpen ==> s.delivered == [OnOpen] + s.received;
  }

  lemma ExpireKeeps(s: Session, e: Event)
    requires Inv(s) && Enabled(s, e) && (e.Expire? || e.AbortedTimerHandler?)
    ensures Inv(Step(s, e))
  {
    hide WriterKept, NoStall;
  }

  lemma StreamLostKeeps(s: Session)
    requires Inv(s) && Enabled(s, StreamLost)
    ensures Inv(Step(s, StreamLost))
  {
    hide WriterKept, NoStall;
  }

  lemma DispatchKeeps(s: Session, c: Closure)
    requires Inv(s)
    ensures Inv(Dispatch(s, c))
  {
    hide WriterKept, NoStall;
  }

  lemma StepKeepsInv(s: Session, e: Event)
    requires Inv(s) && Enabled(s, e)
    ensures Inv(Step(s, e))
  {
    match e
    case AcceptDone(result) => OnAcceptKeeps(s, result);
    case ReadDone(result) => OnReadKeeps(s, result);
    case WriteDone(result) => OnWriteKeeps(s, result);
    case PingDone(result) => OnPingKeeps(s, result);
    case TimerHandler(error) => OnTimerKeeps(s, error);
    case RunClosure => RunClosureKeeps(s);
    case Deliver => DeliverKeeps(s);
    case ControlFrame => ActivityKeeps(s, 0);
    case CloseDone => OnCloseKeeps(s);
    case Destroy => DestroyKeeps(s);
    case Expire => ExpireKeeps(s, e);
    case AbortedTimerHandler => ExpireKeeps(s, e);
    case StreamLost => StreamLostKeeps(s);
    case CallSend(m) => DispatchKeeps(s, SendClosure(m));
    case CallClose(reason) => DispatchKeeps(s, CloseClosure(reason));
  }

  lemma {:induction false} RunKeepsInv(s: Session, run: Run)
    requires Inv(s) && Possible(s, run)
    ensures Inv(Exec(s, run))
    decreases run
  {
    if run.Then? {
      StepKeepsInv(s, run.event);
      RunKeepsInv(Step(s, run.event), run.rest);
    }
  }
}
