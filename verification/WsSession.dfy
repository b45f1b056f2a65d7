/**
 The session object: fields updated in place, one method per function of the
 source.  View() is the session's state in the state machine; each completion
 handler moves it by exactly one step.
 */
module WsSession {
  import opened Outcomes
  import opened CircularBuffers
  import M = WsSessionModel
  import I = WsSessionInvariants

  class WsSession {
    // fields of the source
    const writeList: CircularBuffer<M.Message>
    var closeReason: Option<string>
    var pingCounter: nat
    var waitOnPong: bool
    var isOpen: bool
    var lockCount: int

    // the stream, the timer and the strands, as far as the session sees them
    var streamOpen: bool
    var waits: nat
    var fired: nat
    var aborted: nat
    var accepting: nat
    var reading: nat
    var writing: nat
    var closing: nat
    var pinging: nat
    var closures: seq<M.Closure>
    var callbacks: seq<M.Callback>
    var erases: nat

    // history
    ghost var accepted: seq<M.Message>
    ghost var written: nat
    ghost var broken: bool
    ghost var wire: seq<M.Frame>
    ghost var cancelled: bool
    ghost var timeouts: nat
    ghost var destroyed: bool
    ghost var armed: bool
    ghost var received: seq<M.Callback>
    ghost var delivered: seq<M.Callback>

    ghost predicate Valid()
      reads this, writeList, writeList.slots
    {
      writeList.Valid()
    }

    ghost function View(): M.Session
      reads this, writeList
    {
      M.Session(
        streamOpen, isOpen,
        M.Writer(writeList.items, closeReason, writing, closing, accepted, written, broken, wire),
        M.Timer(waits, fired, aborted, cancelled, waitOnPong, pingCounter, timeouts),
        accepting, reading, pinging, closures, callbacks, lockCount, erases, destroyed, armed, received, delivered)
    }

    constructor (streamOpen: bool)
      ensures Valid() && fresh(writeList) && fresh(writeList.slots)
      ensures View() == M.Fresh(streamOpen).(locks := 0)
    {
      writeList := new CircularBuffer();
      closeReason, pingCounter, waitOnPong, isOpen, lockCount := None, 0, false, false, 0;
      this.streamOpen := streamOpen;
      waits, fired, aborted, accepting, reading, writing, closing, pinging := 0, 0, 0, 0, 0, 0, 0, 0;
      closures, callbacks, erases := [], [], 0;
      accepted, written, broken, wire := [], 0, false, [];
      cancelled, timeouts, destroyed, armed := false, 0, false, streamOpen;
      received, delivered := [], [];
    }

    // ---- locks: every started operation and closure captures one ----

    method MakeLock()
      requires Valid()
      modifies this`lockCount
      ensures Valid() && View() == M.MakeLock(old(View()))
    {
      lockCount := lockCount + 1;
    }

    method Unlock()
      requires Valid()
      modifies this`lockCount, this`erases
      ensures Valid() && View() == M.Unlock(old(View()))
    {
      lockCount := lockCount - 1;
      if lockCount == 0 {
        erases := erases + 1; // the locker's callback: service_.on_erase
      }
    }

    // ---- timer ----

    /** The number of waits that expires_after() cancels. */
    method ExpiresAfter() returns (n: nat)
      requires Valid()
      modifies this`waits, this`aborted
      ensures Valid() && View() == M.Rearm(old(View())) && n == old(waits)
    {
      n := waits;
      aborted, waits := aborted + waits, 0;
    }

    method CancelTimer()
      requires Valid()
      modifies this`waits, this`aborted, this`cancelled
      ensures Valid() && View() == M.CancelTimer(old(View()))
    {
      var _ := ExpiresAfter();
      cancelled := true;
    }

    method DoTimer()
      requires Valid()
      modifies this`waits, this`aborted, this`lockCount
      ensures Valid() && View() == M.DoTimer(old(View()))
    {
      waits := waits + 1;
      MakeLock();
    }

    method RestartTimer()
      requires Valid()
      modifies this`waits, this`aborted, this`lockCount
      ensures Valid() && View() == M.RestartTimer(old(View()))
    {
      var n := ExpiresAfter();
      if n != 0 && streamOpen {
        DoTimer();
      }
    }

    method StartTimer()
      requires Valid()
      modifies this`waits, this`aborted, this`lockCount
      ensures Valid() && View() == M.StartTimer(old(View()))
    {
      DoTimer();
      RestartTimer();
    }

    method Activity()
      requires Valid()
      modifies this`waits, this`aborted, this`lockCount, this`waitOnPong
      ensures Valid() && View() == M.Activity(old(View()))
    {
      waitOnPong := false;
      RestartTimer();
    }

    method CloseSocket()
      requires Valid()
      modifies this`waits, this`aborted, this`cancelled
      ensures Valid() && View() == M.CloseSocket(old(View()))
    {
      CancelTimer();
    }

    // ---- reading and writing ----

    method DoRead()
      requires Valid()
      modifies this`waits, this`aborted, this`lockCount, this`reading
      ensures Valid() && View() == M.DoRead(old(View()))
    {
      if !streamOpen {
        return;
      }
      RestartTimer();
      reading := reading + 1;
      MakeLock();
    }

    method StartClose()
      requires Valid() && closeReason.Some?
      modifies this`writing, this`closing, this`wire, this`lockCount
      ensures Valid() && View() == M.StartClose(old(View()))
    {
      closing, wire := closing + 1, wire + [M.Close(closeReason.value)];
      MakeLock();
    }

    method StartWrite()
      requires Valid() && writeList.items != []
      modifies this`writing, this`closing, this`wire, this`lockCount
      ensures Valid() && View() == M.StartWrite(old(View()))
    {
      var front := writeList.Front();
      writing, wire := writing + 1, wire + [M.Data(front)];
      MakeLock();
    }

    method DoWrite()
      requires Valid() && (closeReason.Some? || writeList.items != [])
      modifies this`writing, this`closing, this`wire, this`lockCount
      ensures Valid() && View() == M.DoWrite(old(View()))
    {
      if closeReason.Some? {
        StartClose();
      } else {
        StartWrite();
      }
    }

    /** The message is taken on an open stream with no close requested, unless the ring is full: then the closure throws. */
    method SendBody(m: M.Message) returns (full: bool)
      requires Valid()
      modifies this`writing, this`closing, this`wire, this`lockCount, this`waits, this`aborted, this`cancelled, this`accepted, writeList, writeList.slots
      ensures Valid() && View() == M.SendBody(old(View()), m)
      ensures accepted == old(accepted) +
                if old(streamOpen) && old(closeReason).None? && |old(writeList.items)| < LIMIT then [m] else []
      ensures full <==> old(streamOpen) && old(closeReason).None? && |old(writeList.items)| >= LIMIT
    {
      full := false;
      if !streamOpen {
        CancelTimer();
        return;
      }
      if closeReason.Some? {
        return;
      }
      if writeList.IsFull() {
        return true;
      }
      var wasEmpty := writeList.IsEmpty();
      writeList.PushBack(m);
      accepted := accepted + [m];
      if wasEmpty {
        DoWrite();
      }
    }

    method CloseBody(reason: string)
      requires Valid()
      modifies this`writing, this`closing, this`wire, this`lockCount, this`waits, this`aborted, this`cancelled, this`closeReason
      ensures Valid() && View() == M.CloseBody(old(View()), reason)
    {
      if !streamOpen {
        CancelTimer();
        return;
      }
      if closeReason.Some? {
        return;
      }
      closeReason := Some(reason);
      if writeList.IsEmpty() {
        DoWrite();
      }
    }

    method Defer(c: M.Callback)
      requires Valid()
      modifies this`callbacks, this`lockCount
      ensures Valid() && View() == M.Defer(old(View()), c)
    {
      callbacks := callbacks + [c];
      MakeLock();
    }

    // ---- begin ----

    method DoAccept()
      requires Valid() && View() == M.Fresh(streamOpen).(locks := 0)
      modifies this
      ensures Valid() && View() == M.Accepting(old(streamOpen))
    {
      hide M.StartTimer;
      lockCount := 1;
      assert View() == M.Fresh(streamOpen);
      StartTimer();
      ghost var s := View();
      accepting := 1;
      assert View() == s.(accepting := 1);
      MakeLock();
      Unlock();
    }

    method Start()
      requires Valid() && View() == M.Fresh(streamOpen).(locks := 0)
      modifies this
      ensures Valid() && View() == M.Starting(old(streamOpen))
    {
      hide M.StartTimer, M.DoRead, M.Defer;
      lockCount := 1;
      assert View() == M.Fresh(streamOpen);
      StartTimer();
      ghost var s := View();
      isOpen := true;
      assert View() == s.(isOpen := true);
      Greet();
      Unlock();
    }

    /** on_open() and the first read. */
    method Greet()
      requires Valid()
      modifies this
      ensures Valid() && View() == M.DoRead(M.Defer(old(View()), M.OnOpen))
    {
      Defer(M.OnOpen);
      DoRead();
    }

    // ---- send and close from outside the strand ----

    method Dispatch(c: M.Closure)
      requires Valid()
      modifies this
      ensures Valid() && View() == M.Dispatch(old(View()), c)
    {
      if lockCount != 0 {
        closures := closures + [c];
        MakeLock();
      }
    }

    // ---- bodies of the completion handlers ----

    method Accepted(result: M.Completion)
      requires Valid()
      modifies this
      ensures Valid() && View() == M.OnAccept(old(View()), result)
    {
      if result.Fine? {
        ghost var s := View();
        streamOpen, isOpen := true, true;
        assert View() == s.(streamOpen := true, isOpen := true);
        Greet();
      }
    }

    method ReadError()
      requires Valid()
      modifies this, writeList, writeList.slots
      ensures Valid() && View() == M.OnRead(old(View()), M.ReadFailed)
    {
      Activity();
      if streamOpen {
        CloseBody("read error");
        DoRead();
      }
    }

    method Receive(isText: bool, data: string)
      requires Valid()
      modifies this
      ensures Valid() && View() == M.OnRead(old(View()), M.Received(isText, data))
      ensures callbacks == old(callbacks) + [if isText then M.OnText(data) else M.OnBinary(data)]
    {
      Activity();
      received := received + [M.AsCallback(isText, data)];
      Defer(if isText then M.OnText(data) else M.OnBinary(data));
      DoRead();
    }

    method Read(result: M.ReadResult)
      requires Valid()
      modifies this, writeList, writeList.slots
      ensures Valid() && View() == M.OnRead(old(View()), result)
      ensures result.Received? ==>
                callbacks == old(callbacks) + [if result.isText then M.OnText(result.data) else M.OnBinary(result.data)]
    {
      match result {
        case ReadAborted =>
        case ReadClosed =>
          streamOpen := false;
          CancelTimer();
        case ReadFailed => ReadError();
        case Received(isText, data) => Receive(isText, data);
      }
    }

    method Wrote(result: M.Completion)
      requires Valid() && writeList.items != []
      modifies this, writeList, writeList.slots
      ensures Valid() && View() == M.OnWrite(old(View()), result)
    {
      ghost var s := View();
      match result {
        case Aborted =>
          broken := true;
        case Failed =>
          broken := true;
          assert View() == s.(writer := s.writer.(broken := true));
          CloseBody("write error");
        case Fine =>
          writeList.PopFront();
          written := written + 1;
          assert View() == s.(writer := s.writer.(ring := Popped(s.writer.ring), written := s.writer.written + 1));
          if streamOpen && (!writeList.IsEmpty() || closeReason.Some?) {
            DoWrite();
          }
      }
    }

    method StartPing()
      requires Valid()
      modifies this
      ensures Valid() && View() == M.StartPing(old(View()))
    {
      pingCounter := pingCounter + 1;
      pinging := pinging + 1;
      MakeLock();
    }

    method PingAndWait()
      requires Valid()
      modifies this
      ensures Valid() && View() == M.PingAndWait(old(View()))
      ensures pinging == old(pinging) + 1
    {
      ghost var s := View();
      waitOnPong := true;
      assert View() == s.(timer := s.timer.(waitOnPong := true));
      RestartTimer();
      StartPing();
      DoTimer();
    }

    method Expired(error: bool)
      requires Valid()
      modifies this
      ensures Valid() && View() == M.OnTimer(old(View()), error)
      ensures pinging == old(pinging) + if !error && old(streamOpen) && !old(waitOnPong) then 1 else 0
    {
      hide M.PingAndWait, M.CloseSocket;
      ghost var s := View();
      if !error && !waitOnPong {
        if streamOpen {
          PingAndWait();
        }
      } else {
        timeouts := timeouts + if error then 0 else 1;
        assert View() == s.(timer := s.timer.(timeouts := s.timer.timeouts + if error then 0 else 1));
        CloseSocket();
      }
    }

    method RunBody(c: M.Closure)
      requires Valid()
      modifies this, writeList, writeList.slots
      ensures Valid() && View() == M.RunBody(old(View()), c)
    {
      match c {
        case SendClosure(m) => var _ := SendBody(m);
        case CloseClosure(reason) => CloseBody(reason);
      }
    }

    // ---- completion handlers: the handler's captured lock is released at its end ----

    method OnAccept(result: M.Completion)
      requires Valid() && accepting > 0
      modifies this
      ensures Valid() && View() == M.AcceptStep(old(View()), result)
    {
      accepting := accepting - 1;
      Accepted(result);
      Unlock();
    }

    method OnRead(result: M.ReadResult)
      requires Valid() && reading > 0
      modifies this, writeList, writeList.slots
      ensures Valid() && View() == M.ReadStep(old(View()), result)
      ensures result.Received? ==>
                callbacks == old(callbacks) + [if result.isText then M.OnText(result.data) else M.OnBinary(result.data)]
    {
      ghost var s := View();
      reading := reading - 1;
      assert View() == s.(reading := s.reading - 1);
      Read(result);
      Unlock();
    }

    method OnWrite(result: M.Completion)
      requires Valid() && writing > 0 && writeList.items != []
      modifies this, writeList, writeList.slots
      ensures Valid() && View() == M.WriteStep(old(View()), result)
    {
      writing := writing - 1;
      Wrote(result);
      Unlock();
    }

    method OnCloseDone()
      requires Valid() && closing > 0
      modifies this
      ensures Valid() && View() == M.CloseStep(old(View()))
    {
      closing := closing - 1;
      if !streamOpen {
        CancelTimer();
      }
      Unlock();
    }

    method OnPing(result: M.Completion)
      requires Valid() && pinging > 0
      modifies this, writeList, writeList.slots
      ensures Valid() && View() == M.PingStep(old(View()), result)
    {
      pinging := pinging - 1;
      if result.Failed? {
        CloseBody("ping error");
      }
      Unlock();
    }

    method OnTimer(error: bool)
      requires Valid() && fired > 0
      modifies this
      ensures Valid() && View() == M.TimerStep(old(View()), error)
      ensures pinging == old(pinging) + if !error && old(streamOpen) && !old(waitOnPong) then 1 else 0
    {
      ghost var s := View();
      fired := fired - 1;
      assert View() == s.(timer := s.timer.(fired := s.timer.fired - 1));
      Expired(error);
      Unlock();
    }

    method OnExpire()
      requires Valid() && waits > 0
      modifies this
      ensures Valid() && View() == M.ExpireStep(old(View()))
    {
      waits, fired := waits - 1, fired + 1;
    }

    method OnAbortedTimer()
      requires Valid() && aborted > 0
      modifies this
      ensures Valid() && View() == M.AbortedTimerStep(old(View()))
    {
      aborted := aborted - 1;
      Unlock();
    }

    method RunClosure()
      requires Valid() && closures != []
      modifies this, writeList, writeList.slots
      ensures Valid() && View() == M.RunClosureStep(old(View()))
    {
      var c := closures[0];
      closures := closures[1..];
      RunBody(c);
      Unlock();
    }

    method Deliver()
      requires Valid() && callbacks != []
      modifies this
      ensures Valid() && View() == M.DeliverStep(old(View()))
    {
      delivered := delivered + [callbacks[0]];
      callbacks := callbacks[1..];
      Unlock();
    }

    method Destroy()
      requires Valid() && !destroyed && erases > 0
      modifies this
      ensures Valid() && View() == M.DestroyStep(old(View()))
    {
      destroyed := true;
      if isOpen {
        delivered := delivered + [M.OnClose];
      }
    }
  }

  lemma WriteReady(s: M.Session)
    requires I.Inv(s) && s.writer.writing > 0
    ensures s.writer.ring != []
  {
    hide I.LocksKept, I.AcceptKept, I.TimerKept, I.CallbacksKept;
  }

  /** In every state the steps keep, each possible event is handled, as one step of the state machine. */
  method Handle(session: WsSession, e: M.Event)
    requires session.Valid() && I.Inv(session.View()) && M.Enabled(session.View(), e)
    modifies session, session.writeList, session.writeList.slots
    ensures session.Valid() && I.Inv(session.View())
    ensures session.View() == M.Step(old(session.View()), e)
  {
    hide I.InvWith, M.AcceptStep, M.ReadStep, M.WriteStep, M.CloseStep, M.PingStep, M.ExpireStep, M.TimerStep,
      M.AbortedTimerStep, M.RunClosureStep, M.DeliverStep, M.DestroyStep, M.Activity, M.Dispatch;
    I.StepKeepsInv(session.View(), e);
    if session.View().writer.writing > 0 {
      WriteReady(session.View());
    }
    match e {
      case AcceptDone(result) => session.OnAccept(result);
      case ReadDone(result) => session.OnRead(result);
      case WriteDone(result) => session.OnWrite(result);
      case CloseDone => session.OnCloseDone();
      case PingDone(result) => session.OnPing(result);
      case Expire => session.OnExpire();
      case TimerHandler(error) => session.OnTimer(error);
      case AbortedTimerHandler => session.OnAbortedTimer();
      case ControlFrame => session.Activity();
      case StreamLost => session.streamOpen := false;
      case RunClosure => session.RunClosure();
      case Deliver => session.Deliver();
      case CallSend(m) => session.Dispatch(M.SendClosure(m));
      case CallClose(reason) => session.Dispatch(M.CloseClosure(reason));
      case Destroy => session.Destroy();
    }
  }
}
