/**
 The HTTP session object: the queue, the timer and the socket updated in place.
 View() is its state in the state machine.
 */
module HttpSession {
  import opened Outcomes
  import opened CircularBuffers
  import M = HttpSessionModel
  import T = HttpSessionTheorems

  class HttpSession {
    const items: CircularBuffer<M.Response>
    var lockCount: int

    // the socket, the timer and the strand, as far as the session sees them
    var socketOpen: bool
    var shut: bool
    var flying: Option<M.Response>
    var reading: nat
    var waits: nat
    var fired: nat
    var aborted: nat
    var erases: nat

    // history
    ghost var started: seq<M.Response>
    ghost var overwritten: nat
    ghost var cut: bool

    ghost predicate Valid()
      reads this, items, items.slots
    {
      items.Valid()
    }

    ghost function View(): M.Session
      reads this, items
    {
      M.Session(socketOpen, shut, items.items, flying, reading, waits, fired, aborted, lockCount, erases,
                started, overwritten, cut)
    }

    constructor (socketOpen: bool)
      ensures Valid() && fresh(items) && fresh(items.slots)
      ensures View() == M.Fresh(socketOpen).(locks := 0)
    {
      items := new CircularBuffer();
      this.socketOpen, shut, flying, lockCount := socketOpen, false, None, 0;
      reading, waits, fired, aborted, erases := 0, 0, 0, 0, 0;
      started, overwritten, cut := [], 0, false;
    }

    method MakeLock()
      requires Valid()
      modifies this`lockCount
      ensures Valid() && View() == M.MakeLock(old(View()))
    {
      lockCount := lockCount + 1;
    }

    method Unlock()
      requires Valid()
      modifies this`lockCount, this`erases
      ensures Valid() && View() == M.Unlock(old(View()))
    {
      lockCount := lockCount - 1;
      if lockCount == 0 {
        erases := erases + 1; // the locker's callback: async_erase
      }
    }

    method DoTimer()
      requires Valid()
      modifies this`waits, this`lockCount
      ensures Valid() && View() == M.DoTimer(old(View()))
    {
      waits := waits + 1;
      MakeLock();
    }

    /** The number of waits that expires_after() or cancel() cancels. */
    method CancelWaits() returns (n: nat)
      requires Valid()
      modifies this`waits, this`aborted
      ensures Valid() && View() == M.Rearm(old(View())) && n == old(waits)
    {
      n := waits;
      aborted, waits := aborted + waits, 0;
    }

    method DoClose()
      requires Valid()
      modifies this`shut, this`waits, this`aborted
      ensures Valid() && View() == M.DoClose(old(View()))
    {
      shut := true;
      var _ := CancelWaits();
    }

    method DoRead()
      requires Valid()
      modifies this`waits, this`aborted, this`reading, this`lockCount
      ensures Valid() && View() == M.DoRead(old(View()))
    {
      if !socketOpen {
        return;
      }
      var n := CancelWaits();
      if n == 0 {
        return;
      }
      DoTimer();
      reading := reading + 1;
      MakeLock();
    }

    method Run()
      requires Valid() && View() == M.Fresh(socketOpen).(locks := 0)
      modifies this
      ensures Valid() && View() == M.Running(old(socketOpen))
    {
      lockCount := 1;
      assert View() == M.Fresh(socketOpen);
      DoTimer();
      DoRead();
      Unlock();
    }

    // ---- the queue ----

    method StartFront()
      requires Valid() && items.items != []
      modifies this`flying, this`started, this`lockCount
      ensures Valid() && View() == M.StartFront(old(View()))
    {
      var front := items.Front();
      flying := Some(front);
      started := started + [front];
      MakeLock();
    }

    method Respond(x: M.Response)
      requires Valid()
      modifies this`flying, this`started, this`lockCount, this`overwritten, items, items.slots
      ensures Valid() && View() == M.Respond(old(View()), x)
    {
      if items.IsFull() {
        overwritten := overwritten + 1;
      }
      items.PushBack(x);
      if items.size == 1 {
        StartFront();
      }
    }

    /** The request handler's calls of response(). */
    method RespondAll(xs: seq<M.Response>)
      requires Valid()
      modifies this`flying, this`started, this`lockCount, this`overwritten, items, items.slots
      ensures Valid() && View() == M.RespondAll(old(View()), xs)
    {
      var i := 0;
      while i < |xs|
        invariant 0 <= i <= |xs| && Valid()
        invariant M.RespondAll(View(), xs[i..]) == M.RespondAll(old(View()), xs)
      {
        assert xs[i..][1..] == xs[i + 1..];
        Respond(xs[i]);
        i := i + 1;
      }
    }

    method QueueWritten() returns (wasFull: bool)
      requires Valid() && items.items != []
      modifies this`flying, this`started, this`lockCount, items
      ensures Valid() && wasFull == M.IsFull(old(View()))
      ensures var popped := old(View()).(items := Popped(old(items.items)));
              View() == if popped.items != [] then M.StartFront(popped) else popped
    {
      wasFull := items.IsFull();
      items.PopFront();
      if !items.IsEmpty() {
        StartFront();
      }
    }

    // ---- completion handlers ----

    method OnRequest(xs: seq<M.Response>)
      requires Valid()
      modifies this, items, items.slots
      ensures Valid() && View() == M.OnRead(old(View()), M.Request(xs))
    {
      RespondAll(xs);
      if !items.IsFull() {
        DoRead();
      } else {
        DoClose();
      }
    }

    method OnRead(result: M.ReadResult)
      requires Valid() && reading > 0
      modifies this, items, items.slots
      ensures Valid() && View() == M.ReadStep(old(View()), result)
    {
      ghost var s := View();
      reading := reading - 1;
      assert View() == s.(reading := s.reading - 1);
      match result {
        case ReadAborted =>
        case ReadEnded => DoClose();
        case Upgrade =>
          socketOpen := false;
          DoClose();
        case Request(xs) => OnRequest(xs);
      }
      Unlock();
    }

    method OnWrite(result: M.Completion)
      requires Valid() && flying.Some? && items.items != []
      modifies this, items
      ensures Valid() && View() == M.WriteStep(old(View()), result)
    {
      ghost var s := View();
      var needEof := flying.value.needEof;
      flying := None;
      assert View() == s.(flying := None);
      if result.Aborted? {
        cut := true;
      } else if result.Failed? || needEof {
        cut := true;
        DoClose();
      } else {
        var wasFull := QueueWritten();
        if wasFull {
          DoRead();
        }
      }
      Unlock();
    }

    method OnTimer()
      requires Valid() && fired > 0
      modifies this
      ensures Valid() && View() == M.TimerStep(old(View()))
      ensures shut && !socketOpen
    {
      fired := fired - 1;
      shut, socketOpen := true, false;
      Unlock();
    }

    method OnAbortedTimer()
      requires Valid() && aborted > 0
      modifies this
      ensures Valid() && View() == M.Step(old(View()), M.AbortedTimerHandler)
    {
      aborted := aborted - 1;
      Unlock();
    }

    method OnExpire()
      requires Valid() && waits > 0
      modifies this
      ensures Valid() && View() == M.Step(old(View()), M.Expire)
    {
      waits, fired := waits - 1, fired + 1;
    }
  }

  /** In every state the steps keep, each possible event is handled, as one step of the state machine. */
  method Handle(session: HttpSession, e: M.Event)
    requires session.Valid() && T.Inv(session.View()) && M.Enabled(session.View(), e)
    modifies session, session.items, session.items.slots
    ensures session.Valid() && T.Inv(session.View())
    ensures session.View() == M.Step(old(session.View()), e)
  {
    T.StepKeepsInv(session.View(), e);
    match e {
      case ReadDone(result) => session.OnRead(result);
      case WriteDone(result) => session.OnWrite(result);
      case Expire => session.OnExpire();
      case TimerHandler(_) => session.OnTimer();
      case AbortedTimerHandler => session.OnAbortedTimer();
      case ForceClose => session.DoClose();
    }
  }
}
