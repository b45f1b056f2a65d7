/**
 One WebSocket session as a state machine.  The stream, the timer and the strands
 are environment: an operation that was started is pending until an event completes
 it with an arbitrary result, and every event below runs as one atomic step of the
 session's strand (or of the handler strand, for Deliver).
 */
module WsSessionModel {
  import opened Outcomes
  import CircularBuffers

  /** A send request; serial names the request and is never read by the code. */
  datatype Message = Message(serial: nat, isText: bool, data: string)

  /** The callbacks of a service, leaving out on_exception. */
  datatype Callback = OnOpen | OnText(data: string) | OnBinary(data: string) | OnClose

  /** What a session puts on the wire by its own choice. */
  datatype Frame = Data(message: Message) | Close(reason: string)

  /** Closures dispatched to the session's strand that have not run yet. */
  datatype Closure = SendClosure(message: Message) | CloseClosure(reason: string)

  /** Error codes of a completion: none, operation_aborted, any other. */
  datatype Completion = Fine | Aborted | Failed

  datatype ReadResult = Received(isText: bool, data: string) | ReadAborted | ReadClosed | ReadFailed

  datatype Timer = Timer(
    waits: nat,          // async_wait operations pending
    fired: nat,          // expired, handler not run yet
    aborted: nat,        // cancelled, handler not run yet
    cancelled: bool,     // history: timer_.cancel() was called
    waitOnPong: bool,
    pingCounter: nat,
    timeouts: nat)       // history: close_socket() calls because of a second expiry

  datatype Writer = Writer(
    ring: seq<Message>,
    closeReason: Option<string>,
    writing: nat,         // async_write operations pending
    closing: nat,         // async_close operations pending
    accepted: seq<Message>, // history: everything pushed onto the ring
    written: nat,        // history: how many of them were written successfully
    broken: bool,        // history: a write failed or was aborted
    wire: seq<Frame>)    // history: every write and close started

  datatype Session = Session(
    streamOpen: bool,    // ws_.is_open()
    isOpen: bool,        // is_open_
    writer: Writer,
    timer: Timer,
    accepting: nat,        // async_accept operations pending
    reading: nat,          // async_read operations pending
    pinging: nat,          // async_ping operations pending
    closures: seq<Closure>,
    callbacks: seq<Callback>, // deferred to the handler strand, not run yet
    locks: int,          // lock_count_
    erases: nat,         // history: on_erase() calls by the locker's callback
    destroyed: bool,     // the destructor has run
    armed: bool,         // history: the stream was open when start_timer() ran
    received: seq<Callback>,  // history: messages read, as callbacks
    delivered: seq<Callback>) // history: callbacks run

  // ---- locks ----

  function MakeLock(s: Session): Session {
    s.(locks := s.locks + 1)
  }

  function Unlock(s: Session): Session {
    s.(locks := s.locks - 1, erases := if s.locks == 1 then s.erases + 1 else s.erases)
  }

  // ---- timer ----

  /** No wait comes into being unless one was pending, and no expiry is handled. */
  predicate NoNewWait(t: Timer, u: Timer) {
    && (u.waits > 0 ==> t.waits > 0)
    && u.fired == t.fired && u.timeouts == t.timeouts && u.pingCounter == t.pingCounter
  }

  predicate NoActivity(t: Timer, u: Timer) {
    NoNewWait(t, u) && u.waitOnPong == t.waitOnPong
  }

  /** Every pending wait is cancelled; its handler still has to run, with operation_aborted. */
  function Rearm(s: Session): (r: Session)
    ensures r == s.(timer := r.timer)
  {
    s.(timer := s.timer.(waits := 0, aborted := s.timer.aborted + s.timer.waits))
  }

  function CancelTimer(s: Session): (r: Session)
    ensures r == s.(timer := r.timer)
    ensures NoActivity(s.timer, r.timer)
  {
    var r := Rearm(s);
    r.(timer := r.timer.(cancelled := true))
  }

  function DoTimer(s: Session): (r: Session)
    ensures r == s.(timer := r.timer, locks := r.locks)
  {
    MakeLock(s.(timer := s.timer.(waits := s.timer.waits + 1)))
  }

  function RestartTimer(s: Session): (r: Session)
    ensures r == s.(timer := r.timer, locks := r.locks)
    ensures r.timer == Rearm(s).timer.(waits := if s.timer.waits != 0 && s.streamOpen then 1 else 0)
    ensures NoActivity(s.timer, r.timer)
  {
    if s.timer.waits != 0 && s.streamOpen then DoTimer(Rearm(s)) else Rearm(s)
  }

  function StartTimer(s: Session): (r: Session)
    ensures r == s.(timer := r.timer, locks := r.locks)
  {
    RestartTimer(DoTimer(s))
  }

  function Activity(s: Session): (r: Session)
    ensures r == s.(timer := r.timer, locks := r.locks)
    ensures r.timer == Rearm(s).timer.(waits := if s.timer.waits != 0 && s.streamOpen then 1 else 0, waitOnPong := false)
    ensures NoNewWait(s.timer, r.timer)
  {
    RestartTimer(s.(timer := s.timer.(waitOnPong := false)))
  }

  /** Pending operations will complete with operation_aborted; that is up to the environment. */
  function CloseSocket(s: Session): (r: Session)
    ensures r == s.(timer := r.timer)
  {
    CancelTimer(s)
  }

  // ---- reading, writing ----

  function DoRead(s: Session): (r: Session)
    ensures r == s.(timer := r.timer, locks := r.locks, reading := r.reading)
    ensures NoActivity(s.timer, r.timer)
  {
    if !s.streamOpen then s
    else MakeLock(RestartTimer(s).(reading := s.reading + 1))
  }

  function StartClose(s: Session): (r: Session)
    requires s.writer.closeReason.Some?
    ensures r == s.(writer := r.writer, locks := r.locks)
  {
    var w := s.writer;
    MakeLock(s.(writer := w.(closing := w.closing + 1, wire := w.wire + [Close(w.closeReason.value)])))
  }

  function StartWrite(s: Session): (r: Session)
    requires s.writer.ring != []
    ensures r == s.(writer := r.writer, locks := r.locks)
  {
    var w := s.writer;
    MakeLock(s.(writer := w.(writing := w.writing + 1, wire := w.wire + [Data(w.ring[0])])))
  }

  function DoWrite(s: Session): (r: Session)
    ensures r == s.(writer := r.writer, locks := r.locks)
    ensures r.writer.accepted == s.writer.accepted
  {
    if s.writer.closeReason.Some? then StartClose(s)
    else if s.writer.ring == [] then s // front() of an empty ring, never reached
    else StartWrite(s)
  }

  /** Body of the closure that send() dispatches. */
  function SendBody(s: Session, m: Message): (r: Session)
    ensures r == s.(writer := r.writer, timer := r.timer, locks := r.locks)
    ensures s.writer.closeReason.Some? ==> r.writer == s.writer
    ensures NoActivity(s.timer, r.timer)
    ensures !s.streamOpen ==> r == CancelTimer(s)
    ensures r.writer.accepted == s.writer.accepted || r.writer.accepted == s.writer.accepted + [m]
  {
    var w := s.writer;
    if !s.streamOpen then CancelTimer(s)
    else if w.closeReason.Some? || |w.ring| >= CircularBuffers.LIMIT then s
    else
      var pushed := s.(writer := w.(ring := CircularBuffers.Pushed(w.ring, m), accepted := w.accepted + [m]));
      if w.ring == [] then DoWrite(pushed) else pushed
  }

  /** Body of the closure that close() dispatches; runs inline when close() is called on the strand. */
  function CloseBody(s: Session, reason: string): (r: Session)
    ensures r == s.(writer := r.writer, timer := r.timer, locks := r.locks)
    ensures s.writer.closeReason.Some? ==> r.writer == s.writer
    ensures NoActivity(s.timer, r.timer)
    ensures !s.streamOpen ==> r == CancelTimer(s)
    ensures r.writer.accepted == s.writer.accepted
  {
    if !s.streamOpen then CancelTimer(s)
    else if s.writer.closeReason.Some? then s
    else
      var requested := s.(writer := s.writer.(closeReason := Some(reason)));
      if s.writer.ring == [] then DoWrite(requested) else requested
  }

  function Defer(s: Session, c: Callback): (r: Session)
    ensures r == s.(callbacks := r.callbacks, locks := r.locks)
  {
    MakeLock(s.(callbacks := s.callbacks + [c]))
  }

  // ---- events ----

  datatype Event =
    | AcceptDone(result: Completion)
    | ReadDone(read: ReadResult)
    | WriteDone(result: Completion)
    | CloseDone
    | PingDone(result: Completion)
    | Expire                        // a pending wait expires
    | TimerHandler(error: bool)     // the handler of an expired wait
    | AbortedTimerHandler           // the handler of a cancelled wait
    | ControlFrame                  // ping, pong or close frame from the peer
    | StreamLost                    // the stream stops being open
    | RunClosure
    | Deliver                       // the handler strand runs its first closure
    | CallSend(message: Message)    // send() from outside the strand
    | CallClose(reason: string)     // close() from outside the strand
    | Destroy                       // the owning map erases the session

  predicate Enabled(s: Session, e: Event) {
    match e
    case AcceptDone(_) => s.accepting > 0
    case ReadDone(_) => s.reading > 0
    case WriteDone(_) => s.writer.writing > 0
    case CloseDone => s.writer.closing > 0
    case PingDone(_) => s.pinging > 0
    case Expire => s.timer.waits > 0
    case TimerHandler(_) => s.timer.fired > 0
    case AbortedTimerHandler => s.timer.aborted > 0
    case ControlFrame => s.reading + s.writer.closing > 0
    case StreamLost => s.streamOpen && s.accepting == 0 && s.locks > 0
    case RunClosure => s.closures != []
    case Deliver => s.callbacks != []
    case CallSend(_) => !s.destroyed
    case CallClose(_) => !s.destroyed
    case Destroy => s.erases > 0 && !s.destroyed
  }

  function OnAccept(s: Session, result: Completion): (r: Session)
    ensures r == s.(streamOpen := r.streamOpen, isOpen := r.isOpen, callbacks := r.callbacks, reading := r.reading, timer := r.timer, locks := r.locks)
    ensures NoActivity(s.timer, r.timer)
  {
    if result.Fine? then DoRead(Defer(s.(streamOpen := true, isOpen := true), OnOpen)) else s
  }

  function AsCallback(isText: bool, data: string): Callback {
    if isText then OnText(data) else OnBinary(data)
  }

  function OnRead(s: Session, result: ReadResult): (r: Session)
    ensures r == s.(streamOpen := r.streamOpen, writer := r.writer, timer := r.timer, locks := r.locks, reading := r.reading, callbacks := r.callbacks, received := r.received)
    ensures NoNewWait(s.timer, r.timer)
    ensures r.timer.waitOnPong == (s.timer.waitOnPong && !result.Received? && !result.ReadFailed?)
    ensures r.writer.accepted == s.writer.accepted
  {
    match result
    case ReadAborted => s
    case ReadClosed => CancelTimer(s.(streamOpen := false))
    case ReadFailed =>
      if s.streamOpen then DoRead(CloseBody(Activity(s), "read error")) else Activity(s)
    case Received(isText, data) =>
      var c := AsCallback(isText, data);
      DoRead(Defer(Activity(s).(received := s.received + [c]), c))
  }

  function OnWrite(s: Session, result: Completion): (r: Session)
    ensures r == s.(writer := r.writer, timer := r.timer, locks := r.locks)
    ensures NoActivity(s.timer, r.timer)
    ensures r.writer.accepted == s.writer.accepted
  {
    match result
    case Aborted => s.(writer := s.writer.(broken := true))
    case Failed => CloseBody(s.(writer := s.writer.(broken := true)), "write error")
    case Fine =>
      var w := s.writer.(ring := CircularBuffers.Popped(s.writer.ring), written := s.writer.written + 1);
      if s.streamOpen && (w.ring != [] || w.closeReason.Some?) then DoWrite(s.(writer := w)) else s.(writer := w)
  }

  function OnPing(s: Session, result: Completion): (r: Session)
    ensures r == s.(writer := r.writer, timer := r.timer, locks := r.locks)
    ensures s.writer.closeReason.Some? ==> r.writer == s.writer
    ensures NoActivity(s.timer, r.timer)
    ensures !s.streamOpen ==> r == s || r == CancelTimer(s)
    ensures r.writer.accepted == s.writer.accepted
  {
    if result.Failed? then CloseBody(s, "ping error") else s
  }

  function StartPing(s: Session): (r: Session)
    ensures r == s.(timer := r.timer, locks := r.locks, pinging := r.pinging)
  {
    MakeLock(s.(pinging := s.pinging + 1, timer := s.timer.(pingCounter := s.timer.pingCounter + 1)))
  }

  /** First expiry: ask the peer for a sign of life and wait once more. */
  function PingAndWait(s: Session): (r: Session)
    ensures r == s.(timer := r.timer, locks := r.locks, pinging := r.pinging)
  {
    DoTimer(StartPing(RestartTimer(s.(timer := s.timer.(waitOnPong := true)))))
  }

  function OnTimer(s: Session, error: bool): (r: Session)
    ensures r == s.(timer := r.timer, locks := r.locks, pinging := r.pinging)
  {
    if !error && !s.timer.waitOnPong then
      if !s.streamOpen then s else PingAndWait(s)
    else
      CloseSocket(s.(timer := s.timer.(timeouts := s.timer.timeouts + if error then 0 else 1)))
  }

  function RunBody(s: Session, c: Closure): (r: Session)
    ensures r == s.(writer := r.writer, timer := r.timer, locks := r.locks)
    ensures s.writer.closeReason.Some? ==> r.writer == s.writer
    ensures NoActivity(s.timer, r.timer)
    ensures !s.streamOpen ==> r == CancelTimer(s)
  {
    match c
    case SendClosure(m) => SendBody(s, m)
    case CloseClosure(reason) => CloseBody(s, reason)
  }

  /** make_lock() throws on a session whose count is zero; send() and close() swallow that. */
  function Dispatch(s: Session, c: Closure): (r: Session)
    ensures r == s.(closures := r.closures, locks := r.locks)
  {
    if s.locks == 0 then s else MakeLock(s.(closures := s.closures + [c]))
  }

  // The completion handlers: the captured lock is released when the body is over.

  function AcceptStep(s: Session, result: Completion): Session
    requires s.accepting > 0
  {
    Unlock(OnAccept(s.(accepting := s.accepting - 1), result))
  }

  function ReadStep(s: Session, result: ReadResult): Session
    requires s.reading > 0
  {
    Unlock(OnRead(s.(reading := s.reading - 1), result))
  }

  function WriteStep(s: Session, result: Completion): Session
    requires s.writer.writing > 0
  {
    Unlock(OnWrite(s.(writer := s.writer.(writing := s.writer.writing - 1)), result))
  }

  function CloseStep(s: Session): Session
    requires s.writer.closing > 0
  {
    var done := s.(writer := s.writer.(closing := s.writer.closing - 1));
    Unlock(if s.streamOpen then done else CancelTimer(done))
  }

  function PingStep(s: Session, result: Completion): Session
    requires s.pinging > 0
  {
    Unlock(OnPing(s.(pinging := s.pinging - 1), result))
  }

  function ExpireStep(s: Session): Session
    requires s.timer.waits > 0
  {
    s.(timer := s.timer.(waits := s.timer.waits - 1, fired := s.timer.fired + 1))
  }

  function TimerStep(s: Session, error: bool): Session
    requires s.timer.fired > 0
  {
    Unlock(OnTimer(s.(timer := s.timer.(fired := s.timer.fired - 1)), error))
  }

  function AbortedTimerStep(s: Session): Session
    requires s.timer.aborted > 0
  {
    Unlock(s.(timer := s.timer.(aborted := s.timer.aborted - 1)))
  }

  function RunClosureStep(s: Session): Session
    requires s.closures != []
  {
    Unlock(RunBody(s.(closures := s.closures[1..]), s.closures[0]))
  }

  function DeliverStep(s: Session): Session
    requires s.callbacks != []
  {
    Unlock(s.(callbacks := s.callbacks[1..], delivered := s.delivered + [s.callbacks[0]]))
  }

  /** The destructor reports on_close() if on_open() was reported. */
  function DestroyStep(s: Session): Session {
    s.(destroyed := true, delivered := if s.isOpen then s.delivered + [OnClose] else s.delivered)
  }

  function Step(s: Session, e: Event): Session
    requires Enabled(s, e)
  {
    match e
    case AcceptDone(result) => AcceptStep(s, result)
    case ReadDone(result) => ReadStep(s, result)
    case WriteDone(result) => WriteStep(s, result)
    case CloseDone => CloseStep(s)
    case PingDone(result) => PingStep(s, result)
    case Expire => ExpireStep(s)
    case TimerHandler(error) => TimerStep(s, error)
    case AbortedTimerHandler => AbortedTimerStep(s)
    case ControlFrame => Activity(s)
    case StreamLost => s.(streamOpen := false)
    case RunClosure => RunClosureStep(s)
    case Deliver => DeliverStep(s)
    case CallSend(m) => Dispatch(s, SendClosure(m))
    case CallClose(reason) => Dispatch(s, CloseClosure(reason))
    case Destroy => DestroyStep(s)
  }

  // ---- begin and runs ----

  /** A constructed session inside do_accept() or start(), after make_first_lock(). */
  function Fresh(streamOpen: bool): Session {
    Session(streamOpen, false,
            Writer([], None, 0, 0, [], 0, false, []),
            Timer(0, 0, 0, false, false, 0, 0),
            0, 0, 0, [], [], 1, 0, false, streamOpen, [], [])
  }

  /** do_accept(): whether the stream reports open before the handshake is a parameter. */
  function Accepting(streamOpen: bool): Session {
    Unlock(MakeLock(StartTimer(Fresh(streamOpen)).(accepting := 1)))
  }

  /** start() */
  function Starting(streamOpen: bool): Session {
    Unlock(DoRead(Defer(StartTimer(Fresh(streamOpen)).(isOpen := true), OnOpen)))
  }

  predicate Initial(s: Session) {
    s == Accepting(s.armed) || s == Starting(s.armed)
  }

  datatype Run = End | Then(event: Event, rest: Run)

  ghost predicate Possible(s: Session, run: Run)
    decreases run
  {
    run.Then? ==> Enabled(s, run.event) && Possible(Step(s, run.event), run.rest)
  }

  ghost function Exec(s: Session, run: Run): Session
    requires Possible(s, run)
    decreases run
  {
    if run.End? then s else Exec(Step(s, run.event), run.rest)
  }
}
