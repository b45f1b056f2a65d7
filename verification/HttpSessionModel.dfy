/**
 One HTTP session as a state machine: pipelined requests, the bounded queue of
 responses, and the timer whose pending wait doubles as the sign that the session
 may still read.
 */
module HttpSessionModel {
  import opened Outcomes
  import CircularBuffers

  /** A response the request handler made; needEof means the connection ends after it. */
  datatype Response = Response(id: nat, needEof: bool)

  datatype Completion = Fine | Aborted | Failed

  /** A request with the responses its handler makes on the spot, or what else a read can end in. */
  datatype ReadResult = Request(responses: seq<Response>) | Upgrade | ReadEnded | ReadAborted

  datatype Session = Session(
    socketOpen: bool,          // socket_.is_open()
    shut: bool,                // socket_.shutdown() was called
    items: seq<Response>,      // queue_.items_
    flying: Option<Response>,  // the async_write pending
    reading: nat,              // async_read operations pending
    waits: nat,                // async_wait operations pending
    fired: nat,                // expired, handler not run yet
    aborted: nat,              // cancelled, handler not run yet
    locks: int,                // lock_count_
    erases: nat,               // history: async_erase() calls by the locker's callback
    started: seq<Response>,    // history: responses whose write was started
    overwritten: nat,          // history: stored responses overwritten by push_back
    cut: bool)                 // history: a write did not end in "next response"

  function MakeLock(s: Session): Session {
    s.(locks := s.locks + 1)
  }

  function Unlock(s: Session): Session {
    s.(locks := s.locks - 1, erases := if s.locks == 1 then s.erases + 1 else s.erases)
  }

  // ---- timer ----

  function Rearm(s: Session): Session {
    s.(waits := 0, aborted := s.aborted + s.waits)
  }

  function DoTimer(s: Session): Session {
    MakeLock(s.(waits := s.waits + 1))
  }

  /** Shuts the socket down, which stays open as an object, and stops the timer. */
  function DoClose(s: Session): Session {
    Rearm(s.(shut := true))
  }

  // ---- reading ----

  /** No wait to cancel means the timer has expired or was stopped: the session reads no more. */
  function DoRead(s: Session): (r: Session)
    ensures r == s.(waits := r.waits, aborted := r.aborted, reading := r.reading, locks := r.locks)
    ensures s.waits == 0 ==> r == s
  {
    if !s.socketOpen then s
    else if s.waits == 0 then Rearm(s)
    else MakeLock(DoTimer(Rearm(s)).(reading := s.reading + 1))
  }

  // ---- the queue ----

  /** (*items_.front())() */
  function StartFront(s: Session): (r: Session)
    ensures r == s.(flying := r.flying, started := r.started, locks := r.locks)
  {
    if s.items == [] then s // never reached
    else MakeLock(s.(flying := Some(s.items[0]), started := s.started + [s.items[0]]))
  }

  function Respond(s: Session, x: Response): (r: Session)
    ensures r == s.(items := r.items, overwritten := r.overwritten, flying := r.flying, started := r.started, locks := r.locks)
  {
    var pushed := s.(
      items := CircularBuffers.Pushed(s.items, x),
      overwritten := s.overwritten + if |s.items| >= CircularBuffers.LIMIT then 1 else 0);
    if |pushed.items| == 1 then StartFront(pushed) else pushed
  }

  function RespondAll(s: Session, xs: seq<Response>): (r: Session)
    ensures r == s.(items := r.items, overwritten := r.overwritten, flying := r.flying, started := r.started, locks := r.locks)
    decreases |xs|
  {
    if xs == [] then s else RespondAll(Respond(s, xs[0]), xs[1..])
  }

  predicate IsFull(s: Session) {
    |s.items| >= CircularBuffers.LIMIT
  }

  function OnRead(s: Session, result: ReadResult): Session {
    match result
    case ReadAborted => s
    case ReadEnded => DoClose(s)
    case Upgrade => DoClose(s.(socketOpen := false)) // the socket was moved to the websocket service
    case Request(xs) =>
      var answered := RespondAll(s, xs);
      if IsFull(answered) then DoClose(answered) else DoRead(answered)
  }

  /** queue::on_write() and the read it may ask for. */
  function OnWritten(s: Session): Session {
    var popped := s.(items := CircularBuffers.Popped(s.items));
    var next := if popped.items != [] then StartFront(popped) else popped;
    if IsFull(s) then DoRead(next) else next
  }

  /** on_write() of the session, for the response whose write has completed. */
  function OnWrite(s: Session, x: Response, result: Completion): Session {
    match result
    case Aborted => s.(cut := true)
    case Failed => DoClose(s.(cut := true))
    case Fine => if x.needEof then DoClose(s.(cut := true)) else OnWritten(s)
  }

  // ---- events ----

  datatype Event =
    | ReadDone(read: ReadResult)
    | WriteDone(result: Completion)
    | Expire
    | TimerHandler(error: bool)
    | AbortedTimerHandler
    | ForceClose                    // do_close() by the set's shutdown

  predicate Enabled(s: Session, e: Event) {
    match e
    case ReadDone(_) => s.reading > 0
    case WriteDone(_) => s.flying.Some?
    case Expire => s.waits > 0
    case TimerHandler(_) => s.fired > 0
    case AbortedTimerHandler => s.aborted > 0
    case ForceClose => true
  }

  function ReadStep(s: Session, result: ReadResult): Session
    requires s.reading > 0
  {
    Unlock(OnRead(s.(reading := s.reading - 1), result))
  }

  function WriteStep(s: Session, result: Completion): Session
    requires s.flying.Some?
  {
    Unlock(OnWrite(s.(flying := None), s.flying.value, result))
  }

  /** The handler of an expired wait closes the socket, whether or not there was an error. */
  function TimerStep(s: Session): Session
    requires s.fired > 0
  {
    Unlock(s.(fired := s.fired - 1, shut := true, socketOpen := false))
  }

  function Step(s: Session, e: Event): Session
    requires Enabled(s, e)
  {
    match e
    case ReadDone(result) => ReadStep(s, result)
    case WriteDone(result) => WriteStep(s, result)
    case Expire => s.(waits := s.waits - 1, fired := s.fired + 1)
    case TimerHandler(_) => TimerStep(s)
    case AbortedTimerHandler => Unlock(s.(aborted := s.aborted - 1))
    case ForceClose => DoClose(s)
  }

  /** A constructed session inside run(), after make_first_lock(). */
  function Fresh(socketOpen: bool): Session {
    Session(socketOpen, false, [], None, 0, 0, 0, 0, 1, 0, [], 0, false)
  }

  /** run() */
  function Running(socketOpen: bool): Session {
    Unlock(DoRead(DoTimer(Fresh(socketOpen))))
  }

  datatype Run = End | Then(event: Event, rest: Run)

  ghost predicate Possible(s: Session, run: Run)
    decreases run
  {
    run.Then? ==> Enabled(s, run.event) && Possible(Step(s, run.event), run.rest)
  }

  ghost function Exec(s: Session, run: Run): Session
    requires Possible(s, run)
    decreases run
  {
    if run.End? then s else Exec(Step(s, run.event), run.rest)
  }
}
