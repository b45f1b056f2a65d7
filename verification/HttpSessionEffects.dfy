/**
 What each step of an HTTP session comes to, field by field and without the nested
 calls of its handlers: when the socket is shut down or closed, what is stored and
 started, and when another read begins.  Together with the invariant these equations
 leave no choice, and over whole runs they add up.
 */
module HttpSessionEffects {
  import opened Outcomes
  import opened HttpSessionModel
  import opened HttpSessionTheorems
  import CircularBuffers

  function One(b: bool): nat {
    if b then 1 else 0
  }

  // ---- what happens in a step ----

  /** The write ends the connection: it failed, was aborted, or its response asked for that. */
  predicate Cuts(s: Session, e: Event) {
    e.WriteDone? && s.flying.Some? && (!e.result.Fine? || s.flying.value.needEof)
  }

  /** The responses to a request leave no room in the queue. */
  predicate Fills(s: Session, e: Event) {
    e.ReadDone? && e.read.Request? && |s.items| + |e.read.responses| >= CircularBuffers.LIMIT
  }

  /** The socket is shut down: after a time-out, an upgrade, the peer's end, a full queue, a write that ends the connection, or from outside. */
  predicate ShutsDown(s: Session, e: Event) {
    || e.TimerHandler? || e.ForceClose?
    || e == ReadDone(Upgrade) || e == ReadDone(ReadEnded) || Fills(s, e)
    || (Cuts(s, e) && !e.result.Aborted?)
  }

  /** The socket is closed for good, or moved to the WebSocket service. */
  predicate ClosesSocket(e: Event) {
    e.TimerHandler? || e == ReadDone(Upgrade)
  }

  predicate StartsRead(s: Session, e: Event) {
    e.ReadDone? && e.read.Request? && !Fills(s, e) && s.socketOpen && s.waits > 0
  }

  /** The response whose write a step starts: the first into an empty queue, or the next one. */
  function Starts(s: Session, e: Event): seq<Response> {
    match e
    case ReadDone(Request(xs)) => if s.items == [] && xs != [] then [xs[0]] else []
    case WriteDone(_) => if !Cuts(s, e) && |s.items| > 1 then [s.items[1]] else []
    case _ => []
  }

  /** The last LIMIT of the stored responses and the new ones. */
  function Stored(items: seq<Response>, xs: seq<Response>): seq<Response> {
    var all := items + xs;
    if |all| <= CircularBuffers.LIMIT then all else all[|all| - CircularBuffers.LIMIT..]
  }

  // ---- the equations ----

  ghost predicate SocketEffects(s: Session, t: Session, e: Event) {
    && t.socketOpen == (s.socketOpen && !ClosesSocket(e))
    && t.shut == (s.shut || ShutsDown(s, e))
    && t.cut == (s.cut || Cuts(s, e))
  }

  ghost predicate QueueEffects(s: Session, t: Session, e: Event) {
    && t.items == (if e.WriteDone? && !Cuts(s, e) && s.items != [] then s.items[1..] else Stored(s.items, AnswersTo(e)))
    && t.overwritten - s.overwritten == (if |s.items| + |AnswersTo(e)| > CircularBuffers.LIMIT
                                         then |s.items| + |AnswersTo(e)| - CircularBuffers.LIMIT else 0)
    && t.started == s.started + Starts(s, e)
    && t.flying == (if Starts(s, e) != [] then Some(Starts(s, e)[0]) else if e.WriteDone? then None else s.flying)
  }

  ghost predicate TimerEffects(s: Session, t: Session, e: Event) {
    && t.reading == s.reading - One(e.ReadDone?) + One(StartsRead(s, e))
    && t.fired == s.fired + One(e.Expire?) - One(e.TimerHandler?)
    && t.waits == (if ShutsDown(s, e) then 0 else s.waits - One(e.Expire?))
    && t.aborted == s.aborted - One(e.AbortedTimerHandler?) + One(s.waits > 0 && (ShutsDown(s, e) || StartsRead(s, e)))
  }

  ghost predicate Effects(s: Session, t: Session, e: Event) {
    SocketEffects(s, t, e) && QueueEffects(s, t, e) && TimerEffects(s, t, e)
  }

  // ---- the steps have these effects ----

  /** What storing the responses of one request comes to. */
  lemma {:induction false} StoredAll(s: Session, xs: seq<Response>)
    requires Answering(s)
    ensures RespondAll(s, xs).items == Stored(s.items, xs)
    ensures s.items != [] || xs == [] ==> RespondAll(s, xs).started == s.started && RespondAll(s, xs).flying == s.flying
    ensures s.items == [] && xs != [] ==> RespondAll(s, xs).started == s.started + [xs[0]] && RespondAll(s, xs).flying == Some(xs[0])
    decreases |xs|
  {
    if xs == [] {
      assert s.items + xs == s.items;
    } else {
      var r := Respond(s, xs[0]);
      RespondKeeps(s, xs[0]);
      StoredAll(r, xs[1..]);
      assert (s.items + [xs[0]]) + xs[1..] == s.items + xs;
      if IsFull(s) {
        assert s.items[1..] + [xs[0]] + xs[1..] == (s.items + xs)[1..];
      }
      assert r.items != [];
    }
  }

  lemma RequestQueue(s: Session, xs: seq<Response>)
    requires Inv(s) && s.reading > 0
    ensures QueueEffects(s, ReadStep(s, Request(xs)), ReadDone(Request(xs)))
    ensures |ReadStep(s, Request(xs)).items| == if Fills(s, ReadDone(Request(xs))) then CircularBuffers.LIMIT else |s.items| + |xs|
  {
    var s0 := s.(reading := s.reading - 1);
    BeginsAnswering(s, s0);
    hide Inv, Answering, RespondAll, OnRead, Line;
    OnReadQueue(s0, xs);
    RespondAllKeeps(s0, xs);
    StoredAll(s0, xs);
  }

  lemma BeginsAnswering(s: Session, s0: Session)
    requires Inv(s) && s.reading > 0 && s0 == s.(reading := s.reading - 1)
    ensures Answering(s0) && |s0.items| <= CircularBuffers.LIMIT
  {
  }

  /** After the responses are stored, reading on or closing leaves the queue alone. */
  lemma OnReadQueue(s: Session, xs: seq<Response>)
    ensures var a, r := RespondAll(s, xs), OnRead(s, Request(xs));
            r.items == a.items && r.started == a.started && r.flying == a.flying && r.overwritten == a.overwritten
  {
    hide RespondAll;
  }

  lemma RequestTimer(s: Session, xs: seq<Response>)
    requires Inv(s) && s.reading > 0
    ensures SocketEffects(s, ReadStep(s, Request(xs)), ReadDone(Request(xs)))
    ensures TimerEffects(s, ReadStep(s, Request(xs)), ReadDone(Request(xs)))
  {
    RequestQueue(s, xs);
    hide RespondAll, QueueKept, QueueEffects;
  }

  lemma RequestEffects(s: Session, xs: seq<Response>)
    requires Inv(s) && s.reading > 0
    ensures Effects(s, ReadStep(s, Request(xs)), ReadDone(Request(xs)))
  {
    hide Inv, ReadStep, SocketEffects, TimerEffects, QueueEffects;
    RequestQueue(s, xs);
    RequestTimer(s, xs);
  }

  lemma OtherReadEffects(s: Session, result: ReadResult)
    requires Inv(s) && s.reading > 0 && !result.Request?
    ensures Effects(s, ReadStep(s, result), ReadDone(result))
  {
    assert s.items + [] == s.items;
  }

  lemma WriteEffects(s: Session, result: Completion)
    requires Inv(s) && s.flying.Some?
    ensures Effects(s, WriteStep(s, result), WriteDone(result))
  {
    assert s.items + [] == s.items;
  }

  lemma OtherEffects(s: Session, e: Event)
    requires Inv(s) && Enabled(s, e) && !e.ReadDone? && !e.WriteDone?
    ensures Effects(s, Step(s, e), e)
  {
    assert s.items + [] == s.items;
  }

  /** Every step has exactly the effects of its equations. */
  lemma StepEffects(s: Session, e: Event)
    requires Inv(s) && Enabled(s, e)
    ensures Effects(s, Step(s, e), e)
  {
    hide Inv, Effects, ReadStep, WriteStep;
    match e
    case ReadDone(Request(xs)) => RequestEffects(s, xs);
    case ReadDone(result) => OtherReadEffects(s, result);
    case WriteDone(result) => WriteEffects(s, result);
    case _ => OtherEffects(s, e);
  }

  /** The equations and the invariant leave no choice: they name one next state. */
  lemma EffectsDetermine(s: Session, t: Session, u: Session, e: Event)
    requires Effects(s, t, e) && Effects(s, u, e) && Inv(t) && Inv(u)
    ensures t == u
  {
    hide QueueKept;
  }

  // ---- the beginning ----

  /** A session that has just begun waits for its first request, unless the socket is closed already. */
  lemma RunningBegins(socketOpen: bool)
    ensures Running(socketOpen) ==
            Session(socketOpen, false, [], None, One(socketOpen), 1, 0, One(socketOpen), 1 + 2 * One(socketOpen), 0, [], 0, false)
  {
  }

  // ---- whole runs ----

  predicate HoldsClosing(run: Run) {
    run.Then? && (ClosesSocket(run.event) || HoldsClosing(run.rest))
  }

  ghost predicate EverShutsDown(s: Session, run: Run)
    requires Possible(s, run)
    decreases run
  {
    run.Then? && (ShutsDown(s, run.event) || EverShutsDown(Step(s, run.event), run.rest))
  }

  /**
   Over every run: the socket is closed exactly if the timer's handler ran or the
   connection was upgraded, and shut down exactly if one of the steps that do so
   happened.
   */
  lemma {:induction false} SocketAfterRun(s: Session, run: Run)
    requires Inv(s) && Possible(s, run)
    ensures Exec(s, run).socketOpen <==> s.socketOpen && !HoldsClosing(run)
    ensures Exec(s, run).shut <==> s.shut || EverShutsDown(s, run)
    decreases run
  {
    hide Inv, Step, Enabled, ShutsDown, ClosesSocket, QueueEffects, TimerEffects;
    if run.Then? {
      StepEffects(s, run.event);
      StepKeepsInv(s, run.event);
      SocketAfterRun(Step(s, run.event), run.rest);
    }
  }

  /** The one token of the timer: pending or expired as long as the socket was not shut down; no wait is pending after that. */
  ghost predicate TimerGuards(s: Session) {
    && (!s.shut ==> s.waits + s.fired == 1)
    && (s.shut ==> s.waits == 0)
  }

  lemma GuardStep(s: Session, e: Event)
    requires Inv(s) && Enabled(s, e) && TimerGuards(s)
    ensures TimerGuards(Step(s, e))
  {
    StepEffects(s, e);
    hide Step, QueueKept, QueueEffects;
  }

  /** Over every run: a connection that was not shut down has its timer running or expired, so an idle one is closed in the end. */
  lemma {:induction false} TimerGuardsRun(s: Session, run: Run)
    requires Inv(s) && Possible(s, run) && TimerGuards(s)
    ensures TimerGuards(Exec(s, run))
    decreases run
  {
    hide Inv, Step, Enabled, TimerGuards;
    if run.Then? {
      GuardStep(s, run.event);
      StepKeepsInv(s, run.event);
      TimerGuardsRun(Step(s, run.event), run.rest);
    }
  }

  lemma NeverUnguarded(socketOpen: bool, run: Run)
    requires Possible(Running(socketOpen), run)
    ensures var end := Exec(Running(socketOpen), run);
            && (!end.shut <==> end.waits + end.fired == 1 && !EverShutsDown(Running(socketOpen), run))
            && (end.shut ==> end.waits == 0)
  {
    InitialInv(socketOpen);
    RunningBegins(socketOpen);
    hide Inv, Exec, Possible, EverShutsDown, Running;
    SocketAfterRun(Running(socketOpen), run);
    TimerGuardsRun(Running(socketOpen), run);
  }
}
