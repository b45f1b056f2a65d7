/** What every step of an HTTP session keeps, and what holds of whole runs. */
module HttpSessionTheorems {
  import opened Outcomes
  import opened HttpSessionModel
  import CircularBuffers

  function Outstanding(s: Session): nat {
    s.reading + (if s.flying.Some? then 1 else 0) + s.waits + s.fired + s.aborted
  }

  ghost predicate LocksKept(s: Session, held: nat) {
    && s.locks == Outstanding(s) + held
    && s.erases == (if s.locks == 0 then 1 else 0)
    && s.reading <= 1
    && s.waits + s.fired <= 1
  }

  /** The response in flight is the last one started and, as long as nothing was overwritten, the front of the queue. */
  ghost predicate FrontStarted(s: Session) {
    && (s.items != [] || s.flying.Some? ==> s.started != [])
    && (s.flying.Some? ==> s.flying.value == s.started[|s.started| - 1])
    && (s.overwritten == 0 && s.items != [] ==> s.items[0] == s.started[|s.started| - 1])
  }

  /**
   A stored response waits for the one in flight, unless a write ended the
   connection; a full queue means that the timer is stopped and no read is pending.
   */
  ghost predicate QueueKept(s: Session) {
    && |s.items| <= CircularBuffers.LIMIT
    && (s.flying.Some? || s.cut <==> s.items != [])
    && !(s.flying.Some? && s.cut)
    && FrontStarted(s)
    && (IsFull(s) ==> s.reading == 0 && s.waits == 0 && s.shut)
  }

  ghost predicate Inv(s: Session) {
    LocksKept(s, 0) && QueueKept(s)
  }

  lemma InitialInv(socketOpen: bool)
    ensures Inv(Running(socketOpen)) && Running(socketOpen).locks > 0
  {
  }

  // ---- the queue ----

  /** Inside the handler of a read, while the responses are being stored. */
  ghost predicate Answering(s: Session) {
    && LocksKept(s, 1) && s.reading == 0
    && |s.items| <= CircularBuffers.LIMIT
    && (s.flying.Some? || s.cut <==> s.items != [])
    && !(s.flying.Some? && s.cut)
    && FrontStarted(s)
  }

  /** What has been started, followed by what is stored behind it. */
  function Line(s: Session): seq<Response> {
    s.started + if s.items == [] then [] else s.items[1..]
  }

  lemma RespondKeeps(s: Session, x: Response)
    requires Answering(s)
    ensures Answering(Respond(s, x))
    ensures |Respond(s, x).items| == if IsFull(s) then |s.items| else |s.items| + 1
    ensures !IsFull(s) ==> Line(Respond(s, x)) == Line(s) + [x]
  {
    if !IsFull(s) && s.items != [] {
      assert (s.items + [x])[1..] == s.items[1..] + [x];
      assert s.started + (s.items[1..] + [x]) == (s.started + s.items[1..]) + [x];
    } else if s.items == [] {
      assert ([x])[1..] == [];
    }
  }

  /** Exactly the responses beyond the limit overwrite stored ones; without that, they queue up in order. */
  lemma {:induction false} RespondAllKeeps(s: Session, xs: seq<Response>)
    requires Answering(s)
    ensures var r := RespondAll(s, xs);
            && Answering(r)
            && r.overwritten - s.overwritten == (if |s.items| + |xs| > CircularBuffers.LIMIT then |s.items| + |xs| - CircularBuffers.LIMIT else 0)
            && (r.overwritten == s.overwritten ==> Line(r) == Line(s) + xs && |r.items| == |s.items| + |xs|)
    decreases |xs|
  {
    if xs != [] {
      RespondKeeps(s, xs[0]);
      RespondAllKeeps(Respond(s, xs[0]), xs[1..]);
      assert Line(s) + xs == (Line(s) + [xs[0]]) + xs[1..];
    } else {
      assert Line(s) + xs == Line(s);
    }
  }

  // ---- steps ----

  lemma UnlockKeeps(s: Session)
    requires LocksKept(s, 1) && QueueKept(s)
    ensures Inv(Unlock(s))
  {
  }

  lemma RequestKeeps(s: Session, result: ReadResult)
    requires LocksKept(s, 1) && QueueKept(s) && s.reading == 0 && result.Request?
    ensures LocksKept(OnRead(s, result), 1) && QueueKept(OnRead(s, result))
  {
    hide RespondAll;
    RespondAllKeeps(s, result.responses);
  }

  lemma OnReadKeeps(s: Session, result: ReadResult)
    requires Inv(s) && s.reading > 0
    ensures Inv(ReadStep(s, result))
  {
    hide RespondAll;
    var s0 := s.(reading := s.reading - 1);
    if result.Request? {
      RequestKeeps(s0, result);
    }
    UnlockKeeps(OnRead(s0, result));
  }

  lemma OnWriteKeeps(s: Session, result: Completion)
    requires Inv(s) && s.flying.Some?
    ensures Inv(WriteStep(s, result))
  {
    UnlockKeeps(OnWrite(s.(flying := None), s.flying.value, result));
  }

  lemma StepKeepsInv(s: Session, e: Event)
    requires Inv(s) && Enabled(s, e)
    ensures Inv(Step(s, e))
  {
    match e
    case ReadDone(result) => OnReadKeeps(s, result);
    case WriteDone(result) => OnWriteKeeps(s, result);
    case _ =>
  }

  lemma {:induction false} RunKeepsInv(s: Session, run: Run)
    requires Inv(s) && Possible(s, run)
    ensures Inv(Exec(s, run))
    decreases run
  {
    hide Step, Enabled;
    if run.Then? {
      StepKeepsInv(s, run.event);
      RunKeepsInv(Step(s, run.event), run.rest);
    }
  }

  // ---- pipelining ----

  /** The responses the handler makes to a request that an event reads. */
  function AnswersTo(e: Event): seq<Response> {
    if e.ReadDone? && e.read.Request? then e.read.responses else []
  }

  /** All responses of a run, in the order of their requests. */
  function Answers(run: Run): seq<Response> {
    if run.End? then [] else AnswersTo(run.event) + Answers(run.rest)
  }

  /** One response per request, as the request handlers of the library make them. */
  ghost predicate Synchronous(run: Run) {
    run.Then? ==> (run.event.ReadDone? && run.event.read.Request? ==> |AnswersTo(run.event)| == 1) && Synchronous(run.rest)
  }

  lemma ReadLine(s: Session, xs: seq<Response>)
    requires Inv(s) && s.reading > 0
    ensures var t := ReadStep(s, Request(xs));
            && t.overwritten >= s.overwritten
            && (t.overwritten == s.overwritten ==> Line(t) == Line(s) + xs)
            && (|xs| <= 1 ==> t.overwritten == s.overwritten)
  {
    hide RespondAll;
    RespondAllKeeps(s.(reading := s.reading - 1), xs);
  }

  lemma LineStep(s: Session, e: Event)
    requires Inv(s) && Enabled(s, e)
    ensures Step(s, e).overwritten >= s.overwritten
    ensures Step(s, e).overwritten == s.overwritten ==> Line(Step(s, e)) == Line(s) + AnswersTo(e)
    ensures |AnswersTo(e)| <= 1 ==> Step(s, e).overwritten == s.overwritten
  {
    hide RespondAll, StartFront, DoRead, QueueKept, LocksKept;
    match e
    case ReadDone(Request(xs)) => ReadLine(s, xs);
    case WriteDone(result) =>
      WriteLine(s, result);
      assert Line(s) + [] == Line(s);
    case _ => assert Line(s) + [] == Line(s);
  }

  lemma WriteLine(s: Session, result: Completion)
    requires Inv(s) && s.flying.Some?
    ensures Line(WriteStep(s, result)) == Line(s)
    ensures WriteStep(s, result).overwritten == s.overwritten
  {
    if |s.items| > 1 {
      assert s.started + s.items[1..] == (s.started + [s.items[1]]) + s.items[1..][1..];
    }
  }

  lemma {:induction false} LineRun(s: Session, run: Run)
    requires Inv(s) && Possible(s, run)
    ensures Exec(s, run).overwritten >= s.overwritten
    ensures Exec(s, run).overwritten == s.overwritten ==> Line(Exec(s, run)) == Line(s) + Answers(run)
    ensures Synchronous(run) ==> Exec(s, run).overwritten == s.overwritten
    decreases run
  {
    hide Step, Enabled, Line, AnswersTo, Inv;
    if run.Then? {
      LineStep(s, run.event);
      StepKeepsInv(s, run.event);
      LineRun(Step(s, run.event), run.rest);
      assert (Line(s) + AnswersTo(run.event)) + Answers(run.rest) == Line(s) + (AnswersTo(run.event) + Answers(run.rest));
      if Synchronous(run) {
        OneAnswer(run.event);
      }
    } else {
      assert Line(s) + [] == Line(s);
    }
  }

  lemma OneAnswer(e: Event)
    requires e.ReadDone? && e.read.Request? ==> |AnswersTo(e)| == 1
    ensures |AnswersTo(e)| <= 1
  {
  }

  /**
   With one response per request: nothing is ever overwritten, the responses that
   were started, followed by those stored behind them, are exactly the responses in
   request order, and no read is pending while the queue is full.
   */
  lemma Pipelining(socketOpen: bool, run: Run)
    requires Possible(Running(socketOpen), run) && Synchronous(run)
    ensures var end := Exec(Running(socketOpen), run);
            && end.overwritten == 0
            && Line(end) == Answers(run)
            && end.started <= Answers(run)
            && end.reading <= 1
            && (end.reading > 0 ==> |end.items| < CircularBuffers.LIMIT)
  {
    hide Step, Enabled, Possible, Exec, Synchronous, Answers;
    var s := Running(socketOpen);
    InitialInv(socketOpen);
    LineRun(s, run);
    RunKeepsInv(s, run);
    assert Line(s) == [] && [] + Answers(run) == Answers(run);
  }

  /** A handler that answers one request with more responses than there is room for loses stored ones. */
  lemma SecondAnswersOverwrite(s: Session, xs: seq<Response>)
    requires Inv(s) && s.reading > 0
    ensures Step(s, ReadDone(Request(xs))).overwritten > s.overwritten <==> |s.items| + |xs| > CircularBuffers.LIMIT
  {
    RespondAllKeeps(s.(reading := s.reading - 1), xs);
  }

  // ---- the cut at the end of the connection ----

  lemma CutStep(s: Session, e: Event)
    requires Inv(s) && s.cut && Enabled(s, e)
    ensures Step(s, e).cut && Step(s, e).started == s.started
  {
    if e.ReadDone? && e.read.Request? {
      StoredOnly(s.(reading := s.reading - 1), e.read.responses);
    }
  }

  lemma {:induction false} StoredOnly(s: Session, xs: seq<Response>)
    requires Answering(s) && s.cut
    ensures RespondAll(s, xs).started == s.started && RespondAll(s, xs).cut
    decreases |xs|
  {
    if xs != [] {
      RespondKeeps(s, xs[0]);
      StoredOnly(Respond(s, xs[0]), xs[1..]);
    }
  }

  /**
   After a response that ends the connection, or a write that failed, no response
   is started in any continuation, even if another request was already read.
   */
  lemma {:induction false} CutIsFinal(s: Session, run: Run)
    requires Inv(s) && s.cut && Possible(s, run)
    ensures Exec(s, run).cut && Exec(s, run).started == s.started
    decreases run
  {
    hide Step, Enabled, Inv;
    if run.Then? {
      CutStep(s, run.event);
      StepKeepsInv(s, run.event);
      CutIsFinal(Step(s, run.event), run.rest);
    }
  }

  /** The completions that make the cut: exactly those, and otherwise the next stored response is started. */
  lemma WriteCutsOrContinues(s: Session, result: Completion)
    requires Inv(s) && s.flying.Some?
    ensures var t := Step(s, WriteDone(result));
            && (t.cut <==> !result.Fine? || s.flying.value.needEof)
            && (!t.cut ==> t.items == s.items[1..] && (t.items != [] <==> t.flying.Some?))
            && (t.cut ==> t.items == s.items && t.flying.None?)
  {
  }

  // ---- timer, drain and erase ----

  /** Weighted outstanding work: a stored response still has to be started, a wait to be cancelled or to expire. */
  function Work(s: Session): nat {
    s.reading + |s.items| + (if s.flying.Some? then 1 else 0) + 2 * s.waits + s.fired + s.aborted
  }

  lemma DeadStep(s: Session, e: Event)
    requires Inv(s) && s.waits == 0 && Enabled(s, e)
    ensures Step(s, e).waits == 0
    ensures Step(s, e).reading + (if e.ReadDone? then 1 else 0) <= s.reading
  {
    match e
    case ReadDone(_) =>
    case WriteDone(_) =>
    case _ =>
  }

  /** However many responses the handler makes, each brings at most one entry and one write. */
  lemma {:induction false} RespondAllWork(s: Session, xs: seq<Response>)
    requires Answering(s)
    ensures Work(RespondAll(s, xs)) <= Work(s) + 2 * |xs|
    decreases |xs|
  {
    if xs != [] {
      RespondKeeps(s, xs[0]);
      RespondAllWork(Respond(s, xs[0]), xs[1..]);
    }
  }

  lemma DrainRead(s: Session, xs: seq<Response>)
    requires Inv(s) && s.waits == 0 && s.reading > 0
    ensures Work(Step(s, ReadDone(Request(xs)))) + 1 <= Work(s) + 2 * |xs|
  {
    hide RespondAll;
    RespondAllWork(s.(reading := s.reading - 1), xs);
  }

  lemma DrainWrite(s: Session, result: Completion)
    requires Inv(s) && s.waits == 0 && s.flying.Some?
    ensures Work(WriteStep(s, result)) + 1 <= Work(s)
  {
  }

  lemma DrainStep(s: Session, e: Event)
    requires Inv(s) && s.waits == 0 && Enabled(s, e)
    ensures Work(Step(s, e)) + (if e.ForceClose? then 0 else 1) <= Work(s) + 2 * |AnswersTo(e)|
  {
    match e
    case ReadDone(Request(xs)) => DrainRead(s, xs);
    case ReadDone(_) =>
    case WriteDone(result) => DrainWrite(s, result);
    case _ =>
  }

  function Completions(run: Run): nat {
    if run.End? then 0 else (if run.event.ForceClose? then 0 else 1) + Completions(run.rest)
  }

  function Reads(run: Run): nat {
    if run.End? then 0 else (if run.event.ReadDone? then 1 else 0) + Reads(run.rest)
  }

  /**
   Once no wait is pending, because it expired or do_close() stopped it, no later
   do_read() starts a read or re-arms the timer: what completes is at most the one
   read that was pending and a write for every response, also when the handler
   answers that read with none or with many.
   */
  lemma {:induction false} DeadTimerDrains(s: Session, run: Run)
    requires Inv(s) && s.waits == 0 && Possible(s, run)
    ensures Exec(s, run).waits == 0
    ensures Reads(run) + Exec(s, run).reading <= s.reading <= 1
    ensures Completions(run) + Work(Exec(s, run)) <= Work(s) + 2 * |Answers(run)|
    decreases run
  {
    hide Step, Enabled, Work, AnswersTo;
    if run.Then? {
      DeadStep(s, run.event);
      DrainStep(s, run.event);
      StepKeepsInv(s, run.event);
      DeadTimerDrains(Step(s, run.event), run.rest);
    }
  }

  // ---- the full queue ----

  lemma RespondOne(s: Session, x: Response)
    ensures RespondAll(s, [x]) == Respond(s, x)
  {
    assert [x][1..] == [];
    assert RespondAll(Respond(s, x), []) == Respond(s, x);
  }

  /** A read goes on to the next one exactly if the session is alive and the response did not fill the queue. */
  lemma ReadsOn(s: Session, x: Response)
    requires Inv(s) && s.reading > 0
    ensures Step(s, ReadDone(Request([x]))).reading == 1 <==>
            s.socketOpen && s.waits > 0 && |s.items| + 1 < CircularBuffers.LIMIT
  {
    var s0 := s.(reading := s.reading - 1);
    RespondOne(s0, x);
    RespondKeeps(s0, x);
  }

  /** Once the queue has been full, the session never reads again, although the code asks for a read after every write. */
  lemma FullIsFinal(s: Session, run: Run)
    requires Inv(s) && IsFull(s) && Possible(s, run)
    ensures Exec(s, run).reading == 0 && Exec(s, run).waits == 0
    ensures Reads(run) == 0
  {
    DeadTimerDrains(s, run);
  }

  function Requests(x: Response, n: nat): Run {
    if n == 0 then End else Then(ReadDone(Request([x])), Requests(x, n - 1))
  }

  /** n requests pipelined while the first response is still being written. */
  lemma {:induction false} PipelinedFill(s: Session, x: Response, n: nat)
    requires Inv(s) && s.socketOpen && s.waits > 0 && s.reading > 0 && |s.items| + n <= CircularBuffers.LIMIT
    ensures Possible(s, Requests(x, n))
    ensures |Exec(s, Requests(x, n)).items| == |s.items| + n
    decreases n
  {
    if n > 0 {
      var e := ReadDone(Request([x]));
      StoresOne(s, x);
      ReadsOn(s, x);
      StepKeepsInv(s, e);
      if n > 1 {
        PipelinedFill(Step(s, e), x, n - 1);
      }
    }
  }

  lemma StoresOne(s: Session, x: Response)
    requires Inv(s) && s.reading > 0 && !IsFull(s)
    ensures var t := Step(s, ReadDone(Request([x])));
            && |t.items| == |s.items| + 1 && t.socketOpen == s.socketOpen
            && (t.reading > 0 ==> t.waits > 0)
  {
    var s0 := s.(reading := s.reading - 1);
    RespondOne(s0, x);
    RespondKeeps(s0, x);
  }

  /** So it takes no more than 64 pipelined requests to end a session: this run fills the queue. */
  lemma PipeliningFillsQueue(x: Response)
    ensures var run := Requests(x, CircularBuffers.LIMIT);
            && Possible(Running(true), run)
            && IsFull(Exec(Running(true), run)) && Exec(Running(true), run).shut
  {
    InitialInv(true);
    PipelinedFill(Running(true), x, CircularBuffers.LIMIT);
    RunKeepsInv(Running(true), Requests(x, CircularBuffers.LIMIT));
  }

  function NextCompletion(s: Session): Event {
    if s.reading > 0 then ReadDone(ReadAborted)
    else if s.flying.Some? then WriteDone(Aborted)
    else if s.fired > 0 then TimerHandler(false)
    else AbortedTimerHandler
  }

  /** The drain ends with the one async_erase(): until then some completion can happen. */
  lemma DrainEndsWithErase(s: Session)
    requires Inv(s) && s.waits == 0
    ensures s.erases == 0 ==> Enabled(s, NextCompletion(s))
    ensures s.erases == 1 <==> s.reading == 0 && s.flying.None? && s.fired == 0 && s.aborted == 0
  {
  }

  /** At most one wait is pending or expired, and a filled queue has stopped the timer for good. */
  lemma TimerToken(socketOpen: bool, run: Run)
    requires Possible(Running(socketOpen), run)
    ensures var end := Exec(Running(socketOpen), run);
            && end.waits + end.fired <= 1
            && (IsFull(end) ==> end.waits == 0 && end.reading == 0)
  {
    hide Exec, Possible;
    InitialInv(socketOpen);
    RunKeepsInv(Running(socketOpen), run);
  }

  lemma {:induction false} ErasedOnce(s: Session, run: Run)
    requires Inv(s) && Possible(s, run)
    ensures Exec(s, run).erases <= 1
    ensures s.locks == 0 ==> Exec(s, run).locks == 0 && Exec(s, run).erases == 1
    decreases run
  {
    hide Step;
    RunKeepsInv(s, run);
    if run.Then? {
      StepKeepsInv(s, run.event);
      if s.locks == 0 {
        ZeroStays(s, run.event);
      }
      ErasedOnce(Step(s, run.event), run.rest);
    }
  }

  lemma ZeroStays(s: Session, e: Event)
    requires Inv(s) && Enabled(s, e) && s.locks == 0
    ensures e.ForceClose? && Step(s, e).locks == 0
  {
  }
}
