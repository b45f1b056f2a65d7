/**
 The counted-handle protocol under arbitrary interleaving.  Every atomic access to
 the counter and to a handle's pointer is a step of its own, so a thread can be
 overtaken between the check and the increment of a construction, between the three
 counter accesses of make_first_lock, and inside a move.  Handles are named; a thread
 carries the state of its one unfinished operation.
 */
module LockerInterleavings {

  type Thread = nat
  type Handle = nat

  datatype Pc =
    | Idle
    | Checked      // lock(locker): saw a count that was not zero, has not incremented
    | WonRace      // make_first_lock: exchanged 0 for 1
    | WonChecked   // make_first_lock: its own construction passed the check
    | WonLocked    // make_first_lock: result counted, first increase not undone
    | Releasing    // unlock: took the pointer out of the handle, has not decremented
    | Calling      // unlock: brought the count to zero, has not called the callback
    | Carrying     // move: took the pointer out of the source, has not stored it
    | EmptyHanded  // move: found no pointer in the source, has not stored that

  datatype State = State(
    count: int,
    pc: map<Thread, Pc>,
    live: set<Handle>,   // handles whose pointer is set
    leaked: nat,         // counts that no handle and no thread will ever give up
    firsts: nat,         // successful exchanges in make_first_lock
    revivals: nat,       // plain constructions that raised the count from zero
    calls: nat)          // callback calls

  datatype Event =
    | Check(t: Thread)
    | Increment(t: Thread, h: Handle)
    | Race(t: Thread)
    | FirstCheck(t: Thread)
    | FirstIncrement(t: Thread)
    | Undo(t: Thread, h: Handle)
    | Exchange(t: Thread, h: Handle)
    | Decrement(t: Thread)
    | Call(t: Thread)
    | Take(t: Thread, h: Handle)   // a move exchanges the pointer out of its source
    | Store(t: Thread, h: Handle)  // and stores it, in a new handle or over an old one

  predicate AtPc(s: State, t: Thread, p: Pc) {
    t in s.pc && s.pc[t] == p
  }

  predicate Enabled(s: State, e: Event) {
    match e
    case Check(t) => AtPc(s, t, Idle)
    case Increment(t, h) => AtPc(s, t, Checked) && h !in s.live
    case Race(t) => AtPc(s, t, Idle)
    case FirstCheck(t) => AtPc(s, t, WonRace)
    case FirstIncrement(t) => AtPc(s, t, WonChecked)
    case Undo(t, h) => AtPc(s, t, WonLocked) && h !in s.live
    case Exchange(t, _) => AtPc(s, t, Idle)
    case Decrement(t) => AtPc(s, t, Releasing)
    case Call(t) => AtPc(s, t, Calling)
    case Take(t, _) => AtPc(s, t, Idle)
    case Store(t, _) => AtPc(s, t, Carrying) || AtPc(s, t, EmptyHanded)
  }

  function Goto(s: State, t: Thread, p: Pc): State {
    s.(pc := s.pc[t := p])
  }

  function Step(s: State, e: Event): State
    requires Enabled(s, e)
  {
    match e
    case Check(t) =>
      if s.count == 0 then s else Goto(s, t, Checked)
    case Increment(t, h) =>
      Goto(s, t, Idle).(
        count := s.count + 1,
        live := s.live + {h},
        revivals := if s.count == 0 then s.revivals + 1 else s.revivals)
    case Race(t) =>
      if s.count != 0 then s else Goto(s, t, WonRace).(count := 1, firsts := s.firsts + 1)
    case FirstCheck(t) =>
      // throwing here would leave the first increase in the counter for good
      if s.count == 0 then Goto(s, t, Idle).(leaked := s.leaked + 1) else Goto(s, t, WonChecked)
    case FirstIncrement(t) =>
      Goto(s, t, WonLocked).(
        count := s.count + 1,
        revivals := if s.count == 0 then s.revivals + 1 else s.revivals)
    case Undo(t, h) =>
      Goto(s, t, Idle).(count := s.count - 1, live := s.live + {h})
    case Exchange(t, h) =>
      if h in s.live then Goto(s, t, Releasing).(live := s.live - {h}) else s
    case Decrement(t) =>
      Goto(s, t, if s.count == 1 then Calling else Idle).(count := s.count - 1)
    case Call(t) =>
      Goto(s, t, Idle).(calls := s.calls + 1)
    case Take(t, h) =>
      if h in s.live then Goto(s, t, Carrying).(live := s.live - {h}) else Goto(s, t, EmptyHanded)
    case Store(t, h) =>
      // a pointer the target held is overwritten, its count is not given up
      Goto(s, t, Idle).(
        live := if s.pc[t] == Carrying then s.live + {h} else s.live - {h},
        leaked := if h in s.live then s.leaked + 1 else s.leaked)
  }

  datatype Run = End | Then(event: Event, rest: Run)

  ghost predicate Possible(s: State, run: Run)
    decreases run
  {
    run.Then? ==> Enabled(s, run.event) && Possible(Step(s, run.event), run.rest)
  }

  ghost function Exec(s: State, run: Run): State
    requires Possible(s, run)
    decreases run
  {
    if run.End? then s else Exec(Step(s, run.event), run.rest)
  }

  /** A freshly constructed locker, with idle threads around it. */
  ghost predicate Initial(s: State) {
    && s.count == 0 && s.live == {} && s.leaked == s.firsts == s.revivals == s.calls == 0
    && forall t <- s.pc :: s.pc[t] == Idle
  }

  ghost function ThreadsAt(pc: map<Thread, Pc>, p: Pc): set<Thread> {
    set t | t in pc && pc[t] == p
  }

  /** The number of threads at p. */
  ghost function N(pc: map<Thread, Pc>, p: Pc): nat {
    |ThreadsAt(pc, p)|
  }

  /** The threads at p without t do not depend on what t does. */
  lemma OthersAt(pc: map<Thread, Pc>, t: Thread, q: Pc, p: Pc)
    ensures ThreadsAt(pc[t := q], p) - {t} == ThreadsAt(pc, p) - {t}
    ensures t in ThreadsAt(pc[t := q], p) <==> q == p
  {
  }

  lemma WithoutOne(threads: set<Thread>, t: Thread)
    ensures |threads| == |threads - {t}| + if t in threads then 1 else 0
  {
    assert t in threads ==> threads == (threads - {t}) + {t};
    assert t !in threads ==> threads == threads - {t};
  }

  lemma ThreadMoves(pc: map<Thread, Pc>, t: Thread, q: Pc, p: Pc)
    requires t in pc
    ensures N(pc[t := q], p) == N(pc, p) - (if pc[t] == p then 1 else 0) + if q == p then 1 else 0
  {
    OthersAt(pc, t, q, p);
    WithoutOne(ThreadsAt(pc, p), t);
    WithoutOne(ThreadsAt(pc[t := q], p), t);
    assert t in ThreadsAt(pc, p) <==> pc[t] == p;
  }

  lemma NonePresent(pc: map<Thread, Pc>, p: Pc)
    ensures N(pc, p) == 0 <==> forall t <- pc :: pc[t] != p
  {
    if t :| t in pc && pc[t] == p {
      assert t in ThreadsAt(pc, p);
    } else {
      assert ThreadsAt(pc, p) == {};
    }
  }

  /** Who accounts for the counter: live handles, unfinished operations, and leaks. */
  ghost function Held(s: State): nat {
    |s.live| + s.leaked + N(s.pc, WonRace) + N(s.pc, WonChecked) + 2 * N(s.pc, WonLocked) + N(s.pc, Releasing) + N(s.pc, Carrying)
  }

  /**
   The counter is exactly what is held, and every rise from zero is matched by one
   callback call, made or about to be made, once the count is zero again.
   */
  ghost predicate Conserved(s: State) {
    && s.count == Held(s)
    && s.calls + N(s.pc, Calling) + (if s.count > 0 then 1 else 0) == s.firsts + s.revivals
  }

  /** The counts an unfinished operation at p accounts for. */
  function Weight(p: Pc): nat {
    match p
    case WonLocked => 2
    case WonRace | WonChecked | Releasing | Carrying => 1
    case _ => 0
  }

  lemma GotoHeld(s: State, t: Thread, q: Pc)
    requires t in s.pc
    ensures Held(Goto(s, t, q)) == Held(s) - Weight(s.pc[t]) + Weight(q)
    ensures N(Goto(s, t, q).pc, Calling) == N(s.pc, Calling) - (if s.pc[t] == Calling then 1 else 0) + if q == Calling then 1 else 0
    ensures Weight(s.pc[t]) <= Held(s) - |s.live|
  {
    ThreadMoves(s.pc, t, q, WonRace);
    ThreadMoves(s.pc, t, q, WonChecked);
    ThreadMoves(s.pc, t, q, WonLocked);
    ThreadMoves(s.pc, t, q, Releasing);
    ThreadMoves(s.pc, t, q, Carrying);
    ThreadMoves(s.pc, t, q, Calling);
    NonePresent(s.pc, s.pc[t]);
  }

  /** What the rest of a step, besides the thread's progress, does to the account. */
  ghost predicate Books(s: State, t: State, q: Pc, pc: Pc) {
    && t.count - s.count == |t.live| - |s.live| + t.leaked - s.leaked + Weight(q) - Weight(pc)
    && t.calls + (if q == Calling then 1 else 0) + (if t.count > 0 then 1 else 0) + s.firsts + s.revivals ==
       s.calls + (if pc == Calling then 1 else 0) + (if s.count > 0 then 1 else 0) + t.firsts + t.revivals
  }

  /** A thread that holds a count knows that the counter is not below it. */
  ghost predicate Backed(s: State, t: Thread) {
    s.count >= 0 && t in s.pc && s.count >= Weight(s.pc[t])
  }

  ghost predicate StepBooks(s: State, e: Event)
    requires Enabled(s, e) && e.t in s.pc
  {
    e.t in Step(s, e).pc && Books(s, Step(s, e), Step(s, e).pc[e.t], s.pc[e.t])
  }

  lemma ConstructBooks(s: State, t: Thread, h: Handle)
    requires Backed(s, t)
    ensures Enabled(s, Increment(t, h)) ==> StepBooks(s, Increment(t, h))
    ensures Enabled(s, Undo(t, h)) ==> StepBooks(s, Undo(t, h))
  {
    StoredLive(s.live, h);
  }

  lemma ReleaseBooks(s: State, t: Thread, h: Handle)
    requires Backed(s, t)
    ensures Enabled(s, Exchange(t, h)) ==> StepBooks(s, Exchange(t, h))
    ensures Enabled(s, Take(t, h)) ==> StepBooks(s, Take(t, h))
  {
    StoredLive(s.live, h);
  }

  lemma StoreBooks(s: State, t: Thread, h: Handle)
    requires Backed(s, t)
    ensures Enabled(s, Store(t, h)) ==> StepBooks(s, Store(t, h))
  {
    StoredLive(s.live, h);
  }

  lemma CounterBooks(s: State, t: Thread)
    requires Backed(s, t)
    ensures Enabled(s, Check(t)) ==> StepBooks(s, Check(t))
    ensures Enabled(s, Race(t)) ==> StepBooks(s, Race(t))
    ensures Enabled(s, FirstCheck(t)) ==> StepBooks(s, FirstCheck(t))
    ensures Enabled(s, FirstIncrement(t)) ==> StepBooks(s, FirstIncrement(t))
  {
  }

  lemma LastBooks(s: State, t: Thread)
    requires Backed(s, t)
    ensures Enabled(s, Decrement(t)) ==> StepBooks(s, Decrement(t))
    ensures Enabled(s, Call(t)) ==> StepBooks(s, Call(t))
  {
  }

  lemma AllBooks(s: State, e: Event)
    requires Enabled(s, e) && Backed(s, e.t)
    ensures StepBooks(s, e)
  {
    hide StepBooks, Backed;
    match e
    case Increment(t, h) => ConstructBooks(s, t, h);
    case Undo(t, h) => ConstructBooks(s, t, h);
    case Exchange(t, h) => ReleaseBooks(s, t, h);
    case Take(t, h) => ReleaseBooks(s, t, h);
    case Store(t, h) => StoreBooks(s, t, h);
    case Decrement(t) => LastBooks(s, t);
    case Call(t) => LastBooks(s, t);
    case _ => CounterBooks(s, e.t);
  }

  lemma StepConserves(s: State, e: Event)
    requires Conserved(s) && Enabled(s, e)
    ensures Conserved(Step(s, e))
  {
    hide N, Step;
    var t := Step(s, e);
    OwnPc(s, e);
    GotoHeld(s, e.t, t.pc[e.t]);
    AllBooks(s, e);
  }

  lemma OwnPc(s: State, e: Event)
    requires Enabled(s, e)
    ensures e.t in s.pc && e.t in Step(s, e).pc
    ensures Step(s, e).pc == s.pc[e.t := Step(s, e).pc[e.t]]
  {
    assert s.pc[e.t := s.pc[e.t]] == s.pc;
  }

  lemma StoredLive(live: set<Handle>, h: Handle)
    ensures |live + {h}| == |live| + if h in live then 0 else 1
    ensures |live - {h}| == |live| - if h in live then 1 else 0
  {
    assert h in live ==> live + {h} == live;
    assert h !in live ==> live - {h} == live;
  }

  lemma InitialConserved(s: State)
    requires Initial(s)
    ensures Conserved(s)
  {
    NonePresent(s.pc, WonRace);
    NonePresent(s.pc, WonChecked);
    NonePresent(s.pc, WonLocked);
    NonePresent(s.pc, Releasing);
    NonePresent(s.pc, Calling);
    NonePresent(s.pc, Carrying);
  }

  /** Over every run, guarded or not: the count is what is held, and rises match calls. */
  lemma {:induction false} RunConserves(s: State, run: Run)
    requires Conserved(s) && Possible(s, run)
    ensures Conserved(Exec(s, run))
    decreases run
  {
    if run.Then? {
      StepConserves(s, run.event);
      RunConserves(Step(s, run.event), run.rest);
    }
  }

  // ---- each operation by itself ----

  /** Run without interruption, a construction is refused at zero and adds one counted handle otherwise. */
  lemma ConstructionAlone(s: State, t: Thread, h: Handle)
    requires AtPc(s, t, Idle) && h !in s.live
    ensures s.count == 0 ==> Step(s, Check(t)) == s
    ensures s.count != 0 ==>
              var u := Step(s, Check(t));
              Enabled(u, Increment(t, h)) && Step(u, Increment(t, h)) == s.(count := s.count + 1, live := s.live + {h})
  {
    assert s.pc[t := Checked][t := Idle] == s.pc;
  }

  /** make_first_lock changes nothing above zero, and leaves one counted handle otherwise. */
  lemma FirstLockAlone(s: State, t: Thread, h: Handle)
    requires AtPc(s, t, Idle) && h !in s.live
    ensures s.count != 0 ==> Step(s, Race(t)) == s
    ensures s.count == 0 ==>
              var u := Step(s, Race(t));
              && Enabled(u, FirstCheck(t))
              && var v := Step(u, FirstCheck(t));
                 && Enabled(v, FirstIncrement(t))
                 && var w := Step(v, FirstIncrement(t));
                    && Enabled(w, Undo(t, h))
                    && Step(w, Undo(t, h)) == s.(count := 1, live := s.live + {h}, firsts := s.firsts + 1)
  {
    assert s.pc[t := WonRace][t := WonChecked][t := WonLocked][t := Idle] == s.pc;
  }

  /** unlock gives up the count of a handle that has one, and calls the callback exactly if that was the last. */
  lemma UnlockAlone(s: State, t: Thread, h: Handle)
    requires AtPc(s, t, Idle)
    ensures h !in s.live ==> Step(s, Exchange(t, h)) == s
    ensures h in s.live ==>
              var u := Step(s, Exchange(t, h));
              && Enabled(u, Decrement(t))
              && var v := Step(u, Decrement(t));
                 if s.count == 1
                 then Enabled(v, Call(t)) && Step(v, Call(t)) == s.(count := 0, live := s.live - {h}, calls := s.calls + 1)
                 else v == s.(count := s.count - 1, live := s.live - {h})
  {
    assert s.pc[t := Releasing][t := Idle] == s.pc;
    assert s.pc[t := Releasing][t := Calling][t := Idle] == s.pc;
  }

  /** A move passes the count on, and loses the one its target held. */
  lemma MoveAlone(s: State, t: Thread, source: Handle, target: Handle)
    requires AtPc(s, t, Idle)
    ensures var u := Step(s, Take(t, source));
            && Enabled(u, Store(t, target))
            && Step(u, Store(t, target)) ==
               s.(live := if source in s.live then s.live - {source} + {target} else s.live - {source} - {target},
                  leaked := s.leaked + if target in s.live && target != source then 1 else 0)
  {
    assert s.pc[t := Carrying][t := Idle] == s.pc;
    assert s.pc[t := EmptyHanded][t := Idle] == s.pc;
    assert source !in s.live ==> s.live - {source} == s.live;
  }

  // ---- zero is final ----

  ghost predicate NoRace(run: Run) {
    run.Then? ==> !run.event.Race? && NoRace(run.rest)
  }

  /** At zero nobody holds a count, and no construction is past its check. */
  ghost predicate AtZero(s: State) {
    Conserved(s) && s.count == 0 && forall t :: !AtPc(s, t, Checked)
  }

  lemma ZeroStep(s: State, e: Event)
    requires AtZero(s) && Enabled(s, e) && !e.Race?
    ensures AtZero(Step(s, e))
  {
    StepConserves(s, e);
    NonePresent(s.pc, s.pc[e.t]);
    var t := Step(s, e);
    forall u ensures !AtPc(t, u, Checked) {
      assert !AtPc(s, u, Checked);
    }
  }

  /** From there only make_first_lock can raise the count: every other run leaves it at zero. */
  lemma {:induction false} ZeroIsFinal(s: State, run: Run)
    requires AtZero(s) && Possible(s, run) && NoRace(run)
    ensures Exec(s, run).count == 0
    decreases run
  {
    hide AtZero, Step, Enabled;
    if run.Then? {
      ZeroStep(s, run.event);
      ZeroIsFinal(Step(s, run.event), run.rest);
    } else {
      ZeroMeans(s);
    }
  }

  lemma ZeroMeans(s: State)
    requires AtZero(s)
    ensures s.count == 0
  {
  }

  /** The hypothesis on callers: while a thread is between check and increment, some handle is live or being moved. */
  ghost predicate Covered(s: State) {
    (exists t :: AtPc(s, t, Checked)) ==> s.live != {} || exists t :: AtPc(s, t, Carrying)
  }

  /** Such a handle keeps the count up. */
  lemma CoveredCount(s: State, t: Thread)
    requires Conserved(s) && Covered(s) && AtPc(s, t, Checked)
    ensures s.count > 0
  {
    if s.live == {} {
      var mover :| AtPc(s, mover, Carrying);
      NonePresent(s.pc, Carrying);
    }
  }

  ghost predicate CoveredRun(s: State, run: Run)
    requires Possible(s, run)
    decreases run
  {
    Covered(s) && (run.Then? ==> CoveredRun(Step(s, run.event), run.rest))
  }

  /** What make_first_lock relies on: its first increase keeps the count up until it is undone. */
  lemma FirstLockIsSafe(s: State, t: Thread)
    requires Conserved(s)
    ensures AtPc(s, t, WonRace) ==> Step(s, FirstCheck(t)).pc[t] == WonChecked
    ensures AtPc(s, t, WonChecked) ==> Step(s, FirstIncrement(t)).revivals == s.revivals
    ensures forall h | h !in s.live && AtPc(s, t, WonLocked) :: Step(s, Undo(t, h)).count > 0
  {
    if t in s.pc {
      NonePresent(s.pc, s.pc[t]);
    }
  }

  /**
   Safety under the hypothesis: no plain construction raises the count from zero,
   so each first-lock generation gets exactly one callback call, at its last
   release.
   */
  lemma {:induction false} CoveredRunsNeverRevive(s: State, run: Run)
    requires Conserved(s) && Possible(s, run) && CoveredRun(s, run)
    ensures Exec(s, run).revivals == s.revivals
    decreases run
  {
    if run.Then? {
      StepConserves(s, run.event);
      if run.event.FirstIncrement? {
        FirstLockIsSafe(s, run.event.t);
      } else if run.event.Increment? {
        CoveredCount(s, run.event.t);
      }
      CoveredRunsNeverRevive(Step(s, run.event), run.rest);
    }
  }

  lemma OneCallPerGeneration(s: State, run: Run)
    requires Initial(s) && Possible(s, run) && CoveredRun(s, run)
    ensures var end := Exec(s, run);
            && end.count == Held(end)
            && end.calls + N(end.pc, Calling) == end.firsts - if end.count > 0 then 1 else 0
  {
    InitialConserved(s);
    RunConserves(s, run);
    CoveredRunsNeverRevive(s, run);
  }

  /**
   When all operations are over and all handles are empty: the count is back at
   zero, with one call per generation, if and only if no move assignment hit a
   target that still held a count.
   */
  lemma QuietEnd(s: State, run: Run)
    requires Initial(s) && Possible(s, run) && CoveredRun(s, run)
    requires Exec(s, run).live == {} && forall t <- Exec(s, run).pc :: Exec(s, run).pc[t] == Idle
    ensures var end := Exec(s, run);
            && (end.count == 0 <==> end.leaked == 0)
            && (end.calls == end.firsts <==> end.leaked == 0)
  {
    OneCallPerGeneration(s, run);
    var end := Exec(s, run);
    NonePresent(end.pc, WonRace);
    NonePresent(end.pc, WonChecked);
    NonePresent(end.pc, WonLocked);
    NonePresent(end.pc, Releasing);
    NonePresent(end.pc, Calling);
    NonePresent(end.pc, Carrying);
  }

  /** A leaked count silences the callback in every continuation. */
  lemma {:induction false} LeakSilencesCallback(s: State, run: Run)
    requires Conserved(s) && s.leaked > 0 && Possible(s, run)
    ensures Exec(s, run).count > 0
    ensures Exec(s, run).calls <= s.calls + N(s.pc, Calling)
    ensures Exec(s, run).firsts == s.firsts
    decreases run
  {
    LeakKeepsRises(s, run);
    RunConserves(s, run);
  }

  lemma {:induction false} LeakKeepsRises(s: State, run: Run)
    requires Conserved(s) && s.leaked > 0 && Possible(s, run)
    ensures var end := Exec(s, run);
            end.leaked > 0 && end.firsts == s.firsts && end.revivals == s.revivals
    decreases run
  {
    if run.Then? {
      StepConserves(s, run.event);
      LeakKeepsRises(Step(s, run.event), run.rest);
    }
  }

  /**
   The hypothesis is needed.  Thread 1 checks while handle 0 is live; thread 2
   releases handle 0 and the callback runs; then thread 1 increments from zero, and
   its release calls the callback a second time in the same generation.
   */
  lemma UncoveredConstructionCallsTwice(s: State) returns (run: Run)
    requires Initial(s) && s.pc == map[1 := Idle, 2 := Idle]
    ensures Possible(s, run)
    ensures Exec(s, run).firsts == 1 && Exec(s, run).calls == 2
  {
    var t := FirstLock(s);
    var rest := CallsTwice(t);
    assert Step(Step(Step(Step(s, Race(2)), FirstCheck(2)), FirstIncrement(2)), Undo(2, 0)) == t;
    var s1 := Step(s, Race(2));
    var s2 := Step(s1, FirstCheck(2));
    var s3 := Step(s2, FirstIncrement(2));
    hide Exec, Possible;
    Prepend(s3, Undo(2, 0), rest);
    Prepend(s2, FirstIncrement(2), Then(Undo(2, 0), rest));
    Prepend(s1, FirstCheck(2), Then(FirstIncrement(2), Then(Undo(2, 0), rest)));
    run := Then(Race(2), Then(FirstCheck(2), Then(FirstIncrement(2), Then(Undo(2, 0), rest))));
    Prepend(s, Race(2), run.rest);
  }

  lemma Prepend(s: State, e: Event, rest: Run)
    requires Enabled(s, e) && Possible(Step(s, e), rest)
    ensures Possible(s, Then(e, rest)) && Exec(s, Then(e, rest)) == Exec(Step(s, e), rest)
  {
    hide Step, Enabled;
  }

  /** Thread 2 makes the first lock, as handle 0. */
  lemma FirstLock(s: State) returns (t: State)
    requires Initial(s) && s.pc == map[1 := Idle, 2 := Idle]
    ensures Enabled(s, Race(2))
    ensures var s1 := Step(s, Race(2));
            && Enabled(s1, FirstCheck(2))
            && var s2 := Step(s1, FirstCheck(2));
               && Enabled(s2, FirstIncrement(2))
               && var s3 := Step(s2, FirstIncrement(2));
                  Enabled(s3, Undo(2, 0)) && t == Step(s3, Undo(2, 0))
    ensures t == State(1, map[1 := Idle, 2 := Idle], {0}, 0, 1, 0, 0)
  {
    var s1 := Step(s, Race(2));
    var s2 := Step(s1, FirstCheck(2));
    var s3 := Step(s2, FirstIncrement(2));
    t := Step(s3, Undo(2, 0));
    assert t.pc == map[1 := Idle, 2 := Idle];
  }

  lemma CallsTwice(s: State) returns (run: Run)
    requires s == State(1, map[1 := Idle, 2 := Idle], {0}, 0, 1, 0, 0)
    ensures Possible(s, run)
    ensures Exec(s, run).firsts == 1 && Exec(s, run).calls == 2
  {
    var s1 := Step(s, Check(1));
    assert s1.pc == map[1 := Checked, 2 := Idle];
    var s2 := Step(s1, Exchange(2, 0));
    assert s2.pc == map[1 := Checked, 2 := Releasing] && s2.live == {};
    var s3 := Step(s2, Decrement(2));
    assert s3.pc == map[1 := Checked, 2 := Calling];
    var s4 := Step(s3, Call(2));
    assert s4.pc == map[1 := Checked, 2 := Idle];
    var rest := SecondCall(s4);
    hide Exec, Possible;
    Prepend(s3, Call(2), rest);
    Prepend(s2, Decrement(2), Then(Call(2), rest));
    Prepend(s1, Exchange(2, 0), Then(Decrement(2), Then(Call(2), rest)));
    run := Then(Check(1), Then(Exchange(2, 0), Then(Decrement(2), Then(Call(2), rest))));
    Prepend(s, Check(1), run.rest);
  }

  /** Thread 1 goes on, although the count is zero and the callback was called. */
  lemma SecondCall(s: State) returns (run: Run)
    requires s == State(0, map[1 := Checked, 2 := Idle], {}, 0, 1, 0, 1)
    ensures Possible(s, run)
    ensures Exec(s, run).firsts == 1 && Exec(s, run).calls == 2
  {
    var s1 := Step(s, Increment(1, 1));
    assert s1.pc == map[1 := Idle, 2 := Idle] && s1.live == {1};
    var s2 := Step(s1, Exchange(1, 1));
    assert s2.pc == map[1 := Releasing, 2 := Idle];
    var s3 := Step(s2, Decrement(1));
    assert s3.pc == map[1 := Calling, 2 := Idle];
    var last := Then(Call(1), End);
    assert Possible(s3, last) && Exec(s3, last).calls == 2 && Exec(s3, last).firsts == 1;
    hide Exec, Possible;
    Prepend(s2, Decrement(1), last);
    Prepend(s1, Exchange(1, 1), Then(Decrement(1), last));
    run := Then(Increment(1, 1), Then(Exchange(1, 1), Then(Decrement(1), last)));
    Prepend(s, Increment(1, 1), run.rest);
  }
}
