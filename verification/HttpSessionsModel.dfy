/**
 The set of HTTP sessions as a state machine over its strand, with its own variant
 of the shutdown hand-over: unlocking the shutdown lock twice is harmless, so no
 second flag is needed.
 */
module HttpSessionsModel {
  import H = HttpSessionModel

  type Id = nat

  datatype Closure = EmplaceClosure | EraseClosure(id: Id) | ShutdownClosure

  datatype Sessions = Sessions(
    runLock: bool,
    shutdownLock: bool,
    count: int,
    sessions: map<Id, H.Session>, // set_
    pending: multiset<Closure>,
    emplacing: bool,              // the emplace closure on the strand has passed its is_shutdown() check
    closureRan: bool,             // history: the closure of shutdown() has run
    unlocks: nat,                 // history: how often the shutdown lock gave up a count
    gone: map<Id, H.Session>)     // history: the sessions erased

  datatype Event =
    | CallEmplace
    | CheckEmplace                          // the closure's check of is_shutdown()
    | RunEmplace(id: Id, socketOpen: bool)  // the rest of it, after the check
    | Inner(id: Id, e: H.Event)
    | RunErase(id: Id)
    | Shutdown
    | RunShutdown

  predicate Enabled(s: Sessions, e: Event) {
    match e
    case CallEmplace => true
    case CheckEmplace => EmplaceClosure in s.pending && !s.emplacing
    case RunEmplace(id, _) => s.emplacing && id !in s.sessions && id !in s.gone
    case Inner(id, own) => id in s.sessions && !own.ForceClose? && H.Enabled(s.sessions[id], own)
    case RunErase(id) => EraseClosure(id) in s.pending && !s.emplacing
    case Shutdown => true
    case RunShutdown => ShutdownClosure in s.pending && !s.emplacing
  }

  predicate IsShutdown(s: Sessions) {
    !s.runLock
  }

  function Dispatch(s: Sessions, c: Closure): Sessions {
    if s.count == 0 then s else s.(count := s.count + 1, pending := s.pending + multiset{c})
  }

  function Done(s: Sessions, c: Closure): Sessions {
    s.(count := s.count - 1, pending := s.pending - multiset{c})
  }

  /** shutdown_lock_.unlock() */
  function UnlockShutdown(s: Sessions): Sessions {
    if s.shutdownLock then s.(shutdownLock := false, count := s.count - 1, unlocks := s.unlocks + 1) else s
  }

  /**
   The emplace closure asks is_shutdown() first; shutdown() may be called, on
   another thread, before it goes on.
   */
  function PassCheck(s: Sessions): Sessions {
    if IsShutdown(s) then Done(s, EmplaceClosure) else s.(emplacing := true)
  }

  function Emplace(s: Sessions, id: Id, socketOpen: bool): Sessions {
    s.(sessions := s.sessions[id := H.Running(socketOpen)], emplacing := false)
  }

  function InnerStep(s: Sessions, id: Id, e: H.Event): Sessions
    requires id in s.sessions && H.Enabled(s.sessions[id], e)
  {
    var t := H.Step(s.sessions[id], e);
    var u := s.(sessions := s.sessions[id := t]);
    if t.erases > s.sessions[id].erases then Dispatch(u, EraseClosure(id)) else u
  }

  function Erase(s: Sessions, id: Id): Sessions {
    if id !in s.sessions then s // "session doesn't exist"
    else
      var u := s.(sessions := s.sessions - {id}, gone := s.gone[id := s.sessions[id]]);
      if u.sessions == map[] && IsShutdown(u) then UnlockShutdown(u) else u
  }

  /** shutdown() as one step: the run lock is moved to the shutdown lock. */
  function ShutdownCall(s: Sessions): Sessions {
    if s.runLock then Dispatch(s.(runLock := false, shutdownLock := true), ShutdownClosure) else s
  }

  function CloseAll(sessions: map<Id, H.Session>): map<Id, H.Session> {
    map id <- sessions :: H.DoClose(sessions[id])
  }

  function ShutdownBody(s: Sessions): Sessions {
    var u := if s.sessions == map[] then UnlockShutdown(s) else s.(sessions := CloseAll(s.sessions));
    u.(closureRan := true)
  }

  function Step(s: Sessions, e: Event): Sessions
    requires Enabled(s, e)
  {
    match e
    case CallEmplace => Dispatch(s, EmplaceClosure)
    case CheckEmplace => PassCheck(s)
    case RunEmplace(id, socketOpen) => Done(Emplace(s, id, socketOpen), EmplaceClosure)
    case Inner(id, own) => InnerStep(s, id, own)
    case RunErase(id) => Done(Erase(s, id), EraseClosure(id))
    case Shutdown => ShutdownCall(s)
    case RunShutdown => Done(ShutdownBody(s), ShutdownClosure)
  }

  const INITIAL := Sessions(true, false, 1, map[], multiset{}, false, false, 0, map[])

  datatype Run = End | Then(event: Event, rest: Run)

  ghost predicate Possible(s: Sessions, run: Run)
    decreases run
  {
    run.Then? ==> Enabled(s, run.event) && Possible(Step(s, run.event), run.rest)
  }

  ghost function Exec(s: Sessions, run: Run): Sessions
    requires Possible(s, run)
    decreases run
  {
    if run.End? then s else Exec(Step(s, run.event), run.rest)
  }
}
