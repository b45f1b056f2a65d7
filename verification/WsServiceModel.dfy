/**
 A WebSocket service as a state machine over its strand: the sessions in map_ are
 the session state machines, and the closures dispatched to the strand run in any
 order, one at a time.
 */
module WsServiceModel {
  import HandlerLocks
  import S = WsSessionModel

  type Id = nat

  /** Closures on the service's strand; each holds one lock of the service. */
  datatype Closure =
    | ConnectClosure
    | EraseClosure(id: Id)
    | ShutdownClosure
    | SendClosure(isText: bool, data: string)
    | CloseClosure(reason: string)

  datatype Service = Service(
    locks: HandlerLocks.Locks,
    shutdownRan: bool,           // shutdown_
    sessions: map<Id, S.Session>, // map_
    pending: multiset<Closure>,
    connecting: bool,            // the connect closure on the strand has passed its is_shutdown() check
    log: seq<S.Message>,         // history: the sends executed on the strand
    gone: map<Id, S.Session>,    // history: the sessions erased from map_
    finishCalls: nat,            // history: on_shutdown_finished() calls
    finishErrors: nat)           // history: those that ended in an exception

  /** How a connect ends: resolve or handshake throws, do_accept() or start(). */
  datatype Beginning = ConnectFails | Accepts(streamOpen: bool) | Starts(streamOpen: bool)

  datatype Event =
    | CallConnect
    | CheckConnect                              // the closure's check of is_shutdown()
    | RunConnect(id: Id, beginning: Beginning)  // the rest of it, after the check
    | CallSend(isText: bool, data: string)
    | RunSend(isText: bool, data: string, chosen: set<Id>)
    | CallClose(reason: string)
    | RunClose(reason: string, chosen: set<Id>)
    | Inner(id: Id, e: S.Event)
    | RunErase(id: Id)
    | Shutdown
    | RunShutdown

  /** Sends, closes and destruction reach a session only through the service. */
  predicate IsOwn(e: S.Event) {
    !e.CallSend? && !e.CallClose? && !e.Destroy?
  }

  predicate Enabled(s: Service, e: Event) {
    match e
    case CallConnect => true
    case CheckConnect => ConnectClosure in s.pending && !s.connecting
    case RunConnect(id, _) => s.connecting && id !in s.sessions && id !in s.gone
    case CallSend(_, _) => true
    case RunSend(isText, data, _) => SendClosure(isText, data) in s.pending && !s.connecting
    case CallClose(_) => true
    case RunClose(reason, _) => CloseClosure(reason) in s.pending && !s.connecting
    case Inner(id, own) => id in s.sessions && IsOwn(own) && S.Enabled(s.sessions[id], own)
    case RunErase(id) => EraseClosure(id) in s.pending && !s.connecting
    case Shutdown => true
    case RunShutdown => ShutdownClosure in s.pending && !s.connecting
  }

  /** make_lock() and dispatch; after the last lock was released the call throws. */
  function Dispatch(s: Service, c: Closure): Service {
    if s.locks.count == 0 then s
    else s.(locks := HandlerLocks.MakeLock(s.locks), pending := s.pending + multiset{c})
  }

  /** The end of a closure releases its lock. */
  function Done(s: Service, c: Closure): Service {
    s.(locks := HandlerLocks.Unlock(s.locks), pending := s.pending - multiset{c})
  }

  /** on_shutdown_finished(), which calls shutdown_finished(). */
  function Finish(s: Service): Service {
    s.(locks := HandlerLocks.Finish(s.locks),
       finishCalls := s.finishCalls + 1,
       finishErrors := s.finishErrors + if HandlerLocks.FinishSucceeds(s.locks) then 0 else 1)
  }

  /**
   The connect closure asks is_shutdown() first.  Until it goes on, to resolve and
   connect and emplace, the strand is occupied, but shutdown() may be called.
   */
  function PassCheck(s: Service): Service {
    if HandlerLocks.IsShutdown(s.locks) then Done(s, ConnectClosure) else s.(connecting := true)
  }

  function Connect(s: Service, id: Id, beginning: Beginning): Service {
    var u := s.(connecting := false);
    match beginning
    case ConnectFails => u
    case Accepts(streamOpen) => u.(sessions := s.sessions[id := S.Accepting(streamOpen)])
    case Starts(streamOpen) => u.(sessions := s.sessions[id := S.Starting(streamOpen)])
  }

  function ToChosen(sessions: map<Id, S.Session>, chosen: set<Id>, c: S.Closure): map<Id, S.Session> {
    map id <- sessions :: if id in chosen then S.Dispatch(sessions[id], c) else sessions[id]
  }

  /** chosen is the set of identifiers the caller's function accepts. */
  function Send(s: Service, isText: bool, data: string, chosen: set<Id>): Service {
    var m := S.Message(|s.log|, isText, data);
    s.(log := s.log + [m], sessions := ToChosen(s.sessions, chosen, S.SendClosure(m)))
  }

  function Close(s: Service, reason: string, chosen: set<Id>): Service {
    s.(sessions := ToChosen(s.sessions, chosen, S.CloseClosure(reason)))
  }

  /** A session's last lock is released: its locker's callback is on_erase(). */
  function InnerStep(s: Service, id: Id, e: S.Event): Service
    requires id in s.sessions && S.Enabled(s.sessions[id], e)
  {
    var t := S.Step(s.sessions[id], e);
    var u := s.(sessions := s.sessions[id := t]);
    if t.erases > s.sessions[id].erases then Dispatch(u, EraseClosure(id)) else u
  }

  /** The erase closure; finishIfEmpty is the flag it tests after erasing. */
  function Erase(s: Service, id: Id, finishIfEmpty: bool): Service {
    if id !in s.sessions then s // "session doesn't exist"
    else
      var u := s.(sessions := s.sessions - {id}, gone := s.gone[id := S.DestroyStep(s.sessions[id])]);
      if u.sessions == map[] && finishIfEmpty then Finish(u) else u
  }

  function ShutdownCall(s: Service): Service {
    var l := HandlerLocks.Shutdown(s.locks);
    if l.onShutdowns > s.locks.onShutdowns then Dispatch(s.(locks := l), ShutdownClosure) else s.(locks := l)
  }

  function ShutdownBody(s: Service): Service {
    var u := if s.sessions == map[] then Finish(s) else Close(s, "shutdown", s.sessions.Keys);
    u.(shutdownRan := true)
  }

  function Step(s: Service, e: Event): Service
    requires Enabled(s, e)
  {
    match e
    case CallConnect => Dispatch(s, ConnectClosure)
    case CheckConnect => PassCheck(s)
    case RunConnect(id, beginning) => Done(Connect(s, id, beginning), ConnectClosure)
    case CallSend(isText, data) => Dispatch(s, SendClosure(isText, data))
    case RunSend(isText, data, chosen) => Done(Send(s, isText, data, chosen), SendClosure(isText, data))
    case CallClose(reason) => Dispatch(s, CloseClosure(reason))
    case RunClose(reason, chosen) => Done(Close(s, reason, chosen), CloseClosure(reason))
    case Inner(id, own) => InnerStep(s, id, own)
    case RunErase(id) => Done(Erase(s, id, s.shutdownRan), EraseClosure(id))
    case Shutdown => ShutdownCall(s)
    case RunShutdown => Done(ShutdownBody(s), ShutdownClosure)
  }

  const INITIAL := Service(HandlerLocks.RUNNING, false, map[], multiset{}, false, [], map[], 0, 0)

  datatype Run = End | Then(event: Event, rest: Run)

  ghost predicate Possible(s: Service, run: Run)
    decreases run
  {
    run.Then? ==> Enabled(s, run.event) && Possible(Step(s, run.event), run.rest)
  }

  ghost function Exec(s: Service, run: Run): Service
    requires Possible(s, run)
    decreases run
  {
    if run.End? then s else Exec(Step(s, run.event), run.rest)
  }
}
