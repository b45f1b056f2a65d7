/**
 The service handler as a state machine over its strand: the services in services_
 are the service state machines, and closures run in the order they were dispatched.
 The closure that erases a drained service is dispatched by that service's locker
 and, unlike all others, holds no lock of the handler.
 */
module ServiceHandlerModel {
  import HandlerLocks
  import V = WsServiceModel

  type Name = string

  datatype Closure =
    | AddClosure(name: Name)
    | EraseClosure(name: Name)
    | ConnectClosure(name: Name)
    | ShutdownClosure
    | DropClosure(name: Name)  // dispatched by the service's locker, without a lock

  /** A service in the map; callback is set once erase_service() has set it on the service's locker. */
  datatype Slot = Slot(service: V.Service, callback: bool, dropping: bool /* history: the callback was called */)

  datatype Handler = Handler(
    locks: HandlerLocks.Locks,
    shutdownRan: bool,
    services: map<Name, Slot>,
    queue: seq<Closure>,    // dispatched to the strand, first one first
    finishCalls: nat,       // history: shutdown_finished() calls
    finishErrors: nat)      // history: those that threw

  datatype Event =
    | CallAdd(name: Name)
    | CallErase(name: Name)
    | CallConnect(name: Name)
    | Inner(name: Name, e: V.Event)
    | Shutdown
    | RunFirst  // the first closure on the strand runs

  predicate Enabled(h: Handler, e: Event) {
    match e
    case CallAdd(_) => true
    case CallErase(_) => true
    case CallConnect(_) => true
    case Inner(name, own) => name in h.services && V.Enabled(h.services[name].service, own)
    case Shutdown => true
    case RunFirst => h.queue != []
  }

  function Dispatch(h: Handler, c: Closure): Handler {
    if h.locks.count == 0 then h
    else h.(locks := HandlerLocks.MakeLock(h.locks), queue := h.queue + [c])
  }

  /** The end of a closure that holds a lock. */
  function Unlock(h: Handler): Handler {
    h.(locks := HandlerLocks.Unlock(h.locks))
  }

  function Finish(h: Handler): Handler {
    h.(locks := HandlerLocks.Finish(h.locks),
       finishCalls := h.finishCalls + 1,
       finishErrors := h.finishErrors + if HandlerLocks.FinishSucceeds(h.locks) then 0 else 1)
  }

  /** add_service(): is_shutdown() is not asked. */
  function Add(h: Handler, name: Name): Handler {
    if name in h.services then h // "already exists"
    else h.(services := h.services[name := Slot(V.INITIAL, false, false)])
  }

  /** shutdown(fn) on the service: set the callback, then shut down. */
  function EraseService(h: Handler, name: Name): Handler {
    if name !in h.services then h // "doesn't exist"
    else
      var slot := h.services[name];
      h.(services := h.services[name := slot.(callback := true, service := V.ShutdownCall(slot.service))])
  }

  function Connect(h: Handler, name: Name): Handler {
    if name !in h.services then h
    else
      var slot := h.services[name];
      h.(services := h.services[name := slot.(service := V.Dispatch(slot.service, V.ConnectClosure))])
  }

  /** A step of a service; when its last lock goes, its locker's callback dispatches the erase closure. */
  function InnerStep(h: Handler, name: Name, e: V.Event): Handler
    requires name in h.services && V.Enabled(h.services[name].service, e)
  {
    var slot := h.services[name];
    var service := V.Step(slot.service, e);
    if slot.service.locks.count != 0 && service.locks.count == 0 && slot.callback then
      h.(services := h.services[name := slot.(service := service, dropping := true)],
         queue := h.queue + [DropClosure(name)])
    else
      h.(services := h.services[name := slot.(service := service)])
  }

  function Drop(h: Handler, name: Name): Handler {
    var u := h.(services := h.services - {name});
    if u.services == map[] && u.shutdownRan then Finish(u) else u
  }

  function ShutdownCall(h: Handler): Handler {
    var l := HandlerLocks.Shutdown(h.locks);
    if l.onShutdowns > h.locks.onShutdowns then Dispatch(h.(locks := l), ShutdownClosure) else h.(locks := l)
  }

  function AllShutdown(services: map<Name, Slot>): map<Name, Slot> {
    map name <- services :: services[name].(service := V.ShutdownCall(services[name].service))
  }

  function ShutdownBody(h: Handler): Handler {
    var u := if h.services == map[] then Finish(h) else h.(services := AllShutdown(h.services));
    u.(shutdownRan := true)
  }

  /** A closure that was taken off the strand. */
  function RunClosure(h: Handler, c: Closure): Handler {
    match c
    case AddClosure(name) => Unlock(Add(h, name))
    case EraseClosure(name) => Unlock(EraseService(h, name))
    case ConnectClosure(name) => Unlock(Connect(h, name))
    case ShutdownClosure => Unlock(ShutdownBody(h))
    case DropClosure(name) => Drop(h, name)
  }

  function RunFirstStep(h: Handler): Handler
    requires h.queue != []
  {
    RunClosure(h.(queue := h.queue[1..]), h.queue[0])
  }

  function Step(h: Handler, e: Event): Handler
    requires Enabled(h, e)
  {
    match e
    case CallAdd(name) => Dispatch(h, AddClosure(name))
    case CallErase(name) => Dispatch(h, EraseClosure(name))
    case CallConnect(name) => Dispatch(h, ConnectClosure(name))
    case Inner(name, own) => InnerStep(h, name, own)
    case Shutdown => ShutdownCall(h)
    case RunFirst => RunFirstStep(h)
  }

  const INITIAL := Handler(HandlerLocks.RUNNING, false, map[], [], 0, 0)

  datatype Run = End | Then(event: Event, rest: Run)

  ghost predicate Possible(h: Handler, run: Run)
    decreases run
  {
    run.Then? ==> Enabled(h, run.event) && Possible(Step(h, run.event), run.rest)
  }

  ghost function Exec(h: Handler, run: Run): Handler
    requires Possible(h, run)
    decreases run
  {
    if run.End? then h else Exec(Step(h, run.event), run.rest)
  }
}
