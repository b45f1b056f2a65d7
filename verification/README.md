# Lifetime and ordering protocols of webservice

This project models the protocols that keep the asynchronous HTTP and WebSocket
server alive exactly as long as it is needed, and that keep its messages in order.
Networking itself is environment: an operation that was started is pending until it
completes, once, with an arbitrary result.

Each component has three parts.

* A state machine (`...Model`): a value for the state, events, `Enabled` and `Step`.
  A step is one closure or completion handler on a strand, one expiry, or one call
  from outside. Theorems speak about every run, `Exec(s, run)`.
* Equations (`...Effects`): what every step does to every field, stated without the
  handlers' nested calls. `StepEffects` proves that the steps have exactly these
  effects, and `EffectsDetermine` that the equations and the invariant name one next
  state, so that no handler may skip or swap anything.
* A class that updates the fields of the source's object in place. Each method is
  proved to move `View()`, the object's state in the state machine, by exactly the
  step it stands for, and to do what its caller relies on. The service, the service
  handler and the set of HTTP sessions hold real lock handles (`LockSets`), one for
  each closure under way.

The components nest: a service holds session machines in its map, the service
handler holds service machines in its map, and the set of HTTP sessions holds HTTP
session machines. A session that gives up its last lock is what makes its parent's
erase closure appear, so nothing about children is assumed at the parent; and every run
of a parent is, for each of its children, a run of that child.

| files | content |
|---|---|
| `AsyncLocker`, `LockerInterleavings` | counted handles in place, and under arbitrary interleaving of their atomic accesses |
| `LockSets`, `HandlerInterface` | the handles of one object, and the hand-over of its run lock to its shutdown lock |
| `CircularBuffer` | the 64-slot ring that overwrites its front when pushed while full |
| `WsSession*` | one WebSocket session: write ring, close request, timer, callbacks |
| `WsService*` | one service: session map, broadcast, shutdown, the end of its teardown, and its sessions' own runs inside it |
| `ServiceHandler*` | the map of services |
| `HttpSession*`, `HttpSessions*` | one HTTP session with its pipelining queue, and the set of sessions |

What the proofs found out about the code:

* A failed or aborted write leaves its entry at the head of the ring. From then on
  neither a message nor the close frame is ever started, although the stream may stay
  open (`StallsExactlyWhenBroken`, `BrokenWriteIsFinal`, `BrokenWriteStalls`).
* The repository's README promises an activity timer for every WebSocket session. A
  server session has one only if the stream already reports open before the handshake
  completes, when `start_timer()` runs (`TimerToken`).
* A close request that runs on a session whose stream is not open is dropped. A
  server session that is told to close during its handshake opens afterwards, and
  that includes the close of a service shutdown (`QueuedClose`, `ShutdownClosesIff`,
  `CloseDuringHandshakeIsLost`).
* A connect in progress when `shutdown()` is called still enters the map. At most one
  does, exactly if its closure had passed the `is_shutdown()` check; the shutdown
  closure runs after it and closes it (`EntriesAfterShutdown`, `EntersIffPassedCheck`).
* `add_service()` does not ask `is_shutdown()`. Called after `shutdown()` on a handler
  without services, it puts its service into the map of a finished handler; called
  before, it never does (`AddAbandonsIff`, `AddsBeforeShutdown`,
  `AddServiceAfterFinish`). The closure that erases such a service runs without any
  lock of the handler, which the source takes for granted (`DropHoldsHandler`,
  `DropWithoutLock`).
* A service that gives up its last lock before a closure of `erase_service()` has met
  it stays in the map for good, and the handler never finishes. That happens to an
  idle service when the handler is shut down (`StrandedIffDrainsUnasked`,
  `StrandedForever`, `IdleServiceIsStranded`).
* A session that has 64 responses queued reads no more: `do_close()` stops the timer,
  so the read that `on_write()` asks for after a full queue is never started. 64
  pipelined requests bring that about (`PipeliningFillsQueue`, `FullIsFinal`,
  `ReadsOn`).

Modelling assumptions:

* Above the locker, `make_lock()` is one step. The separate accesses are the subject
  of `LockerInterleavings`.
* The environment closes streams and sockets and chooses all completion results. A
  stream that is not open opens only through a successful accept, and it does not
  close while an accept is pending.
* Closures of the service handler run in dispatch order, and so do those of one
  session. Closures of one service or session set run one at a time in any order,
  which covers dispatch order; the runs constructed there keep dispatch order. What
  dispatches to a strand does so from outside that strand.
* `on_erase` raised inside a loop over the map is enqueued, not run inline.
* `shutdown()` is one step, and the top-level call is serialised. It may fall between
  the `is_shutdown()` check of a connect or emplace closure and the rest of it.
* `set_callback()` does not overlap the last unlock that calls the callback, as
  include/webservice/async_locker.hpp:132-133 demands. A repeated `erase_service()`
  (src/ws_service_handler.cpp:93) does not by itself ensure that.
* Starting a session does not throw.

## Model

| member | source | states |
|---|---|---|
| AsyncLocker.Lock.Counted | include/webservice/async_locker.hpp:55-56 | after the check, the constructing handle becomes one of the counted ones |
| AsyncLocker.Lock.Moved | include/webservice/async_locker.hpp:64-66 | move construction hands the count to the new handle; no count changes |
| AsyncLocker.Lock.MoveFrom | include/webservice/async_locker.hpp:71-75 | move assignment leaks exactly the count its target held, except on self-move |
| AsyncLocker.Lock.Unlock | include/webservice/async_locker.hpp:89-97 | one count less if the handle was set, the callback exactly at zero, and the handle is empty |
| AsyncLocker.Locker.MakeFirstLock | include/webservice/async_locker.hpp:153-169 | succeeds exactly from count zero and leaves exactly one counted handle |
| AsyncLocker.Locker.MakeLock | include/webservice/async_locker.hpp:178-180 | succeeds exactly while the count is not zero |
| LockerInterleavings.RunConserves | include/webservice/async_locker.hpp:44-97 | in every interleaving, moves in two steps included, the count is what live handles, unfinished operations and leaks account for, and every rise from zero is matched by one callback call |
| LockerInterleavings.FirstLockIsSafe | include/webservice/async_locker.hpp:153-169 | between its three counter steps make_first_lock never sees zero, never revives the count, never loses a call |
| LockerInterleavings.CoveredRunsNeverRevive | include/webservice/async_locker.hpp:44-57 | if some handle is live or being moved whenever a thread is between check and increment, no construction raises the count from zero |
| LockerInterleavings.OneCallPerGeneration | include/webservice/async_locker.hpp:89-97 | under that hypothesis one callback call per make_first_lock, made or due exactly when the count is zero again |
| LockerInterleavings.QuietEnd | include/webservice/async_locker.hpp:71-97 | when all is over, the count is zero and all calls were made if and only if no move assignment hit a set target |
| LockerInterleavings.LeakSilencesCallback | include/webservice/async_locker.hpp:71-75 | one leaked count silences the callback in every continuation |
| LockerInterleavings.UncoveredConstructionCallsTwice | include/webservice/async_locker.hpp:44-57 | without the hypothesis a run from a new locker calls the callback twice in one generation |
| LockerInterleavings.ConstructionAlone | include/webservice/async_locker.hpp:44-57 | run without interruption, a construction is refused at zero and adds one counted handle otherwise |
| LockerInterleavings.FirstLockAlone | include/webservice/async_locker.hpp:153-169 | its four accesses in a row: nothing above zero, one counted handle from zero |
| LockerInterleavings.UnlockAlone | include/webservice/async_locker.hpp:89-97 | its accesses in a row: one count less, the callback exactly at the last |
| LockerInterleavings.MoveAlone | include/webservice/async_locker.hpp:64-75 | both accesses in a row: the count passes on, the one the target held is lost |
| LockerInterleavings.ZeroIsFinal | include/webservice/async_locker.hpp:46-53 | from zero, with no construction past its check, every interleaving without make_first_lock stays at zero |
| HandlerLocks.HandOver | src/ws_handler_interface.cpp:40-58 | over every call sequence: on_shutdown once if shutdown is called, one successful shutdown_finished if called after it, never both locks set, count conserved |
| LockSets.LockSet.Capture | include/webservice/async_locker.hpp:178-180 | a closure captures a fresh handle, refused exactly at count zero; every count stays accounted for by a named handle |
| LockSets.LockSet.Release | include/webservice/async_locker.hpp:89-97 | one captured handle and one count less, the callback exactly at zero |
| LockSets.LockSet.HandOver | include/webservice/async_locker.hpp:71-75 | the move assignment hits an empty handle: the count stays and none leaks |
| HandlerInterface.WsHandlerInterface.constructor | src/ws_handler_interface.cpp:15-16 | starts running with one counted lock |
| HandlerInterface.WsHandlerInterface.Shutdown | src/ws_handler_interface.cpp:40-47 | in place, with real handles: the move target is empty, so no count leaks |
| HandlerInterface.WsHandlerInterface.ShutdownThen | include/webservice/ws_handler_interface.hpp:68-72 | sets the callback on every call, also on repeated ones |
| HandlerInterface.WsHandlerInterface.ShutdownFinished | src/ws_handler_interface.cpp:49-58 | which of the two exceptions, or success; the callback runs at count zero |
| CircularBuffers.CircularBuffer.PushBack | src/http_session.cpp:216-226 | appends, or overwrites the front when the ring is full |
| CircularBuffers.CircularBuffer.PopFront | src/ws_session.cpp:362-362 | drops the front element |
| WsSession.WsSession.DoAccept | src/ws_session.cpp:59-91 | begins a server session: timer, accept, first lock released |
| WsSession.WsSession.Start | src/ws_session.cpp:94-107 | begins a client session: timer, on_open, first read |
| WsSession.WsSession.SendBody | src/ws_session.cpp:116-140 | the closure of send(): the message is accepted exactly on an open stream with no close requested and room in the ring, and it throws exactly on a full ring |
| WsSession.WsSession.CloseBody | src/ws_session.cpp:152-168 | the closure of close() |
| WsSession.WsSession.RestartTimer | src/ws_session.cpp:257-261 | a wait is re-armed only if one was cancelled and the stream is open |
| WsSession.WsSession.DoRead | src/ws_session.cpp:270-285 | a read is started, and the timer restarted, only on an open stream |
| WsSession.WsSession.DoWrite | src/ws_session.cpp:327-352 | close frame if a reason is set, front message otherwise |
| WsSession.WsSession.OnTimer | src/ws_session.cpp:183-234 | handler of an expired wait: a ping is started exactly on the first expiry on an open stream |
| WsSession.WsSession.OnRead | src/ws_session.cpp:282-323 | handler of a read: a text message is reported by on_text, a binary one by on_binary |
| WsSession.WsSession.OnWrite | src/ws_session.cpp:348-370 | handler of a write |
| WsSession.WsSession.OnCloseDone | src/ws_session.cpp:331-341 | handler of a close |
| WsSession.WsSession.Deliver | src/ws_session.cpp:375-428 | a deferred callback runs in order and then releases its lock |
| WsSession.WsSession.Destroy | src/ws_session.cpp:52-56 | on_close exactly if on_open was deferred |
| WsSession.Handle | src/ws_session.cpp:52-428 | in every reachable state every possible event is handled as one step, without front() or pop_front() on an empty ring |
| WsSessionInvariants.RunKeepsInv | src/ws_session.cpp:59-428 | locks, ring, close, timer and callback invariants hold in every reachable state |
| WsSessionEffects.StepEffects | src/ws_session.cpp:52-428 | what every step does to every field: message taken, write, read, ping or close started, timer set or stopped, callback deferred |
| WsSessionEffects.EffectsDetermine | src/ws_session.cpp:52-428 | these equations and the invariant name one next state |
| WsSessionEffects.AcceptingBegins | src/ws_session.cpp:59-91 | a server session begins waiting for its handshake, with nothing reported and no read |
| WsSessionEffects.StartingBegins | src/ws_session.cpp:94-107 | a client session begins open, reports on_open and reads if the stream is open |
| WsSessionEffects.AcceptedIsTaken | src/ws_session.cpp:110-143 | over every run the ring accepts exactly the messages whose turn comes on an open stream with no close requested and room left, in that order |
| WsSessionEffects.ReadsGoOn | src/ws_session.cpp:270-324 | over every run an open session reads on until a read is aborted, finds the peer gone or the stream not open |
| WsSessionEffects.TimerStopped | src/ws_session.cpp:237-255 | over every run the timer is stopped if and only if a step that stops it happened |
| WsSessionEffects.StoppedForGood | src/ws_session.cpp:237-255 | a stopped timer has no wait pending in any continuation |
| WsSessionTheorems.CallbackTrace | src/ws_session.cpp:375-428 | a finished session called back nothing, or on_open, all messages in read order, on_close; an unfinished one a prefix |
| WsSessionTheorems.WireShape | src/ws_session.cpp:327-372 | at most one write or close in flight; the wire is a prefix of the accepted messages in order, then at most one close frame after which nothing is started (section 5.5.1 of RFC 6455) |
| WsSessionTheorems.CloseRequestCuts | src/ws_session.cpp:145-171 | after a close request the started messages never change: exactly those started before it |
| WsSessionEffects.CloseReasonIs | src/ws_session.cpp:152-168 | over every run the close reason, with its text, is that of the first request that finds the stream open |
| WsSessionTheorems.QueuedClose | src/ws_session.cpp:145-171 | a queued close closure: an earlier reason stays, else its own is recorded if the stream is open when its turn comes, else it is lost |
| WsSessionTheorems.CloseDuringHandshakeIsLost | src/ws_session.cpp:59-91 | a run in which a session told to close opens and keeps reading |
| WsSessionTheorems.StallsExactlyWhenBroken | src/ws_session.cpp:129-139 | on an open stream pending work has an operation in flight if and only if no write failed or was aborted |
| WsSessionTheorems.BrokenWriteIsFinal | src/ws_session.cpp:352-360 | after such a write nothing is put on the wire in any continuation |
| WsSessionTheorems.BrokenWriteStalls | src/ws_session.cpp:352-360 | a run that stalls with the stream open and a close requested |
| WsSessionTheorems.TimerToken | src/ws_session.cpp:174-268 | at most one wait pending or expired; exactly one if armed, open and not cancelled; none ever if the stream was not open at the start |
| WsSessionTheorems.TwoStrikes | src/ws_session.cpp:183-233 | the number of timeout closes is the number of expiries that follow another one without activity |
| WsSessionTheorems.FirstStrikesPing | src/ws_session.cpp:191-226 | one ping for each first expiry since the last activity that finds the stream open, and no other |
| WsSessionTheorems.Drain | src/ws_session.cpp:179-372 | once the stream is down nothing is started, and completions are bounded by the weighted work plus the calls made |
| WsSessionTheorems.DrainEndsWithErase | src/ws_session.cpp:35-37 | on_erase has been called if and only if no work is left; until then some completion can happen |
| WsSessionTheorems.ErasedOnce | src/ws_session.cpp:35-37 | on_erase is called at most once, and a count of zero is final |
| WsService.WsServiceBase.CheckConnect | include/webservice/ws_service_base.hpp:378-381 | the connect closure goes on exactly if shutdown() was not called; nothing enters here |
| WsService.WsServiceBase.RunConnect | include/webservice/ws_service_base.hpp:429-461 | one session enters unless the connect fails, also if shutdown() was called since the check: a server session waits for its handshake, a client session is open, reports on_open and reads; the others are untouched |
| WsService.WsServiceBase.RunSendIf | include/webservice/ws_service_base.hpp:103-114 | the loop sends to exactly the sessions the function accepts |
| WsService.WsServiceBase.RunSendTo | include/webservice/ws_service_base.hpp:69-73 | one session, if it is in the map |
| WsService.WsServiceBase.RunCloseIf | include/webservice/ws_service_base.hpp:233-244 | the loop closes exactly the sessions the function accepts |
| WsService.WsServiceBase.SessionStep | src/ws_session.cpp:35-37 | the erase closure is dispatched exactly when the session's last lock goes, and is never refused |
| WsService.WsServiceBase.RunErase | include/webservice/ws_service_base.hpp:325-347 | the erase closure finds its session, drained, and destroys it; the service finishes, without error, exactly if the map is empty then and the flag is set |
| WsService.WsServiceBase.RunShutdown | include/webservice/ws_service_base.hpp:299-313 | finishes or closes every session, then sets the flag |
| WsServiceInvariants.RunKeepsInv | include/webservice/ws_service_base.hpp:295-403 | the service invariants hold in every reachable state, with the session invariants inside |
| WsServiceTheorems.FinishOnce | include/webservice/ws_service_base.hpp:295-348 | on_shutdown_finished at most once, never in error, called exactly when the shutdown closure ran and the map is empty |
| WsServiceTheorems.EntriesAfterShutdown | include/webservice/ws_service_base.hpp:369-402 | from shutdown() on at most one session enters, and only if its closure had passed the check |
| WsServiceTheorems.EntersIffPassedCheck | include/webservice/ws_service_base.hpp:429-449 | after shutdown() some run lets a session enter if and only if a closure has passed the check |
| WsServiceTheorems.EntryAfterShutdown | include/webservice/ws_service_base.hpp:429-449 | a run in which shutdown() falls between check and emplace |
| WsServiceTheorems.NothingAfterFinish | include/webservice/ws_service_base.hpp:295-348 | after the finish the map stays empty and the call is not repeated |
| WsServiceTheorems.NeedsOwnFlag | include/webservice/ws_service_base.hpp:340-343 | testing is_shutdown() instead of the flag finishes twice, the second time in error |
| WsServiceTheorems.LastSessionDrains | include/webservice/ws_service_base.hpp:321-348 | a run from the start that reaches the state NeedsOwnFlag begins with |
| WsServiceTheorems.ZeroMeansDone | include/webservice/ws_service_base.hpp:295-348 | the last lock goes only with no session and no closure left |
| WsServiceTheorems.EraseFindsDrained | include/webservice/ws_service_base.hpp:321-348 | an erase closure finds its session, drained, once |
| WsServiceTheorems.ErasedSessionsReportedClose | src/ws_session.cpp:52-56 | every erased session has its complete callback trace |
| WsServiceTheorems.WireFollowsLog | include/webservice/ws_service_base.hpp:88-180 | a session's wire is a subsequence of the sends the service executed, in that order |
| WsServiceTheorems.SameOrderEverywhere | include/webservice/ws_service_base.hpp:88-180 | two messages that two sessions both send go out in the same order on both |
| WsServiceInvariants.MapHoldsService | include/webservice/ws_service_base.hpp:321-325 | while a session is in the map the service holds a lock, so on_erase is never refused |
| WsServiceEffects.StepEffects | include/webservice/ws_service_base.hpp:53-461 | what every step does: closures dispatched and ended, the log, who enters and leaves and as what, and the event each session goes through |
| WsServiceEffects.EffectsDetermine | include/webservice/ws_service_base.hpp:53-461 | these equations and the invariant name one next state |
| WsServiceSessions.SessionsRunInside | include/webservice/ws_service_base.hpp:88-348 | every run of a service is, for each of its sessions, a run of that session by itself |
| WsServiceSessions.LifeOfSession | src/ws_session.cpp:375-428 | over any run of the service, an erased session reported nothing, or on_open, every message in the order read, on_close |
| WsServiceSessions.ShutdownClosesIff | include/webservice/ws_service_base.hpp:307-309 | the close queued by the shutdown closure, over every continuation that runs it: an earlier reason stays, else "shutdown" is recorded if the stream is open when its turn comes, else it is lost |
| WsServiceDrain.Teardown | include/webservice/ws_service_base.hpp:295-348 | after the shutdown closure, with the streams down and whatever closures are still queued, the progress steps of every run are bounded by the work left and the calls made; control frames do not count as progress |
| WsServiceDrain.TeardownIsNotStuck | include/webservice/ws_service_base.hpp:295-348 | as long as the service holds a lock some progress step can happen |
| WsServiceDrain.TeardownEnds | include/webservice/ws_service_base.hpp:513-515 | the last lock is gone if and only if no session and no closure is left, and the service has finished once then |
| ServiceHandler.WsServiceHandler.RunAdd | src/ws_service_handler.cpp:51-70 | a running service is added under a new name; a name that is taken keeps its service, and the others are untouched |
| ServiceHandler.WsServiceHandler.RunErase | src/ws_service_handler.cpp:87-118 | afterwards the service has its callback set and is_shutdown() holds for it; the others are untouched |
| ServiceHandler.WsServiceHandler.ServiceStep | src/ws_service_handler.cpp:93-110 | the service's erase closure comes onto the strand exactly when its last unlock finds the callback set, and is there only while the service is without locks |
| ServiceHandler.WsServiceHandler.RunDrop | src/ws_service_handler.cpp:96-109 | erases a service that is done, with no session left, and no second erase closure is there; shutdown_finished() is called exactly if that leaves the map empty after the shutdown closure |
| ServiceHandler.WsServiceHandler.RunShutdown | src/ws_service_handler.cpp:194-212 | finishes, or shuts every service down without a callback |
| ServiceHandlerInvariants.RunKeepsInv | src/ws_service_handler.cpp:42-215 | the handler invariants hold in every reachable state, with the service invariants inside |
| ServiceHandlerEffects.StepEffects | src/ws_service_handler.cpp:42-215 | what every step does: closures on the strand, services that enter and leave, and which service a connect, an erase or the shutdown reaches |
| ServiceHandlerEffects.EffectsDetermine | src/ws_service_handler.cpp:42-215 | these equations and the invariant name one next state |
| ServiceHandlerEffects.ServicesRunInside | src/ws_service_handler.cpp:42-215 | every run of the handler is a run of each of its services while it is in the map |
| ServiceHandlerTheorems.ChildrenFirst | src/ws_service_handler.cpp:76-121 | a service leaves the map only after its last lock, finished once without error, with no session and no closure |
| ServiceHandlerTheorems.DropsFindTheirService | src/ws_service_handler.cpp:93-110 | an erase closure that runs finds its service, and no second one follows, however often erase_service is called |
| ServiceHandlerTheorems.DroppedIsDone | src/ws_service_handler.cpp:93-110 | a service with an erase closure on the strand is in the map and done |
| ServiceHandlerTheorems.NothingNewAfterFinish | src/ws_service_handler.cpp:42-73 | a finished handler has an empty map throughout a run if and only if no add closure runs after the finish |
| ServiceHandlerTheorems.AddsBeforeShutdown | src/ws_service_handler.cpp:51-70 | that is so in every run in which no call of add_service() follows the call of shutdown() |
| ServiceHandlerTheorems.AddAbandonsIff | src/ws_service_handler.cpp:51-70 | add_service() on a handler without services ends with the service in a finished handler's map if and only if is_shutdown() held when it was called, whatever closures are queued |
| ServiceHandlerTheorems.AddServiceAfterFinish | src/ws_service_handler.cpp:42-73 | a run that violates it, with the closures in dispatch order |
| ServiceHandlerTheorems.FinishOnce | src/ws_service_handler.cpp:191-215 | without such an add shutdown_finished is called at most once, never in error, exactly when flag and empty map meet |
| ServiceHandlerTheorems.DropHoldsHandler | src/ws_service_handler.cpp:89-96 | without a late add the handler holds a lock of its own while an erase closure, which takes none, is under way |
| ServiceHandlerTheorems.DropWithoutLock | src/ws_service_handler.cpp:89-96 | after a late add a run reaches an erase closure with no lock left |
| ServiceHandlerTheorems.StrandedIffDrainsUnasked | src/ws_service_handler.cpp:93-110 | over every run a service is ever without locks and unerasable if and only if it gave up its last lock before a closure of erase_service() met it |
| ServiceHandlerTheorems.StrandedForever | src/ws_service_handler.cpp:206-208 | a service that missed it stays for good and the handler never finishes |
| ServiceHandlerTheorems.IdleServiceIsStranded | src/ws_service_handler.cpp:206-208 | a shutdown of the handler does that to an idle service |
| HttpSession.HttpSession.Run | src/http_session.cpp:63-72 | begins the session: timer, first read |
| HttpSession.HttpSession.DoRead | src/http_session.cpp:74-94 | no read without an open socket and a wait to cancel |
| HttpSession.HttpSession.RespondAll | src/http_session.cpp:192-226 | responses are stored in order, and the first into an empty queue is started |
| HttpSession.HttpSession.OnRead | src/http_session.cpp:93-143 | handler of a read, with upgrade, pipelining and the full queue |
| HttpSession.HttpSession.OnWrite | src/http_session.cpp:154-181 | handler of a write |
| HttpSession.HttpSession.OnTimer | src/http_session.cpp:41-60 | the handler of an expired wait shuts the socket down and closes it |
| HttpSession.HttpSession.QueueWritten | src/http_session.cpp:206-214 | pops, starts the next, reports whether the queue was full |
| HttpSession.Handle | src/http_session.cpp:39-226 | in every reachable state every possible event is handled as one step, with a front to pop |
| HttpSessionTheorems.RunKeepsInv | src/http_session.cpp:39-226 | locks, queue and timer invariants hold in every reachable state |
| HttpSessionEffects.StepEffects | src/http_session.cpp:39-226 | what every step does to every field: socket shut down or closed, responses stored and started, reads and timer |
| HttpSessionEffects.EffectsDetermine | src/http_session.cpp:39-226 | these equations and the invariant name one next state |
| HttpSessionEffects.RunningBegins | src/http_session.cpp:63-72 | a session begins with one wait and, on an open socket, one read pending |
| HttpSessionEffects.SocketAfterRun | src/http_session.cpp:55-59 | over every run the socket is closed if and only if the timer's handler ran or the connection was upgraded, and shut down if and only if one of the steps that do so happened |
| HttpSessionEffects.NeverUnguarded | src/http_session.cpp:39-89 | over every run a connection that was not shut down has its timer pending or expired, and one that was has no wait pending |
| HttpSessionTheorems.Pipelining | src/http_session.cpp:74-226 | with one response per request nothing is overwritten, responses start in request order (section 6.3.2 of RFC 7230), one read at most, and none while the queue is full |
| HttpSessionTheorems.RespondAllKeeps | src/http_session.cpp:216-226 | exactly the responses beyond the limit overwrite stored ones |
| HttpSessionTheorems.SecondAnswersOverwrite | src/http_session.cpp:216-226 | a request overwrites stored responses if and only if its answers exceed the room left |
| HttpSessionTheorems.WriteCutsOrContinues | src/http_session.cpp:154-181 | which completions keep the head entry, and that all others start the next response |
| HttpSessionTheorems.CutIsFinal | src/http_session.cpp:154-181 | after the cut no response is started in any continuation |
| HttpSessionTheorems.ReadsOn | src/http_session.cpp:74-144 | a request is followed by another read if and only if the socket is open, a wait is pending and the response does not fill the queue |
| HttpSessionTheorems.PipeliningFillsQueue | src/http_session.cpp:135-141 | 64 pipelined requests fill the queue and end the session |
| HttpSessionTheorems.FullIsFinal | src/http_session.cpp:176-180 | once the queue was full nothing is read in any continuation |
| HttpSessionTheorems.TimerToken | src/http_session.cpp:39-89 | at most one wait pending or expired, and a full queue has stopped the timer |
| HttpSessionTheorems.DeadTimerDrains | src/http_session.cpp:74-89 | without a pending wait no read is started again: at most the one pending completes, and completions are bounded by the work left and two for each response, however many responses the handler makes |
| HttpSessionTheorems.DrainEndsWithErase | src/http_session.cpp:32-34 | the drain ends with the one async_erase and cannot stop before |
| HttpSessionTheorems.ErasedOnce | src/http_session.cpp:32-34 | async_erase is called at most once, and a count of zero is final |
| LockSets.LockSet.HandOverTwice | src/http_sessions.cpp:76-79 | two moves with empty targets hand the count over |
| LockSets.LockSet.Unlock | src/http_sessions.cpp:86-87 | gives up a count exactly if the shutdown lock is set |
| HttpSessions.HttpSessions.CheckEmplace | src/http_sessions.cpp:37-40 | the emplace closure goes on exactly if shutdown() was not called; nothing enters here |
| HttpSessions.HttpSessions.RunEmplace | src/http_sessions.cpp:42-48 | one session enters, alive, with the others untouched, also if shutdown() was called since the check |
| HttpSessions.HttpSessions.SessionStep | src/http_session.cpp:32-34 | the erase closure is dispatched exactly when the session's last lock goes, and is never refused |
| HttpSessions.HttpSessions.Shutdown | src/http_sessions.cpp:76-95 | in place, with real handles: the count is handed over and is_shutdown() holds |
| HttpSessions.HttpSessions.RunErase | src/http_sessions.cpp:60-69 | the erase closure finds its session, drained; the last one after shutdown() leaves the shutdown lock without a count, and no other touches it |
| HttpSessions.HttpSessions.RunShutdown | src/http_sessions.cpp:81-93 | unlocks, or closes every session |
| HttpSessionsEffects.StepEffects | src/http_sessions.cpp:28-99 | what every step does: closures dispatched and ended, who enters and leaves, what each session goes through, when the shutdown lock is given up |
| HttpSessionsEffects.EffectsDetermine | src/http_sessions.cpp:28-99 | these equations and the invariant name one next state |
| HttpSessionsEffects.SessionsRunInside | src/http_sessions.cpp:28-99 | every run of the set is a run of each of its sessions |
| HttpSessionsTheorems.ShutdownOnce | src/http_sessions.cpp:58-95 | over every interleaving the shutdown lock is given up once, only with the set empty; sessions that remain after the closure have their socket shut down and their timer stopped |
| HttpSessionsTheorems.EntriesAfterShutdown | src/http_sessions.cpp:36-48 | from shutdown() on at most one session enters, and only if its closure had passed the check |
| HttpSessionsTheorems.EntersIffPassedCheck | src/http_sessions.cpp:37-45 | after shutdown() some run lets a session enter if and only if a closure has passed the check |
| HttpSessionsTheorems.EraseFindsDrained | src/http_sessions.cpp:58-73 | an erase closure finds its session, drained, once |
| HttpSessionsTheorems.EraseBeforeClosure | src/http_sessions.cpp:76-95 | the last erase may come before the closure; the closure then adds nothing |
| HttpSessionsTheorems.LastSessionDrains | src/http_sessions.cpp:58-69 | a run from the start that reaches the state EraseBeforeClosure begins with |

## Left out

- LockerInterleavings.RunConserves: memory orders are not modelled; all accesses are sequentially consistent.
- LockerInterleavings.CoveredRunsNeverRevive: that the library's own callers always hold a handle is not derived; calls such as include/webservice/ws_service_base.hpp:307-309 take a session's lock while holding only the service's.
- HandlerInterface.WsHandlerInterface.ShutdownThen: the assignment of the callback is one step; overlapping it with the last unlock, which async_locker.hpp forbids, is not modelled.
- WsSession.WsSession.Deliver: exceptions of the service's handlers, which the source catches and reports, are not modelled; neither is on_exception.
- WsService.WsServiceBase.SessionStep: sessions are values in the map, so the address that identifies a session, and aliasing with it, are not modelled; the same holds for services in the handler and for HTTP sessions in their set.
- WsService.WsServiceBase.RunSendIf: the values linked to sessions are not modelled; the caller's function sees the identifier, and one that throws counts as not accepting.
- WsService.WsServiceBase.RunCloseIf: likewise for the function that chooses the sessions to close.
- HttpSessionTheorems.Pipelining: a handler that keeps the response object and answers later, or from another thread, is not modelled.
- HttpSessionsTheorems.ShutdownOnce: the set's shutdown is one step; its interleaving with an erase between the moves and the dispatch is not modelled.
- WsService.WsServiceBase.RunConnect: an exception between the check and the emplace is a failed connect; one thrown by do_accept() or start() is left out below.
- Sockets, resolver, handshake, frame encoding and clocks: library behaviour, reduced to pending operations and the two open flags.
- Executor threads, block, call_once and the restart loop of the io_context: thin wiring around the strands.
- client, server, listener and their implementation classes: they forward to the components above.
- Exceptions thrown while a session is started (src/http_sessions.cpp:47-52, include/webservice/ws_service_base.hpp:393-398): the recovery there does not keep the single erase.
- File requests, MIME types, path handling, JSON and buffer conversion, settings, identifiers and error handlers: easy members.
