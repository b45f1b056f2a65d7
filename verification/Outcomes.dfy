/** Results of calls that the C++ sources report by exception. */
module Outcomes {

  datatype Option<+T> = None | Some(value: T)

  /** The exceptions thrown by the lock protocol. */
  datatype Error =
    | AsyncCallAfterShutdown   // std::runtime_error of lock(async_locker&)
    | FirstLockTwice           // std::logic_error of make_first_lock()
    | FinishedWithoutShutdown  // std::logic_error of shutdown_finished()
    | FinishedTwice            // std::logic_error of shutdown_finished()

  datatype Result<+T> = Success(value: T) | Failure(error: Error)

  /** There is always an identifier that was not used yet. */
  lemma {:induction false} UnusedId(ids: set<nat>) returns (id: nat)
    ensures id !in ids && forall i <- ids :: i < id
    decreases ids
  {
    if ids == {} {
      id := 0;
    } else {
      var i :| i in ids;
      var rest := UnusedId(ids - {i});
      id := if i < rest then rest else i + 1;
      forall j | j in ids ensures j < id {
        assert j == i || j in ids - {i};
      }
    }
  }
}
