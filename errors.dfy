/** Time units shared by the ingestion code (its `constants` module). */
module Units {
  const NS_PER_MS: int := 1_000_000
  const NS_PER_S: int := 1_000_000_000
  /** Spelled `NS_PER_MIN` in most files and `NS_PER_MINUTE` in ingest-lambda. */
  const NS_PER_MIN: int := 60_000_000_000
}

/** The exceptions the lock protocols raise or let escape. */
module Errors {

  /** The `errno` of an `OSError`; EIO stands for every errno the modelled
      code does not single out. */
  datatype Errno = EEXIST | ENOENT | EINVAL | EISDIR | EPERM | ELOOP | EIO

  /** Why a `SegmentLockError` was raised. */
  datatype LockCause =
    | TimedOut                      // the retry loop ran past its deadline
    | UnexpectedOs(errno: Errno)    // an OSError other than EEXIST
    | UnexpectedStatus(status: int) // a ClientError other than 409/412
    | UnexpectedException           // any other exception from the store client
    | NotOwnedByInstance            // ingest-lambda's unlock found another owner
    | Deadlock(errno: Errno)        // ingest-lambda's unlock could not unlink

  /** Why a `SegmentUnlockError` was raised. */
  datatype UnlockCause =
    | NoLockHeld                    // the lock argument was None
    | OwnedBy(holder: string)       // the lock belongs to someone else
    | UnlinkFailed(errno: Errno)    // os.unlink raised
    | NotOwner                      // the conditional head request was refused
    | CommunicationError(status: int) // delete_object raised a ClientError
    | UnknownError                  // delete_object raised anything else

  datatype Failure =
    | SegmentLockError(lockCause: LockCause)
    | SegmentUnlockError(unlockCause: UnlockCause)
    | OSError(errno: Errno)         // an OSError the code lets propagate
    | StoreException                // a non-ClientError exception the code lets propagate
    | AttributeError                // an attribute read on None
}

/** The injected `utc_nanos` clock, seen as the finite sequence of readings
    one call takes from it. */
module Clock {

  /** The readings of one call: the first is the start time, and the clock
      has passed the deadline by the last one. */
  predicate Bounded(clock: seq<int>, deadline: int)
  {
    |clock| >= 2 && clock[|clock| - 1] - clock[0] >= deadline
  }

  /** The index of the first reading, from `from` on, at which the retry loop's
      guard `reading - start < deadline` fails. */
  function FirstExpired(clock: seq<int>, deadline: int, from: nat): (k: nat)
    requires Bounded(clock, deadline) && 1 <= from < |clock|
    ensures from <= k < |clock| && clock[k] - clock[0] >= deadline
    ensures forall j :: from <= j < k ==> clock[j] - clock[0] < deadline
    decreases |clock| - from
  {
    if clock[from] - clock[0] >= deadline then from else FirstExpired(clock, deadline, from + 1)
  }

  /** A loop that stops at reading `k`, having passed every reading from
      `from` up to it, stops at FirstExpired. */
  lemma FirstExpiredIs(clock: seq<int>, deadline: int, from: nat, k: nat)
    requires Bounded(clock, deadline) && 1 <= from <= k < |clock|
    requires clock[k] - clock[0] >= deadline
    requires forall j :: from <= j < k ==> clock[j] - clock[0] < deadline
    ensures FirstExpired(clock, deadline, from) == k
  {
  }
}
