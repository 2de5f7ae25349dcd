/** The object-store segment lock of the shared library
    (libs/serverless_otel/s3_mutex/mutex.py).

    An instance holds the lock on a segment while the object
    `<dataset_id>/<segment>` exists and carries the ETag its put returned.
    The put is conditional on the key being absent, so at most one
    instance can write it; unlock checks the ETag with a conditional head
    request before deleting. */
module S3Mutex {
  import opened Wrappers
  import opened Errors
  import opened Units
  import opened Clock
  import opened Text
  import opened ObjectStore

  /** What a successful lock returns: the ETag without quotes and the clock
      reading taken just after the put. */
  datatype S3LockIdentifier = S3LockIdentifier(etag: string, timestamp: int)

  /** The outcome of a call and the bucket it leaves behind. */
  datatype S3Step = S3Step(outcome: Outcome<Failure>, post: Bucket)

  datatype S3LockAttempt = S3LockAttempt(result: Result<S3LockIdentifier, Failure>, post: Bucket)

  /** The key of a segment's lock object, the same for lock, check and delete. */
  function LockKey(datasetId: string, segment: string): string
  {
    datasetId + "/" + segment
  }

  /** Distinct (dataset, segment) pairs lock distinct objects when dataset
      names contain no '/'. */
  lemma LockKeyInjective(d1: string, s1: string, d2: string, s2: string)
    requires '/' !in d1 && '/' !in d2
    requires LockKey(d1, s1) == LockKey(d2, s2)
    ensures d1 == d2 && s1 == s2
  {
    var k := LockKey(d1, s1);
    assert forall i :: 0 <= i < |d1| ==> d1[i] != '/' by {
      forall i | 0 <= i < |d1| ensures d1[i] != '/' { assert d1[i] in d1; }
    }
    assert forall i :: 0 <= i < |d2| ==> d2[i] != '/' by {
      forall i | 0 <= i < |d2| ensures d2[i] != '/' { assert d2[i] in d2; }
    }
    assert k[|d1|] == '/' && k[|d2|] == '/';
    assert |d1| == |d2|;
    assert d1 == k[..|d1|] == d2;
    assert s1 == k[|d1| + 1..] == s2;
  }

  /** The lock object's body, `<instance>:<time.time_ns()>`. */
  function LockBody(instance: string, wallNs: int): string
  {
    instance + ":" + IntToString(wallNs)
  }

  lemma NoColonInNumber(n: int)
    ensures forall i :: 0 <= i < |IntToString(n)| ==> IntToString(n)[i] != ':'
  {
    if n < 0 {
      NatToStringShape(-n);
    } else {
      NatToStringShape(n);
    }
  }

  /** The body names its writer and its time: the last ':' separates them,
      since a decimal number holds none. */
  lemma {:induction false} LockBodyInjective(i1: string, w1: int, i2: string, w2: int)
    requires LockBody(i1, w1) == LockBody(i2, w2)
    ensures i1 == i2 && w1 == w2
  {
    var x := LockBody(i1, w1);
    NoColonInNumber(w1);
    NoColonInNumber(w2);
    assert x[|i1|] == ':' && x[|i2|] == ':';
    assert i1 == x[..|i1|] == i2;
    assert IntToString(w1) == x[|i1| + 1..] == IntToString(w2);
    IntToStringInjective(w1, w2);
  }

  /** 409 Conflict and 412 Precondition Failed mean another holder. */
  predicate Retryable(e: S3Error)
  {
    e.ClientError? && (e.status == 409 || e.status == 412)
  }

  /** The exception a failed put raises out of the loop. */
  function PutFailure(e: S3Error): Failure
  {
    match e
    case ClientError(status) => SegmentLockError(UnexpectedStatus(status))
    case TransportError => SegmentLockError(UnexpectedException)
  }

  /** The lock loop on a snapshot. A failed put changes nothing, so the
      first attempt decides: success returns at once, 409/412 repeats until
      the deadline, anything else raises. */
  function LockRun(b: Bucket, faults: S3Faults, datasetId: string, segment: string, instance: string, wallNs: int,
                   clock: seq<int>, deadline: int): S3LockAttempt
    requires Bounded(clock, deadline)
  {
    if clock[1] - clock[0] >= deadline then S3LockAttempt(Err(SegmentLockError(TimedOut)), b)
    else match PutIfAbsentOp(b, faults, LockKey(datasetId, segment), LockBody(instance, wallNs))
      case Ok((post, etag)) => S3LockAttempt(Ok(S3LockIdentifier(Strip(etag, {'"'}), clock[2])), post)
      case Err(e) =>
        if Retryable(e) then S3LockAttempt(Err(SegmentLockError(TimedOut)), b)
        else S3LockAttempt(Err(PutFailure(e)), b)
  }

  /** The lock is taken only when no object is at the key; the object then
      holds `<instance>:<ns>` and the returned ETag, stripped of its quotes,
      is that object's. A failed call leaves the bucket unchanged. */
  lemma LockOnlyWhenAbsent(b: Bucket, faults: S3Faults, datasetId: string, segment: string, instance: string, wallNs: int,
                           clock: seq<int>, deadline: int)
    requires Bounded(clock, deadline)
    ensures var key := LockKey(datasetId, segment);
      var run := LockRun(b, faults, datasetId, segment, instance, wallNs, clock, deadline);
      && (run.result.Ok? <==> clock[1] - clock[0] < deadline && key !in b.objects && S3Fault(faults, PutCall, key).None?)
      && (run.result.Ok? ==>
            && run.post.objects == b.objects[key := S3Object(LockBody(instance, wallNs))]
            && run.result.value.etag == ETag(run.post.objects[key].body))
      && (run.result.Err? ==> run.post == b)
  {
    StripWrapped(ETag(LockBody(instance, wallNs)), '"');
  }

  /** The call times out exactly when the clock is already past the
      deadline or the put is refused with 409 or 412. */
  lemma LockTimesOut(b: Bucket, faults: S3Faults, datasetId: string, segment: string, instance: string, wallNs: int,
                     clock: seq<int>, deadline: int)
    requires Bounded(clock, deadline)
    ensures var run := LockRun(b, faults, datasetId, segment, instance, wallNs, clock, deadline);
      var put := PutIfAbsentOp(b, faults, LockKey(datasetId, segment), LockBody(instance, wallNs));
      run.result == Err(SegmentLockError(TimedOut)) <==> clock[1] - clock[0] >= deadline || (put.Err? && Retryable(put.error))
  {
  }

  /** Mutual exclusion: while one instance holds the lock, a lock call on
      the same segment by any instance times out and changes nothing. */
  lemma LockExcludes(b: Bucket, faults: S3Faults, datasetId: string, segment: string, holder: string, other: string,
                     wallNs: int, wallNs2: int, clock: seq<int>, clock2: seq<int>, deadline: int, deadline2: int)
    requires Bounded(clock, deadline) && Bounded(clock2, deadline2)
    requires LockRun(b, faults, datasetId, segment, holder, wallNs, clock, deadline).result.Ok?
    ensures var held := LockRun(b, faults, datasetId, segment, holder, wallNs, clock, deadline).post;
      var run := LockRun(held, faults, datasetId, segment, other, wallNs2, clock2, deadline2);
      run.result == Err(SegmentLockError(TimedOut)) && run.post == held
  {
  }

  /** `s3_lock_segment`: the retry loop over the clock readings. */
  method Lock(store: ObjectStore, datasetId: string, segment: string, instance: string, wallNs: int,
              clock: seq<int>, timeout: int)
    returns (r: Result<S3LockIdentifier, Failure>)
    requires Bounded(clock, timeout * NS_PER_S)
    modifies store
    ensures S3LockAttempt(r, store.State())
         == LockRun(old(store.State()), store.faults, datasetId, segment, instance, wallNs, clock, timeout * NS_PER_S)
  {
    var key := LockKey(datasetId, segment);
    var body := LockBody(instance, wallNs);
    var deadline := timeout * NS_PER_S;
    var start := clock[0];
    var i := 1;
    while clock[i] - start < deadline
      invariant 1 <= i < |clock|
      invariant store.State() == old(store.State())
      invariant i > 1 ==> var put := PutIfAbsentOp(old(store.State()), store.faults, key, body);
        put.Err? && Retryable(put.error)
      decreases |clock| - i
    {
      var put := store.PutIfAbsent(key, body);
      if put.Ok? {
        return Ok(S3LockIdentifier(Strip(put.value, {'"'}), clock[i + 1]));
      }
      if !Retryable(put.error) {
        return Err(PutFailure(put.error));
      }
      i := i + 1;
    }
    r := Err(SegmentLockError(TimedOut));
  }

  // ---------------------------------------------------------------------
  // s3_unlock_segment

  /** The check-then-delete both object-store unlocks share: a head request
      conditional on the ETag (a ClientError there means "not owner", any
      other exception escapes), then the delete. */
  function ReleaseRun(b: Bucket, faults: S3Faults, key: string, etag: string): S3Step
  {
    match HeadIfMatchOp(b, faults, key, etag)
    case Err(ClientError(_)) => S3Step(Fail(SegmentUnlockError(NotOwner)), b)
    case Err(TransportError) => S3Step(Fail(StoreException), b)
    case Ok(_) =>
      match DeleteOp(b, faults, key)
      case Err(ClientError(status)) => S3Step(Fail(SegmentUnlockError(CommunicationError(status))), b)
      case Err(TransportError) => S3Step(Fail(SegmentUnlockError(UnknownError)), b)
      case Ok(post) => S3Step(Pass, post)
  }

  /** Only the recorded holder can release: the release succeeds exactly
      when the object at the key carries the given ETag (and the requests
      do not fail); it then deletes that key and nothing else. A failed
      release changes nothing. */
  lemma ReleaseOnlyByHolder(b: Bucket, faults: S3Faults, key: string, etag: string)
    ensures var run := ReleaseRun(b, faults, key, etag);
      && (run.outcome == Pass <==>
            && key in b.objects && Strip(etag, {'"'}) == ETag(b.objects[key].body)
            && S3Fault(faults, HeadCall, key).None? && S3Fault(faults, DeleteCall, key).None?)
      && (run.outcome == Pass ==> run.post == b.(objects := b.objects - {key}))
      && (run.outcome.Fail? ==> run.post == b)
  {
  }

  method Release(store: ObjectStore, key: string, etag: string) returns (r: Outcome<Failure>)
    modifies store
    ensures S3Step(r, store.State()) == ReleaseRun(old(store.State()), store.faults, key, etag)
  {
    var head := store.HeadIfMatch(key, etag);
    if head.Err? {
      if head.error.ClientError? {
        return Fail(SegmentUnlockError(NotOwner));
      }
      return Fail(StoreException);
    }
    var err := store.Delete(key);
    if err.Some? {
      match err.value
      case ClientError(status) => return Fail(SegmentUnlockError(CommunicationError(status)));
      case TransportError => return Fail(SegmentUnlockError(UnknownError));
    }
    r := Pass;
  }

  /** Unlock on a snapshot: the ETag of the lock is read before the check
      for a missing lock, so a missing lock is an AttributeError. */
  function UnlockRun(b: Bucket, faults: S3Faults, datasetId: string, segment: string, lock: Option<S3LockIdentifier>): S3Step
  {
    match lock
    case None => S3Step(Fail(AttributeError), b)
    case Some(l) => ReleaseRun(b, faults, LockKey(datasetId, segment), l.etag)
  }

  /** A missing lock never reaches the SegmentUnlockError the code means
      for it: it fails with AttributeError before any request. */
  lemma UnlockWithoutLock(b: Bucket, faults: S3Faults, datasetId: string, segment: string)
    ensures UnlockRun(b, faults, datasetId, segment, None).outcome != Fail(SegmentUnlockError(NoLockHeld))
    ensures UnlockRun(b, faults, datasetId, segment, None) == S3Step(Fail(AttributeError), b)
  {
  }

  /** Lock followed by unlock with the identifier the lock returned removes
      the lock object again: the bucket holds what it held before. */
  lemma LockThenUnlock(b: Bucket, faults: S3Faults, datasetId: string, segment: string, instance: string, wallNs: int,
                       clock: seq<int>, deadline: int)
    requires Bounded(clock, deadline)
    requires LockRun(b, faults, datasetId, segment, instance, wallNs, clock, deadline).result.Ok?
    requires var key := LockKey(datasetId, segment);
      S3Fault(faults, HeadCall, key).None? && S3Fault(faults, DeleteCall, key).None?
    ensures var run := LockRun(b, faults, datasetId, segment, instance, wallNs, clock, deadline);
      var un := UnlockRun(run.post, faults, datasetId, segment, Some(run.result.value));
      un.outcome == Pass && un.post.objects == b.objects
  {
    var key := LockKey(datasetId, segment);
    LockOnlyWhenAbsent(b, faults, datasetId, segment, instance, wallNs, clock, deadline);
    var run := LockRun(b, faults, datasetId, segment, instance, wallNs, clock, deadline);
    StripUntouched(run.result.value.etag, {'"'});
    ReleaseOnlyByHolder(run.post, faults, key, run.result.value.etag);
    assert run.post.objects - {key} == b.objects;
  }

  /** A stale lock cannot release a later holder's lock: after A locks and
      unlocks, and B then locks the same segment with a different body
      (another instance, or another `time.time_ns()` reading), unlocking
      with A's old identifier fails as "not owner" and leaves B's lock in
      place. */
  lemma StaleLockRejected(b: Bucket, faults: S3Faults, datasetId: string, segment: string, a: string, bInstance: string,
                          wallA: int, wallB: int, clockA: seq<int>, clockB: seq<int>, deadline: int)
    requires (a, wallA) != (bInstance, wallB)
    requires Bounded(clockA, deadline) && Bounded(clockB, deadline)
    requires LockRun(b, faults, datasetId, segment, a, wallA, clockA, deadline).result.Ok?
    requires var held := LockRun(b, faults, datasetId, segment, a, wallA, clockA, deadline);
      UnlockRun(held.post, faults, datasetId, segment, Some(held.result.value)).outcome == Pass
    requires var held := LockRun(b, faults, datasetId, segment, a, wallA, clockA, deadline);
      var freed := UnlockRun(held.post, faults, datasetId, segment, Some(held.result.value)).post;
      LockRun(freed, faults, datasetId, segment, bInstance, wallB, clockB, deadline).result.Ok?
    ensures var held := LockRun(b, faults, datasetId, segment, a, wallA, clockA, deadline);
      var freed := UnlockRun(held.post, faults, datasetId, segment, Some(held.result.value)).post;
      var heldB := LockRun(freed, faults, datasetId, segment, bInstance, wallB, clockB, deadline).post;
      UnlockRun(heldB, faults, datasetId, segment, Some(held.result.value)) == S3Step(Fail(SegmentUnlockError(NotOwner)), heldB)
  {
    var key := LockKey(datasetId, segment);
    var held := LockRun(b, faults, datasetId, segment, a, wallA, clockA, deadline);
    LockOnlyWhenAbsent(b, faults, datasetId, segment, a, wallA, clockA, deadline);
    var freed := UnlockRun(held.post, faults, datasetId, segment, Some(held.result.value)).post;
    ReleaseOnlyByHolder(held.post, faults, key, held.result.value.etag);
    LockOnlyWhenAbsent(freed, faults, datasetId, segment, bInstance, wallB, clockB, deadline);
    var heldB := LockRun(freed, faults, datasetId, segment, bInstance, wallB, clockB, deadline).post;
    assert heldB.objects[key].body == LockBody(bInstance, wallB);
    StripUntouched(held.result.value.etag, {'"'});
    if ETag(LockBody(a, wallA)) == ETag(LockBody(bInstance, wallB)) {
      ETagInjective(LockBody(a, wallA), LockBody(bInstance, wallB));
      LockBodyInjective(a, wallA, bInstance, wallB);
    }
    ReleaseOnlyByHolder(heldB, faults, key, held.result.value.etag);
  }

  /** The limit of the ETag check: the ETag is computed from the body, so
      when B's lock object has the same body as A's old one (the same
      instance writing at the same `time.time_ns()` reading), A's stale
      identifier releases B's lock. */
  lemma StaleLockSameBody(b: Bucket, faults: S3Faults, datasetId: string, segment: string, instance: string,
                          wallNs: int, clockA: seq<int>, clockB: seq<int>, deadline: int)
    requires Bounded(clockA, deadline) && Bounded(clockB, deadline)
    requires var key := LockKey(datasetId, segment);
      S3Fault(faults, HeadCall, key).None? && S3Fault(faults, DeleteCall, key).None?
    requires LockRun(b, faults, datasetId, segment, instance, wallNs, clockA, deadline).result.Ok?
    requires var held := LockRun(b, faults, datasetId, segment, instance, wallNs, clockA, deadline);
      var freed := UnlockRun(held.post, faults, datasetId, segment, Some(held.result.value)).post;
      LockRun(freed, faults, datasetId, segment, instance, wallNs, clockB, deadline).result.Ok?
    ensures var held := LockRun(b, faults, datasetId, segment, instance, wallNs, clockA, deadline);
      var freed := UnlockRun(held.post, faults, datasetId, segment, Some(held.result.value)).post;
      var heldB := LockRun(freed, faults, datasetId, segment, instance, wallNs, clockB, deadline).post;
      var stale := UnlockRun(heldB, faults, datasetId, segment, Some(held.result.value));
      stale.outcome == Pass && LockKey(datasetId, segment) !in stale.post.objects
  {
    var key := LockKey(datasetId, segment);
    var held := LockRun(b, faults, datasetId, segment, instance, wallNs, clockA, deadline);
    LockOnlyWhenAbsent(b, faults, datasetId, segment, instance, wallNs, clockA, deadline);
    var freed := UnlockRun(held.post, faults, datasetId, segment, Some(held.result.value)).post;
    ReleaseOnlyByHolder(held.post, faults, key, held.result.value.etag);
    LockOnlyWhenAbsent(freed, faults, datasetId, segment, instance, wallNs, clockB, deadline);
    var heldB := LockRun(freed, faults, datasetId, segment, instance, wallNs, clockB, deadline).post;
    StripUntouched(held.result.value.etag, {'"'});
    ReleaseOnlyByHolder(heldB, faults, key, held.result.value.etag);
  }

  /** `s3_unlock_segment`. */
  method Unlock(store: ObjectStore, datasetId: string, segment: string, lock: Option<S3LockIdentifier>)
    returns (r: Outcome<Failure>)
    modifies store
    ensures S3Step(r, store.State()) == UnlockRun(old(store.State()), store.faults, datasetId, segment, lock)
  {
    if lock.None? {
      return Fail(AttributeError);
    }
    r := Release(store, LockKey(datasetId, segment), lock.value.etag);
  }
}
