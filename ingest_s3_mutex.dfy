/** The earlier copy of the object-store segment lock (ingest_lambda/s3_mutex.py).
    Its lock loop is the library's (module S3Mutex) without the timestamp
    in the identifier; its unlock checks for a missing lock first, so that
    case raises SegmentUnlockError before any request. */
module IngestS3Mutex {
  import opened Wrappers
  import opened Errors
  import opened Units
  import opened Clock
  import opened ObjectStore
  import S3Mutex

  datatype S3LockIdentifier = S3LockIdentifier(etag: string)

  /** The lock loop on a snapshot: the library's, keeping only the ETag. */
  function LockRun(b: Bucket, faults: S3Faults, datasetId: string, segment: string, instance: string, wallNs: int,
                   clock: seq<int>, deadline: int): (Result<S3LockIdentifier, Failure>, Bucket)
    requires Bounded(clock, deadline)
  {
    var run := S3Mutex.LockRun(b, faults, datasetId, segment, instance, wallNs, clock, deadline);
    match run.result
    case Ok(l) => (Ok(S3LockIdentifier(l.etag)), run.post)
    case Err(e) => (Err(e), run.post)
  }

  /** The lock is taken only when no object is at `<dataset_id>/<segment>`,
      and the ETag returned is that of the object the put wrote; a failed
      call leaves the bucket unchanged. */
  lemma LockOnlyWhenAbsent(b: Bucket, faults: S3Faults, datasetId: string, segment: string, instance: string, wallNs: int,
                           clock: seq<int>, deadline: int)
    requires Bounded(clock, deadline)
    ensures var key := S3Mutex.LockKey(datasetId, segment);
      var (r, post) := LockRun(b, faults, datasetId, segment, instance, wallNs, clock, deadline);
      && (r.Ok? <==> clock[1] - clock[0] < deadline && key !in b.objects && S3Fault(faults, PutCall, key).None?)
      && (r.Ok? ==> key in post.objects && post.objects == b.objects[key := post.objects[key]]
                    && r.value.etag == ETag(post.objects[key].body))
      && (r.Err? ==> post == b)
  {
    S3Mutex.LockOnlyWhenAbsent(b, faults, datasetId, segment, instance, wallNs, clock, deadline);
  }

  /** `s3_lock_segment`. */
  method Lock(store: ObjectStore, datasetId: string, segment: string, instance: string, wallNs: int,
              clock: seq<int>, timeout: int)
    returns (r: Result<S3LockIdentifier, Failure>)
    requires Bounded(clock, timeout * NS_PER_S)
    modifies store
    ensures (r, store.State()) == LockRun(old(store.State()), store.faults, datasetId, segment, instance, wallNs, clock, timeout * NS_PER_S)
  {
    var full := S3Mutex.Lock(store, datasetId, segment, instance, wallNs, clock, timeout);
    match full
    case Ok(l) => r := Ok(S3LockIdentifier(l.etag));
    case Err(e) => r := Err(e);
  }

  /** Unlock on a snapshot: a missing lock raises SegmentUnlockError first;
      otherwise the library's check-then-delete. */
  function UnlockRun(b: Bucket, faults: S3Faults, datasetId: string, segment: string, lock: Option<S3LockIdentifier>): S3Mutex.S3Step
  {
    match lock
    case None => S3Mutex.S3Step(Fail(SegmentUnlockError(NoLockHeld)), b)
    case Some(l) => S3Mutex.ReleaseRun(b, faults, S3Mutex.LockKey(datasetId, segment), l.etag)
  }

  /** A missing lock is refused before any request; otherwise only the
      holder of the object's ETag releases it, deleting just that key. */
  lemma UnlockOnlyByHolder(b: Bucket, faults: S3Faults, datasetId: string, segment: string, lock: Option<S3LockIdentifier>)
    ensures var key := S3Mutex.LockKey(datasetId, segment);
      var run := UnlockRun(b, faults, datasetId, segment, lock);
      && (lock.None? ==> run == S3Mutex.S3Step(Fail(SegmentUnlockError(NoLockHeld)), b))
      && (run.outcome == Pass <==>
            && lock.Some? && key in b.objects
            && Text.Strip(lock.value.etag, {'"'}) == ETag(b.objects[key].body)
            && S3Fault(faults, HeadCall, key).None? && S3Fault(faults, DeleteCall, key).None?)
      && (run.outcome == Pass ==> run.post.objects == b.objects - {key})
      && (run.outcome.Fail? ==> run.post == b)
  {
    if lock.Some? {
      S3Mutex.ReleaseOnlyByHolder(b, faults, S3Mutex.LockKey(datasetId, segment), lock.value.etag);
    }
  }

  /** `s3_unlock_segment`. */
  method Unlock(store: ObjectStore, datasetId: string, segment: string, lock: Option<S3LockIdentifier>)
    returns (r: Outcome<Failure>)
    modifies store
    ensures S3Mutex.S3Step(r, store.State()) == UnlockRun(old(store.State()), store.faults, datasetId, segment, lock)
  {
    if lock.None? {
      return Fail(SegmentUnlockError(NoLockHeld));
    }
    r := S3Mutex.Release(store, S3Mutex.LockKey(datasetId, segment), lock.value.etag);
  }
}
