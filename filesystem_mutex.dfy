/** The earlier copy of the symlink segment lock (ingest_lambda/filesystem_mutex.py).
    Its initialisation, lock loop and unlock checks are the library's
    (module NfsMutex) step for step, with two differences: there is no
    initialisation cache, and unlock has no guard against a missing lock,
    so `None` fails on the attribute read `lock.Lockfile`. */
module FilesystemMutex {
  import opened Wrappers
  import opened Errors
  import opened Units
  import opened Clock
  import opened Posix
  import opened LockPaths
  import NfsMutex

  /** `nfs_initialise_segment_locks`, without a cache: every call goes to
      the filesystem. */
  method Initialise(fs: FileSystem, basedir: Path, datasetId: string, instance: string, segment: string)
    returns (r: Outcome<Failure>)
    modifies fs
    ensures NfsMutex.Step(r, fs.State()) == NfsMutex.InitialiseRun(old(fs.State()), fs.faults, basedir, datasetId, instance, segment)
  {
    r := NfsMutex.InitialiseStore(fs, basedir, datasetId, instance, segment);
  }

  /** `nfs_lock_segment`: the same retry loop, without a retry counter. */
  method Lock(fs: FileSystem, basedir: Path, datasetId: string, segment: string, instance: string,
              clock: seq<int>, timeout: int)
    returns (r: Result<NfsMutex.NfsLockIdentifier, Failure>)
    requires Bounded(clock, timeout * NS_PER_MIN)
    modifies fs
    ensures var run := NfsMutex.LockRun(old(fs.State()), fs.faults, basedir, datasetId, segment, instance, clock, timeout * NS_PER_MIN);
      r == run.result && fs.State() == run.post
  {
    var tries;
    r, tries := NfsMutex.Lock(fs, basedir, datasetId, segment, instance, clock, timeout);
  }

  /** Unlock on a snapshot: a missing lock is an AttributeError; otherwise
      the library's checks. */
  function UnlockRun(fs: Fs, faults: Faults, basedir: Path, datasetId: string, segment: string, instance: string,
                     lock: Option<NfsMutex.NfsLockIdentifier>): NfsMutex.Step
  {
    if lock.None? then NfsMutex.Step(Fail(AttributeError), fs)
    else NfsMutex.UnlockRun(fs, faults, basedir, datasetId, segment, instance, lock)
  }

  /** A missing lock fails before any filesystem call, but with an
      AttributeError where the library raises SegmentUnlockError; on a
      lock that is present the two unlocks agree, so only the holder can
      release here too. */
  lemma UnlockAgreesWithLibrary(fs: Fs, faults: Faults, basedir: Path, datasetId: string, segment: string, instance: string,
                                lock: Option<NfsMutex.NfsLockIdentifier>)
    ensures var run := UnlockRun(fs, faults, basedir, datasetId, segment, instance, lock);
      && (lock.None? ==> run == NfsMutex.Step(Fail(AttributeError), fs)
                          && NfsMutex.UnlockRun(fs, faults, basedir, datasetId, segment, instance, lock).outcome
                             == Fail(SegmentUnlockError(NoLockHeld)))
      && (lock.Some? ==> run == NfsMutex.UnlockRun(fs, faults, basedir, datasetId, segment, instance, lock))
      && (run.outcome == Pass ==>
            var seg := SegmentLockfile(DatasetBase(basedir, datasetId), segment);
            && lock.Some? && lock.value.lockfile == InstanceLockfile(DatasetBase(basedir, datasetId), segment, instance)
            && run.post.entries == fs.entries - {seg})
  {
    NfsMutex.UnlockOnlyByHolder(fs, faults, basedir, datasetId, segment, instance, lock);
  }

  /** `nfs_unlock_segment`. */
  method Unlock(fs: FileSystem, basedir: Path, datasetId: string, segment: string, instance: string,
                lock: Option<NfsMutex.NfsLockIdentifier>)
    returns (r: Outcome<Failure>)
    modifies fs
    ensures NfsMutex.Step(r, fs.State()) == UnlockRun(old(fs.State()), fs.faults, basedir, datasetId, segment, instance, lock)
  {
    if lock.None? {
      return Fail(AttributeError);
    }
    r := NfsMutex.Unlock(fs, basedir, datasetId, segment, instance, lock);
  }
}
