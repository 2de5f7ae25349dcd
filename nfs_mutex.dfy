/** The symlink segment lock of the shared library
    (libs/serverless_otel/nfs_mutex/mutex.py).

    An instance holds the lock on a segment while the segment's lock file is
    a symbolic link to the instance's own lock file. `os.symlink` creates a
    name only if it is absent, so at most one instance can create the link.
    Each protocol step is specified by a function on filesystem snapshots
    (`InitialiseRun`, `LockRun`, `UnlockRun`); the methods run the same steps
    on the shared `FileSystem` object and are proved to agree with them. */
module NfsMutex {
  import opened Wrappers
  import opened Errors
  import opened Units
  import opened Clock
  import opened Posix
  import opened LockPaths

  /** What a successful lock returns: the holder's lock file and the clock
      reading taken just after the link was made. */
  datatype NfsLockIdentifier = NfsLockIdentifier(lockfile: Path, timestamp: int)

  datatype InitialisationKey = InitialisationKey(datasetId: string, instance: string, segment: string)

  /** The outcome of a call and the filesystem it leaves behind. */
  datatype Step = Step(outcome: Outcome<Failure>, post: Fs)

  /** The outcome of a lock call, the filesystem it leaves behind and the
      number of link attempts it made (`retry_count`). */
  datatype LockAttempt = LockAttempt(result: Result<NfsLockIdentifier, Failure>, post: Fs, tries: nat)

  // ---------------------------------------------------------------------
  // nfs_initialise_segment_locks

  /** Create the lock directory and this instance's lock file where
      `os.path.exists` does not see them; an OSError escapes as it is. */
  function InitialiseRun(fs: Fs, faults: Faults, basedir: Path, datasetId: string, instance: string, segment: string): Step
  {
    var base := DatasetBase(basedir, datasetId);
    var lockdir := SegmentLockdir(base, segment);
    var inst := InstanceLockfile(base, segment, instance);
    var made := if Exists(fs, faults, lockdir) then Ok(fs) else MakeDirsOp(fs, faults, lockdir);
    match made
    case Err(e) => Step(Fail(OSError(e)), fs)
    case Ok(fs1) =>
      var touched := if Exists(fs1, faults, inst) then Ok(fs1) else OpenAppendOp(fs1, faults, inst);
      match touched
      case Err(e) => Step(Fail(OSError(e)), fs1)
      case Ok(fs2) => Step(Pass, fs2)
  }

  /** Initialisation, whatever its outcome, keeps every existing entry and
      adds no name but the lock directory, the instance lock file, or the
      target of a dangling link at the instance lock file. */
  lemma InitialiseOnlyAdds(fs: Fs, faults: Faults, basedir: Path, datasetId: string, instance: string, segment: string)
    ensures var base := DatasetBase(basedir, datasetId);
      var post := InitialiseRun(fs, faults, basedir, datasetId, instance, segment).post;
      && Grows(fs, post)
      && AddsOnly(fs, post, {SegmentLockdir(base, segment), InstanceLockfile(base, segment, instance)}
                            + DanglingTarget(fs, InstanceLockfile(base, segment, instance)))
  {
    var base := DatasetBase(basedir, datasetId);
    var lockdir := SegmentLockdir(base, segment);
    var inst := InstanceLockfile(base, segment, instance);
    var made := if Exists(fs, faults, lockdir) then Ok(fs) else MakeDirsOp(fs, faults, lockdir);
    if made.Ok? {
      var fs1 := made.value;
      if !Exists(fs, faults, lockdir) {
        MakeDirsGrows(fs, faults, lockdir);
      }
      assert DanglingTarget(fs1, inst) <= DanglingTarget(fs, inst);
      var touched := if Exists(fs1, faults, inst) then Ok(fs1) else OpenAppendOp(fs1, faults, inst);
      if touched.Ok? && !Exists(fs1, faults, inst) {
        OpenAppendGrows(fs1, faults, inst);
      }
    }
  }

  /** After a successful initialisation the lock directory and the instance
      lock file both exist. */
  lemma InitialiseEstablishes(fs: Fs, faults: Faults, basedir: Path, datasetId: string, instance: string, segment: string)
    requires InitialiseRun(fs, faults, basedir, datasetId, instance, segment).outcome == Pass
    ensures var base := DatasetBase(basedir, datasetId);
      var post := InitialiseRun(fs, faults, basedir, datasetId, instance, segment).post;
      && Exists(post, map[], SegmentLockdir(base, segment))
      && Exists(post, map[], InstanceLockfile(base, segment, instance))
  {
    var base := DatasetBase(basedir, datasetId);
    var lockdir := SegmentLockdir(base, segment);
    var inst := InstanceLockfile(base, segment, instance);
    var fs1 := if Exists(fs, faults, lockdir) then fs else MakeDirsOp(fs, faults, lockdir).value;
    if !Exists(fs, faults, lockdir) {
      MakeDirsGrows(fs, faults, lockdir);
    }
    assert Exists(fs1, map[], lockdir);
    var post := InitialiseRun(fs, faults, basedir, datasetId, instance, segment).post;
    if !Exists(fs1, faults, inst) {
      OpenAppendGrows(fs1, faults, inst);
    }
    assert Grows(fs1, post);
    StatKept(fs1, post, map[], lockdir);
  }

  /** Initialisation never creates or changes the segment lock file (for an
      instance not named like the segment, and whose lock file is not a
      symbolic link). */
  lemma InitialiseKeepsSegmentLockfile(fs: Fs, faults: Faults, basedir: Path, datasetId: string, instance: string, segment: string)
    requires Relative(segment) && Relative(instance) && instance != segment
    requires var inst := InstanceLockfile(DatasetBase(basedir, datasetId), segment, instance);
      !(inst in fs.entries && fs.entries[inst].Symlink?)
    ensures var seg := SegmentLockfile(DatasetBase(basedir, datasetId), segment);
      var post := InitialiseRun(fs, faults, basedir, datasetId, instance, segment).post;
      && (seg in post.entries <==> seg in fs.entries)
      && (seg in fs.entries ==> post.entries[seg] == fs.entries[seg])
  {
    var base := DatasetBase(basedir, datasetId);
    var seg := SegmentLockfile(base, segment);
    var inst := InstanceLockfile(base, segment, instance);
    var post := InitialiseRun(fs, faults, basedir, datasetId, instance, segment).post;
    InitialiseOnlyAdds(fs, faults, basedir, datasetId, instance, segment);
    LockfilesDistinct(base, segment, instance);
    LockfilesNotLockdir(base, segment, instance);
    assert seg !in {SegmentLockdir(base, segment), inst} + DanglingTarget(fs, inst);
    assert seg in post.entries ==> seg in fs.entries;
  }

  /** The module-level `initialisation_cache`: the keys already initialised. */
  class InitialisationCache {
    var keys: set<InitialisationKey>

    constructor ()
      ensures keys == {}
    {
      keys := {};
    }
  }

  /** The filesystem part of `nfs_initialise_segment_locks`. */
  method InitialiseStore(fs: FileSystem, basedir: Path, datasetId: string, instance: string, segment: string)
    returns (r: Outcome<Failure>)
    modifies fs
    ensures Step(r, fs.State()) == InitialiseRun(old(fs.State()), fs.faults, basedir, datasetId, instance, segment)
  {
    var base := DatasetBase(basedir, datasetId);
    var lockdir := SegmentLockdir(base, segment);
    var present := fs.PathExists(lockdir);
    if !present {
      var err := fs.MakeDirs(lockdir);
      if err.Some? {
        return Fail(OSError(err.value));
      }
    }
    var inst := InstanceLockfile(base, segment, instance);
    present := fs.PathExists(inst);
    if !present {
      var err := fs.OpenAppend(inst);
      if err.Some? {
        return Fail(OSError(err.value));
      }
    }
    r := Pass;
  }

  /** `nfs_initialise_segment_locks`: a key found in the cache returns at
      once without touching the filesystem; otherwise the filesystem is
      prepared and the key is cached when that succeeded. */
  method Initialise(fs: FileSystem, cache: InitialisationCache, basedir: Path, datasetId: string, instance: string, segment: string)
    returns (r: Outcome<Failure>)
    modifies fs, cache
    ensures var key := InitialisationKey(datasetId, instance, segment);
      && (key in old(cache.keys) ==> r == Pass && fs.State() == old(fs.State()) && cache.keys == old(cache.keys))
      && (key !in old(cache.keys) ==>
            && Step(r, fs.State()) == InitialiseRun(old(fs.State()), fs.faults, basedir, datasetId, instance, segment)
            && cache.keys == if r.Pass? then old(cache.keys) + {key} else old(cache.keys))
  {
    var key := InitialisationKey(datasetId, instance, segment);
    if key in cache.keys {
      return Pass;
    }
    r := InitialiseStore(fs, basedir, datasetId, instance, segment);
    if r.Pass? {
      cache.keys := cache.keys + {key};
    }
  }

  // ---------------------------------------------------------------------
  // nfs_lock_segment

  /** The lock loop on a snapshot. A failed symlink leaves the filesystem
      as it was, so the first attempt decides every later one: success
      returns at once, EEXIST repeats until the clock passes the deadline,
      any other OSError raises. */
  function LockRun(fs: Fs, faults: Faults, basedir: Path, datasetId: string, segment: string, instance: string,
                   clock: seq<int>, deadline: int): LockAttempt
    requires Bounded(clock, deadline)
  {
    var base := DatasetBase(basedir, datasetId);
    var seg := SegmentLockfile(base, segment);
    var inst := InstanceLockfile(base, segment, instance);
    if clock[1] - clock[0] >= deadline then LockAttempt(Err(SegmentLockError(TimedOut)), fs, 0)
    else match SymlinkOp(fs, faults, inst, seg)
      case Ok(post) => LockAttempt(Ok(NfsLockIdentifier(inst, clock[2])), post, 1)
      case Err(EEXIST) => LockAttempt(Err(SegmentLockError(TimedOut)), fs, FirstExpired(clock, deadline, 1) - 1)
      case Err(e) => LockAttempt(Err(SegmentLockError(UnexpectedOs(e))), fs, 1)
  }

  /** The lock is taken only when the segment lock file was absent; it is
      then a link to this instance's lock file, which is what the call
      returns. A failed call leaves the filesystem unchanged. */
  lemma LockOnlyWhenAbsent(fs: Fs, faults: Faults, basedir: Path, datasetId: string, segment: string, instance: string,
                           clock: seq<int>, deadline: int)
    requires Bounded(clock, deadline)
    ensures var base := DatasetBase(basedir, datasetId);
      var seg := SegmentLockfile(base, segment);
      var inst := InstanceLockfile(base, segment, instance);
      var run := LockRun(fs, faults, basedir, datasetId, segment, instance, clock, deadline);
      && (run.result.Ok? <==> clock[1] - clock[0] < deadline && seg !in fs.entries && Fault(faults, SymlinkCall, seg).None?)
      && (run.result.Ok? ==>
            && run.post.entries == fs.entries[seg := Symlink(inst)]
            && run.result.value.lockfile == inst
            && run.tries == 1)
      && (run.result.Err? ==> run.post == fs)
  {
  }

  /** The call times out exactly when the clock is already past the deadline
      or the segment lock file is present (EEXIST); the timeout is reached
      after one attempt per clock reading inside the deadline. */
  lemma LockTimesOut(fs: Fs, faults: Faults, basedir: Path, datasetId: string, segment: string, instance: string,
                     clock: seq<int>, deadline: int)
    requires Bounded(clock, deadline)
    ensures var base := DatasetBase(basedir, datasetId);
      var seg := SegmentLockfile(base, segment);
      var inst := InstanceLockfile(base, segment, instance);
      var run := LockRun(fs, faults, basedir, datasetId, segment, instance, clock, deadline);
      && (run.result == Err(SegmentLockError(TimedOut)) <==>
            clock[1] - clock[0] >= deadline || SymlinkOp(fs, faults, inst, seg) == Err(EEXIST))
      && (run.result == Err(SegmentLockError(TimedOut)) ==>
            && (forall j :: 1 <= j <= run.tries ==> clock[j] - clock[0] < deadline)
            && clock[run.tries + 1] - clock[0] >= deadline)
  {
  }

  /** Mutual exclusion: once one instance holds the lock, a lock call on the
      same segment by any instance times out and changes nothing. */
  lemma LockExcludes(fs: Fs, faults: Faults, basedir: Path, datasetId: string, segment: string, holder: string, other: string,
                     clock: seq<int>, clock2: seq<int>, deadline: int, deadline2: int)
    requires Bounded(clock, deadline) && Bounded(clock2, deadline2)
    requires LockRun(fs, faults, basedir, datasetId, segment, holder, clock, deadline).result.Ok?
    ensures var held := LockRun(fs, faults, basedir, datasetId, segment, holder, clock, deadline).post;
      var run := LockRun(held, faults, basedir, datasetId, segment, other, clock2, deadline2);
      run.result == Err(SegmentLockError(TimedOut)) && run.post == held
  {
    LockOnlyWhenAbsent(fs, faults, basedir, datasetId, segment, holder, clock, deadline);
  }

  /** `nfs_lock_segment`: the retry loop over the clock readings. */
  method Lock(fs: FileSystem, basedir: Path, datasetId: string, segment: string, instance: string,
              clock: seq<int>, timeout: int)
    returns (r: Result<NfsLockIdentifier, Failure>, tries: nat)
    requires Bounded(clock, timeout * NS_PER_MIN)
    modifies fs
    ensures LockAttempt(r, fs.State(), tries)
         == LockRun(old(fs.State()), fs.faults, basedir, datasetId, segment, instance, clock, timeout * NS_PER_MIN)
  {
    var base := DatasetBase(basedir, datasetId);
    var seg := SegmentLockfile(base, segment);
    var inst := InstanceLockfile(base, segment, instance);
    var deadline := timeout * NS_PER_MIN;
    var start := clock[0];
    tries := 0;
    var i := 1;
    while clock[i] - start < deadline
      invariant 1 <= i < |clock|
      invariant forall j :: 1 <= j < i ==> clock[j] - start < deadline
      invariant tries == i - 1
      invariant fs.State() == old(fs.State())
      invariant i > 1 ==> SymlinkOp(old(fs.State()), fs.faults, inst, seg) == Err(EEXIST)
      decreases |clock| - i
    {
      var err := fs.Symlink(inst, seg);
      tries := tries + 1;
      if err.None? {
        return Ok(NfsLockIdentifier(inst, clock[i + 1])), tries;
      }
      if err.value != EEXIST {
        return Err(SegmentLockError(UnexpectedOs(err.value))), tries;
      }
      i := i + 1;
    }
    FirstExpiredIs(clock, deadline, 1, i);
    r := Err(SegmentLockError(TimedOut));
  }

  // ---------------------------------------------------------------------
  // nfs_unlock_segment

  /** Unlock on a snapshot: no lock, a lock recorded for another lock file,
      or a link pointing elsewhere raise SegmentUnlockError; a failing
      readlink escapes as OSError; otherwise the link is removed. */
  function UnlockRun(fs: Fs, faults: Faults, basedir: Path, datasetId: string, segment: string, instance: string,
                     lock: Option<NfsLockIdentifier>): Step
  {
    var base := DatasetBase(basedir, datasetId);
    var seg := SegmentLockfile(base, segment);
    var inst := InstanceLockfile(base, segment, instance);
    match lock
    case None => Step(Fail(SegmentUnlockError(NoLockHeld)), fs)
    case Some(l) =>
      if inst != l.lockfile then Step(Fail(SegmentUnlockError(OwnedBy(l.lockfile))), fs)
      else match ReadlinkOp(fs, faults, seg)
        case Err(e) => Step(Fail(OSError(e)), fs)
        case Ok(current) =>
          if current != inst then Step(Fail(SegmentUnlockError(OwnedBy(current))), fs)
          else match UnlinkOp(fs, faults, seg)
            case Err(e) => Step(Fail(SegmentUnlockError(UnlinkFailed(e))), fs)
            case Ok(post) => Step(Pass, post)
  }

  /** Only the recorded holder can release: unlock succeeds exactly when
      the lock names this instance's lock file and the segment lock file
      is a link to it (and the filesystem calls do not fail); it then
      removes that link and nothing else. A failed unlock changes nothing. */
  lemma UnlockOnlyByHolder(fs: Fs, faults: Faults, basedir: Path, datasetId: string, segment: string, instance: string,
                           lock: Option<NfsLockIdentifier>)
    ensures var base := DatasetBase(basedir, datasetId);
      var seg := SegmentLockfile(base, segment);
      var inst := InstanceLockfile(base, segment, instance);
      var run := UnlockRun(fs, faults, basedir, datasetId, segment, instance, lock);
      && (run.outcome == Pass <==>
            && lock.Some? && lock.value.lockfile == inst
            && seg in fs.entries && fs.entries[seg] == Symlink(inst)
            && Fault(faults, ReadlinkCall, seg).None? && Fault(faults, UnlinkCall, seg).None?)
      && (run.outcome == Pass ==> run.post.entries == fs.entries - {seg} && run.post.nextInode == fs.nextInode)
      && (run.outcome.Fail? ==> run.post == fs)
  {
  }

  /** Without a lock, unlock raises SegmentUnlockError before any
      filesystem call. */
  lemma UnlockWithoutLock(fs: Fs, faults: Faults, basedir: Path, datasetId: string, segment: string, instance: string)
    ensures UnlockRun(fs, faults, basedir, datasetId, segment, instance, None) == Step(Fail(SegmentUnlockError(NoLockHeld)), fs)
  {
  }

  /** Lock followed by unlock with the identifier the lock returned gives
      back the filesystem the lock started from. */
  lemma LockThenUnlock(fs: Fs, faults: Faults, basedir: Path, datasetId: string, segment: string, instance: string,
                       clock: seq<int>, deadline: int)
    requires Bounded(clock, deadline)
    requires LockRun(fs, faults, basedir, datasetId, segment, instance, clock, deadline).result.Ok?
    requires var seg := SegmentLockfile(DatasetBase(basedir, datasetId), segment);
      Fault(faults, ReadlinkCall, seg).None? && Fault(faults, UnlinkCall, seg).None?
    ensures var run := LockRun(fs, faults, basedir, datasetId, segment, instance, clock, deadline);
      UnlockRun(run.post, faults, basedir, datasetId, segment, instance, Some(run.result.value)) == Step(Pass, fs)
  {
    var seg := SegmentLockfile(DatasetBase(basedir, datasetId), segment);
    var inst := InstanceLockfile(DatasetBase(basedir, datasetId), segment, instance);
    LockOnlyWhenAbsent(fs, faults, basedir, datasetId, segment, instance, clock, deadline);
    var run := LockRun(fs, faults, basedir, datasetId, segment, instance, clock, deadline);
    assert run.post.entries - {seg} == fs.entries;
  }

  /** `nfs_unlock_segment`. */
  method Unlock(fs: FileSystem, basedir: Path, datasetId: string, segment: string, instance: string,
                lock: Option<NfsLockIdentifier>)
    returns (r: Outcome<Failure>)
    modifies fs
    ensures Step(r, fs.State()) == UnlockRun(old(fs.State()), fs.faults, basedir, datasetId, segment, instance, lock)
  {
    if lock.None? {
      return Fail(SegmentUnlockError(NoLockHeld));
    }
    var base := DatasetBase(basedir, datasetId);
    var inst := InstanceLockfile(base, segment, instance);
    var seg := SegmentLockfile(base, segment);
    if inst != lock.value.lockfile {
      return Fail(SegmentUnlockError(OwnedBy(lock.value.lockfile)));
    }
    var current := fs.Readlink(seg);
    if current.Err? {
      return Fail(OSError(current.error));
    }
    if current.value != inst {
      return Fail(SegmentUnlockError(OwnedBy(current.value)));
    }
    var err := fs.Unlink(seg);
    if err.Some? {
      return Fail(SegmentUnlockError(UnlinkFailed(err.value)));
    }
    r := Pass;
  }
}
