/** The hard-link segment lock of the ingest-lambda service
    (ingest-lambda/nfs_locks.py).

    Lock tries `os.link(instance_lockfile, segment_lockfile)` until the
    clock (in seconds) passes the timeout, retrying on every OSError.
    Unlock reads the segment lock file with `os.readlink` and unlinks it when
    it names this instance's lock file.

    Two steps of the protocol defeat each other:
      - initialisation creates the segment lock file itself, after which
        `os.link` onto it can only fail, so lock always times out
        (`LockAfterInitialiseTimesOut`);
      - the lock is a hard link, a regular file, on which `os.readlink`
        fails with EINVAL, so unlock of a lock taken by `Lock` always raises
        (`UnlockAfterLockFails`).
    The corrected steps leave the segment lock file to `Lock`
    (`InitialiseCorrected`, the library's initialisation) and take the lock
    with the symbolic link the module's comments describe
    (`LockCorrected`, `os.symlink`); with them, lock after initialisation
    succeeds and the unlock as written releases the lock it took. */
module HardLinkLocks {
  import opened Wrappers
  import opened Errors
  import opened Clock
  import opened Posix
  import opened LockPaths
  import NfsMutex

  type Step = NfsMutex.Step

  // ---------------------------------------------------------------------
  // initialise_segment_locks, as written

  /** Create the lock directory if needed, then the segment lock file. */
  function CreateSegmentLockfile(fs: Fs, faults: Faults, lockdir: Path, seg: Path): Step
  {
    var made := if Exists(fs, faults, lockdir) then Ok(fs) else MakeDirsOp(fs, faults, lockdir);
    match made
    case Err(e) => NfsMutex.Step(Fail(OSError(e)), fs)
    case Ok(fs0) =>
      match OpenAppendOp(fs0, faults, seg)
      case Err(e) => NfsMutex.Step(Fail(OSError(e)), fs0)
      case Ok(fs1) => NfsMutex.Step(Pass, fs1)
  }

  /** Initialisation on a snapshot: when the segment lock file is not seen,
      create it (and its directory); then create the instance lock file
      when it is not seen. */
  function InitialiseRun(fs: Fs, faults: Faults, basedir: Path, datasetId: string, instance: string, segment: string): Step
  {
    var base := DatasetBase(basedir, datasetId);
    var lockdir := SegmentLockdir(base, segment);
    var seg := SegmentLockfile(base, segment);
    var inst := InstanceLockfile(base, segment, instance);
    var first := if Exists(fs, faults, seg) then NfsMutex.Step(Pass, fs) else CreateSegmentLockfile(fs, faults, lockdir, seg);
    if first.outcome.Fail? then first
    else if Exists(first.post, faults, inst) then first
    else match OpenAppendOp(first.post, faults, inst)
      case Err(e) => NfsMutex.Step(Fail(OSError(e)), first.post)
      case Ok(fs2) => NfsMutex.Step(Pass, fs2)
  }

  /** A successful initialisation leaves the segment lock file in place
      (and keeps every entry that was there). */
  lemma InitialiseCreatesSegmentLockfile(fs: Fs, faults: Faults, basedir: Path, datasetId: string, instance: string, segment: string)
    requires InitialiseRun(fs, faults, basedir, datasetId, instance, segment).outcome == Pass
    ensures var post := InitialiseRun(fs, faults, basedir, datasetId, instance, segment).post;
      && SegmentLockfile(DatasetBase(basedir, datasetId), segment) in post.entries
      && Grows(fs, post)
  {
    var base := DatasetBase(basedir, datasetId);
    var lockdir := SegmentLockdir(base, segment);
    var seg := SegmentLockfile(base, segment);
    var inst := InstanceLockfile(base, segment, instance);
    var first := if Exists(fs, faults, seg) then NfsMutex.Step(Pass, fs) else CreateSegmentLockfile(fs, faults, lockdir, seg);
    if !Exists(fs, faults, seg) {
      var fs0 := if Exists(fs, faults, lockdir) then fs else MakeDirsOp(fs, faults, lockdir).value;
      if !Exists(fs, faults, lockdir) {
        MakeDirsGrows(fs, faults, lockdir);
      }
      OpenAppendGrows(fs0, faults, seg);
    }
    assert seg in first.post.entries && Grows(fs, first.post);
    if !Exists(first.post, faults, inst) {
      OpenAppendGrows(first.post, faults, inst);
    }
  }

  /** `initialise_segment_locks`, as written. */
  method Initialise(fs: FileSystem, basedir: Path, datasetId: string, instance: string, segment: string)
    returns (r: Outcome<Failure>)
    modifies fs
    ensures NfsMutex.Step(r, fs.State()) == InitialiseRun(old(fs.State()), fs.faults, basedir, datasetId, instance, segment)
  {
    var base := DatasetBase(basedir, datasetId);
    var lockdir := SegmentLockdir(base, segment);
    var seg := SegmentLockfile(base, segment);
    var present := fs.PathExists(seg);
    if !present {
      present := fs.PathExists(lockdir);
      if !present {
        var err := fs.MakeDirs(lockdir);
        if err.Some? {
          return Fail(OSError(err.value));
        }
      }
      var err := fs.OpenAppend(seg);
      if err.Some? {
        return Fail(OSError(err.value));
      }
    }
    var inst := InstanceLockfile(base, segment, instance);
    present := fs.PathExists(inst);
    if !present {
      var err := fs.OpenAppend(inst);
      if err.Some? {
        return Fail(OSError(err.value));
      }
    }
    r := Pass;
  }

  /** Initialisation that leaves the segment lock file to `Lock`: the
      library's `nfs_initialise_segment_locks` without its cache. */
  method InitialiseCorrected(fs: FileSystem, basedir: Path, datasetId: string, instance: string, segment: string)
    returns (r: Outcome<Failure>)
    modifies fs
    ensures NfsMutex.Step(r, fs.State()) == NfsMutex.InitialiseRun(old(fs.State()), fs.faults, basedir, datasetId, instance, segment)
  {
    r := NfsMutex.InitialiseStore(fs, basedir, datasetId, instance, segment);
  }

  // ---------------------------------------------------------------------
  // lock_segment

  /** The lock loop on a snapshot: a failed link changes nothing, so the
      first attempt decides; every OSError is retried until the timeout. */
  function LockRun(fs: Fs, faults: Faults, basedir: Path, datasetId: string, segment: string, instance: string,
                   clock: seq<int>, timeout: int): Step
    requires Bounded(clock, timeout)
  {
    var base := DatasetBase(basedir, datasetId);
    var seg := SegmentLockfile(base, segment);
    var inst := InstanceLockfile(base, segment, instance);
    if clock[1] - clock[0] >= timeout then NfsMutex.Step(Fail(SegmentLockError(TimedOut)), fs)
    else match LinkOp(fs, faults, inst, seg)
      case Ok(post) => NfsMutex.Step(Pass, post)
      case Err(_) => NfsMutex.Step(Fail(SegmentLockError(TimedOut)), fs)
  }

  /** The lock is taken only when the segment lock file was absent and the
      instance lock file is a regular file; the segment lock file is then a
      second name for it. Every failure is a timeout and changes nothing. */
  lemma LockOnlyWhenAbsent(fs: Fs, faults: Faults, basedir: Path, datasetId: string, segment: string, instance: string,
                           clock: seq<int>, timeout: int)
    requires Bounded(clock, timeout)
    ensures var base := DatasetBase(basedir, datasetId);
      var seg := SegmentLockfile(base, segment);
      var inst := InstanceLockfile(base, segment, instance);
      var run := LockRun(fs, faults, basedir, datasetId, segment, instance, clock, timeout);
      && (run.outcome == Pass <==>
            && clock[1] - clock[0] < timeout
            && Fault(faults, LinkCall, seg).None?
            && StatOp(fs, map[], inst).Ok? && StatOp(fs, map[], inst).value.Regular?
            && seg !in fs.entries)
      && (run.outcome == Pass ==> run.post.entries == fs.entries[seg := StatOp(fs, map[], inst).value])
      && (run.outcome.Fail? ==> run.outcome == Fail(SegmentLockError(TimedOut)) && run.post == fs)
  {
  }

  /** `lock_segment`: the retry loop over clock readings in seconds. */
  method Lock(fs: FileSystem, basedir: Path, datasetId: string, segment: string, instance: string,
              clock: seq<int>, timeout: int)
    returns (r: Outcome<Failure>)
    requires Bounded(clock, timeout)
    modifies fs
    ensures NfsMutex.Step(r, fs.State()) == LockRun(old(fs.State()), fs.faults, basedir, datasetId, segment, instance, clock, timeout)
  {
    var base := DatasetBase(basedir, datasetId);
    var seg := SegmentLockfile(base, segment);
    var inst := InstanceLockfile(base, segment, instance);
    var start := clock[0];
    var i := 1;
    while clock[i] - start < timeout
      invariant 1 <= i < |clock|
      invariant fs.State() == old(fs.State())
      invariant i > 1 ==> LinkOp(old(fs.State()), fs.faults, inst, seg).Err?
      decreases |clock| - i
    {
      var err := fs.Link(inst, seg);
      if err.None? {
        return Pass;
      }
      i := i + 1;
    }
    r := Fail(SegmentLockError(TimedOut));
  }

  /** Finding, as written: once any instance has initialised a segment, no
      instance can lock it; every lock call ends in the timeout. */
  lemma LockAfterInitialiseTimesOut(fs: Fs, faults: Faults, basedir: Path, datasetId: string, segment: string,
                                    initialiser: string, locker: string, clock: seq<int>, timeout: int)
    requires Bounded(clock, timeout)
    requires InitialiseRun(fs, faults, basedir, datasetId, initialiser, segment).outcome == Pass
    ensures var post := InitialiseRun(fs, faults, basedir, datasetId, initialiser, segment).post;
      LockRun(post, faults, basedir, datasetId, segment, locker, clock, timeout)
        == NfsMutex.Step(Fail(SegmentLockError(TimedOut)), post)
  {
    InitialiseCreatesSegmentLockfile(fs, faults, basedir, datasetId, initialiser, segment);
  }

  /** Corrected: after the corrected initialisation of a fresh segment, a
      lock call made before the deadline takes the lock. */
  lemma LockAfterCorrectedInitialise(fs: Fs, faults: Faults, basedir: Path, datasetId: string, segment: string,
                                     instance: string, clock: seq<int>, timeout: int)
    requires Bounded(clock, timeout) && clock[1] - clock[0] < timeout
    requires Relative(segment) && Relative(instance) && instance != segment
    requires var base := DatasetBase(basedir, datasetId);
      var inst := InstanceLockfile(base, segment, instance);
      && SegmentLockfile(base, segment) !in fs.entries
      && (inst in fs.entries ==> fs.entries[inst].Regular?)
      && Fault(faults, LinkCall, SegmentLockfile(base, segment)).None?
    requires NfsMutex.InitialiseRun(fs, faults, basedir, datasetId, instance, segment).outcome == Pass
    ensures var post := NfsMutex.InitialiseRun(fs, faults, basedir, datasetId, instance, segment).post;
      LockRun(post, faults, basedir, datasetId, segment, instance, clock, timeout).outcome == Pass
  {
    var base := DatasetBase(basedir, datasetId);
    var lockdir := SegmentLockdir(base, segment);
    var inst := InstanceLockfile(base, segment, instance);
    var post := NfsMutex.InitialiseRun(fs, faults, basedir, datasetId, instance, segment).post;
    NfsMutex.InitialiseKeepsSegmentLockfile(fs, faults, basedir, datasetId, instance, segment);
    NfsMutex.InitialiseOnlyAdds(fs, faults, basedir, datasetId, instance, segment);
    NfsMutex.InitialiseEstablishes(fs, faults, basedir, datasetId, instance, segment);
    LockfilesNotLockdir(base, segment, instance);
    if inst in fs.entries {
      assert post.entries[inst] == fs.entries[inst];
    } else {
      var fs1 := if Exists(fs, faults, lockdir) then fs else MakeDirsOp(fs, faults, lockdir).value;
      assert inst !in fs1.entries;
      OpenAppendGrows(fs1, faults, inst);
    }
    assert StatOp(post, map[], inst).value.Regular?;
  }

  // ---------------------------------------------------------------------
  // unlock_segment

  /** Unlock on a snapshot, as written: `os.readlink` on the segment lock
      file (its OSError escapes), then unlink when it names this instance's
      lock file. */
  function UnlockRun(fs: Fs, faults: Faults, basedir: Path, datasetId: string, segment: string, instance: string): Step
  {
    var base := DatasetBase(basedir, datasetId);
    var seg := SegmentLockfile(base, segment);
    var inst := InstanceLockfile(base, segment, instance);
    match ReadlinkOp(fs, faults, seg)
    case Err(e) => NfsMutex.Step(Fail(OSError(e)), fs)
    case Ok(current) =>
      if current != inst then NfsMutex.Step(Fail(SegmentLockError(NotOwnedByInstance)), fs)
      else Release(fs, faults, seg)
  }

  /** `os.unlink` of the segment lock file; its OSError becomes the
      "probably a deadlock" SegmentLockError. */
  function Release(fs: Fs, faults: Faults, seg: Path): Step
  {
    match UnlinkOp(fs, faults, seg)
    case Err(e) => NfsMutex.Step(Fail(SegmentLockError(Deadlock(e))), fs)
    case Ok(post) => NfsMutex.Step(Pass, post)
  }

  /** `unlock_segment`, as written. */
  method Unlock(fs: FileSystem, basedir: Path, datasetId: string, segment: string, instance: string)
    returns (r: Outcome<Failure>)
    modifies fs
    ensures NfsMutex.Step(r, fs.State()) == UnlockRun(old(fs.State()), fs.faults, basedir, datasetId, segment, instance)
  {
    var base := DatasetBase(basedir, datasetId);
    var seg := SegmentLockfile(base, segment);
    var inst := InstanceLockfile(base, segment, instance);
    var current := fs.Readlink(seg);
    if current.Err? {
      return Fail(OSError(current.error));
    }
    if current.value != inst {
      return Fail(SegmentLockError(NotOwnedByInstance));
    }
    var err := fs.Unlink(seg);
    if err.Some? {
      return Fail(SegmentLockError(Deadlock(err.value)));
    }
    r := Pass;
  }

  /** Finding, as written: the lock `Lock` takes is a hard link, a regular
      file, so the unlock that follows fails in `os.readlink` (EINVAL unless
      the call fails otherwise) and the lock is never released. */
  lemma UnlockAfterLockFails(fs: Fs, faults: Faults, basedir: Path, datasetId: string, segment: string, instance: string,
                             clock: seq<int>, timeout: int)
    requires Bounded(clock, timeout)
    requires LockRun(fs, faults, basedir, datasetId, segment, instance, clock, timeout).outcome == Pass
    ensures var seg := SegmentLockfile(DatasetBase(basedir, datasetId), segment);
      var held := LockRun(fs, faults, basedir, datasetId, segment, instance, clock, timeout).post;
      var run := UnlockRun(held, faults, basedir, datasetId, segment, instance);
      && run.post == held
      && run.outcome == Fail(OSError(if Fault(faults, ReadlinkCall, seg).Some? then Fault(faults, ReadlinkCall, seg).value else EINVAL))
  {
    LockOnlyWhenAbsent(fs, faults, basedir, datasetId, segment, instance, clock, timeout);
  }

  // ---------------------------------------------------------------------
  // lock_segment with the symbolic link its comments describe

  /** The corrected lock loop on a snapshot: the same loop, with
      `os.symlink(instance_lockfile, segment_lockfile)` in place of
      `os.link`. */
  function LockCorrectedRun(fs: Fs, faults: Faults, basedir: Path, datasetId: string, segment: string, instance: string,
                            clock: seq<int>, timeout: int): Step
    requires Bounded(clock, timeout)
  {
    var base := DatasetBase(basedir, datasetId);
    var seg := SegmentLockfile(base, segment);
    var inst := InstanceLockfile(base, segment, instance);
    if clock[1] - clock[0] >= timeout then NfsMutex.Step(Fail(SegmentLockError(TimedOut)), fs)
    else match SymlinkOp(fs, faults, inst, seg)
      case Ok(post) => NfsMutex.Step(Pass, post)
      case Err(_) => NfsMutex.Step(Fail(SegmentLockError(TimedOut)), fs)
  }

  /** The corrected lock is taken exactly when the segment lock file was
      absent; it is then a symbolic link naming this instance's lock file.
      Every failure is a timeout and changes nothing. */
  lemma LockCorrectedOnlyWhenAbsent(fs: Fs, faults: Faults, basedir: Path, datasetId: string, segment: string, instance: string,
                                    clock: seq<int>, timeout: int)
    requires Bounded(clock, timeout)
    ensures var base := DatasetBase(basedir, datasetId);
      var seg := SegmentLockfile(base, segment);
      var inst := InstanceLockfile(base, segment, instance);
      var run := LockCorrectedRun(fs, faults, basedir, datasetId, segment, instance, clock, timeout);
      && (run.outcome == Pass <==>
            && clock[1] - clock[0] < timeout
            && Fault(faults, SymlinkCall, seg).None?
            && seg !in fs.entries)
      && (run.outcome == Pass ==> run.post.entries == fs.entries[seg := Symlink(inst)])
      && (run.outcome.Fail? ==> run.outcome == Fail(SegmentLockError(TimedOut)) && run.post == fs)
  {
  }

  /** The corrected `lock_segment`: the retry loop with `os.symlink`. */
  method LockCorrected(fs: FileSystem, basedir: Path, datasetId: string, segment: string, instance: string,
                       clock: seq<int>, timeout: int)
    returns (r: Outcome<Failure>)
    requires Bounded(clock, timeout)
    modifies fs
    ensures NfsMutex.Step(r, fs.State()) == LockCorrectedRun(old(fs.State()), fs.faults, basedir, datasetId, segment, instance, clock, timeout)
  {
    var base := DatasetBase(basedir, datasetId);
    var seg := SegmentLockfile(base, segment);
    var inst := InstanceLockfile(base, segment, instance);
    var start := clock[0];
    var i := 1;
    while clock[i] - start < timeout
      invariant 1 <= i < |clock|
      invariant fs.State() == old(fs.State())
      invariant i > 1 ==> SymlinkOp(old(fs.State()), fs.faults, inst, seg).Err?
      decreases |clock| - i
    {
      var err := fs.Symlink(inst, seg);
      if err.None? {
        return Pass;
      }
      i := i + 1;
    }
    r := Fail(SegmentLockError(TimedOut));
  }

  /** Corrected: after the corrected initialisation of a fresh segment, a
      corrected lock call made before the deadline takes the lock. */
  lemma LockCorrectedAfterCorrectedInitialise(fs: Fs, faults: Faults, basedir: Path, datasetId: string, segment: string,
                                              instance: string, clock: seq<int>, timeout: int)
    requires Bounded(clock, timeout) && clock[1] - clock[0] < timeout
    requires Relative(segment) && Relative(instance) && instance != segment
    requires var base := DatasetBase(basedir, datasetId);
      var seg := SegmentLockfile(base, segment);
      var inst := InstanceLockfile(base, segment, instance);
      && seg !in fs.entries && Fault(faults, SymlinkCall, seg).None?
      && (inst in fs.entries ==> fs.entries[inst].Regular?)
    requires NfsMutex.InitialiseRun(fs, faults, basedir, datasetId, instance, segment).outcome == Pass
    ensures var post := NfsMutex.InitialiseRun(fs, faults, basedir, datasetId, instance, segment).post;
      LockCorrectedRun(post, faults, basedir, datasetId, segment, instance, clock, timeout).outcome == Pass
  {
    NfsMutex.InitialiseKeepsSegmentLockfile(fs, faults, basedir, datasetId, instance, segment);
  }

  /** Corrected: with the lock taken by a symbolic link, the unlock as
      written finds this instance's lock file through `os.readlink`, releases
      the lock and gives back the filesystem the lock started from. */
  lemma UnlockAfterCorrectedLock(fs: Fs, faults: Faults, basedir: Path, datasetId: string, segment: string, instance: string,
                                 clock: seq<int>, timeout: int)
    requires Bounded(clock, timeout)
    requires LockCorrectedRun(fs, faults, basedir, datasetId, segment, instance, clock, timeout).outcome == Pass
    requires var seg := SegmentLockfile(DatasetBase(basedir, datasetId), segment);
      Fault(faults, ReadlinkCall, seg).None? && Fault(faults, UnlinkCall, seg).None?
    ensures var held := LockCorrectedRun(fs, faults, basedir, datasetId, segment, instance, clock, timeout).post;
      UnlockRun(held, faults, basedir, datasetId, segment, instance) == NfsMutex.Step(Pass, fs)
  {
    var seg := SegmentLockfile(DatasetBase(basedir, datasetId), segment);
    LockCorrectedOnlyWhenAbsent(fs, faults, basedir, datasetId, segment, instance, clock, timeout);
    var held := LockCorrectedRun(fs, faults, basedir, datasetId, segment, instance, clock, timeout).post;
    assert held.entries - {seg} == fs.entries;
  }

  /** Corrected: while one instance holds the lock, the unlock of an
      instance with another lock file is refused and changes nothing. */
  lemma UnlockByOtherRefused(fs: Fs, faults: Faults, basedir: Path, datasetId: string, segment: string,
                             holder: string, other: string, clock: seq<int>, timeout: int)
    requires Bounded(clock, timeout)
    requires Relative(segment) && Relative(holder) && Relative(other) && holder != other
    requires LockCorrectedRun(fs, faults, basedir, datasetId, segment, holder, clock, timeout).outcome == Pass
    requires Fault(faults, ReadlinkCall, SegmentLockfile(DatasetBase(basedir, datasetId), segment)).None?
    ensures var held := LockCorrectedRun(fs, faults, basedir, datasetId, segment, holder, clock, timeout).post;
      UnlockRun(held, faults, basedir, datasetId, segment, other)
        == NfsMutex.Step(Fail(SegmentLockError(NotOwnedByInstance)), held)
  {
    var base := DatasetBase(basedir, datasetId);
    LockCorrectedOnlyWhenAbsent(fs, faults, basedir, datasetId, segment, holder, clock, timeout);
    InstanceLockfilesDistinct(base, segment, holder, other);
  }

  /** The unlock as written succeeds only when the segment lock file is a
      symbolic link naming this instance's lock file, and then removes only
      that name; a failed unlock changes nothing. */
  lemma UnlockOnlyByHolder(fs: Fs, faults: Faults, basedir: Path, datasetId: string, segment: string, instance: string)
    ensures var base := DatasetBase(basedir, datasetId);
      var seg := SegmentLockfile(base, segment);
      var run := UnlockRun(fs, faults, basedir, datasetId, segment, instance);
      && (run.outcome == Pass ==>
            && seg in fs.entries && fs.entries[seg] == Symlink(InstanceLockfile(base, segment, instance))
            && run.post.entries == fs.entries - {seg})
      && (run.outcome.Fail? ==> run.post == fs)
  {
  }
}
