/** Where the filesystem lock protocols keep their lock files: a `.locks`
    directory under the segment's directory, holding one `<segment>.lck`
    (the lock itself) and one `<instance>.lck` per instance that may hold it.
    The three protocol files derive these paths the same way. */
module LockPaths {
  import opened Posix

  const LOCK_DIRECTORY: string := ".locks"
  const LOCK_SUFFIX: string := ".lck"

  /** `os.path.join(basedir, dataset_id)`, the base every protocol call uses. */
  function DatasetBase(basedir: Path, datasetId: string): Path
  {
    Join(basedir, datasetId)
  }

  /** `_get_segment_lockdir`: `os.path.join(base, segment, '.locks')`. */
  function SegmentLockdir(base: Path, segment: string): (dir: Path)
    ensures |dir| >= |LOCK_DIRECTORY| && dir[|dir| - |LOCK_DIRECTORY|..] == LOCK_DIRECTORY
  {
    Join(Join(base, segment), LOCK_DIRECTORY)
  }

  /** `_get_segment_lockfile`: `<segment>.lck` inside the lock directory. */
  function SegmentLockfile(base: Path, segment: string): Path
  {
    Join(SegmentLockdir(base, segment), segment + LOCK_SUFFIX)
  }

  /** `_get_instance_lockfile`: `<instance>.lck` inside the lock directory. */
  function InstanceLockfile(base: Path, segment: string, instance: string): Path
  {
    Join(SegmentLockdir(base, segment), instance + LOCK_SUFFIX)
  }

  /** A name that stays inside the directory it is joined to. */
  predicate Relative(name: string)
  {
    |name| == 0 || name[0] != '/'
  }

  /** For plain names, the lock directory is `<base>/<segment>/.locks`. */
  lemma LockdirShape(base: Path, segment: string)
    requires |base| > 0 && base[|base| - 1] != '/'
    requires |segment| > 0 && '/' !in segment
    ensures SegmentLockdir(base, segment) == base + "/" + segment + "/" + LOCK_DIRECTORY
  {
    assert segment[0] in segment && segment[|segment| - 1] in segment;
    var d := Join(base, segment);
    assert d == base + "/" + segment;
    assert d[|d| - 1] == segment[|segment| - 1];
  }

  /** Both lock files sit directly in the lock directory. */
  lemma LockfilesInLockdir(base: Path, segment: string, instance: string)
    requires Relative(segment) && Relative(instance)
    ensures SegmentLockfile(base, segment) == SegmentLockdir(base, segment) + "/" + segment + LOCK_SUFFIX
    ensures InstanceLockfile(base, segment, instance) == SegmentLockdir(base, segment) + "/" + instance + LOCK_SUFFIX
  {
  }

  /** The segment's lock file and an instance's lock file are different
      files exactly when the instance is not named like the segment. */
  lemma LockfilesDistinct(base: Path, segment: string, instance: string)
    requires Relative(segment) && Relative(instance)
    ensures SegmentLockfile(base, segment) == InstanceLockfile(base, segment, instance) <==> segment == instance
  {
    LockfilesInLockdir(base, segment, instance);
    var prefix := SegmentLockdir(base, segment) + "/";
    var a := prefix + segment + LOCK_SUFFIX;
    var b := prefix + instance + LOCK_SUFFIX;
    if a == b {
      assert |segment| == |instance|;
      assert a[|prefix|..|prefix| + |segment|] == segment;
      assert b[|prefix|..|prefix| + |instance|] == instance;
    }
  }

  /** Two instances have the same lock file only when they are the same
      instance. */
  lemma InstanceLockfilesDistinct(base: Path, segment: string, a: string, b: string)
    requires Relative(segment) && Relative(a) && Relative(b)
    ensures InstanceLockfile(base, segment, a) == InstanceLockfile(base, segment, b) <==> a == b
  {
    LockfilesInLockdir(base, segment, a);
    LockfilesInLockdir(base, segment, b);
    var prefix := SegmentLockdir(base, segment) + "/";
    var x := prefix + a + LOCK_SUFFIX;
    var y := prefix + b + LOCK_SUFFIX;
    if x == y {
      assert |a| == |b|;
      assert x[|prefix|..|prefix| + |a|] == a;
      assert y[|prefix|..|prefix| + |b|] == b;
    }
  }

  /** Neither lock file is the lock directory itself. */
  lemma LockfilesNotLockdir(base: Path, segment: string, instance: string)
    requires Relative(segment) && Relative(instance)
    ensures SegmentLockfile(base, segment) != SegmentLockdir(base, segment)
    ensures InstanceLockfile(base, segment, instance) != SegmentLockdir(base, segment)
  {
    LockfilesInLockdir(base, segment, instance);
  }
}
