/** The shared (NFS) filesystem the symlink and hard-link lock protocols run
    on. Each `os` call the protocols make is one atomic step on a map from
    path to entry; the parent directories of a path are not tracked.
    A constant table of faults makes a given call on a given path raise a
    given OSError, so that every error branch of the protocols is reachable. */
module Posix {
  import opened Wrappers
  import opened Errors

  type Path = string

  datatype Entry =
    | Directory(inode: nat)
    | Regular(inode: nat)
    | Symlink(target: Path)

  /** A snapshot of the filesystem. */
  datatype Fs = Fs(entries: map<Path, Entry>, nextInode: nat)

  /** The `os` calls that can be made to fail. */
  datatype Call = SymlinkCall | LinkCall | ReadlinkCall | UnlinkCall | MakeDirsCall | OpenCall | StatCall

  type Faults = map<(Call, Path), Errno>

  function Fault(faults: Faults, call: Call, p: Path): Option<Errno>
  {
    if (call, p) in faults then Some(faults[(call, p)]) else None
  }

  /** `os.path.join(a, b)`: an absolute `b` replaces `a`; otherwise a '/'
      goes between them unless `a` is empty or already ends with one. */
  function Join(a: Path, b: Path): (r: Path)
    ensures |b| > 0 && b[0] == '/' ==> r == b
    ensures (|b| == 0 || b[0] != '/') && |a| > 0 && a[|a| - 1] != '/' ==> r == a + "/" + b
    ensures (|b| == 0 || b[0] != '/') && (|a| == 0 || a[|a| - 1] == '/') ==> r == a + b
  {
    if |b| > 0 && b[0] == '/' then b
    else if |a| == 0 || a[|a| - 1] == '/' then a + b
    else a + "/" + b
  }

  /** `os.stat(p)`: follow a symbolic link one hop to the entry it names.
      A link to a link is reported as ELOOP (chains are not modelled). */
  function StatOp(fs: Fs, faults: Faults, p: Path): (r: Result<Entry, Errno>)
    ensures r.Ok? ==> !r.value.Symlink?
    ensures r.Ok? ==> p in fs.entries
  {
    if Fault(faults, StatCall, p).Some? then Err(Fault(faults, StatCall, p).value)
    else if p !in fs.entries then Err(ENOENT)
    else match fs.entries[p]
      case Symlink(t) =>
        if t !in fs.entries then Err(ENOENT)
        else if fs.entries[t].Symlink? then Err(ELOOP)
        else Ok(fs.entries[t])
      case e => Ok(e)
  }

  /** `os.path.exists(p)`: true exactly when `os.stat(p)` succeeds. */
  predicate Exists(fs: Fs, faults: Faults, p: Path)
  {
    StatOp(fs, faults, p).Ok?
  }

  /** `os.symlink(target, link)`: create `link` only if nothing is there. */
  function SymlinkOp(fs: Fs, faults: Faults, target: Path, link: Path): Result<Fs, Errno>
  {
    if Fault(faults, SymlinkCall, link).Some? then Err(Fault(faults, SymlinkCall, link).value)
    else if link in fs.entries then Err(EEXIST)
    else Ok(fs.(entries := fs.entries[link := Symlink(target)]))
  }

  /** `os.link(src, dst)`: give the regular file `src` names (following one
      symbolic link) a second name `dst`, only if nothing is at `dst`. */
  function LinkOp(fs: Fs, faults: Faults, src: Path, dst: Path): Result<Fs, Errno>
  {
    if Fault(faults, LinkCall, dst).Some? then Err(Fault(faults, LinkCall, dst).value)
    else match StatOp(fs, map[], src)
      case Err(e) => Err(e)
      case Ok(Directory(_)) => Err(EPERM)
      case Ok(e) =>
        if dst in fs.entries then Err(EEXIST)
        else Ok(fs.(entries := fs.entries[dst := Regular(e.inode)]))
  }

  /** `os.readlink(p)`: the target of a symbolic link. */
  function ReadlinkOp(fs: Fs, faults: Faults, p: Path): Result<Path, Errno>
  {
    if Fault(faults, ReadlinkCall, p).Some? then Err(Fault(faults, ReadlinkCall, p).value)
    else if p !in fs.entries then Err(ENOENT)
    else if fs.entries[p].Symlink? then Ok(fs.entries[p].target)
    else Err(EINVAL)
  }

  /** `os.unlink(p)`: remove a name that is not a directory. */
  function UnlinkOp(fs: Fs, faults: Faults, p: Path): Result<Fs, Errno>
  {
    if Fault(faults, UnlinkCall, p).Some? then Err(Fault(faults, UnlinkCall, p).value)
    else if p !in fs.entries then Err(ENOENT)
    else if fs.entries[p].Directory? then Err(EISDIR)
    else Ok(fs.(entries := fs.entries - {p}))
  }

  /** `os.makedirs(p)`: create the directory `p`; EEXIST if a name is there. */
  function MakeDirsOp(fs: Fs, faults: Faults, p: Path): Result<Fs, Errno>
  {
    if Fault(faults, MakeDirsCall, p).Some? then Err(Fault(faults, MakeDirsCall, p).value)
    else if p in fs.entries then Err(EEXIST)
    else Ok(Fs(fs.entries[p := Directory(fs.nextInode)], fs.nextInode + 1))
  }

  function Create(fs: Fs, p: Path): Fs
  {
    Fs(fs.entries[p := Regular(fs.nextInode)], fs.nextInode + 1)
  }

  /** `with open(p, mode='a'): pass`: create an empty regular file if
      nothing is there (also through a dangling symbolic link); leave an
      existing regular file as it is. */
  function OpenAppendOp(fs: Fs, faults: Faults, p: Path): Result<Fs, Errno>
  {
    if Fault(faults, OpenCall, p).Some? then Err(Fault(faults, OpenCall, p).value)
    else if p !in fs.entries then Ok(Create(fs, p))
    else match fs.entries[p]
      case Directory(_) => Err(EISDIR)
      case Regular(_) => Ok(fs)
      case Symlink(t) =>
        if t !in fs.entries then Ok(Create(fs, t))
        else match fs.entries[t]
          case Directory(_) => Err(EISDIR)
          case Regular(_) => Ok(fs)
          case Symlink(_) => Err(ELOOP)
  }

  // ---------------------------------------------------------------------
  // How a step changes a snapshot

  /** `after` keeps every name `before` has, with the same entry. */
  predicate Grows(before: Fs, after: Fs)
  {
    forall p :: p in before.entries ==> p in after.entries && after.entries[p] == before.entries[p]
  }

  /** The only names `after` adds to `before` are drawn from `added`. */
  predicate AddsOnly(before: Fs, after: Fs, added: set<Path>)
  {
    forall p :: p in after.entries ==> p in before.entries || p in added
  }

  /** What `os.stat` sees is kept when the filesystem only grows. */
  lemma StatKept(before: Fs, after: Fs, faults: Faults, p: Path)
    requires Grows(before, after)
    requires StatOp(before, faults, p).Ok?
    ensures StatOp(after, faults, p) == StatOp(before, faults, p)
  {
  }

  /** The target of a dangling symbolic link at `p`, if there is one. */
  function DanglingTarget(fs: Fs, p: Path): set<Path>
  {
    if p in fs.entries && fs.entries[p].Symlink? && fs.entries[p].target !in fs.entries
    then {fs.entries[p].target} else {}
  }

  /** A successful makedirs adds exactly the directory and keeps the rest. */
  lemma MakeDirsGrows(fs: Fs, faults: Faults, p: Path)
    requires MakeDirsOp(fs, faults, p).Ok?
    ensures var post := MakeDirsOp(fs, faults, p).value;
      Grows(fs, post) && AddsOnly(fs, post, {p}) && post.entries[p].Directory? && p !in fs.entries
  {
  }

  /** A successful open for append keeps every entry and adds at most the
      file itself or the target of the dangling link that names it; after
      it, the path names a regular file. */
  lemma OpenAppendGrows(fs: Fs, faults: Faults, p: Path)
    requires OpenAppendOp(fs, faults, p).Ok?
    ensures var post := OpenAppendOp(fs, faults, p).value;
      && Grows(fs, post)
      && AddsOnly(fs, post, {p} + DanglingTarget(fs, p))
      && StatOp(post, map[], p).Ok? && StatOp(post, map[], p).value.Regular?
  {
  }

  // ---------------------------------------------------------------------
  // The filesystem as the protocols see it: one object whose entries
  // every call reads and updates in place.

  class FileSystem {
    var entries: map<Path, Entry>
    var nextInode: nat
    const faults: Faults

    function State(): Fs
      reads this
    {
      Fs(entries, nextInode)
    }

    constructor (initial: Fs, faults: Faults)
      ensures State() == initial && this.faults == faults
    {
      entries := initial.entries;
      nextInode := initial.nextInode;
      this.faults := faults;
    }

    method Stat(p: Path) returns (r: Result<Entry, Errno>)
      ensures r == StatOp(State(), faults, p)
    {
      if (StatCall, p) in faults {
        return Err(faults[(StatCall, p)]);
      }
      if p !in entries {
        return Err(ENOENT);
      }
      var e := entries[p];
      if e.Symlink? {
        if e.target !in entries {
          return Err(ENOENT);
        }
        if entries[e.target].Symlink? {
          return Err(ELOOP);
        }
        e := entries[e.target];
      }
      r := Ok(e);
    }

    method PathExists(p: Path) returns (b: bool)
      ensures b == Exists(State(), faults, p)
    {
      var st := Stat(p);
      b := st.Ok?;
    }

    method Readlink(p: Path) returns (r: Result<Path, Errno>)
      ensures r == ReadlinkOp(State(), faults, p)
    {
      if (ReadlinkCall, p) in faults {
        r := Err(faults[(ReadlinkCall, p)]);
      } else if p !in entries {
        r := Err(ENOENT);
      } else if entries[p].Symlink? {
        r := Ok(entries[p].target);
      } else {
        r := Err(EINVAL);
      }
    }

    method Symlink(target: Path, link: Path) returns (err: Option<Errno>)
      modifies this
      ensures var r := SymlinkOp(old(State()), faults, target, link);
        && (r.Ok? ==> err == None && State() == r.value)
        && (r.Err? ==> err == Some(r.error) && State() == old(State()))
    {
      if (SymlinkCall, link) in faults {
        err := Some(faults[(SymlinkCall, link)]);
      } else if link in entries {
        err := Some(EEXIST);
      } else {
        entries := entries[link := Entry.Symlink(target)];
        err := None;
      }
    }

    method Link(src: Path, dst: Path) returns (err: Option<Errno>)
      modifies this
      ensures var r := LinkOp(old(State()), faults, src, dst);
        && (r.Ok? ==> err == None && State() == r.value)
        && (r.Err? ==> err == Some(r.error) && State() == old(State()))
    {
      if (LinkCall, dst) in faults {
        return Some(faults[(LinkCall, dst)]);
      }
      if src !in entries {
        return Some(ENOENT);
      }
      var e := entries[src];
      if e.Symlink? {
        if e.target !in entries {
          return Some(ENOENT);
        }
        if entries[e.target].Symlink? {
          return Some(ELOOP);
        }
        e := entries[e.target];
      }
      if e.Directory? {
        return Some(EPERM);
      }
      if dst in entries {
        return Some(EEXIST);
      }
      entries := entries[dst := Regular(e.inode)];
      err := None;
    }

    method Unlink(p: Path) returns (err: Option<Errno>)
      modifies this
      ensures var r := UnlinkOp(old(State()), faults, p);
        && (r.Ok? ==> err == None && State() == r.value)
        && (r.Err? ==> err == Some(r.error) && State() == old(State()))
    {
      if (UnlinkCall, p) in faults {
        err := Some(faults[(UnlinkCall, p)]);
      } else if p !in entries {
        err := Some(ENOENT);
      } else if entries[p].Directory? {
        err := Some(EISDIR);
      } else {
        entries := entries - {p};
        err := None;
      }
    }

    method MakeDirs(p: Path) returns (err: Option<Errno>)
      modifies this
      ensures var r := MakeDirsOp(old(State()), faults, p);
        && (r.Ok? ==> err == None && State() == r.value)
        && (r.Err? ==> err == Some(r.error) && State() == old(State()))
    {
      if (MakeDirsCall, p) in faults {
        err := Some(faults[(MakeDirsCall, p)]);
      } else if p in entries {
        err := Some(EEXIST);
      } else {
        entries := entries[p := Directory(nextInode)];
        nextInode := nextInode + 1;
        err := None;
      }
    }

    /** `with open(p, mode='a'): pass` */
    method OpenAppend(p: Path) returns (err: Option<Errno>)
      modifies this
      ensures var r := OpenAppendOp(old(State()), faults, p);
        && (r.Ok? ==> err == None && State() == r.value)
        && (r.Err? ==> err == Some(r.error) && State() == old(State()))
    {
      if (OpenCall, p) in faults {
        return Some(faults[(OpenCall, p)]);
      }
      var name := p;
      if p in entries && entries[p].Symlink? {
        name := entries[p].target;
      }
      if name !in entries {
        entries := entries[name := Regular(nextInode)];
        nextInode := nextInode + 1;
        return None;
      }
      match entries[name]
      case Directory(_) => err := Some(EISDIR);
      case Regular(_) => err := None;
      case Symlink(_) => err := Some(ELOOP);
    }
  }
}
