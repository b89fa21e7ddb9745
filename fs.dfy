/**
 * An abstract file system: absolute paths as sequences of components
 * (the empty sequence is the root directory) mapped to entries. Read-only
 * queries take a snapshot `Entries`; operations that change the file system
 * are methods of `FileSystem`.
 */
module Fs {
  import opened Wrappers
  import Text

  type Path = seq<string>

  datatype Entry = File(contents: string) | Dir | Symlink(target: Path)

  type Entries = map<Path, Entry>

  /** `std::io::ErrorKind`, restricted to the kinds the model produces. */
  datatype ErrorKind = NotFound | AlreadyExists | InvalidInput | IsADirectory | NotADirectory | CrossesDevices
                     | PermissionDenied | OtherKind

  datatype IoError = IoError(kind: ErrorKind, message: string)

  /** `path.join(name)` for a single component. */
  function PathJoin(p: Path, name: string): (r: Path)
    ensures |r| == |p| + 1 && r[..|p|] == p && r[|p|] == name
  {
    p + [name]
  }

  /** `Path::file_name`: the last component, `None` for the root. */
  function FileName(p: Path): Option<string> {
    if |p| == 0 then None else Some(p[|p| - 1])
  }

  /** `Path::display`. */
  function Display(p: Path): string {
    "/" + Text.Join(p, "/")
  }

  /** The entry `p` denotes once a symlink at `p` (one level) is followed. */
  function Resolve(fs: Entries, p: Path): Option<Entry> {
    if p !in fs then None
    else match fs[p]
      case Symlink(t) => if t in fs && !fs[t].Symlink? then Some(fs[t]) else None
      case e => Some(e)
  }

  /** `Path::exists` (follows symlinks, so a dangling link does not exist). */
  predicate Exists(fs: Entries, p: Path) {
    Resolve(fs, p).Some?
  }

  /** `Path::is_file`. */
  predicate IsFile(fs: Entries, p: Path) {
    Resolve(fs, p).Some? && Resolve(fs, p).value.File?
  }

  /** `Path::is_dir`. */
  predicate IsDir(fs: Entries, p: Path) {
    Resolve(fs, p) == Some(Dir)
  }

  /** `Path::is_symlink` (does not follow the link). */
  predicate IsSymlink(fs: Entries, p: Path) {
    p in fs && fs[p].Symlink?
  }

  /** `fs::read_to_string`. */
  function ReadToString(fs: Entries, p: Path): (r: Result<string, IoError>)
    ensures r.Ok? <==> IsFile(fs, p)
  {
    match Resolve(fs, p)
    case None => Err(IoError(NotFound, "No such file or directory"))
    case Some(File(c)) => Ok(c)
    case Some(_) => Err(IoError(IsADirectory, "Is a directory"))
  }

  /** `fs::read_link`. */
  function ReadLink(fs: Entries, p: Path): (r: Result<Path, IoError>)
    ensures r.Ok? <==> IsSymlink(fs, p)
    ensures r.Ok? ==> fs[p] == Symlink(r.value)
  {
    if p !in fs then Err(IoError(NotFound, "No such file or directory"))
    else if fs[p].Symlink? then Ok(fs[p].target)
    else Err(IoError(InvalidInput, "Invalid argument"))
  }

  /** A change that a successful file-system call made. */
  datatype FsOp = Remove(path: Path) | Link(target: Path, link: Path) | Rename(from: Path, to: Path)

  function Apply(fs: Entries, op: FsOp): Entries {
    match op
    case Remove(p) => fs - {p}
    case Link(t, l) => fs[l := Symlink(t)]
    case Rename(f, t) => if f in fs then (fs - {f})[t := fs[f]] else fs
  }

  /** The file system after the changes `ops`, in order. */
  function ApplyAll(fs: Entries, ops: seq<FsOp>): Entries
    decreases |ops|
  {
    if |ops| == 0 then fs else ApplyAll(Apply(fs, ops[0]), ops[1..])
  }

  lemma {:induction false} ApplyAllAppend(fs: Entries, a: seq<FsOp>, b: seq<FsOp>)
    ensures ApplyAll(fs, a + b) == ApplyAll(ApplyAll(fs, a), b)
    decreases |a|
  {
    if |a| > 0 {
      assert (a + b)[1..] == a[1..] + b;
      ApplyAllAppend(Apply(fs, a[0]), a[1..], b);
    } else {
      assert a + b == b;
    }
  }

  /** `q` is `p` or lies below it. */
  predicate Under(q: Path, p: Path) {
    |p| <= |q| && q[..|p|] == p
  }

  /** The file system without `p` and everything below it. */
  function RemoveTree(fs: Entries, p: Path): (r: Entries)
    ensures forall q :: q in r <==> q in fs && !Under(q, p)
    ensures forall q | q in r :: r[q] == fs[q]
  {
    map q | q in fs && !Under(q, p) :: fs[q]
  }

  /** The entries of `tree`, whose paths are relative to its top (`[]`), placed at `dest`. */
  function Graft(dest: Path, tree: Entries): (r: Entries)
    ensures forall q :: q in r <==> Under(q, dest) && q[|dest|..] in tree
    ensures forall q | q in r :: Under(q, dest) && r[q] == tree[q[|dest|..]]
  {
    var r := map q | q in (set p | p in tree :: dest + p) :: tree[q[|dest|..]];
    assert forall p | p in tree :: (dest + p)[|dest|..] == p && Under(dest + p, dest);
    assert forall q | Under(q, dest) && q[|dest|..] in tree :: q == dest + q[|dest|..];
    r
  }

  /**
   * The error `symlink` reports when it cannot create `link`: an entry in
   * the way, a parent that exists but is no directory, or a missing parent.
   */
  function CreateSymlinkError(fs: Entries, link: Path): (e: IoError)
    ensures e.kind == AlreadyExists <==> link in fs
    ensures e.kind == NotADirectory <==> link !in fs && |link| > 0 && Exists(fs, link[..|link| - 1]) && !IsDir(fs, link[..|link| - 1])
    ensures link !in fs && (|link| == 0 || !Exists(fs, link[..|link| - 1])) ==> e.kind == NotFound
  {
    if link in fs then IoError(AlreadyExists, "File exists")
    else if |link| > 0 && Exists(fs, link[..|link| - 1]) && !IsDir(fs, link[..|link| - 1]) then IoError(NotADirectory, "Not a directory")
    else IoError(NotFound, "No such file or directory")
  }

  /** The error `fs::rename` reports when it cannot move `from` to `to`. */
  function RenameError(fs: Entries, from: Path, to: Path): IoError {
    if from !in fs || |to| == 0 || !IsDir(fs, to[..|to| - 1]) then IoError(NotFound, "No such file or directory")
    else IoError(IsADirectory, "Is a directory")
  }

  class FileSystem {
    var entries: Entries

    constructor (initial: Entries)
      ensures entries == initial
    {
      entries := initial;
    }

    /** `fs::remove_file`: removes a file or a symlink (never what it points to). */
    method RemoveFile(p: Path) returns (r: Result<(), IoError>)
      modifies this
      ensures r.Ok? <==> p in old(entries) && !old(entries)[p].Dir?
      ensures entries == if r.Ok? then Apply(old(entries), Remove(p)) else old(entries)
    {
      if p !in entries {
        r := Err(IoError(NotFound, "No such file or directory"));
      } else if entries[p].Dir? {
        r := Err(IoError(IsADirectory, "Is a directory"));
      } else {
        entries := entries - {p};
        r := Ok(());
      }
    }

    /** `std::os::unix::fs::symlink(target, link)`. */
    method CreateSymlink(target: Path, link: Path) returns (r: Result<(), IoError>)
      modifies this
      ensures r.Ok? <==> link !in old(entries) && |link| > 0 && IsDir(old(entries), link[..|link| - 1])
      ensures r.Err? ==> r.error == CreateSymlinkError(old(entries), link)
      ensures entries == if r.Ok? then Apply(old(entries), Link(target, link)) else old(entries)
    {
      if link in entries || |link| == 0 || !IsDir(entries, link[..|link| - 1]) {
        r := Err(CreateSymlinkError(entries, link));
      } else {
        entries := entries[link := Symlink(target)];
        r := Ok(());
      }
    }

    /**
     * `fs::rename` of a directory tree that lives outside this file system
     * (an extracted archive in the temporary directory) to `dest`, which must
     * not exist yet and whose parent must be a directory. `sameDevice` says
     * whether the tree is on the file system that holds `dest`: `rename`
     * cannot move across file systems and then fails with `EXDEV`.
     */
    method MoveIn(tree: Entries, dest: Path, sameDevice: bool) returns (r: Result<(), IoError>)
      modifies this
      ensures r.Ok? <==> |dest| > 0 && IsDir(old(entries), dest[..|dest| - 1]) && sameDevice && dest !in old(entries)
      ensures r.Err? && |dest| > 0 && IsDir(old(entries), dest[..|dest| - 1]) && !sameDevice ==> r.error.kind == CrossesDevices
      ensures entries == if r.Ok? then old(entries) + Graft(dest, tree) else old(entries)
    {
      if |dest| == 0 || !IsDir(entries, dest[..|dest| - 1]) {
        r := Err(IoError(NotFound, "No such file or directory"));
      } else if !sameDevice {
        r := Err(IoError(CrossesDevices, "Invalid cross-device link"));
      } else if dest in entries {
        r := Err(IoError(AlreadyExists, "File exists"));
      } else {
        entries := entries + Graft(dest, tree);
        r := Ok(());
      }
    }

    /**
     * The entries a library call that writes a whole tree creates at
     * `dest` (`tree` relative to `dest`), replacing what was there.
     */
    method AddTree(dest: Path, tree: Entries)
      modifies this
      ensures entries == old(entries) + Graft(dest, tree)
    {
      entries := entries + Graft(dest, tree);
    }

    /**
     * `fs::remove_dir_all`: a directory goes with everything below it; a
     * symlink is removed itself, not followed; anything else is an error.
     */
    method RemoveDirAll(p: Path) returns (r: Result<(), IoError>)
      modifies this
      ensures r.Ok? <==> p in old(entries) && (old(entries)[p].Dir? || old(entries)[p].Symlink?)
      ensures entries == if r.Err? then old(entries)
                         else if old(entries)[p].Symlink? then old(entries) - {p}
                         else RemoveTree(old(entries), p)
    {
      if p !in entries {
        r := Err(IoError(NotFound, "No such file or directory"));
      } else if entries[p].Symlink? {
        entries := entries - {p};
        r := Ok(());
      } else if entries[p].Dir? {
        entries := RemoveTree(entries, p);
        r := Ok(());
      } else {
        r := Err(IoError(NotADirectory, "Not a directory"));
      }
    }

    /**
     * `fs::write`: creates or replaces the file `p` in an existing
     * directory; a directory at `p` is an error. The model replaces a
     * symlink at `p` instead of writing through it.
     */
    method WriteFile(p: Path, contents: string) returns (r: Result<(), IoError>)
      modifies this
      ensures r.Ok? <==> |p| > 0 && IsDir(old(entries), p[..|p| - 1]) && !(p in old(entries) && old(entries)[p].Dir?)
      ensures entries == if r.Ok? then old(entries)[p := File(contents)] else old(entries)
    {
      if |p| == 0 || !IsDir(entries, p[..|p| - 1]) {
        r := Err(IoError(NotFound, "No such file or directory"));
      } else if p in entries && entries[p].Dir? {
        r := Err(IoError(IsADirectory, "Is a directory"));
      } else {
        entries := entries[p := File(contents)];
        r := Ok(());
      }
    }

    /**
     * `fs::rename(from, to)`: moves the entry into the existing directory
     * above `to`, replacing anything but a directory there.
     */
    method RenameEntry(from: Path, to: Path) returns (r: Result<(), IoError>)
      modifies this
      ensures r.Ok? <==> from in old(entries) && |to| > 0 && IsDir(old(entries), to[..|to| - 1])
                         && !(to in old(entries) && to != from && old(entries)[to].Dir?)
      ensures r.Err? ==> r.error == RenameError(old(entries), from, to)
      ensures entries == if r.Ok? then Apply(old(entries), Rename(from, to)) else old(entries)
    {
      if from !in entries || |to| == 0 || !IsDir(entries, to[..|to| - 1]) {
        r := Err(IoError(NotFound, "No such file or directory"));
      } else if to in entries && to != from && entries[to].Dir? {
        r := Err(IoError(IsADirectory, "Is a directory"));
      } else {
        var e := entries[from];
        entries := (entries - {from})[to := e];
        r := Ok(());
      }
    }
  }
}
