/**
 * The local filesystem as the download routine sees it: regular files with
 * their sizes, and directories. The pure functions say what each `os` call
 * does to a filesystem value; the `Disk` class holds the filesystem the
 * routine changes step by step.
 */
module FileSystem {
  import opened Wrappers
  import opened Text
  import opened Paths

  datatype Fs = Fs(files: map<Path, nat>, dirs: set<Path>)

  /** `os.path.exists(p)`: true for files and directories alike. */
  predicate Exists(fs: Fs, p: Path) {
    p in fs.files || p in fs.dirs
  }

  /** `os.path.getsize(p)` of an existing regular file; a directory counts as 0. */
  function SizeOf(fs: Fs, p: Path): nat {
    if p in fs.files then fs.files[p] else 0
  }

  /** The proper ancestors of a path, one per `/` inside it. */
  function Ancestors(p: Path): set<Path> {
    set i | 0 < i < |p| && p[i] == '/' :: p[..i]
  }

  /** Some file or directory lies below `d`. */
  predicate HasEntriesUnder(fs: Fs, d: Path) {
    (exists p :: p in fs.files && StartsWith(p, d + "/"))
    || (exists p :: p in fs.dirs && StartsWith(p, d + "/"))
  }

  /** `os.makedirs(p, exist_ok=True)`: `p` and its ancestors are directories afterwards. */
  function AfterMakedirs(fs: Fs, p: Path): Fs {
    Fs(fs.files, fs.dirs + {p} + Ancestors(p))
  }

  /** Files an external program writes, overwriting same-named ones. */
  function AfterWrite(fs: Fs, written: map<Path, nat>): Fs {
    Fs(fs.files + written, fs.dirs)
  }

  /** `os.remove(p)`: removes a regular file; raises (None) on anything else. */
  function AfterRemove(fs: Fs, p: Path): Option<Fs> {
    if p in fs.files then Some(Fs(fs.files - {p}, fs.dirs)) else None
  }

  /** `os.rmdir(d)`: removes an empty directory; raises (None) otherwise. */
  function AfterRmdir(fs: Fs, d: Path): Option<Fs> {
    if d in fs.dirs && !HasEntriesUnder(fs, d) then Some(Fs(fs.files, fs.dirs - {d})) else None
  }

  class Disk {
    var files: map<Path, nat>
    var dirs: set<Path>

    function Value(): Fs
      reads this
    {
      Fs(files, dirs)
    }

    constructor (initial: Fs)
      ensures Value() == initial
    {
      files := initial.files;
      dirs := initial.dirs;
    }

    method Makedirs(p: Path)
      modifies this
      ensures Value() == AfterMakedirs(old(Value()), p)
    {
      dirs := dirs + {p} + Ancestors(p);
    }

    method Write(written: map<Path, nat>)
      modifies this
      ensures Value() == AfterWrite(old(Value()), written)
    {
      files := files + written;
    }

    /** `ok` is false where Python would raise; the disk is then unchanged. */
    method Remove(p: Path) returns (ok: bool)
      modifies this
      ensures ok == AfterRemove(old(Value()), p).Some?
      ensures Value() == AfterRemove(old(Value()), p).GetOr(old(Value()))
    {
      ok := p in files;
      if ok {
        files := files - {p};
      }
    }

    method Rmdir(d: Path) returns (ok: bool)
      modifies this
      ensures ok == AfterRmdir(old(Value()), d).Some?
      ensures Value() == AfterRmdir(old(Value()), d).GetOr(old(Value()))
    {
      ok := d in dirs && !HasEntriesUnder(Value(), d);
      if ok {
        dirs := dirs - {d};
      }
    }
  }
}
