/**
 * Path arithmetic used by the download routine: `os.path.join` of the job
 * directory, and `os.path.splitext` to turn the extractor's file name into the
 * MP3 and thumbnail names.
 */
module Paths {

  type Path = string

  /** `s.rfind(c)`: the last index of `c` in `s`, or -1. */
  function LastIndexOf(s: string, c: char): (r: int)
    ensures -1 <= r < |s|
    ensures r >= 0 ==> s[r] == c
    ensures forall k :: r < k < |s| ==> s[k] != c
  {
    if |s| == 0 then -1
    else if s[|s| - 1] == c then |s| - 1
    else LastIndexOf(s[..|s| - 1], c)
  }

  /** The three properties of `LastIndexOf` determine it. */
  lemma LastIndexOfUnique(s: string, c: char, i: int)
    requires -1 <= i < |s|
    requires i >= 0 ==> s[i] == c
    requires forall k :: i < k < |s| ==> s[k] != c
    ensures LastIndexOf(s, c) == i
  {
  }

  /** `os.path.join(dir, name)` for a relative `name`. */
  function JoinPath(dir: Path, name: string): Path {
    dir + "/" + name
  }

  /** Everything up to and including the last `/`: the directory part of a path. */
  function DirPart(p: Path): Path {
    p[..LastIndexOf(p, '/') + 1]
  }

  /** Some character of `p[lo..hi]` is not a dot. */
  function HasNonDot(p: string, lo: int, hi: int): (b: bool)
    requires 0 <= lo && hi <= |p|
    ensures b <==> exists k :: lo <= k < hi && p[k] != '.'
    decreases hi - lo
  {
    if lo >= hi then false else p[lo] != '.' || HasNonDot(p, lo + 1, hi)
  }

  /** `os.path.splitext(p)`: the extension starts at the last dot of the last
      path component, provided that component has something other than dots
      before it. */
  function SplitExt(p: Path): (Path, string) {
    var sep := LastIndexOf(p, '/');
    var dot := LastIndexOf(p, '.');
    if sep < dot && HasNonDot(p, sep + 1, dot) then (p[..dot], p[dot..]) else (p, "")
  }

  /** Splitting loses nothing, and the extension is empty or one dot followed
      by neither a dot nor a separator. */
  lemma SplitExtShape(p: Path)
    ensures SplitExt(p).0 + SplitExt(p).1 == p
    ensures var ext := SplitExt(p).1;
      ext == [] || (ext[0] == '.' && '/' !in ext && '.' !in ext[1..])
  {
    var dot := LastIndexOf(p, '.');
    if SplitExt(p).1 != [] {
      assert p[..dot] + p[dot..] == p;
    }
  }

  /** `os.path.splitext(name)[0] + ".mp3"`. */
  function Mp3Path(name: Path): Path {
    SplitExt(name).0 + ".mp3"
  }

  /** `os.path.splitext(name)[0] + ".webp"`. */
  function ThumbPath(name: Path): Path {
    SplitExt(name).0 + ".webp"
  }

  /** Two paths that agree up to a `/` at `sep` (or `sep` is -1) and have no
      `/` after it have the same directory part. */
  lemma SameDirectory(p: Path, q: Path, sep: int)
    requires -1 <= sep < |p| && sep < |q|
    requires p[..sep + 1] == q[..sep + 1]
    requires sep >= 0 ==> p[sep] == '/'
    requires forall k :: sep < k < |p| ==> p[k] != '/'
    requires forall k :: sep < k < |q| ==> q[k] != '/'
    ensures DirPart(p) == DirPart(q)
  {
    if sep >= 0 {
      assert q[sep] == q[..sep + 1][sep];
    }
    LastIndexOfUnique(p, '/', sep);
    LastIndexOfUnique(q, '/', sep);
  }

  /** Cutting a path after its last `/` and appending a name without `/`
      keeps the directory part. */
  lemma PrefixKeepsDirectory(p: Path, sep: int, n: int, suffix: string)
    requires -1 <= sep < n <= |p|
    requires sep >= 0 ==> p[sep] == '/'
    requires forall k :: sep < k < |p| ==> p[k] != '/'
    requires '/' !in suffix
    ensures DirPart(p[..n] + suffix) == DirPart(p)
  {
    var q := p[..n] + suffix;
    forall k | sep < k < |q|
      ensures q[k] != '/'
    {
      if k >= n {
        assert q[k] == suffix[k - n];
      } else {
        assert q[k] == p[k];
      }
    }
    assert p[..sep + 1] == q[..sep + 1];
    SameDirectory(p, q, sep);
  }

  /** Replacing the extension of a path keeps its directory part. */
  lemma RootKeepsDirectory(p: Path, suffix: string)
    requires '/' !in suffix
    ensures DirPart(SplitExt(p).0 + suffix) == DirPart(p)
  {
    var root := SplitExt(p).0;
    SplitExtShape(p);
    assert root == p[..|root|];
    PrefixKeepsDirectory(p, LastIndexOf(p, '/'), |root|, suffix);
  }

  /** The MP3 and the thumbnail sit in the directory the extractor wrote to. */
  lemma DerivedPathsKeepDirectory(name: Path)
    ensures DirPart(Mp3Path(name)) == DirPart(name)
    ensures DirPart(ThumbPath(name)) == DirPart(name)
  {
    RootKeepsDirectory(name, ".mp3");
    RootKeepsDirectory(name, ".webp");
  }

  /** Only the last extension is replaced: `d/a.b.webm` becomes `d/a.b.mp3`,
      and `d/a..webm` becomes `d/a..mp3`. The stem's last component only needs
      something other than dots in it. */
  lemma {:induction false} ReplacesLastExtension(stem: Path, ext: string)
    requires HasNonDot(stem, LastIndexOf(stem, '/') + 1, |stem|)
    requires '.' !in ext && '/' !in ext
    ensures SplitExt(stem + "." + ext) == (stem, "." + ext)
    ensures Mp3Path(stem + "." + ext) == stem + ".mp3"
    ensures ThumbPath(stem + "." + ext) == stem + ".webp"
  {
    var p := stem + "." + ext;
    var n := |stem|;
    var sep := LastIndexOf(stem, '/');
    forall k | n < k < |p|
      ensures p[k] != '.' && p[k] != '/'
    {
      assert p[k] == ext[k - n - 1];
    }
    forall k | sep < k < n
      ensures p[k] != '/'
    {
      assert p[k] == stem[k];
    }
    assert p[n] == '.';
    if sep >= 0 {
      assert p[sep] == stem[sep];
    }
    LastIndexOfUnique(p, '.', n);
    LastIndexOfUnique(p, '/', sep);
    var k :| sep + 1 <= k < n && stem[k] != '.';
    assert p[k] == stem[k];
    assert HasNonDot(p, sep + 1, n);
    assert p[..n] == stem && p[n..] == "." + ext;
  }

  /** The two derived names never coincide. */
  lemma Mp3IsNotThumb(name: Path)
    ensures Mp3Path(name) != ThumbPath(name)
  {
    assert |Mp3Path(name)| != |ThumbPath(name)|;
  }
}
