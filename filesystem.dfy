/** An abstract filesystem for the fs-extra calls the scaffolder makes: a set
    of directory paths and a map from file paths to contents. A path is the
    list of its segments from the filesystem root. Also the relative module
    resolution `require` uses, to check that the generated files refer to
    each other correctly. */
module FileSystem {

  type Path = seq<string>

  datatype FileSystem<C> = FileSystem(dirs: set<Path>, files: map<Path, C>)

  /** The path with its last segment dropped (the root is its own parent). */
  function Parent(p: Path): (r: Path)
    ensures p != [] ==> |r| == |p| - 1 && r + [p[|p| - 1]] == p
    ensures r <= p
  {
    if p == [] then [] else p[..|p| - 1]
  }

  /** All prefixes of a path: the path, its parent, and so on up to the root. */
  function Prefixes(p: Path): (r: set<Path>)
    ensures forall q :: q in r <==> q <= p
  {
    var r := set i | 0 <= i <= |p| :: p[..i];
    assert forall q :: q <= p ==> q == p[..|q|];
    r
  }

  /** `fs.pathExists(p)`. */
  predicate Exists<C>(fs: FileSystem<C>, p: Path) {
    p in fs.dirs || p in fs.files
  }

  /** `fs.remove(p)`: `p` and everything below it disappear, nothing else changes. */
  function Remove<C>(fs: FileSystem<C>, p: Path): (r: FileSystem<C>)
    ensures forall q :: q in r.dirs <==> q in fs.dirs && !(p <= q)
    ensures forall q :: q in r.files <==> q in fs.files && !(p <= q)
    ensures forall q :: q in r.files ==> r.files[q] == fs.files[q]
    ensures !Exists(r, p)
  {
    FileSystem(set q | q in fs.dirs && !(p <= q), map q | q in fs.files && !(p <= q) :: fs.files[q])
  }

  /** `fs.ensureDir(p)`: `p` and every directory above it exist afterwards. */
  function EnsureDir<C>(fs: FileSystem<C>, p: Path): (r: FileSystem<C>)
    ensures forall q :: q in r.dirs <==> q in fs.dirs || q <= p
    ensures r.files == fs.files
  {
    fs.(dirs := fs.dirs + Prefixes(p))
  }

  /** `fs.outputFile(p, c)`: writes `c` at `p`, creating the parent directories. */
  function OutputFile<C>(fs: FileSystem<C>, p: Path, c: C): (r: FileSystem<C>)
    ensures r.files == fs.files[p := c]
    ensures forall q :: q in r.dirs <==> q in fs.dirs || q <= Parent(p)
  {
    FileSystem(fs.dirs + Prefixes(Parent(p)), fs.files[p := c])
  }

  /** `fs.ensureFile(p)`: an existing file is left as it is; otherwise an
      empty file is created together with its parent directories. */
  function EnsureFile<C>(fs: FileSystem<C>, p: Path, empty: C): (r: FileSystem<C>)
    ensures p in fs.files ==> r == fs
    ensures p !in fs.files ==> r.files == fs.files[p := empty]
    ensures p !in fs.files ==> forall q :: q in r.dirs <==> q in fs.dirs || q <= Parent(p)
  {
    if p in fs.files then fs else OutputFile(fs, p, empty)
  }

  /** A filesystem as an operating system keeps it: the root is a directory,
      every directory and file sits in a directory, and no path is both a
      file and a directory. */
  ghost predicate WellFormed<C>(fs: FileSystem<C>) {
    && [] in fs.dirs
    && (forall d :: d in fs.dirs ==> Parent(d) in fs.dirs)
    && (forall f :: f in fs.files ==> Parent(f) in fs.dirs)
    && (forall f :: f in fs.files ==> f !in fs.dirs)
  }

  /** No prefix of `p` (including `p`) is a file. */
  ghost predicate NoFileOn<C>(fs: FileSystem<C>, p: Path) {
    forall q :: q <= p ==> q !in fs.files
  }

  /** In a well-formed filesystem every prefix of a directory is a directory. */
  lemma {:induction false} DirPrefixesAreDirs<C>(fs: FileSystem<C>, d: Path)
    requires WellFormed(fs) && d in fs.dirs
    ensures forall q :: q <= d ==> q in fs.dirs
    decreases |d|
  {
    if d != [] {
      DirPrefixesAreDirs(fs, Parent(d));
      forall q | q <= d
        ensures q in fs.dirs
      {
        if q != d {
          assert q <= Parent(d);
        }
      }
    }
  }

  /** Nothing survives below a path that does not exist. */
  lemma {:induction false} NothingBelowMissing<C>(fs: FileSystem<C>, p: Path, q: Path)
    requires WellFormed(fs) && !Exists(fs, p) && p <= q
    ensures !Exists(fs, q)
    decreases |q|
  {
    if q != p && Exists(fs, q) {
      assert Parent(q) in fs.dirs;
      assert p <= Parent(q);
      NothingBelowMissing(fs, p, Parent(q));
      assert false;
    }
  }

  lemma RemoveWellFormed<C>(fs: FileSystem<C>, p: Path)
    requires WellFormed(fs) && p != []
    ensures WellFormed(Remove(fs, p))
  {
    var r := Remove(fs, p);
    forall d | d in r.dirs
      ensures Parent(d) in r.dirs
    {
      if p <= Parent(d) {
        assert false;
      }
    }
    forall f | f in r.files
      ensures Parent(f) in r.dirs
    {
      if p <= Parent(f) {
        assert false;
      }
    }
  }

  lemma EnsureDirWellFormed<C>(fs: FileSystem<C>, p: Path)
    requires WellFormed(fs) && NoFileOn(fs, p)
    ensures WellFormed(EnsureDir(fs, p))
  {
    var r := EnsureDir(fs, p);
    forall d | d in r.dirs
      ensures Parent(d) in r.dirs
    {
      if d <= p {
        assert Parent(d) <= p;
      }
    }
  }

  lemma OutputFileWellFormed<C>(fs: FileSystem<C>, p: Path, c: C)
    requires WellFormed(fs) && p != [] && p !in fs.dirs && NoFileOn(fs, Parent(p))
    ensures WellFormed(OutputFile(fs, p, c))
  {
    var r := OutputFile(fs, p, c);
    forall d | d in r.dirs
      ensures Parent(d) in r.dirs
    {
      if d <= Parent(p) {
        assert Parent(d) <= Parent(p);
      }
    }
    forall f | f in r.files
      ensures f !in r.dirs
    {
      if f == p {
        assert !(p <= Parent(p));
      }
    }
  }

  lemma EnsureFileWellFormed<C>(fs: FileSystem<C>, p: Path, empty: C)
    requires WellFormed(fs) && p != [] && p !in fs.dirs && NoFileOn(fs, Parent(p))
    ensures WellFormed(EnsureFile(fs, p, empty))
  {
    if p !in fs.files {
      OutputFileWellFormed(fs, p, empty);
    }
  }

  /** Writing below an existing directory adds no directory. */
  lemma OutputFileInDir<C>(fs: FileSystem<C>, p: Path, c: C)
    requires forall q :: q <= Parent(p) ==> q in fs.dirs
    ensures OutputFile(fs, p, c) == FileSystem(fs.dirs, fs.files[p := c])
  {
  }

  /** Touching a missing file below an existing directory adds just that file. */
  lemma EnsureFileInDir<C>(fs: FileSystem<C>, p: Path, empty: C)
    requires p !in fs.files
    requires forall q :: q <= Parent(p) ==> q in fs.dirs
    ensures EnsureFile(fs, p, empty) == FileSystem(fs.dirs, fs.files[p := empty])
  {
    OutputFileInDir(fs, p, empty);
  }

  /** `s.split('/')`: the pieces between the slashes, empty ones included.
      No piece holds a slash, and joining the pieces with `/` gives `s` back. */
  function Segments(s: string): (r: seq<string>)
    ensures |r| >= 1
    ensures '/' !in s ==> r == [s]
    ensures forall k :: 0 <= k < |r| ==> '/' !in r[k]
    ensures JoinSlash(r) == s
  {
    if s == [] then [""]
    else if s[0] == '/' then
      var rest := Segments(s[1..]);
      assert ([""] + rest)[1..] == rest;
      assert s == "/" + s[1..];
      [""] + rest
    else
      var rest := Segments(s[1..]);
      assert s == [s[0]] + s[1..];
      var r := [[s[0]] + rest[0]] + rest[1..];
      assert r[1..] == rest[1..];
      assert |rest| > 1 ==> JoinSlash(rest) == rest[0] + "/" + JoinSlash(rest[1..]);
      r
  }

  /** `path.join(dir, ...)` or `path.resolve(dir, ...)` over relative segments:
      an empty segment or `.` stays, `..` goes up (the root is its own
      parent), any other segment goes down. */
  function Resolve(dir: Path, segments: seq<string>): Path
    decreases |segments|
  {
    if segments == [] then dir
    else
      var next := if segments[0] == "" || segments[0] == "." then dir
                  else if segments[0] == ".." then Parent(dir)
                  else dir + [segments[0]];
      Resolve(next, segments[1..])
  }

  /** Resolving a single segment. */
  lemma ResolveOne(dir: Path, segment: string)
    ensures Resolve(dir, [segment]) ==
      if segment == "" || segment == "." then dir
      else if segment == ".." then Parent(dir)
      else dir + [segment]
  {
    assert [segment][1..] == [];
  }

  /** The file `require` loads for a specifier without an extension: the
      resolved path with `.js` added to its last segment. */
  function ModuleFile(dir: Path, segments: seq<string>): (r: Path)
    ensures |r| == |Resolve(dir, segments)|
  {
    var p := Resolve(dir, segments);
    if p == [] then [] else Parent(p) + [p[|p| - 1] + ".js"]
  }

  /** The specifier text: the segments joined by `/`. */
  function JoinSlash(segments: seq<string>): string {
    if segments == [] then ""
    else if |segments| == 1 then segments[0]
    else segments[0] + "/" + JoinSlash(segments[1..])
  }
}
