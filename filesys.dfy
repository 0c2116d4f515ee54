/**
 * The file system the build works on: a set of directories and a map from
 * file paths to contents. Directory keys end in "/"; the operations are
 * the ones the build script performs through os.makedirs, open() and the
 * `cp -r` / `rm -rf` / `tar` commands it runs.
 */
module FileSys {
  import opened Text
  import opened Wrappers
  import opened ProfileJson

  type Path = string

  /** What a file holds. JSON files are held parsed, the compiled server as
      the package it was built from, and an archive as the tree it packs,
      keyed by paths relative to the archived directory. */
  datatype Content =
    | TextFile(text: string)
    | Document(json: Json)
    | Executable(package: string)
    | Archive(tree: map<Path, Content>)

  datatype Fs = Fs(dirs: set<Path>, files: map<Path, Content>)

  /** The key under which a directory is recorded. */
  function DirKey(p: Path): (key: Path)
    ensures EndsWith(key, "/")
  {
    if EndsWith(p, "/") then p else p + "/"
  }

  /** `os.path.isdir`. */
  predicate IsDir(fs: Fs, p: Path) {
    p != "" && DirKey(p) in fs.dirs
  }

  /** The directory d and every directory above it. */
  function Ancestors(d: Path): (ds: set<Path>)
    ensures forall a :: a in ds ==> StartsWith(d, a) && EndsWith(a, "/")
    ensures EndsWith(d, "/") ==> d in ds
  {
    var ds := set i | 0 < i <= |d| && d[i - 1] == '/' :: d[..i];
    assert forall i :: 0 < i <= |d| ==> d[..i][i - 1] == d[i - 1];
    assert d[..|d|] == d;
    assert EndsWith(d, "/") ==> d[|d| - 1] == '/' && d[..|d|] in ds;
    ds
  }

  /** Some directory on the way to d is an existing plain file. */
  predicate Blocked(fs: Fs, d: Path) {
    exists a :: a in Ancestors(d) && a[..|a| - 1] in fs.files
  }

  /** `os.makedirs(p)`: fails on an empty path, on an existing directory and
      when a plain file stands where a directory has to be; otherwise makes
      p and every missing directory above it. */
  function MakeDirs(fs: Fs, p: Path): (made: Option<Fs>)
    ensures made.Some? <==> p != "" && !IsDir(fs, p) && !Blocked(fs, DirKey(p))
    ensures made.Some? ==> made.value.files == fs.files && IsDir(made.value, p)
    ensures made.Some? ==> made.value.dirs == fs.dirs + Ancestors(DirKey(p))
  {
    if p == "" || IsDir(fs, p) || Blocked(fs, DirKey(p)) then None
    else Some(fs.(dirs := fs.dirs + Ancestors(DirKey(p))))
  }

  /** The guarded creation used for every build directory:
      `try: os.makedirs(p) except OSError: if not os.path.isdir(p): raise`.
      It fails only when p is not a directory afterwards. */
  function EnsureDir(fs: Fs, p: Path): (ensured: Option<Fs>)
    ensures ensured.Some? <==> IsDir(fs, p) || MakeDirs(fs, p).Some?
    ensures ensured.Some? ==> IsDir(ensured.value, p) && ensured.value.files == fs.files
    ensures ensured.Some? ==> fs.dirs <= ensured.value.dirs
    ensures IsDir(fs, p) ==> ensured == Some(fs)
  {
    match MakeDirs(fs, p)
    case Some(made) => Some(made)
    case None => if IsDir(fs, p) then Some(fs) else None
  }

  /** Ensuring a directory a second time changes nothing and cannot fail. */
  lemma EnsureDirIdempotent(fs: Fs, p: Path)
    requires EnsureDir(fs, p).Some?
    ensures EnsureDir(EnsureDir(fs, p).value, p) == EnsureDir(fs, p)
  {
  }

  /** `os.makedirs` over a list inside one try block: the first failure
      skips the rest, and the failure itself is swallowed. */
  function MakeAll(fs: Fs, ps: seq<Path>): (made: Fs)
    ensures made.files == fs.files && fs.dirs <= made.dirs
    decreases |ps|
  {
    if ps == [] then fs
    else match MakeDirs(fs, ps[0])
      case None => fs
      case Some(next) => MakeAll(next, ps[1..])
  }

  // ---------------------------------------------------------------------
  // open(path, "w").write(...) and open(path).read()

  /** Opening for writing fails when the parent directory is missing or the
      path itself is a directory; otherwise the file is replaced. */
  function Write(fs: Fs, dir: Path, name: string, c: Content): (written: Option<Fs>)
    ensures written.Some? <==> IsDir(fs, dir) && !IsDir(fs, dir + name)
    ensures written.Some? ==> written.value.dirs == fs.dirs
    ensures written.Some? ==> written.value.files.Keys == fs.files.Keys + {dir + name}
    ensures written.Some? ==> written.value.files[dir + name] == c
    ensures written.Some? ==> forall p :: p in fs.files && p != dir + name ==> written.value.files[p] == fs.files[p]
  {
    if IsDir(fs, dir) && !IsDir(fs, dir + name) then Some(fs.(files := fs.files[dir + name := c]))
    else None
  }

  datatype ReadError = Missing | NotText | NotJson

  /** Reading a file in text mode yields its text; the text-mode newline
      translation is applied by the callers that iterate over lines. */
  function ReadText(fs: Fs, p: Path): (r: Result<string, ReadError>)
    ensures r.Ok? <==> p in fs.files && !IsDir(fs, p) && fs.files[p].TextFile?
    ensures r.Ok? ==> r.value == fs.files[p].text
  {
    if p !in fs.files || IsDir(fs, p) then Err(Missing)
    else if !fs.files[p].TextFile? then Err(NotText)
    else Ok(fs.files[p].text)
  }

  /** `json.load` of a file: the parsed document. */
  function ReadJson(fs: Fs, p: Path): (r: Result<Json, ReadError>)
    ensures r.Ok? <==> p in fs.files && !IsDir(fs, p) && fs.files[p].Document?
    ensures r.Ok? ==> r.value == fs.files[p].json
  {
    if p !in fs.files || IsDir(fs, p) then Err(Missing)
    else if !fs.files[p].Document? then Err(NotJson)
    else Ok(fs.files[p].json)
  }

  // ---------------------------------------------------------------------
  // Trees: `cp -r`, `rm -rf` and the tree `tar` packs.

  // The tree functions state their properties in separate lemmas, so that
  // the many places that mention them do not instantiate those properties.

  /** The files below dir, keyed by their path relative to dir. */
  function Subtree(files: map<Path, Content>, dir: Path): (tree: map<Path, Content>)
  {
    var rels := set p | p in files && StartsWith(p, dir) :: p[|dir|..];
    map rel | rel in rels && dir + rel in files :: files[dir + rel]
  }

  lemma SubtreeFacts(files: map<Path, Content>, dir: Path)
    ensures forall rel :: rel in Subtree(files, dir) <==> dir + rel in files
    ensures forall rel :: rel in Subtree(files, dir) ==> Subtree(files, dir)[rel] == files[dir + rel]
  {
    assert forall p :: StartsWith(p, dir) ==> dir + p[|dir|..] == p;
    assert forall rel :: dir + rel in files ==> StartsWith(dir + rel, dir) && (dir + rel)[|dir|..] == rel;
  }

  /** The files map with tree laid over it at dst: tree entries win, every
      other file stays. */
  function Graft(files: map<Path, Content>, tree: map<Path, Content>, dst: Path): (grafted: map<Path, Content>)
  {
    var image := set rel | rel in tree :: dst + rel;
    map p | p in files.Keys + image ::
      if StartsWith(p, dst) && p[|dst|..] in tree then tree[p[|dst|..]] else files[p]
  }

  lemma GraftFacts(files: map<Path, Content>, tree: map<Path, Content>, dst: Path)
    ensures var grafted := Graft(files, tree, dst);
            && (forall rel :: rel in tree ==> dst + rel in grafted && grafted[dst + rel] == tree[rel])
            && (forall p :: p in files && !(StartsWith(p, dst) && p[|dst|..] in tree) ==> p in grafted && grafted[p] == files[p])
            && (forall p :: p in grafted <==> p in files || (StartsWith(p, dst) && p[|dst|..] in tree))
  {
    assert forall p :: StartsWith(p, dst) ==> dst + p[|dst|..] == p;
    assert forall rel :: rel in tree ==> StartsWith(dst + rel, dst) && (dst + rel)[|dst|..] == rel;
  }

  /** The directories below src (src included), moved to below dst. */
  function MovedDirs(dirs: set<Path>, src: Path, dst: Path): (moved: set<Path>)
  {
    set d | d in dirs && StartsWith(d, src) :: dst + d[|src|..]
  }

  /** `cp -r src/ into/`: the tree at src appears at dst, merged over what
      is already there; nothing else changes. */
  function CopyTree(fs: Fs, src: Path, dst: Path): (copied: Fs)
  {
    Fs(fs.dirs + MovedDirs(fs.dirs, src, dst), Graft(fs.files, Subtree(fs.files, src), dst))
  }

  lemma CopyTreeFacts(fs: Fs, src: Path, dst: Path)
    ensures var copied := CopyTree(fs, src, dst);
            && (forall rel :: src + rel in fs.files ==> dst + rel in copied.files && copied.files[dst + rel] == fs.files[src + rel])
            && (forall p :: p in fs.files && !(StartsWith(p, dst) && src + p[|dst|..] in fs.files) ==> p in copied.files && copied.files[p] == fs.files[p])
            && (forall p :: p in copied.files ==> p in fs.files || (StartsWith(p, dst) && src + p[|dst|..] in fs.files))
            && (forall d :: d in fs.dirs && StartsWith(d, src) ==> dst + d[|src|..] in copied.dirs)
            && fs.dirs <= copied.dirs
            && (forall d :: d in copied.dirs ==> d in fs.dirs || (StartsWith(d, dst) && src + d[|dst|..] in fs.dirs))
  {
    SubtreeFacts(fs.files, src);
    GraftFacts(fs.files, Subtree(fs.files, src), dst);
    forall d | d in CopyTree(fs, src, dst).dirs && d !in fs.dirs
      ensures StartsWith(d, dst) && src + d[|dst|..] in fs.dirs
    {
      var e :| e in fs.dirs && StartsWith(e, src) && d == dst + e[|src|..];
      assert d[..|dst|] == dst && d[|dst|..] == e[|src|..];
      assert src + e[|src|..] == e;
    }
  }

  /** `rm -rf dir`: every file and directory whose path starts with dir goes,
      everything else stays. */
  function RemoveTree(fs: Fs, dir: Path): (removed: Fs)
  {
    Fs(set d | d in fs.dirs && !StartsWith(d, dir),
       map p | p in fs.files && !StartsWith(p, dir) :: fs.files[p])
  }

  /** g is part of fs: its directories are directories of fs and its files
      are files of fs with the same content. */
  predicate SubFs(g: Fs, fs: Fs) {
    && g.dirs <= fs.dirs
    && forall p :: p in g.files ==> p in fs.files && g.files[p] == fs.files[p]
  }

  /** No directory and no file of g lies below dir. */
  predicate NothingBelow(g: Fs, dir: Path) {
    && (forall d :: d in g.dirs ==> !StartsWith(d, dir))
    && (forall p :: p in g.files ==> !StartsWith(p, dir))
  }

  /** What `rm -rf dir` leaves is the largest part of the file system with
      nothing below dir: it is such a part, and every such part lies
      within it. */
  lemma RemoveTreeLargest(fs: Fs, dir: Path, g: Fs)
    requires SubFs(g, fs) && NothingBelow(g, dir)
    ensures SubFs(RemoveTree(fs, dir), fs) && NothingBelow(RemoveTree(fs, dir), dir)
    ensures SubFs(g, RemoveTree(fs, dir))
  {
  }

  /** Removing a tree twice removes nothing more. */
  lemma RemoveTreeIdempotent(fs: Fs, dir: Path)
    ensures RemoveTree(RemoveTree(fs, dir), dir) == RemoveTree(fs, dir)
  {
  }
}
