/**
 * Frecklecutable discovery (frecklecute/utils.py): finding the folders that
 * hold frecklecutables below a search root, the test for a single
 * frecklecutable file, listing one folder, and the finder that caches what
 * it has scanned.
 */
module Utils {
  import opened Wrappers
  import opened Sequences
  import opened Values
  import opened OrderedDicts
  import opened Files

  /** The marker file that makes its folder a frecklecutable folder. */
  const MarkerName: string := ".frecklecutables"

  /** Subfolder names that are frecklecutable folders by name. */
  predicate IsCollectionDirName(d: string) {
    d == "frecklecutables" || d == ".frecklecutables"
  }

  // ---------------------------------------------------------------------
  // find_frecklecutable_dirs

  /** What one kept subfolder name makes the loop append, before deduplication. */
  function DirFind(root: string, d: string): seq<string> {
    if IsCollectionDirName(d) then [Join(root, d)] else []
  }

  /** What one file name makes the loop append, before deduplication. */
  function MarkerFind(root: string, f: string): seq<string> {
    if f == MarkerName then [root] else []
  }

  /** What the loop over the kept `dirnames` of one walk step appends, before deduplication. */
  function DirFinds(root: string, dirnames: seq<string>): seq<string> {
    if dirnames == [] then []
    else
      var n := |dirnames| - 1;
      DirFinds(root, dirnames[..n]) + DirFind(root, dirnames[n])
  }

  /** What the loop over the `filenames` of one walk step appends, before deduplication. */
  function MarkerFinds(root: string, filenames: seq<string>): seq<string> {
    if filenames == [] then []
    else
      var n := |filenames| - 1;
      MarkerFinds(root, filenames[..n]) + MarkerFind(root, filenames[n])
  }

  /** What one walk step appends, before deduplication (the walk only visits directories). */
  function StepFinds(s: Step, excl: set<string>): seq<string> {
    if s.dir.Dir? then
      DirFinds(s.root, Prune(DirNames(s.dir.children), excl)) + MarkerFinds(s.root, FileNames(s.dir.children))
    else []
  }

  function AllFinds(steps: seq<Step>, excl: set<string>): seq<string> {
    if steps == [] then []
    else
      var n := |steps| - 1;
      AllFinds(steps[..n], excl) + StepFinds(steps[n], excl)
  }

  /** The steps of `os.walk(os.path.realpath(path), topdown=True, followlinks=True)` with pruning. */
  function TopSteps(fs: FileSystem, excl: set<string>, path: string): (r: seq<Step>)
    ensures forall k :: 0 <= k < |r| ==> r[k].dir.Dir?
  {
    var top := fs.realpath(path);
    match fs.lookup(top)
    case Some(e) => if e.Dir? then Walk(excl, [], top, e) else []
    case None => []
  }

  /** Every path the source considers appending, in the order it considers them. */
  function Candidates(fs: FileSystem, excl: set<string>, path: string, useRootPath: bool): seq<string> {
    (if useRootPath then [path] else []) + AllFinds(TopSteps(fs, excl, path), excl)
  }

  /**
   * The result of `find_frecklecutable_dirs(path, use_root_path)` with
   * `DEFAULT_EXCLUDE_DIRS` as `excl`: the candidates with repeats (by exact
   * string) suppressed, or nothing if `path` is not a directory.
   */
  function FrecklecutableDirs(fs: FileSystem, excl: set<string>, path: string, useRootPath: bool): (r: seq<string>)
    ensures !IsDir(fs, path) ==> r == []
  {
    if !IsDir(fs, path) then [] else Dedup(Candidates(fs, excl, path, useRootPath))
  }

  lemma DirFindsSnoc(seen: seq<string>, root: string, dirnames: seq<string>, j: nat)
    requires j < |dirnames|
    ensures seen + DirFinds(root, dirnames[..j + 1]) == (seen + DirFinds(root, dirnames[..j])) + DirFind(root, dirnames[j])
  {
    assert dirnames[..j + 1][..j] == dirnames[..j];
  }

  lemma MarkerFindsSnoc(seen: seq<string>, root: string, filenames: seq<string>, k: nat)
    requires k < |filenames|
    ensures seen + MarkerFinds(root, filenames[..k + 1]) == (seen + MarkerFinds(root, filenames[..k])) + MarkerFind(root, filenames[k])
  {
    assert filenames[..k + 1][..k] == filenames[..k];
  }

  /**
   * The loop over the kept `dirnames` of one walk step (utils.py:82-86):
   * append each subfolder named like a frecklecutable folder unless present.
   */
  method CollectNamedSubfolders(root: string, dirnames: seq<string>, result0: seq<string>, ghost seen: seq<string>)
    returns (result: seq<string>)
    requires result0 == Dedup(seen)
    ensures result == Dedup(seen + DirFinds(root, dirnames))
  {
    result := result0;
    assert seen + DirFinds(root, dirnames[..0]) == seen;
    var j := 0;
    while j < |dirnames|
      invariant 0 <= j <= |dirnames|
      invariant result == Dedup(seen + DirFinds(root, dirnames[..j]))
    {
      var dirname := dirnames[j];
      DirFindsSnoc(seen, root, dirnames, j);
      DedupStep(seen + DirFinds(root, dirnames[..j]), DirFind(root, dirname));
      if IsCollectionDirName(dirname) {
        var dirPath := Join(root, dirname);
        if dirPath !in result {
          result := result + [dirPath];
        }
      }
      j := j + 1;
    }
    assert dirnames[..j] == dirnames;
  }

  /**
   * The loop over the `filenames` of one walk step (utils.py:88-91): append
   * the folder itself when it holds the marker file, unless present.
   */
  method CollectMarkedFolder(root: string, filenames: seq<string>, result0: seq<string>, ghost seen: seq<string>)
    returns (result: seq<string>)
    requires result0 == Dedup(seen)
    ensures result == Dedup(seen + MarkerFinds(root, filenames))
  {
    result := result0;
    assert seen + MarkerFinds(root, filenames[..0]) == seen;
    var k := 0;
    while k < |filenames|
      invariant 0 <= k <= |filenames|
      invariant result == Dedup(seen + MarkerFinds(root, filenames[..k]))
    {
      var filename := filenames[k];
      MarkerFindsSnoc(seen, root, filenames, k);
      DedupStep(seen + MarkerFinds(root, filenames[..k]), MarkerFind(root, filename));
      if filename == MarkerName {
        if root !in result {
          result := result + [root];
        }
      }
      k := k + 1;
    }
    assert filenames[..k] == filenames;
  }

  /**
   * The body of the walk loop (utils.py:80-91) for one step: prune the
   * subfolder names, then run the two append loops.
   */
  method CollectStep(s: Step, excl: set<string>, result0: seq<string>, ghost seen: seq<string>)
    returns (result: seq<string>)
    requires s.dir.Dir? && result0 == Dedup(seen)
    ensures result == Dedup(seen + StepFinds(s, excl))
  {
    var root, dirnames, filenames := s.root, DirNames(s.dir.children), FileNames(s.dir.children);
    dirnames := Prune(dirnames, excl);
    result := CollectNamedSubfolders(root, dirnames, result0, seen);
    result := CollectMarkedFolder(root, filenames, result, seen + DirFinds(root, dirnames));
    AppendAssoc(seen, DirFinds(root, dirnames), MarkerFinds(root, filenames));
  }

  lemma AllFindsSnoc(init: seq<string>, steps: seq<Step>, excl: set<string>, i: nat)
    requires i < |steps|
    ensures init + AllFinds(steps[..i + 1], excl) == (init + AllFinds(steps[..i], excl)) + StepFinds(steps[i], excl)
  {
    assert steps[..i + 1][..i] == steps[..i];
  }

  /** The walk loop (utils.py:78-91) over the steps of the walk, continuing the result `result0`. */
  method CollectSteps(steps: seq<Step>, excl: set<string>, result0: seq<string>)
    returns (result: seq<string>)
    requires forall k :: 0 <= k < |steps| ==> steps[k].dir.Dir?
    requires Dedup(result0) == result0
    ensures result == Dedup(result0 + AllFinds(steps, excl))
  {
    result := result0;
    var i := 0;
    assert result0 + AllFinds(steps[..0], excl) == result0;
    while i < |steps|
      invariant 0 <= i <= |steps|
      invariant result == Dedup(result0 + AllFinds(steps[..i], excl))
    {
      result := CollectStep(steps[i], excl, result, result0 + AllFinds(steps[..i], excl));
      AllFindsSnoc(result0, steps, excl, i);
      i := i + 1;
    }
    assert steps[..i] == steps;
  }

  /** `find_frecklecutable_dirs` (utils.py:56-93). */
  method FindFrecklecutableDirs(fs: FileSystem, excl: set<string>, path: string, useRootPath: bool)
    returns (result: seq<string>)
    ensures result == FrecklecutableDirs(fs, excl, path, useRootPath)
  {
    if !IsDir(fs, path) {
      return [];
    }
    if useRootPath {
      result := [path];
    } else {
      result := [];
    }
    assert Dedup(result) == result;
    result := CollectSteps(TopSteps(fs, excl, path), excl, result);
  }

  // ---------------------------------------------------------------------
  // What find_frecklecutable_dirs finds

  /** `x` is appended while the walk is at step `s`. */
  ghost predicate Found(s: Step, excl: set<string>, x: string) {
    s.dir.Dir? &&
    ((x == s.root && MarkerName in FileNames(s.dir.children)) ||
     exists d :: d in Prune(DirNames(s.dir.children), excl) && IsCollectionDirName(d) && x == Join(s.root, d))
  }

  lemma {:induction false} DirFindsMember(root: string, dirnames: seq<string>, x: string)
    ensures x in DirFinds(root, dirnames) <==> exists d :: d in dirnames && IsCollectionDirName(d) && x == Join(root, d)
  {
    if dirnames != [] {
      var n := |dirnames| - 1;
      DirFindsMember(root, dirnames[..n], x);
      assert dirnames == dirnames[..n] + [dirnames[n]];
    }
  }

  lemma {:induction false} MarkerFindsMember(root: string, filenames: seq<string>, x: string)
    ensures x in MarkerFinds(root, filenames) <==> x == root && MarkerName in filenames
  {
    if filenames != [] {
      var n := |filenames| - 1;
      MarkerFindsMember(root, filenames[..n], x);
      assert filenames == filenames[..n] + [filenames[n]];
    }
  }

  lemma StepFindsMember(s: Step, excl: set<string>, x: string)
    ensures x in StepFinds(s, excl) <==> Found(s, excl, x)
  {
    if s.dir.Dir? {
      DirFindsMember(s.root, Prune(DirNames(s.dir.children), excl), x);
      MarkerFindsMember(s.root, FileNames(s.dir.children), x);
    }
  }

  lemma {:induction false} AllFindsMember(steps: seq<Step>, excl: set<string>, x: string)
    ensures x in AllFinds(steps, excl) <==> exists s :: s in steps && Found(s, excl, x)
  {
    if steps != [] {
      var n := |steps| - 1;
      AllFindsMember(steps[..n], excl, x);
      StepFindsMember(steps[n], excl, x);
      assert steps == steps[..n] + [steps[n]];
    }
  }

  /**
   * A path is in the result exactly when it is the root path given with
   * `use_root_path`, or a folder the walk meets that is named
   * `frecklecutables`/`.frecklecutables` or holds the marker file; and every
   * folder the walk meets lies below `realpath(path)` along names none of
   * which is excluded, so nothing beneath an excluded folder is found.
   */
  lemma DiscoveredFolders(fs: FileSystem, excl: set<string>, path: string, useRootPath: bool, x: string)
    requires IsDir(fs, path)
    ensures x in FrecklecutableDirs(fs, excl, path, useRootPath) <==>
            (useRootPath && x == path) || exists s :: s in TopSteps(fs, excl, path) && Found(s, excl, x)
    ensures forall s :: s in TopSteps(fs, excl, path) ==> StepShape(excl, fs.realpath(path), s)
  {
    var steps := TopSteps(fs, excl, path);
    DedupMember(Candidates(fs, excl, path, useRootPath), x);
    AllFindsMember(steps, excl, x);
    var top := fs.realpath(path);
    var e := fs.lookup(top);
    if e.Some? && e.value.Dir? {
      WalkShape(excl, top, [], top, e.value);
    }
  }

  /** No folder is listed twice (as the same string). */
  lemma NoFolderTwice(fs: FileSystem, excl: set<string>, path: string, useRootPath: bool)
    ensures Distinct(FrecklecutableDirs(fs, excl, path, useRootPath))
  {
    DedupIsDistinct(Candidates(fs, excl, path, useRootPath));
  }

  /** With `use_root_path`, the root path comes first. */
  lemma RootPathFirst(fs: FileSystem, excl: set<string>, path: string)
    requires IsDir(fs, path)
    ensures FrecklecutableDirs(fs, excl, path, true) != []
    ensures FrecklecutableDirs(fs, excl, path, true)[0] == path
  {
    DedupHead(Candidates(fs, excl, path, true));
  }

  /** Nothing found at a step of a sane tree is shorter than that step's folder. */
  lemma FoundNotShorter(s: Step, excl: set<string>, x: string)
    requires s.dir.Dir? && SaneTree(s.dir) && Found(s, excl, x)
    ensures |x| >= |s.root|
  {
    if x != s.root {
      var d :| d in Prune(DirNames(s.dir.children), excl) && IsCollectionDirName(d) && x == Join(s.root, d);
      DirNamesSane(s.dir.children);
      JoinLonger(s.root, d);
    }
  }

  /** The starting folder finds itself only through the marker file. */
  lemma TopFindsItself(s: Step, excl: set<string>)
    requires s.dir.Dir? && SaneTree(s.dir)
    ensures Found(s, excl, s.root) <==> MarkerName in FileNames(s.dir.children)
  {
    if exists d :: d in Prune(DirNames(s.dir.children), excl) && IsCollectionDirName(d) && s.root == Join(s.root, d) {
      var d :| d in Prune(DirNames(s.dir.children), excl) && IsCollectionDirName(d) && s.root == Join(s.root, d);
      DirNamesSane(s.dir.children);
      JoinLonger(s.root, d);
    }
  }

  /**
   * Without `use_root_path`, the walked root (`realpath(path)`) is in the
   * result exactly when it directly holds the marker file.
   */
  lemma RootOnlyWithMarker(fs: FileSystem, excl: set<string>, path: string)
    requires IsDir(fs, path)
    requires fs.lookup(fs.realpath(path)).Some? && fs.lookup(fs.realpath(path)).value.Dir?
    requires SaneTree(fs.lookup(fs.realpath(path)).value)
    ensures fs.realpath(path) in FrecklecutableDirs(fs, excl, path, false) <==>
            MarkerName in FileNames(fs.lookup(fs.realpath(path)).value.children)
  {
    var top := fs.realpath(path);
    var e := fs.lookup(top).value;
    var steps := TopSteps(fs, excl, path);
    assert steps == Walk(excl, [], top, e);
    DiscoveredFolders(fs, excl, path, false, top);
    WalkLonger(excl, [], top, e);
    TopFindsItself(steps[0], excl);
    forall k | 1 <= k < |steps|
      ensures !Found(steps[k], excl, top)
    {
      if Found(steps[k], excl, top) {
        FoundNotShorter(steps[k], excl, top);
      }
    }
    if exists s :: s in steps && Found(s, excl, top) {
      var s :| s in steps && Found(s, excl, top);
      var k :| 0 <= k < |steps| && steps[k] == s;
    }
  }

  /** Kept paths appear in the order in which the walk first meets them. */
  lemma FirstMetOrder(fs: FileSystem, excl: set<string>, path: string, useRootPath: bool, i: nat, j: nat)
    requires IsDir(fs, path)
    requires i < j < |FrecklecutableDirs(fs, excl, path, useRootPath)|
    ensures FirstIndex(Candidates(fs, excl, path, useRootPath), FrecklecutableDirs(fs, excl, path, useRootPath)[i])
          < FirstIndex(Candidates(fs, excl, path, useRootPath), FrecklecutableDirs(fs, excl, path, useRootPath)[j])
  {
    DedupFirstMetOrder(Candidates(fs, excl, path, useRootPath), i, j);
  }

  /**
   * Repeats are suppressed by exact string only, while the walk starts at
   * `realpath(path)`: a root given by a non-canonical path that holds the
   * marker file is listed twice, once under each spelling.
   */
  lemma RootListedTwice(fs: FileSystem, excl: set<string>, path: string)
    requires IsDir(fs, path) && fs.realpath(path) != path
    requires fs.lookup(fs.realpath(path)).Some? && fs.lookup(fs.realpath(path)).value.Dir?
    requires MarkerName in FileNames(fs.lookup(fs.realpath(path)).value.children)
    ensures path in FrecklecutableDirs(fs, excl, path, true)
    ensures fs.realpath(path) in FrecklecutableDirs(fs, excl, path, true)
  {
    var top := fs.realpath(path);
    var steps := TopSteps(fs, excl, path);
    assert steps[0] == Step([], top, fs.lookup(top).value);
    DiscoveredFolders(fs, excl, path, true, path);
    DiscoveredFolders(fs, excl, path, true, top);
    assert Found(steps[0], excl, top);
  }

  // ---------------------------------------------------------------------
  // is_frecklecutable and find_frecklecutables_in_folder

  /** `is_frecklecutable(file_path, allow_dots_in_filename)` (utils.py:95-104). */
  predicate IsFrecklecutable(fs: FileSystem, filePath: string, allowDotsInFilename: bool)
    ensures IsFrecklecutable(fs, filePath, allowDotsInFilename) <==>
            IsFile(fs, filePath) && (allowDotsInFilename || '.' !in Basename(filePath))
  {
    if !allowDotsInFilename && '.' in Basename(filePath) then false
    else IsFile(fs, filePath)
  }

  /** The record a frecklecutable is listed with: `{"path": ..., "type": "file"}`. */
  function FileMeta(path: string): Value {
    VMap(map["path" := VStr(path), "type" := VStr("file")])
  }

  /** The `result[child] = ...` assignments the folder loop makes, in order. */
  function FolderPairs(fs: FileSystem, path: string, children: seq<string>): seq<(string, Value)> {
    if children == [] then []
    else
      var n := |children| - 1;
      var filePath := fs.realpath(Join(path, children[n]));
      FolderPairs(fs, path, children[..n])
      + (if IsFrecklecutable(fs, filePath, false) then [(children[n], FileMeta(filePath))] else [])
  }

  /**
   * What `find_frecklecutables_in_folder(path, ...)` returns: the listing of
   * `path` filtered to frecklecutables, or the error `os.listdir` raises.
   */
  function InFolder(fs: FileSystem, path: string): Result<ODict<Value>, Error> {
    match fs.lookup(path)
    case Some(e) =>
      if e.Dir? then Ok(FromPairs(FolderPairs(fs, path, Names(e.children))))
      else Err(ListDirFailed(path))
    case None => Err(ListDirFailed(path))
  }

  /**
   * `find_frecklecutables_in_folder` (utils.py:106-118). The dots flag is
   * accepted and not passed on, so the result never depends on it.
   */
  method FindFrecklecutablesInFolder(fs: FileSystem, path: string, allowDotsInFilename: bool)
    returns (r: Result<ODict<Value>, Error>)
    ensures r == InFolder(fs, path)
  {
    var listing := fs.lookup(path);
    if listing.None? || !listing.value.Dir? {
      return Err(ListDirFailed(path));
    }
    var children := Names(listing.value.children);
    var result := Empty();
    assert children[..0] == [];
    var i := 0;
    while i < |children|
      invariant 0 <= i <= |children|
      invariant result == FromPairs(FolderPairs(fs, path, children[..i]))
    {
      var child := children[i];
      var filePath := fs.realpath(Join(path, child));
      assert children[..i + 1][..i] == children[..i] && children[..i + 1][i] == child;
      ghost var pairs := FolderPairs(fs, path, children[..i]);
      if !IsFrecklecutable(fs, filePath, false) {
        assert FolderPairs(fs, path, children[..i + 1]) == pairs + [];
        assert FolderPairs(fs, path, children[..i + 1]) == pairs;
        i := i + 1;
        continue;
      }
      assert FolderPairs(fs, path, children[..i + 1]) == pairs + [(child, FileMeta(filePath))];
      FromPairsSnoc(pairs, child, FileMeta(filePath));
      result := Put(result, child, FileMeta(filePath));
      i := i + 1;
    }
    assert children[..i] == children;
    return Ok(result);
  }

  lemma {:induction false} FolderPairsSpec(fs: FileSystem, path: string, children: seq<string>)
    ensures Firsts(FolderPairs(fs, path, children)) ==
            Qualifying(fs, path, children)
    ensures forall c :: c in Firsts(FolderPairs(fs, path, children)) ==>
              LastValue(FolderPairs(fs, path, children), c) == FileMeta(fs.realpath(Join(path, c)))
  {
    if children != [] {
      var n := |children| - 1;
      FolderPairsSpec(fs, path, children[..n]);
      var ps := FolderPairs(fs, path, children[..n]);
      var filePath := fs.realpath(Join(path, children[n]));
      if IsFrecklecutable(fs, filePath, false) {
        FromPairsSnoc(ps, children[n], FileMeta(filePath));
      } else {
        assert FolderPairs(fs, path, children) == ps + [];
        assert FolderPairs(fs, path, children) == ps;
      }
    }
  }

  /** The children whose resolved path passes `is_frecklecutable` with dots disallowed. */
  function Qualifying(fs: FileSystem, path: string, children: seq<string>): seq<string> {
    if children == [] then []
    else
      var n := |children| - 1;
      Qualifying(fs, path, children[..n])
      + (if IsFrecklecutable(fs, fs.realpath(Join(path, children[n])), false) then [children[n]] else [])
  }

  lemma {:induction false} QualifyingMember(fs: FileSystem, path: string, children: seq<string>, c: string)
    ensures c in Qualifying(fs, path, children) <==>
            c in children && IsFrecklecutable(fs, fs.realpath(Join(path, c)), false)
  {
    if children != [] {
      var n := |children| - 1;
      QualifyingMember(fs, path, children[..n], c);
      assert children == children[..n] + [children[n]];
    }
  }

  /**
   * The folder listing maps exactly the children whose resolved path is a
   * regular file without a `.` in its basename, each to its
   * `{"path": realpath, "type": "file"}` record, in listing order.
   */
  lemma InFolderSpec(fs: FileSystem, path: string, c: string)
    requires InFolder(fs, path).Ok?
    ensures IsDir(fs, path)
    ensures InFolder(fs, path).value.keys == Dedup(Qualifying(fs, path, Names(fs.lookup(path).value.children)))
    ensures c in InFolder(fs, path).value.values <==>
            c in Names(fs.lookup(path).value.children) && IsFrecklecutable(fs, fs.realpath(Join(path, c)), false)
    ensures c in InFolder(fs, path).value.values ==>
            InFolder(fs, path).value.values[c] == FileMeta(fs.realpath(Join(path, c)))
  {
    var names := Names(fs.lookup(path).value.children);
    FromPairsSpec(FolderPairs(fs, path, names));
    FolderPairsSpec(fs, path, names);
    QualifyingMember(fs, path, names, c);
  }

  /**
   * When `realpath` leaves a child's path as it is (no symbolic link on the
   * way), a listed name never contains a `.`.
   */
  lemma InFolderNoDots(fs: FileSystem, path: string, c: string)
    requires InFolder(fs, path).Ok? && c in InFolder(fs, path).value.values
    requires SaneName(c) && fs.realpath(Join(path, c)) == Join(path, c)
    ensures '.' !in c
  {
    InFolderSpec(fs, path, c);
    BasenameJoin(path, c);
  }

  // ---------------------------------------------------------------------
  // FrecklecutableFinder

  /**
   * Merging the listings of `dirs`, in order, into `acc`
   * (utils.py:156-158); the first folder that cannot be listed aborts.
   */
  function MergeFolders(fs: FileSystem, merge: Merge, acc: Dict, dirs: seq<string>): Result<Dict, Error>
    decreases |dirs|
  {
    if dirs == [] then Ok(acc)
    else
      match InFolder(fs, dirs[0])
      case Err(e) => Err(e)
      case Ok(fx) => MergeFolders(fs, merge, merge(acc, VMap(fx.values)), dirs[1..])
  }

  /** The name table one search root yields (utils.py:153-158). */
  function ScanRoot(fs: FileSystem, excl: set<string>, merge: Merge, path: string): Result<Dict, Error> {
    MergeFolders(fs, merge, map[], FrecklecutableDirs(fs, excl, path, true))
  }

  /**
   * Merging the listings of `dirs` succeeds iff every folder can be listed;
   * then, for a key-keeping merge, a name is in the result iff it was in
   * `acc` or some folder lists it.
   */
  lemma {:induction false} MergeFoldersNames(fs: FileSystem, merge: Merge, acc: Dict, dirs: seq<string>, name: string)
    requires KeepsKeys(merge)
    ensures MergeFolders(fs, merge, acc, dirs).Ok? <==> forall d :: d in dirs ==> InFolder(fs, d).Ok?
    ensures MergeFolders(fs, merge, acc, dirs).Ok? ==>
              (name in MergeFolders(fs, merge, acc, dirs).value <==>
               name in acc || exists d :: d in dirs && InFolder(fs, d).Ok? && name in InFolder(fs, d).value.values)
    decreases |dirs|
  {
    if dirs != [] {
      var fx := InFolder(fs, dirs[0]);
      assert forall d :: d in dirs <==> d == dirs[0] || d in dirs[1..];
      if fx.Ok? {
        MergeFoldersNames(fs, merge, merge(acc, VMap(fx.value.values)), dirs[1..], name);
      }
    }
  }

  /**
   * A root's scan succeeds iff every folder `find_frecklecutable_dirs` finds
   * can be listed; then, for a key-keeping merge, a name is in the root's
   * table iff one of those folders lists a frecklecutable of that name.
   */
  lemma ScanRootNames(fs: FileSystem, excl: set<string>, merge: Merge, path: string, name: string)
    requires KeepsKeys(merge)
    ensures ScanRoot(fs, excl, merge, path).Ok? <==>
              forall d :: d in FrecklecutableDirs(fs, excl, path, true) ==> InFolder(fs, d).Ok?
    ensures ScanRoot(fs, excl, merge, path).Ok? ==>
              (name in ScanRoot(fs, excl, merge, path).value <==>
               exists d :: d in FrecklecutableDirs(fs, excl, path, true) && InFolder(fs, d).Ok? &&
                           name in InFolder(fs, d).value.values)
  {
    MergeFoldersNames(fs, merge, map[], FrecklecutableDirs(fs, excl, path, true), name);
  }

  /** The scan of one root (utils.py:153-158), with its loop over folders. */
  method ScanPath(fs: FileSystem, excl: set<string>, merge: Merge, path: string) returns (r: Result<Dict, Error>)
    ensures r == ScanRoot(fs, excl, merge, path)
  {
    var commands: Dict := map[];
    var dirs := FindFrecklecutableDirs(fs, excl, path, true);
    var j := 0;
    while j < |dirs|
      invariant 0 <= j <= |dirs|
      invariant MergeFolders(fs, merge, map[], dirs) == MergeFolders(fs, merge, commands, dirs[j..])
    {
      var fx := FindFrecklecutablesInFolder(fs, dirs[j], false);
      assert dirs[j..][1..] == dirs[j + 1..];
      if fx.Err? {
        return Err(fx.error);
      }
      commands := merge(commands, VMap(fx.value.values));
      j := j + 1;
    }
    return Ok(commands);
  }

  /** The cached tables of `order`, in that order. */
  function Tables(order: seq<string>, cache: map<string, Dict>): (r: seq<Dict>)
    requires forall p :: p in order ==> p in cache
    ensures |r| == |order| && forall i :: 0 <= i < |order| ==> r[i] == cache[order[i]]
  {
    seq(|order|, i requires 0 <= i < |order| => cache[order[i]])
  }

  /**
   * The tables of `order` merged in that order into an empty table
   * (utils.py:148, 159-161, 163).
   */
  function MergeRoots(merge: Merge, order: seq<string>, cache: map<string, Dict>): Dict
    requires forall q :: q in order ==> q in cache
  {
    if order == [] then map[]
    else merge(MergeRoots(merge, order[..|order| - 1], cache), VMap(cache[order[|order| - 1]]))
  }

  /** `MergeRoots` is the left fold of `dict_merge` over the cached tables. */
  lemma {:induction false} MergeRootsFold(merge: Merge, order: seq<string>, cache: map<string, Dict>)
    requires forall q :: q in order ==> q in cache
    ensures MergeRoots(merge, order, cache) == FoldMerge(merge, map[], Tables(order, cache))
    decreases |order|
  {
    if order != [] {
      var init, last := order[..|order| - 1], order[|order| - 1];
      MergeRootsFold(merge, init, cache);
      assert Tables(order, cache) == Tables(init, cache) + [cache[last]];
      FoldMergeSnoc(merge, map[], Tables(init, cache), cache[last]);
    }
  }

  /** One more root merged (utils.py:163). */
  lemma MergeRootsPrefix(merge: Merge, order: seq<string>, i: nat, cache: map<string, Dict>)
    requires i < |order| && forall k :: 0 <= k <= i ==> order[k] in cache
    ensures MergeRoots(merge, order[..i + 1], cache) == merge(MergeRoots(merge, order[..i], cache), VMap(cache[order[i]]))
  {
    assert order[..i + 1][..i] == order[..i];
  }

  /**
   * For a key-keeping merge, a name is in the merged table exactly when
   * some root of `order` has it.
   */
  lemma {:induction false} MergeRootsNames(merge: Merge, order: seq<string>, cache: map<string, Dict>, name: string)
    requires KeepsKeys(merge)
    requires forall q :: q in order ==> q in cache
    ensures name in MergeRoots(merge, order, cache) <==> exists q :: q in order && name in cache[q]
    decreases |order|
  {
    if order != [] {
      var init, last := order[..|order| - 1], order[|order| - 1];
      MergeRootsNames(merge, init, cache, name);
      assert order == init + [last];
      assert MergeRoots(merge, order, cache).Keys == MergeRoots(merge, init, cache).Keys + cache[last].Keys;
    }
  }

  /** Only the tables of the roots in `order` matter. */
  lemma {:induction false} MergeRootsAgree(merge: Merge, order: seq<string>, cache: map<string, Dict>, cache': map<string, Dict>)
    requires forall q :: q in order ==> q in cache && q in cache' && cache[q] == cache'[q]
    ensures MergeRoots(merge, order, cache) == MergeRoots(merge, order, cache')
    decreases |order|
  {
    if order != [] {
      MergeRootsAgree(merge, order[..|order| - 1], cache, cache');
    }
  }

  /**
   * What the two caches of a finder hold: `pathCache` has the scan result
   * of each root scanned so far, each scanned once, and the global cache
   * (once it exists) is their merge in scan order.
   */
  ghost predicate CacheInv(merge: Merge, scan: string -> Result<Dict, Error>, cache: Option<Dict>,
                           pathCache: map<string, Dict>, scanned: seq<string>)
  {
    && Distinct(scanned)
    && (forall p :: p in pathCache <==> p in scanned)
    && (forall p :: p in pathCache ==> scan(p) == Ok(pathCache[p]))
    && (cache.None? ==> scanned == [])
    && (cache.Some? ==> cache.value == MergeRoots(merge, scanned, pathCache))
  }

  /** Caching a freshly scanned root keeps `CacheInv`. */
  lemma CacheInvRemember(merge: Merge, scan: string -> Result<Dict, Error>, cache: Dict,
                         pathCache: map<string, Dict>, scanned: seq<string>, path: string, table: Dict)
    requires CacheInv(merge, scan, Some(cache), pathCache, scanned)
    requires path !in pathCache && scan(path) == Ok(table)
    ensures CacheInv(merge, scan, Some(merge(cache, VMap(table))), pathCache[path := table], scanned + [path])
  {
    MergeRootsAgree(merge, scanned, pathCache, pathCache[path := table]);
    assert (scanned + [path])[..|scanned|] == scanned;
  }

  /** The first call of `get_all_dictlets` starts the global cache empty. */
  lemma CacheInvStart(merge: Merge, scan: string -> Result<Dict, Error>,
                      pathCache: map<string, Dict>, scanned: seq<string>)
    requires CacheInv(merge, scan, None, pathCache, scanned)
    ensures CacheInv(merge, scan, Some(map[]), pathCache, scanned)
  {
  }

  /** `cache'` keeps every entry of `cache` and adds entries only for `roots`. */
  ghost predicate Extends(cache: map<string, Dict>, cache': map<string, Dict>, roots: seq<string>) {
    && (forall p :: p in cache ==> p in cache' && cache'[p] == cache[p])
    && (forall p :: p in cache' ==> p in cache || p in roots)
  }

  /**
   * Once every root is cached, a later `get_all_dictlets` leaves `path_cache`
   * as it was: no root is scanned a second time.
   */
  lemma CachedRootsNotRescanned(cache: map<string, Dict>, cache': map<string, Dict>, roots: seq<string>)
    requires forall p :: p in roots ==> p in cache
    requires Extends(cache, cache', roots)
    ensures cache' == cache
  {
    assert cache'.Keys == cache.Keys;
  }

  lemma ExtendsTrans(c0: map<string, Dict>, c1: map<string, Dict>, c2: map<string, Dict>, roots: seq<string>, path: string)
    requires Extends(c0, c1, roots) && Extends(c1, c2, [path]) && path in roots
    ensures Extends(c0, c2, roots)
  {
  }

  /**
   * The roots of `order` that a pass over `order` scans, in scanning order:
   * each root that is not in `cached`, at its first occurrence.
   */
  function FreshRoots(order: seq<string>, cached: set<string>): (r: seq<string>)
    ensures forall q :: q in r ==> q in order && q !in cached
    decreases |order|
  {
    if order == [] then []
    else
      var init, last := order[..|order| - 1], order[|order| - 1];
      if last in cached || last in init then FreshRoots(init, cached) else FreshRoots(init, cached) + [last]
  }

  /** A pass scans every uncached root of `order` exactly once. */
  lemma {:induction false} FreshRootsOnce(order: seq<string>, cached: set<string>)
    ensures Distinct(FreshRoots(order, cached))
    ensures forall q :: q in FreshRoots(order, cached) <==> q in order && q !in cached
    decreases |order|
  {
    if order != [] {
      var init, last := order[..|order| - 1], order[|order| - 1];
      FreshRootsOnce(init, cached);
      assert order == init + [last];
    }
  }

  /**
   * One turn of the pass over `order`: if the roots cached so far are the
   * old ones and those met before, and the scan log grew by the fresh roots
   * met before, then the same holds after `order[i]` is made sure of.
   */
  lemma FreshRootsStep(order: seq<string>, i: nat, cached: set<string>,
                       before: set<string>, after: set<string>,
                       log0: seq<string>, logBefore: seq<string>, logAfter: seq<string>)
    requires i < |order|
    requires forall q :: q in before <==> q in cached || q in order[..i]
    requires logBefore == log0 + FreshRoots(order[..i], cached)
    requires order[i] in before ==> after == before && logAfter == logBefore
    requires order[i] !in before ==> after == before + {order[i]} && logAfter == logBefore + [order[i]]
    ensures forall q :: q in after <==> q in cached || q in order[..i + 1]
    ensures logAfter == log0 + FreshRoots(order[..i + 1], cached)
  {
    assert order[..i + 1] == order[..i] + [order[i]];
    assert order[..i + 1][..i] == order[..i];
  }

  /** The roots cached so far are the ones cached before and the roots met so far. */
  ghost predicate CachedSoFar(pathCache: map<string, Dict>, cached: set<string>, met: seq<string>) {
    forall q :: q in pathCache <==> q in cached || q in met
  }

  /** From an empty cache, a pass over distinct roots scans them in `order`. */
  lemma {:induction false} FreshRootsAll(order: seq<string>)
    requires Distinct(order)
    ensures FreshRoots(order, {}) == order
    decreases |order|
  {
    if order != [] {
      var init := order[..|order| - 1];
      assert Distinct(init) by {
        forall i, j | 0 <= i < j < |init| ensures init[i] != init[j] {
          assert init[i] == order[i] && init[j] == order[j];
        }
      }
      FreshRootsAll(init);
      assert order[|order| - 1] !in init by {
        forall k | 0 <= k < |init| ensures init[k] != order[|order| - 1] {
          assert init[k] == order[k];
        }
      }
      assert order == init + [order[|order| - 1]];
    }
  }

  /**
   * `FrecklecutableFinder` (utils.py:121-183): looks a frecklecutable up by
   * path or by name across the search roots in `paths`, scanning each root
   * at most once and keeping what it found.
   */
  class FrecklecutableFinder {
    const paths: seq<string>
    const fs: FileSystem
    const excl: set<string>
    const merge: Merge

    /** `frecklecutable_cache`: `None` until the first scan, then every scanned table merged. */
    var frecklecutableCache: Option<Dict>
    /** `path_cache`: the name table of every root scanned so far. */
    var pathCache: map<string, Dict>
    /** The roots in the order they were scanned. */
    ghost var scanned: seq<string>
    /** What scanning one root yields; `ScansRoots` ties it to `ScanRoot`. */
    ghost const scan: string -> Result<Dict, Error>

    ghost predicate ScansRoots() {
      forall p {:trigger ScanRoot(fs, excl, merge, p)} :: scan(p) == ScanRoot(fs, excl, merge, p)
    }

    ghost predicate Valid()
      reads this
    {
      CacheInv(merge, scan, frecklecutableCache, pathCache, scanned)
    }

    constructor (paths: seq<string>, fs: FileSystem, excl: set<string>, merge: Merge)
      ensures Valid() && ScansRoots()
      ensures this.paths == paths && this.fs == fs && this.excl == excl && this.merge == merge
      ensures frecklecutableCache == None && pathCache == map[]
    {
      this.paths, this.fs, this.excl, this.merge := paths, fs, excl, merge;
      frecklecutableCache := None;
      pathCache := map[];
      scanned := [];
      scan := p => ScanRoot(fs, excl, merge, p);
    }

    /** Caching one freshly scanned root (utils.py:159-161). */
    method Remember(path: string, table: Dict)
      requires Valid() && frecklecutableCache.Some?
      requires path !in pathCache && scan(path) == Ok(table)
      modifies this
      ensures Valid() && frecklecutableCache.Some?
      ensures pathCache == old(pathCache)[path := table] && scanned == old(scanned) + [path]
      ensures frecklecutableCache == Some(merge(old(frecklecutableCache).value, VMap(table)))
    {
      CacheInvRemember(merge, scan, frecklecutableCache.value, pathCache, scanned, path, table);
      pathCache := pathCache[path := table];
      scanned := scanned + [path];
      frecklecutableCache := Some(merge(frecklecutableCache.value, VMap(table)));
    }

    /** One turn of the loop over roots (utils.py:150-161): scan `path` unless it is cached. */
    method ScanIfUncached(path: string) returns (failure: Option<Error>)
      requires Valid() && ScansRoots() && frecklecutableCache.Some?
      modifies this
      ensures Valid() && frecklecutableCache.Some?
      ensures Extends(old(pathCache), pathCache, [path])
      ensures path in old(pathCache) ==> failure.None? && pathCache == old(pathCache) && scanned == old(scanned)
      ensures path !in old(pathCache) && failure.None? ==> path in pathCache && scanned == old(scanned) + [path]
      ensures failure.Some? ==>
                path !in pathCache && scan(path) == Err(failure.value) &&
                pathCache == old(pathCache) && scanned == old(scanned)
    {
      if path in pathCache {
        return None;
      }
      var commands := ScanPath(fs, excl, merge, path);
      if commands.Err? {
        return Some(commands.error);
      }
      Remember(path, commands.value);
      return None;
    }

    /**
     * One turn of the loop over `paths` (utils.py:150-163): make sure of
     * `paths[i]` and merge its table into the result so far.
     */
    method Advance(i: nat, all: Dict, ghost start: map<string, Dict>, ghost cached0: set<string>, ghost log0: seq<string>)
      returns (failure: Option<Error>, all': Dict)
      requires i < |paths|
      requires Valid() && ScansRoots() && frecklecutableCache.Some?
      requires Extends(start, pathCache, paths)
      requires CachedSoFar(pathCache, cached0, paths[..i])
      requires scanned == log0 + FreshRoots(paths[..i], cached0)
      requires all == MergeRoots(merge, paths[..i], pathCache)
      modifies this
      ensures Valid() && frecklecutableCache.Some?
      ensures Extends(start, pathCache, paths)
      ensures failure.Some? ==>
                paths[i] !in pathCache && scan(paths[i]) == Err(failure.value) &&
                pathCache == old(pathCache) && scanned == old(scanned)
      ensures failure.None? ==>
                && CachedSoFar(pathCache, cached0, paths[..i + 1])
                && scanned == log0 + FreshRoots(paths[..i + 1], cached0)
                && all' == MergeRoots(merge, paths[..i + 1], pathCache)
    {
      var path := paths[i];
      ghost var before := pathCache;
      ghost var logBefore := scanned;
      failure := ScanIfUncached(path);
      ExtendsTrans(start, before, pathCache, paths, path);
      if failure.Some? {
        return failure, all;
      }
      FreshRootsStep(paths, i, cached0, before.Keys, pathCache.Keys, log0, logBefore, scanned);
      MergeRootsAgree(merge, paths[..i], before, pathCache);
      MergeRootsPrefix(merge, paths, i, pathCache);
      all' := merge(all, VMap(pathCache[path]));
    }

    /**
     * The loop of `get_all_dictlets` (utils.py:149-165), once the global
     * cache exists: every root not scanned before is scanned and cached in
     * `paths` order; the result merges the cached tables of all roots in
     * `paths` order.
     */
    method MergeAll() returns (r: Result<Dict, Error>)
      requires Valid() && ScansRoots() && frecklecutableCache.Some?
      modifies this
      ensures Valid() && frecklecutableCache.Some?
      ensures Extends(old(pathCache), pathCache, paths)
      ensures r.Ok? ==> forall p :: p in paths ==> p in pathCache
      ensures r.Ok? ==> r.value == MergeRoots(merge, paths, pathCache)
      ensures r.Ok? ==> scanned == old(scanned) + FreshRoots(paths, old(pathCache).Keys)
      ensures r.Err? ==>
                exists i :: 0 <= i < |paths| && paths[i] !in pathCache && scan(paths[i]) == Err(r.error) &&
                            (forall k :: 0 <= k < i ==> paths[k] in pathCache) &&
                            scanned == old(scanned) + FreshRoots(paths[..i], old(pathCache).Keys)
    {
      ghost var cached0 := pathCache.Keys;
      ghost var log0 := scanned;
      var all: Dict := map[];
      var i := 0;
      while i < |paths|
        invariant 0 <= i <= |paths|
        invariant Valid() && frecklecutableCache.Some?
        invariant Extends(old(pathCache), pathCache, paths)
        invariant CachedSoFar(pathCache, cached0, paths[..i])
        invariant scanned == log0 + FreshRoots(paths[..i], cached0)
        invariant all == MergeRoots(merge, paths[..i], pathCache)
      {
        var failure;
        failure, all := Advance(i, all, old(pathCache), cached0, log0);
        if failure.Some? {
          assert forall k :: 0 <= k < i ==> paths[k] in paths[..i];
          return Err(failure.value);
        }
        i := i + 1;
      }
      assert paths[..i] == paths;
      return Ok(all);
    }

    /**
     * `get_all_dictlets` (utils.py:144-165): the global cache is started
     * empty on the first call, then every root not scanned before is
     * scanned and cached; the result merges the cached tables of all roots
     * in `paths` order.
     */
    method GetAllDictlets() returns (r: Result<Dict, Error>)
      requires Valid() && ScansRoots()
      modifies this
      ensures Valid() && frecklecutableCache.Some?
      ensures Extends(old(pathCache), pathCache, paths)
      ensures r.Ok? ==> forall p :: p in paths ==> p in pathCache
      ensures r.Ok? ==> r.value == MergeRoots(merge, paths, pathCache)
      ensures r.Ok? ==> scanned == old(scanned) + FreshRoots(paths, old(pathCache).Keys)
      ensures r.Ok? && old(scanned) == [] && Distinct(paths) ==> frecklecutableCache.value == r.value
      ensures r.Err? ==>
                exists i :: 0 <= i < |paths| && paths[i] !in pathCache && scan(paths[i]) == Err(r.error) &&
                            (forall k :: 0 <= k < i ==> paths[k] in pathCache) &&
                            scanned == old(scanned) + FreshRoots(paths[..i], old(pathCache).Keys)
    {
      ghost var log0 := scanned;
      assert log0 == [] ==> pathCache.Keys == {};
      if frecklecutableCache.None? {
        CacheInvStart(merge, scan, pathCache, scanned);
        frecklecutableCache := Some(map[]);
      }
      r := MergeAll();
      if r.Ok? && log0 == [] && Distinct(paths) {
        FreshRootsAll(paths);
        assert scanned == paths;
      }
    }

    /** `get_all_dictlet_names` (utils.py:140-142). */
    method GetAllDictletNames() returns (r: Result<set<string>, Error>)
      requires Valid() && ScansRoots()
      modifies this
      ensures Valid() && frecklecutableCache.Some?
      ensures Extends(old(pathCache), pathCache, paths)
      ensures r.Ok? ==> forall p :: p in paths ==> p in pathCache
      ensures r.Ok? ==> r.value == MergeRoots(merge, paths, pathCache).Keys
      ensures r.Ok? ==> scanned == old(scanned) + FreshRoots(paths, old(pathCache).Keys)
      ensures r.Ok? && old(scanned) == [] && Distinct(paths) ==> r.value == frecklecutableCache.value.Keys
      ensures r.Err? ==>
                exists i :: 0 <= i < |paths| && paths[i] !in pathCache && scan(paths[i]) == Err(r.error) &&
                            (forall k :: 0 <= k < i ==> paths[k] in pathCache) &&
                            scanned == old(scanned) + FreshRoots(paths[..i], old(pathCache).Keys)
    {
      var all := GetAllDictlets();
      if all.Err? {
        return Err(all.error);
      }
      return Ok(all.value.Keys);
    }

    /**
     * `get_dictlet` (utils.py:167-183): before the first scan, `name` is
     * first tried as a path; otherwise (or if that fails) the roots are
     * scanned and `name` is looked up in the cache. `VNone` is Python's `None`.
     */
    method GetDictlet(name: string) returns (r: Result<Value, Error>)
      requires Valid() && ScansRoots()
      modifies this
      ensures Valid()
      ensures Extends(old(pathCache), pathCache, paths)
      ensures old(frecklecutableCache).None? && IsFrecklecutable(fs, fs.realpath(name), false) ==>
                r == Ok(FileMeta(fs.realpath(name))) && unchanged(this)
      ensures !(old(frecklecutableCache).None? && IsFrecklecutable(fs, fs.realpath(name), false)) ==>
                && frecklecutableCache.Some?
                && (r.Ok? ==> r.value == GetOr(frecklecutableCache.value, name, VNone))
                && (r.Ok? ==> forall p :: p in paths ==> p in pathCache)
                && (r.Ok? ==> scanned == old(scanned) + FreshRoots(paths, old(pathCache).Keys))
                && (r.Err? ==>
                      exists i :: 0 <= i < |paths| && paths[i] !in pathCache && scan(paths[i]) == Err(r.error) &&
                                  (forall k :: 0 <= k < i ==> paths[k] in pathCache) &&
                                  scanned == old(scanned) + FreshRoots(paths[..i], old(pathCache).Keys))
    {
      var dictlet := VNone;
      if frecklecutableCache.None? {
        var absFile := fs.realpath(name);
        if IsFile(fs, absFile) && IsFrecklecutable(fs, absFile, false) {
          dictlet := FileMeta(absFile);
        }
      }
      if dictlet == VNone {
        var names := GetAllDictletNames();
        if names.Err? {
          return Err(names.error);
        }
        dictlet := GetOr(frecklecutableCache.value, name, VNone);
      }
      return Ok(dictlet);
    }
  }
}
