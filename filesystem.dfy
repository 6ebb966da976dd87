/**
 * The filesystem as the discovery code sees it through `os.path` and
 * `os.walk`: an abstract lookup from path strings to entries (following
 * symbolic links) and an abstract `os.path.realpath`. Neither is
 * implemented here; they are parameters of every operation that uses them.
 */
module Files {
  import opened Wrappers

  /** What a path resolves to. `Special` is anything neither a regular file nor a directory. */
  datatype Entry =
    | File(name: string)
    | Special(name: string)
    | Dir(name: string, children: seq<Entry>)

  datatype FileSystem = FileSystem(lookup: string -> Option<Entry>, realpath: string -> string)

  /** `os.path.isdir(p)`. */
  predicate IsDir(fs: FileSystem, p: string) {
    fs.lookup(p).Some? && fs.lookup(p).value.Dir?
  }

  /** `os.path.isfile(p)`. */
  predicate IsFile(fs: FileSystem, p: string) {
    fs.lookup(p).Some? && fs.lookup(p).value.File?
  }

  /** `os.path.join(a, b)` for POSIX paths. */
  function Join(a: string, b: string): string {
    if b != [] && b[0] == '/' then b
    else if a == [] || a[|a| - 1] == '/' then a + b
    else a + "/" + b
  }

  /** `os.path.join(a, n1, n2, ...)`. */
  function JoinAll(a: string, names: seq<string>): string {
    if names == [] then a
    else Join(JoinAll(a, names[..|names| - 1]), names[|names| - 1])
  }

  /** `os.path.basename(p)`: everything after the last `/`. */
  function Basename(p: string): (r: string)
    ensures '/' !in r
  {
    if p == [] || p[|p| - 1] == '/' then []
    else Basename(p[..|p| - 1]) + [p[|p| - 1]]
  }

  /** A name a directory listing can hold: not empty and without a separator. */
  predicate SaneName(n: string) {
    n != [] && '/' !in n
  }

  /** Every name below `e` is a sane name. */
  predicate SaneTree(e: Entry) {
    e.Dir? ==> forall i :: 0 <= i < |e.children| ==> SaneName(e.children[i].name) && SaneTree(e.children[i])
  }

  /** Joining a sane name makes a path strictly longer. */
  lemma JoinLonger(a: string, b: string)
    requires SaneName(b)
    ensures |Join(a, b)| > |a|
  {
  }

  /** `os.listdir`: all names, in listing order. */
  function Names(kids: seq<Entry>): seq<string> {
    if kids == [] then [] else [kids[0].name] + Names(kids[1..])
  }

  /** The `dirnames` that `os.walk` yields: children that are directories. */
  function DirNames(kids: seq<Entry>): seq<string> {
    if kids == [] then []
    else (if kids[0].Dir? then [kids[0].name] else []) + DirNames(kids[1..])
  }

  /** The `filenames` that `os.walk` yields: every other child. */
  function FileNames(kids: seq<Entry>): seq<string> {
    if kids == [] then []
    else (if kids[0].Dir? then [] else [kids[0].name]) + FileNames(kids[1..])
  }

  /** `[d for d in dirnames if d not in excl]`. */
  function Prune(names: seq<string>, excl: set<string>): (r: seq<string>)
    ensures forall i :: 0 <= i < |r| ==> r[i] !in excl && r[i] in names
  {
    if names == [] then []
    else (if names[0] in excl then [] else [names[0]]) + Prune(names[1..], excl)
  }

  predicate NoneExcluded(rel: seq<string>, excl: set<string>) {
    forall i :: 0 <= i < |rel| ==> rel[i] !in excl
  }

  /** One triple yielded by `os.walk`; `rel` names the directories descended from the top. */
  datatype Step = Step(rel: seq<string>, root: string, dir: Entry)

  /**
   * `os.walk(root, topdown=True, followlinks=True)` driven by a caller that
   * prunes `dirnames` to the names outside `excl` before the walk descends:
   * the directory itself first, then the walks of its kept subdirectories
   * in listing order.
   */
  function Walk(excl: set<string>, rel: seq<string>, root: string, e: Entry): (r: seq<Step>)
    requires e.Dir?
    ensures r != [] && r[0] == Step(rel, root, e)
    ensures forall k :: 0 <= k < |r| ==> r[k].dir.Dir?
    decreases e, 1, 0
  {
    [Step(rel, root, e)] + WalkKids(excl, rel, root, e, 0)
  }

  function WalkKids(excl: set<string>, rel: seq<string>, root: string, parent: Entry, i: nat): (r: seq<Step>)
    requires parent.Dir? && i <= |parent.children|
    ensures forall k :: 0 <= k < |r| ==> r[k].dir.Dir?
    decreases parent, 0, |parent.children| - i
  {
    if i == |parent.children| then []
    else
      var c := parent.children[i];
      (if c.Dir? && c.name !in excl then Walk(excl, rel + [c.name], Join(root, c.name), c) else [])
      + WalkKids(excl, rel, root, parent, i + 1)
  }

  /** A visited directory below `top`: reached by joining names none of which is excluded. */
  ghost predicate StepShape(excl: set<string>, top: string, s: Step) {
    NoneExcluded(s.rel, excl) && s.root == JoinAll(top, s.rel)
  }

  /**
   * The walk never descends into an excluded directory: every directory it
   * visits is reached from `top` along names none of which is excluded.
   */
  lemma {:induction false} WalkShape(excl: set<string>, top: string, rel: seq<string>, root: string, e: Entry)
    requires e.Dir? && root == JoinAll(top, rel) && NoneExcluded(rel, excl)
    ensures forall k :: 0 <= k < |Walk(excl, rel, root, e)| ==> StepShape(excl, top, Walk(excl, rel, root, e)[k])
    decreases e, 1, 0
  {
    WalkKidsShape(excl, top, rel, root, e, 0);
  }

  lemma {:induction false} WalkKidsShape(excl: set<string>, top: string, rel: seq<string>, root: string, parent: Entry, i: nat)
    requires parent.Dir? && i <= |parent.children|
    requires root == JoinAll(top, rel) && NoneExcluded(rel, excl)
    ensures forall k :: 0 <= k < |WalkKids(excl, rel, root, parent, i)| ==>
              StepShape(excl, top, WalkKids(excl, rel, root, parent, i)[k])
    decreases parent, 0, |parent.children| - i
  {
    if i < |parent.children| {
      var c := parent.children[i];
      var rest := WalkKids(excl, rel, root, parent, i + 1);
      var here: seq<Step> := if c.Dir? && c.name !in excl then Walk(excl, rel + [c.name], Join(root, c.name), c) else [];
      assert WalkKids(excl, rel, root, parent, i) == here + rest;
      WalkKidsShape(excl, top, rel, root, parent, i + 1);
      if c.Dir? && c.name !in excl {
        var rel' := rel + [c.name];
        assert rel'[..|rel'| - 1] == rel;
        WalkShape(excl, top, rel', Join(root, c.name), c);
      }
      forall k | 0 <= k < |here + rest|
        ensures StepShape(excl, top, (here + rest)[k])
      {
        if k < |here| {
          assert (here + rest)[k] == here[k];
        } else {
          assert (here + rest)[k] == rest[k - |here|];
        }
      }
    }
  }

  /** With sane names, every directory visited after the first has a longer path. */
  lemma {:induction false} WalkLonger(excl: set<string>, rel: seq<string>, root: string, e: Entry)
    requires e.Dir? && SaneTree(e)
    ensures forall k :: 0 <= k < |Walk(excl, rel, root, e)| ==> SaneTree(Walk(excl, rel, root, e)[k].dir)
    ensures forall k :: 1 <= k < |Walk(excl, rel, root, e)| ==> |Walk(excl, rel, root, e)[k].root| > |root|
    decreases e, 1, 0
  {
    WalkKidsLonger(excl, rel, root, e, 0);
  }

  lemma {:induction false} WalkKidsLonger(excl: set<string>, rel: seq<string>, root: string, parent: Entry, i: nat)
    requires parent.Dir? && i <= |parent.children| && SaneTree(parent)
    ensures forall k :: 0 <= k < |WalkKids(excl, rel, root, parent, i)| ==>
              SaneTree(WalkKids(excl, rel, root, parent, i)[k].dir) &&
              |WalkKids(excl, rel, root, parent, i)[k].root| > |root|
    decreases parent, 0, |parent.children| - i
  {
    if i < |parent.children| {
      var c := parent.children[i];
      var rest := WalkKids(excl, rel, root, parent, i + 1);
      var here: seq<Step> := if c.Dir? && c.name !in excl then Walk(excl, rel + [c.name], Join(root, c.name), c) else [];
      assert WalkKids(excl, rel, root, parent, i) == here + rest;
      WalkKidsLonger(excl, rel, root, parent, i + 1);
      if c.Dir? && c.name !in excl {
        JoinLonger(root, c.name);
        WalkLonger(excl, rel + [c.name], Join(root, c.name), c);
      }
      forall k | 0 <= k < |here + rest|
        ensures SaneTree((here + rest)[k].dir) && |(here + rest)[k].root| > |root|
      {
        if k < |here| {
          assert (here + rest)[k] == here[k];
        } else {
          assert (here + rest)[k] == rest[k - |here|];
        }
      }
    }
  }

  /** Directory names in a sane tree are sane. */
  lemma {:induction false} DirNamesSane(kids: seq<Entry>)
    requires forall i :: 0 <= i < |kids| ==> SaneName(kids[i].name)
    ensures forall i :: 0 <= i < |DirNames(kids)| ==> SaneName(DirNames(kids)[i])
  {
    if kids != [] {
      DirNamesSane(kids[1..]);
    }
  }

  /** After a separator (or at the start), the basename is everything that follows. */
  lemma {:induction false} BasenameAfterSeparator(prefix: string, c: string)
    requires prefix == [] || prefix[|prefix| - 1] == '/'
    requires '/' !in c
    ensures Basename(prefix + c) == c
    decreases |c|
  {
    if c != [] {
      var n := |c| - 1;
      assert (prefix + c)[..|prefix + c| - 1] == prefix + c[..n];
      BasenameAfterSeparator(prefix, c[..n]);
    } else {
      assert prefix + c == prefix;
    }
  }

  /** The basename of a sane name joined onto a directory is that name. */
  lemma BasenameJoin(a: string, c: string)
    requires SaneName(c)
    ensures Basename(Join(a, c)) == c
  {
    if a == [] || a[|a| - 1] == '/' {
      BasenameAfterSeparator(a, c);
    } else {
      assert Join(a, c) == (a + "/") + c;
      BasenameAfterSeparator(a + "/", c);
    }
  }
}
