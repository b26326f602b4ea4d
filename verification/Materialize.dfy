/** Restoring a snapshot's tree into a cleared worktree and verifying it again. A path is the list of its
    segments; the worktree is everything in it except the root's own .git. Modes are POSIX permission bits,
    and only their owner part matters here, and not even that to the superuser. */
module Materialize {
  import opened Basics

  type Path = seq<Id>

  datatype Node = File(mode: nat, content: Id) | Directory(mode: nat) | Symlink(target: Id)

  datatype Entry = Entry(path: Path, node: Node)

  const PRIVATE_DIRECTORY: nat := 448   // 0700

  predicate Readable(mode: nat) { (mode / 256) % 2 == 1 }
  predicate Searchable(mode: nat) { (mode / 64) % 2 == 1 }

  // `a` is a directory on the way from the root to `p`.
  predicate Above(a: Path, p: Path) {
    0 < |a| < |p| && p[..|a|] == a
  }

  predicate Listed(tree: seq<Entry>, p: Path) {
    exists e :: e in tree && e.path == p
  }

  // What the snapshot reader has already made sure of: no path twice, no empty path, and whatever is
  // listed above an entry is a directory.
  ghost predicate UniquePaths(tree: seq<Entry>) {
    && Distinct(tree)
    && (forall e :: e in tree ==> e.path != [])
    && (forall d, e :: d in tree && e in tree && Above(d.path, e.path) ==> d.node.Directory?)
  }

  ghost predicate AncestorsListed(tree: seq<Entry>) {
    forall e, n :: e in tree && 0 < n < |e.path| ==> Listed(tree, e.path[..n])
  }

  // The directory right above a path is listed, if there is one.
  predicate ParentListed(tree: seq<Entry>, p: Path) {
    |p| > 1 ==> Listed(tree, p[..|p| - 1])
  }

  ghost predicate ParentsListed(tree: seq<Entry>) {
    forall d :: d in tree && d.node.Directory? ==> ParentListed(tree, d.path)
  }

  // ---- sorting directories, shallowest first ----

  function Insert(e: Entry, sorted: seq<Entry>): seq<Entry> {
    if sorted == [] then [e]
    else if |e.path| <= |sorted[0].path| then [e] + sorted
    else [sorted[0]] + Insert(e, sorted[1..])
  }

  function Directories(tree: seq<Entry>): seq<Entry> {
    if tree == [] then []
    else if tree[0].node.Directory? then Insert(tree[0], Directories(tree[1..]))
    else Directories(tree[1..])
  }

  function Others(tree: seq<Entry>): seq<Entry> {
    if tree == [] then [] else (if tree[0].node.Directory? then [] else [tree[0]]) + Others(tree[1..])
  }

  predicate ByDepth(entries: seq<Entry>) {
    forall i, j :: 0 <= i < j < |entries| ==> |entries[i].path| <= |entries[j].path|
  }

  lemma {:induction false} InsertKeeps(e: Entry, sorted: seq<Entry>)
    requires ByDepth(sorted)
    ensures ByDepth(Insert(e, sorted))
    ensures forall x :: x in Insert(e, sorted) <==> x == e || x in sorted
  {
    if sorted != [] && |e.path| > |sorted[0].path| {
      InsertKeeps(e, sorted[1..]);
      var rest := Insert(e, sorted[1..]);
      forall k | 0 <= k < |rest|
        ensures |sorted[0].path| <= |rest[k].path|
      {
        assert rest[k] in rest;
        if rest[k] != e {
          assert rest[k] in sorted[1..];
        }
      }
    }
  }

  predicate Distinct(entries: seq<Entry>) {
    forall i, j :: 0 <= i < j < |entries| ==> entries[i].path != entries[j].path
  }

  lemma {:induction false} InsertDistinct(e: Entry, sorted: seq<Entry>)
    requires Distinct(sorted) && forall x :: x in sorted ==> x.path != e.path
    ensures Distinct(Insert(e, sorted))
    ensures forall x :: x in Insert(e, sorted) <==> x == e || x in sorted
  {
    if sorted != [] && |e.path| > |sorted[0].path| {
      assert forall x :: x in sorted[1..] ==> x in sorted;
      InsertDistinct(e, sorted[1..]);
      var rest := Insert(e, sorted[1..]);
      forall k | 0 <= k < |rest|
        ensures sorted[0].path != rest[k].path
      {
        assert rest[k] in rest;
        if rest[k] != e {
          var m :| 0 <= m < |sorted[1..]| && sorted[1..][m] == rest[k];
          assert sorted[m + 1] == rest[k];
        }
      }
    }
  }

  lemma {:induction false} SplitExactly(tree: seq<Entry>)
    requires Distinct(tree)
    ensures ByDepth(Directories(tree)) && Distinct(Directories(tree)) && Distinct(Others(tree))
    ensures forall x :: x in Directories(tree) <==> x in tree && x.node.Directory?
    ensures forall x :: x in Others(tree) <==> x in tree && !x.node.Directory?
  {
    if tree != [] {
      SplitExactly(tree[1..]);
      assert forall x :: x in tree <==> x == tree[0] || x in tree[1..];
      if tree[0].node.Directory? {
        InsertKeeps(tree[0], Directories(tree[1..]));
        InsertDistinct(tree[0], Directories(tree[1..]));
      }
    }
  }

  // ---- the tree a snapshot describes, and what an ordinary user can see of it ----

  // The file system says exactly what the snapshot lists: paths, kinds, modes, contents and targets.
  ghost predicate Matches(fs: map<Path, Node>, tree: seq<Entry>) {
    && (forall p :: p in fs <==> Listed(tree, p))
    && (forall e :: e in tree ==> e.path in fs && fs[e.path] == e.node)
  }

  predicate Beneath(dir: Path, p: Path) {
    |dir| < |p| && p[..|dir|] == dir
  }

  predicate Hangs(fs: map<Path, Node>, p: Path) {
    p != [] && (|p| > 1 ==> p[..|p| - 1] in fs && fs[p[..|p| - 1]].Directory?)
  }

  // Everything in a file system hangs in a directory of it.
  ghost predicate Closed(fs: map<Path, Node>) {
    forall p {:trigger Hangs(fs, p)} :: p in fs ==> Hangs(fs, p)
  }

  lemma ClosedPut(fs: map<Path, Node>, p: Path, node: Node)
    requires Closed(fs) && Hangs(fs, p) && (p in fs && fs[p].Directory? ==> node.Directory?)
    ensures Closed(fs[p := node])
  {
    var next := fs[p := node];
    forall q | q in next
      ensures Hangs(next, q)
    {
      assert q != p ==> Hangs(fs, q);
    }
  }

  predicate Seen(superuser: bool, node: Node, hasChildren: bool) {
    superuser ||
    match node
    case File(mode, _) => Readable(mode)
    case Directory(mode) => Readable(mode) && (hasChildren ==> Searchable(mode))
    case Symlink(_) => true
  }

  predicate HasChildren(fs: map<Path, Node>, dir: Path) {
    exists p :: p in fs && Beneath(dir, p)
  }

  ghost predicate Accessible(fs: map<Path, Node>, superuser: bool) {
    forall p :: p in fs ==> Seen(superuser, fs[p], HasChildren(fs, p))
  }

  function Find(tree: seq<Entry>, p: Path): Option<Node> {
    if tree == [] then None else if tree[0].path == p then Some(tree[0].node) else Find(tree[1..], p)
  }

  lemma {:induction false} FindExactly(tree: seq<Entry>, p: Path)
    requires Distinct(tree)
    ensures Find(tree, p).Some? <==> Listed(tree, p)
    ensures forall e :: e in tree && e.path == p ==> Find(tree, p) == Some(e.node)
  {
    if tree != [] {
      FindExactly(tree[1..], p);
      assert tree == [tree[0]] + tree[1..];
    }
  }

  // Made on the way to some entry.
  predicate Implied(entries: seq<Entry>, p: Path) {
    exists e :: e in entries && Above(p, e.path)
  }

  function PathsOf(entries: seq<Entry>): set<Path> {
    set e | e in entries :: e.path
  }

  predicate Accounted(dirs: seq<Entry>, others: seq<Entry>, p: Path) {
    p in PathsOf(dirs) || p in PathsOf(others) || Implied(others, p)
  }

  // The two halves of a snapshot in the order they are restored.
  ghost predicate Halves(dirs: seq<Entry>, others: seq<Entry>) {
    && ByDepth(dirs) && Distinct(dirs)
    && (forall d :: d in dirs ==> d.path != [] && d.node.Directory?)
    && (forall d, e :: d in dirs && e in others ==> e.path != d.path && !Above(e.path, d.path))
  }

  lemma HalvesOf(tree: seq<Entry>)
    requires UniquePaths(tree)
    ensures Halves(Directories(tree), Others(tree))
  {
    SplitExactly(tree);
    forall d, e | d in Directories(tree) && e in Others(tree)
      ensures e.path != d.path && !Above(e.path, d.path)
    {
      assert d in tree && e in tree && d != e;
    }
  }

  // With every entry in place, the directories from index k on already have their own mode. Deepest
  // first means that everything above the next one is still private.
  ghost predicate Moded(fs: map<Path, Node>, dirs: seq<Entry>, others: seq<Entry>, k: nat)
    requires k <= |dirs|
  {
    Closed(fs) && OthersStand(fs, dirs, others) && DirectoriesModed(fs, dirs, others, k)
  }

  ghost predicate OthersStand(fs: map<Path, Node>, dirs: seq<Entry>, others: seq<Entry>) {
    && (forall p {:trigger Accounted(dirs, others, p)} :: p in fs ==> Accounted(dirs, others, p))
    && (forall e :: e in others ==> e.path in fs && fs[e.path] == e.node)
    && (forall e, n :: e in others && 0 < n < |e.path| ==> e.path[..n] in fs)
  }

  ghost predicate DirectoriesModed(fs: map<Path, Node>, dirs: seq<Entry>, others: seq<Entry>, k: nat)
    requires k <= |dirs|
  {
    && (forall p :: p in fs && p !in PathsOf(others) && p !in PathsOf(dirs[k..]) ==> fs[p] == Directory(PRIVATE_DIRECTORY))
    && (forall d :: d in dirs ==> d.path in fs && fs[d.path].Directory?)
    && (forall d :: d in dirs[k..] ==> fs[d.path] == d.node)
  }

  lemma LaterDiffer(dirs: seq<Entry>, k: nat)
    requires Distinct(dirs) && k < |dirs|
    ensures forall e :: e in dirs[k + 1..] ==> e.path != dirs[k].path
    ensures dirs[k..] == [dirs[k]] + dirs[k + 1..]
  {
    forall e | e in dirs[k + 1..]
      ensures e.path != dirs[k].path
    {
      var i :| 0 <= i < |dirs[k + 1..]| && dirs[k + 1..][i] == e;
      assert e == dirs[k + 1 + i];
    }
  }

  // Setting the next directory's own mode disturbs nothing else.
  lemma StillModed(fs: map<Path, Node>, dirs: seq<Entry>, others: seq<Entry>, k: nat)
    requires Halves(dirs, others) && k < |dirs| && Moded(fs, dirs, others, k + 1)
    ensures dirs[k].path in fs && fs[dirs[k].path].Directory? && Moded(fs[dirs[k].path := dirs[k].node], dirs, others, k)
  {
    var d := dirs[k];
    assert d in dirs;
    assert Hangs(fs, d.path);
    ClosedPut(fs, d.path, d.node);
    NextModed(fs, dirs, others, k);
    assert OthersStand(fs[d.path := d.node], dirs, others);
  }

  lemma NextModed(fs: map<Path, Node>, dirs: seq<Entry>, others: seq<Entry>, k: nat)
    requires Halves(dirs, others) && k < |dirs| && DirectoriesModed(fs, dirs, others, k + 1)
    ensures DirectoriesModed(fs[dirs[k].path := dirs[k].node], dirs, others, k)
  {
    var d, later := dirs[k], dirs[k + 1..];
    var next := fs[d.path := d.node];
    LaterDiffer(dirs, k);
    PathsCons(d, later);
    assert d in dirs;
    forall x | x in dirs
      ensures x.path in next && next[x.path].Directory?
    {
    }
    forall x | x in [d] + later
      ensures next[x.path] == x.node
    {
    }
  }

  lemma PathsCons(e: Entry, rest: seq<Entry>)
    ensures PathsOf([e] + rest) == {e.path} + PathsOf(rest)
    ensures forall x :: x in [e] + rest <==> x == e || x in rest
  {
  }

  // Above a directory stand only shallower ones, so none that already has its own mode.
  lemma AboveStillPrivate(fs: map<Path, Node>, dirs: seq<Entry>, others: seq<Entry>, k: nat, n: nat)
    requires Halves(dirs, others) && k < |dirs| && Moded(fs, dirs, others, k + 1)
    requires 0 < n < |dirs[k].path| && dirs[k].path[..n] in fs
    ensures fs[dirs[k].path[..n]] == Directory(PRIVATE_DIRECTORY)
  {
    var p := dirs[k].path;
    assert dirs[k] in dirs && Above(p[..n], p);
    forall e | e in others
      ensures e.path != p[..n]
    {
    }
    forall d | d in dirs[k + 1..]
      ensures d.path != p[..n]
    {
      var i :| 0 <= i < |dirs[k + 1..]| && dirs[k + 1..][i] == d;
      assert d == dirs[k + 1 + i];
    }
  }

  class Worktree {
    const superuser: bool
    var fs: map<Path, Node>

    constructor (superuser: bool)
      ensures this.superuser == superuser && fs == map[]
    {
      this.superuser, fs := superuser, map[];
    }

    // ---- verifying ----

    // A path passes the walk: listed with this very node, and visible.
    ghost predicate Good(tree: seq<Entry>, p: Path)
      reads this
    {
      p in fs && Find(tree, p) == Some(fs[p]) && Seen(superuser, fs[p], HasChildren(fs, p))
    }

    ghost function Under(dir: Path): set<Path>
      reads this
    {
      set p | p in fs && Beneath(dir, p)
    }

    // One entry of a directory that may be searched, and everything beneath it.
    method VisitChild(dir: Path, child: Path, tree: seq<Entry>, expected: set<Path>) returns (ok: bool, left: set<Path>)
      requires Closed(fs) && child in fs && Beneath(dir, child) && |child| == |dir| + 1
      ensures ok <==> Good(tree, child) && forall p :: p in Under(child) ==> Good(tree, p)
      ensures ok ==> left == expected - ({child} + Under(child))
      decreases |Under(dir)|, 0
    {
      left := expected;
      var entry := Find(tree, child);
      if entry == None {
        return false, left;
      }
      left := left - {child};
      if entry.value != fs[child] {
        return false, left;
      }
      if fs[child].Directory? {
        UnderChild(dir, child);
        ok, left := Walk(child, tree, left);
      } else {
        LeafHasNothingUnder(child);
        ok := superuser || fs[child].Symlink? || Readable(fs[child].mode);
      }
    }

    ghost predicate GoodFrom(tree: seq<Entry>, child: Path)
      reads this
    {
      Good(tree, child) && forall p :: p in Under(child) ==> Good(tree, p)
    }

    // Visits a directory's entries in whatever order the file system gives them.
    method WalkChildren(dir: Path, tree: seq<Entry>, children: set<Path>, expected: set<Path>)
      returns (ok: bool, left: set<Path>, ghost seen: set<Path>)
      requires Closed(fs) && forall c :: c in children ==> c in fs && Beneath(dir, c) && |c| == |dir| + 1
      ensures ok <==> forall c :: c in children ==> GoodFrom(tree, c)
      ensures ok ==> left == expected - seen && seen <= Under(dir)
      ensures ok ==> forall c :: c in children ==> {c} + Under(c) <= seen
      decreases |Under(dir)|, 1
    {
      left, seen := expected, {};
      var names := children;
      while names != {}
        invariant names <= children && left == expected - seen && seen <= Under(dir)
        invariant forall c :: c in children - names ==> GoodFrom(tree, c) && {c} + Under(c) <= seen
        decreases names
      {
        var child :| child in names;
        UnderChild(dir, child);
        ok, left := VisitChild(dir, child, tree, left);
        if !ok {
          return;
        }
        names, seen := names - {child}, seen + ({child} + Under(child));
      }
      ok := true;
    }

    method Walk(dir: Path, tree: seq<Entry>, expected: set<Path>) returns (ok: bool, left: set<Path>)
      requires Closed(fs) && (dir == [] || (dir in fs && fs[dir].Directory?))
      ensures ok <==> (dir != [] ==> Seen(superuser, fs[dir], HasChildren(fs, dir))) && forall p :: p in Under(dir) ==> Good(tree, p)
      ensures ok ==> left == expected - Under(dir)
      decreases |Under(dir)|, 2
    {
      left := expected;
      if dir != [] && !superuser && !Readable(fs[dir].mode) {
        return false, left;
      }
      var children := set p | p in fs && Beneath(dir, p) && |p| == |dir| + 1;
      NoChildrenNothingUnder(dir, children);
      if children != {} && dir != [] && !superuser && !Searchable(fs[dir].mode) {
        return false, left;
      }
      ghost var seen;
      ok, left, seen := WalkChildren(dir, tree, children, left);
      ChildrenCover(dir, tree, children);
      if ok {
        SeenAll(dir, children, seen);
      }
    }

    lemma ChildrenCover(dir: Path, tree: seq<Entry>, children: set<Path>)
      requires Closed(fs) && children == set p | p in fs && Beneath(dir, p) && |p| == |dir| + 1
      ensures (forall c :: c in children ==> GoodFrom(tree, c)) <==> (forall p :: p in Under(dir) ==> Good(tree, p))
    {
      CoveredByChildren(dir);
      forall c | c in children
        ensures {c} + Under(c) <= Under(dir)
      {
        UnderChild(dir, c);
      }
      if forall c :: c in children ==> GoodFrom(tree, c) {
        forall p | p in Under(dir)
          ensures Good(tree, p)
        {
          assert ChildOn(dir, p);
          assert GoodFrom(tree, p[..|dir| + 1]);
        }
      }
    }

    lemma SeenAll(dir: Path, children: set<Path>, seen: set<Path>)
      requires Closed(fs) && children == set p | p in fs && Beneath(dir, p) && |p| == |dir| + 1
      requires seen <= Under(dir) && forall c :: c in children ==> {c} + Under(c) <= seen
      ensures seen == Under(dir)
    {
      CoveredByChildren(dir);
      forall p | p in Under(dir)
        ensures p in seen
      {
        assert ChildOn(dir, p);
        var c := p[..|dir| + 1];
        assert c in children && p in {c} + Under(c);
      }
    }

    lemma NoChildrenNothingUnder(dir: Path, children: set<Path>)
      requires Closed(fs) && children == set p | p in fs && Beneath(dir, p) && |p| == |dir| + 1
      ensures HasChildren(fs, dir) <==> children != {}
    {
      CoveredByChildren(dir);
      if HasChildren(fs, dir) {
        var p :| p in fs && Beneath(dir, p);
        assert p in Under(dir);
        assert p[..|dir| + 1] in children;
      }
      if children != {} {
        var child :| child in children;
      }
    }

    lemma UnderChild(dir: Path, child: Path)
      requires Closed(fs) && child in fs && Beneath(dir, child) && |child| == |dir| + 1
      ensures Under(child) < Under(dir) && |Under(child)| < |Under(dir)|
      ensures forall p :: p in Under(dir) && p[..|dir| + 1] == child <==> p == child || p in Under(child)
    {
      forall p | p in Under(child)
        ensures p in Under(dir)
      {
        assert p[..|dir|] == p[..|child|][..|dir|];
      }
      assert child in Under(dir) && child !in Under(child);
      Smaller(Under(child), Under(dir), child);
    }

    lemma Smaller(a: set<Path>, b: set<Path>, x: Path)
      requires a <= b && x in b && x !in a
      ensures a < b && |a| < |b|
    {
      assert a <= b - {x};
      Counts(a, b - {x});
    }

    lemma {:induction false} Counts(a: set<Path>, b: set<Path>)
      requires a <= b
      ensures |a| <= |b|
      decreases a
    {
      if a != {} {
        var x :| x in a;
        Counts(a - {x}, b - {x});
      }
    }

    lemma LeafHasNothingUnder(leaf: Path)
      requires Closed(fs) && leaf in fs && !fs[leaf].Directory?
      ensures Under(leaf) == {} && !HasChildren(fs, leaf)
    {
      assert Hangs(fs, leaf);
      forall p | p in fs && Beneath(leaf, p)
        ensures false
      {
        StepsDown(leaf, p);
      }
    }

    // Between a path and anything beneath it lies one of its own children, and the path is a directory.
    lemma {:induction false} StepsDown(dir: Path, p: Path)
      requires Closed(fs) && p in fs && Beneath(dir, p)
      ensures p[..|dir| + 1] in fs && (dir != [] ==> dir in fs && fs[dir].Directory?)
      decreases |p|
    {
      assert Hangs(fs, p);
      if |p| > |dir| + 1 {
        var parent := p[..|p| - 1];
        assert parent[..|dir|] == p[..|dir|] && parent[..|dir| + 1] == p[..|dir| + 1];
        StepsDown(dir, parent);
      } else {
        assert p[..|dir| + 1] == p && (dir != [] ==> p[..|p| - 1] == dir);
      }
    }

    lemma CoveredByChildren(dir: Path)
      requires Closed(fs)
      ensures forall p :: p in Under(dir) ==> ChildOn(dir, p)
    {
      forall p | p in Under(dir)
        ensures ChildOn(dir, p)
      {
        StepsDown(dir, p);
        assert p[..|dir| + 1][..|dir|] == p[..|dir|];
      }
    }

    // The child of `dir` on the way to `p`.
    ghost predicate ChildOn(dir: Path, p: Path)
      requires |dir| < |p|
      reads this
    {
      var c := p[..|dir| + 1];
      c in fs && Beneath(dir, c) && |c| == |dir| + 1 && (p == c || p in Under(c))
    }

    // Accepts exactly the tree the snapshot lists, as far as this user can see it.
    method VerifyMaterialized(tree: seq<Entry>) returns (ok: bool)
      requires Closed(fs) && UniquePaths(tree)
      ensures ok <==> Matches(fs, tree) && Accessible(fs, superuser)
    {
      var left;
      ok, left := Walk([], tree, PathsOf(tree));
      WalkMeans(tree);
      ok := ok && left == {};
    }

    lemma AllUnderRoot()
      requires Closed(fs)
      ensures Under([]) == fs.Keys
    {
      forall p | p in fs
        ensures p in Under([])
      {
        assert Hangs(fs, p);
        assert p[..0] == [];
      }
    }

    lemma WalkMeans(tree: seq<Entry>)
      requires Closed(fs) && UniquePaths(tree)
      ensures (forall p :: p in Under([]) ==> Good(tree, p)) && PathsOf(tree) - Under([]) == {} <==>
              Matches(fs, tree) && Accessible(fs, superuser)
    {
      AllUnderRoot();
      forall p
        ensures Find(tree, p).Some? <==> Listed(tree, p)
        ensures forall e :: e in tree && e.path == p ==> Find(tree, p) == Some(e.node)
      {
        FindExactly(tree, p);
      }
      assert forall e :: e in tree ==> e.path in PathsOf(tree);
      if (forall p :: p in Under([]) ==> Good(tree, p)) && PathsOf(tree) - Under([]) == {} {
        assert PathsOf(tree) <= Under([]) + (PathsOf(tree) - Under([]));
        forall e | e in tree
          ensures e.path in fs && fs[e.path] == e.node
        {
          assert Good(tree, e.path);
        }
      }
      if Matches(fs, tree) && Accessible(fs, superuser) {
        forall p | p in fs
          ensures Good(tree, p)
        {
          assert Listed(tree, p);
        }
      }
    }

    // ---- restoring ----

    // chmod and mkdir need to pass through every directory above.
    predicate CanReach(p: Path)
      reads this
    {
      superuser || forall n :: 0 < n < |p| && p[..n] in fs && fs[p[..n]].Directory? ==> Searchable(fs[p[..n]].mode)
    }

    method Mkdir(p: Path) returns (ok: bool)
      requires p != [] && CanReach(p)
      modifies this`fs
      ensures ok <==> p !in old(fs) && (|p| > 1 ==> p[..|p| - 1] in old(fs) && old(fs)[p[..|p| - 1]].Directory?)
      ensures fs == if ok then old(fs)[p := Directory(PRIVATE_DIRECTORY)] else old(fs)
    {
      if p in fs || (|p| > 1 && (p[..|p| - 1] !in fs || !fs[p[..|p| - 1]].Directory?)) {
        return false;
      }
      fs := fs[p := Directory(PRIVATE_DIRECTORY)];
      ok := true;
    }

    // mkdir -p of everything above p.
    method MkdirParents(p: Path) returns (ok: bool)
      requires p != [] && Closed(fs)
      requires forall n :: 0 < n < |p| && p[..n] in fs ==> fs[p[..n]] == Directory(PRIVATE_DIRECTORY)
      modifies this`fs
      ensures ok && Closed(fs)
      ensures forall q :: q in fs <==> q in old(fs) || Above(q, p)
      ensures forall q :: q in fs ==> fs[q] == if q in old(fs) then old(fs)[q] else Directory(PRIVATE_DIRECTORY)
    {
      var n := 1;
      while n < |p|
        invariant 1 <= n <= |p| && Closed(fs)
        invariant n > 1 ==> p[..n - 1] in fs && fs[p[..n - 1]].Directory?
        invariant forall q :: q in fs <==> q in old(fs) || (Above(q, p) && |q| < n)
        invariant forall q :: q in fs ==> fs[q] == if q in old(fs) then old(fs)[q] else Directory(PRIVATE_DIRECTORY)
      {
        if p[..n] !in fs {
          assert p[..n][..n - 1] == p[..n - 1];
          ClosedPut(fs, p[..n], Directory(PRIVATE_DIRECTORY));
          fs := fs[p[..n] := Directory(PRIVATE_DIRECTORY)];
        }
        forall q | Above(q, p) && |q| == n
          ensures q == p[..n]
        {
        }
        n := n + 1;
      }
      ok := true;
    }

    method Chmod(p: Path, mode: nat) returns (ok: bool)
      requires p in fs && fs[p].Directory?
      modifies this`fs
      ensures ok <==> old(CanReach(p))
      ensures fs == if ok then old(fs)[p := Directory(mode)] else old(fs)
    {
      if !CanReach(p) {
        return false;
      }
      fs := fs[p := Directory(mode)];
      ok := true;
    }

    ghost predicate Made(paths: set<Path>)
      reads this
    {
      fs.Keys == paths && Closed(fs) && forall p :: p in fs ==> fs[p] == Directory(PRIVATE_DIRECTORY)
    }

    method MakeOne(dirs: seq<Entry>, k: nat) returns (ok: bool)
      requires k < |dirs| && Distinct(dirs) && dirs[k].path != [] && Made(PathsOf(dirs[..k]))
      modifies this`fs
      ensures ok ==> Made(PathsOf(dirs[..k + 1]))
      ensures ok <==> |dirs[k].path| == 1 || dirs[k].path[..|dirs[k].path| - 1] in PathsOf(dirs[..k])
    {
      NotYet(dirs, k);
      PathsGrow(dirs, k);
      PrivateReach(PathsOf(dirs[..k]), dirs[k].path);
      ghost var before := fs;
      ok := Mkdir(dirs[k].path);
      if ok {
        ClosedPut(before, dirs[k].path, Directory(PRIVATE_DIRECTORY));
      }
    }

    lemma PrivateReach(paths: set<Path>, p: Path)
      requires Made(paths)
      ensures CanReach(p)
    {
      assert Searchable(PRIVATE_DIRECTORY);
    }

    lemma PathsGrow(dirs: seq<Entry>, k: nat)
      requires k < |dirs|
      ensures PathsOf(dirs[..k + 1]) == PathsOf(dirs[..k]) + {dirs[k].path}
    {
      assert dirs[..k + 1] == dirs[..k] + [dirs[k]];
    }

    // Every listed directory, shallowest first, without making any that is not listed.
    method MakeDirectories(tree: seq<Entry>) returns (ok: bool)
      requires UniquePaths(tree) && fs == map[]
      modifies this`fs
      ensures ok <==> ParentsListed(tree)
      ensures ok ==> Made(PathsOf(Directories(tree)))
    {
      ParentsByIndex(tree);
      var dirs, k := Directories(tree), 0;
      while k < |dirs|
        invariant 0 <= k <= |dirs| && Made(PathsOf(dirs[..k]))
        invariant forall i :: 0 <= i < k ==> ParentListed(tree, dirs[i].path)
      {
        ParentMade(tree, k);
        ok := MakeOne(dirs, k);
        if !ok {
          return;
        }
        k := k + 1;
      }
      assert dirs[..k] == dirs;
      ok := true;
    }

    lemma ParentsByIndex(tree: seq<Entry>)
      requires UniquePaths(tree)
      ensures Distinct(Directories(tree)) && forall i :: 0 <= i < |Directories(tree)| ==> Directories(tree)[i].path != []
      ensures ParentsListed(tree) <==>
                forall i :: 0 <= i < |Directories(tree)| ==> ParentListed(tree, Directories(tree)[i].path)
    {
      SplitExactly(tree);
      var dirs := Directories(tree);
      assert forall i :: 0 <= i < |dirs| ==> dirs[i] in dirs;
      if forall i :: 0 <= i < |dirs| ==> ParentListed(tree, dirs[i].path) {
        forall d | d in tree && d.node.Directory?
          ensures ParentListed(tree, d.path)
        {
          var i :| 0 <= i < |dirs| && dirs[i] == d;
        }
      }
      if ParentsListed(tree) {
        forall i | 0 <= i < |dirs|
          ensures ParentListed(tree, dirs[i].path)
        {
          assert dirs[i] in tree && dirs[i].node.Directory?;
        }
      }
    }

    lemma NotYet(dirs: seq<Entry>, k: nat)
      requires Distinct(dirs) && k < |dirs|
      ensures dirs[k].path !in PathsOf(dirs[..k])
    {
    }

    // A listed parent is a directory and shallower, so it has been made before; what has been made is listed.
    lemma ParentMade(tree: seq<Entry>, k: nat)
      requires UniquePaths(tree) && k < |Directories(tree)|
      ensures var p := Directories(tree)[k].path;
              ParentListed(tree, p) <==> |p| <= 1 || p[..|p| - 1] in PathsOf(Directories(tree)[..k])
    {
      SplitExactly(tree);
      var dirs := Directories(tree);
      var e := dirs[k];
      assert e in tree;
      if |e.path| > 1 && Listed(tree, e.path[..|e.path| - 1]) {
        var parent :| parent in tree && parent.path == e.path[..|e.path| - 1];
        assert Above(parent.path, e.path);
        assert parent in dirs;
        ShallowerBefore(dirs, k, parent);
      }
      if |e.path| > 1 && e.path[..|e.path| - 1] in PathsOf(dirs[..k]) {
        var d :| d in dirs[..k] && d.path == e.path[..|e.path| - 1];
        assert d in dirs && d in tree;
      }
    }

    lemma ShallowerBefore(dirs: seq<Entry>, k: nat, e: Entry)
      requires ByDepth(dirs) && k < |dirs| && e in dirs && |e.path| < |dirs[k].path|
      ensures e.path in PathsOf(dirs[..k])
    {
      var i :| 0 <= i < |dirs| && dirs[i] == e;
      assert i < k;
      assert dirs[..k][i] == e;
    }

    // After the directories and the first `m` other entries. Directories made on the way to an entry are
    // private, listed or not.
    ghost predicate Laid(tree: seq<Entry>, m: nat)
      requires m <= |Others(tree)|
      reads this
    {
      var placed := Others(tree)[..m];
      && Closed(fs)
      && (forall p :: p in fs ==> p in PathsOf(Directories(tree)) || p in PathsOf(placed) || Implied(placed, p))
      && (forall p :: p in fs && p !in PathsOf(placed) ==> fs[p] == Directory(PRIVATE_DIRECTORY))
      && PathsOf(Directories(tree)) <= fs.Keys
      && (forall e :: e in placed ==> e.path in fs && fs[e.path] == e.node)
      && (forall e, n :: e in placed && 0 < n < |e.path| ==> e.path[..n] in fs)
    }

    // Nothing stands where an entry is to be put, and only private directories stand above it.
    lemma RoomFor(tree: seq<Entry>, m: nat)
      requires UniquePaths(tree) && m < |Others(tree)| && Laid(tree, m)
      ensures var e := Others(tree)[m];
              && e.path != [] && e.path !in fs
              && forall n :: 0 < n < |e.path| && e.path[..n] in fs ==> fs[e.path[..n]] == Directory(PRIVATE_DIRECTORY)
    {
      SplitExactly(tree);
      var placed, e := Others(tree)[..m], Others(tree)[m];
      assert e in tree && !e.node.Directory?;
      assert forall x :: x in placed ==> x in Others(tree);
      forall d | d in Directories(tree)
        ensures d.path != e.path
      {
        if d.path == e.path {
          SamePath(tree, d, e);
        }
      }
      NotYet(Others(tree), m);
      forall x, n | x in placed && 0 < n < |e.path|
        ensures !Above(e.path, x.path) && x.path != e.path[..n]
      {
        assert x.path == e.path[..n] ==> Above(x.path, e.path);
      }
    }

    lemma SamePath(tree: seq<Entry>, d: Entry, e: Entry)
      requires Distinct(tree) && d in tree && e in tree && d.path == e.path
      ensures d == e
    {
    }

    method PlaceOne(tree: seq<Entry>, m: nat) returns (ok: bool)
      requires UniquePaths(tree) && m < |Others(tree)| && Laid(tree, m)
      modifies this`fs
      ensures ok && Laid(tree, m + 1)
    {
      var e := Others(tree)[m];
      RoomFor(tree, m);
      ghost var before := fs;
      ok := MkdirParents(e.path);
      assert e.path !in fs;
      LastParent(e.path);
      ClosedPut(fs, e.path, e.node);
      fs := fs[e.path := e.node];
      StillLaid(tree, m, before);
    }

    lemma StillLaid(tree: seq<Entry>, m: nat, before: map<Path, Node>)
      requires UniquePaths(tree) && m < |Others(tree)|
      requires var e := Others(tree)[m];
               && e.path !in before && e.path in fs && fs[e.path] == e.node && Closed(fs)
               && (forall q :: q in fs <==> q in before || Above(q, e.path) || q == e.path)
               && (forall q :: q in fs && q != e.path ==> fs[q] == if q in before then before[q] else Directory(PRIVATE_DIRECTORY))
      requires var placed := Others(tree)[..m];
               && (forall p :: p in before ==> p in PathsOf(Directories(tree)) || p in PathsOf(placed) || Implied(placed, p))
               && (forall p :: p in before && p !in PathsOf(placed) ==> before[p] == Directory(PRIVATE_DIRECTORY))
               && PathsOf(Directories(tree)) <= before.Keys
               && (forall e :: e in placed ==> e.path in before && before[e.path] == e.node)
               && (forall e, n :: e in placed && 0 < n < |e.path| ==> e.path[..n] in before)
      ensures Laid(tree, m + 1)
    {
      var placed, e := Others(tree)[..m], Others(tree)[m];
      PathsGrow(Others(tree), m);
      assert Others(tree)[..m + 1] == placed + [e];
      forall p | p in fs
        ensures p in PathsOf(Directories(tree)) || p in PathsOf(placed + [e]) || Implied(placed + [e], p)
      {
        if p in before && Implied(placed, p) {
          var x :| x in placed && Above(p, x.path);
          assert x in placed + [e];
        } else if Above(p, e.path) {
          assert e in placed + [e];
        }
      }
      forall n | 0 < n < |e.path|
        ensures e.path[..n] in fs
      {
        assert Above(e.path[..n], e.path);
      }
    }

    lemma LastParent(p: Path)
      requires p != [] && Closed(fs)
      requires forall q :: Above(q, p) ==> q in fs && fs[q].Directory?
      ensures Hangs(fs, p)
    {
      if |p| > 1 {
        assert Above(p[..|p| - 1], p);
      }
    }

    lemma LaidIsModed(tree: seq<Entry>)
      requires UniquePaths(tree) && Laid(tree, |Others(tree)|)
      ensures Moded(fs, Directories(tree), Others(tree), |Directories(tree)|)
    {
      var dirs, others := Directories(tree), Others(tree);
      HalvesOf(tree);
      assert others[..|others|] == others && dirs[|dirs|..] == [];
      forall d | d in dirs
        ensures d.path in fs && fs[d.path].Directory?
      {
        assert d.path in PathsOf(dirs);
      }
    }

    lemma ReachNext(dirs: seq<Entry>, others: seq<Entry>, k: nat)
      requires Halves(dirs, others) && k < |dirs| && Moded(fs, dirs, others, k + 1)
      ensures CanReach(dirs[k].path)
    {
      var p := dirs[k].path;
      forall n | 0 < n < |p| && p[..n] in fs && fs[p[..n]].Directory?
        ensures Searchable(fs[p[..n]].mode)
      {
        AboveStillPrivate(fs, dirs, others, k, n);
        assert Searchable(PRIVATE_DIRECTORY);
      }
    }

    method ChmodOne(dirs: seq<Entry>, others: seq<Entry>, k: nat) returns (ok: bool)
      requires Halves(dirs, others) && k < |dirs| && Moded(fs, dirs, others, k + 1)
      modifies this`fs
      ensures ok && Moded(fs, dirs, others, k)
    {
      ReachNext(dirs, others, k);
      StillModed(fs, dirs, others, k);
      assert dirs[k] in dirs;
      ok := Chmod(dirs[k].path, dirs[k].node.mode);
    }

    // The restore: clear, directories, everything else, then the directories' own modes from the deepest up.
    method RestoreTree(tree: seq<Entry>) returns (ok: bool)
      requires UniquePaths(tree)
      modifies this`fs
      ensures ok <==> ParentsListed(tree)
      ensures ok ==> Moded(fs, Directories(tree), Others(tree), 0)
    {
      fs := map[];
      ok := MakeDirectories(tree);
      if !ok {
        return;
      }
      var m := 0;
      while m < |Others(tree)|
        invariant 0 <= m <= |Others(tree)| && Laid(tree, m)
      {
        ok := PlaceOne(tree, m);
        m := m + 1;
      }
      LaidIsModed(tree);
      HalvesOf(tree);
      var dirs := Directories(tree);
      var k := |dirs|;
      while k > 0
        invariant 0 <= k <= |dirs| && Moded(fs, dirs, Others(tree), k)
      {
        k := k - 1;
        ok := ChmodOne(dirs, Others(tree), k);
      }
      ok := true;
    }

    // What was restored is the snapshot exactly when nothing had to be made that the snapshot does not list.
    lemma RestoredExactly(tree: seq<Entry>)
      requires UniquePaths(tree) && Moded(fs, Directories(tree), Others(tree), 0)
      ensures Matches(fs, tree) <==> AncestorsListed(tree)
    {
      EntriesStand(tree);
      if AncestorsListed(tree) {
        forall p | p in fs
          ensures Listed(tree, p)
        {
          NothingUnlisted(tree, p);
        }
      }
      if Matches(fs, tree) {
        forall e, n | e in tree && 0 < n < |e.path|
          ensures Listed(tree, e.path[..n])
        {
          StepsDown(e.path[..n], e.path);
        }
      }
    }

    lemma EntriesStand(tree: seq<Entry>)
      requires UniquePaths(tree) && Moded(fs, Directories(tree), Others(tree), 0)
      ensures forall e :: e in tree ==> e.path in fs && fs[e.path] == e.node
    {
      SplitExactly(tree);
      assert Directories(tree)[0..] == Directories(tree);
      assert forall e :: e in tree ==> e in Directories(tree) || e in Others(tree);
    }

    lemma NothingUnlisted(tree: seq<Entry>, p: Path)
      requires UniquePaths(tree) && AncestorsListed(tree)
      requires Accounted(Directories(tree), Others(tree), p)
      ensures Listed(tree, p)
    {
      SplitExactly(tree);
      if Implied(Others(tree), p) {
        var e :| e in Others(tree) && Above(p, e.path);
        assert e in tree && Listed(tree, e.path[..|p|]);
      } else {
        var e :| e in Directories(tree) + Others(tree) && e.path == p;
      }
    }

    // Whether this user can see everything the snapshot lists once it is restored.
    lemma AccessByList(tree: seq<Entry>)
      requires UniquePaths(tree) && Matches(fs, tree)
      ensures Accessible(fs, superuser) <==> AllSeen(tree, superuser)
    {
      forall e | e in tree
        ensures HasChildren(fs, e.path) <==> exists x :: x in tree && Beneath(e.path, x.path)
      {
        if HasChildren(fs, e.path) {
          var p :| p in fs && Beneath(e.path, p);
          assert Listed(tree, p);
        }
        if x :| x in tree && Beneath(e.path, x.path) {
          assert x.path in fs;
        }
      }
      forall p | p in fs
        ensures exists e :: e in tree && e.path == p && fs[p] == e.node
      {
        assert Listed(tree, p);
      }
    }

    // Restore and then verify: it succeeds exactly when every directory on the way to an entry is listed,
    // and the modes in the snapshot still let this user see it all.
    method MaterializeAndVerify(tree: seq<Entry>) returns (ok: bool)
      requires UniquePaths(tree)
      modifies this`fs
      ensures ok <==> AncestorsListed(tree) && AllSeen(tree, superuser)
      ensures ok ==> Matches(fs, tree)
    {
      ok := RestoreTree(tree);
      if !ok {
        return;
      }
      RestoredExactly(tree);
      if Matches(fs, tree) {
        AccessByList(tree);
      }
      ok := VerifyMaterialized(tree);
    }
  }

  // Two snapshots the reader lets through: one lists a file but not the directory it is in, the other a file
  // its owner may not read. The first is restored by nobody, the second by the superuser alone.
  lemma NotEverySnapshot()
    ensures var orphan := [Entry([1, 2], File(420, 0))];
            UniquePaths(orphan) && ParentsListed(orphan) && !AncestorsListed(orphan)
    ensures var hidden := [Entry([1], File(0, 0))];
            UniquePaths(hidden) && AncestorsListed(hidden) && !AllSeen(hidden, false) && AllSeen(hidden, true)
  {
    var orphan, hidden := [Entry([1, 2], File(420, 0))], [Entry([1], File(0, 0))];
    assert orphan[0] in orphan && orphan[0].path[..1] == [1];
    assert !Listed(orphan, orphan[0].path[..1]);
    assert hidden[0] in hidden && !Readable(0);
  }

  ghost predicate AllSeen(tree: seq<Entry>, superuser: bool) {
    forall e :: e in tree ==> Seen(superuser, e.node, exists x :: x in tree && Beneath(e.path, x.path))
  }
}
