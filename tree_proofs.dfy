/**
 * What OnAdd builds.  Every node of the inode tree is labelled (in ghost
 * state) with the path that leads to it from the root; the labelling shows
 * that each path has exactly one node, that directories are shared between
 * the tracks that need them, that the counter ends at 2 + tracks +
 * directories, and that each track's path leads to a node holding its song.
 */
module TreeProofs {
  import opened PathStrings
  import opened FileSystem
  import opened Arith
  import L = Library

  // ---------------------------------------------------------------------
  // Following links

  /** Following p and then one more link is following p + [name]. */
  lemma {:induction false} LookupSnoc(c: map<(nat, string), nat>, x: nat, p: seq<string>, name: string)
    ensures Lookup(c, x, p + [name]) ==
      match Lookup(c, x, p)
      case None => None
      case Some(y) => if (y, name) in c then Some(c[(y, name)]) else None
    decreases |p|
  {
    if p == [] {
      assert p + [name] == [name] && [name][1..] == [];
    } else {
      assert (p + [name])[0] == p[0] && (p + [name])[1..] == p[1..] + [name];
      if (x, p[0]) in c {
        LookupSnoc(c, c[(x, p[0])], p[1..], name);
      }
    }
  }

  /** Adding links never changes where an existing path leads. */
  lemma {:induction false} LookupExtend(c1: map<(nat, string), nat>, c2: map<(nat, string), nat>, x: nat, p: seq<string>)
    requires SubMap(c1, c2) && Lookup(c1, x, p).Some?
    ensures Lookup(c2, x, p) == Lookup(c1, x, p)
    decreases |p|
  {
    if p != [] {
      LookupExtend(c1, c2, c1[(x, p[0])], p[1..]);
    }
  }

  // ---------------------------------------------------------------------
  // The tree invariant

  /** Node x is reached from the root by following its path. */
  ghost predicate ReachedAt(children: map<(nat, string), nat>, pathOf: map<nat, seq<string>>, x: nat)
    requires x in pathOf
  {
    Lookup(children, RootId, pathOf[x]) == Some(x)
  }

  /** Every node is reached from the root by following its path. */
  ghost predicate Reached(children: map<(nat, string), nat>, pathOf: map<nat, seq<string>>) {
    forall x {:trigger ReachedAt(children, pathOf, x)} :: x in pathOf ==> ReachedAt(children, pathOf, x)
  }

  /** The link k = (x, name) -> y extends the path of x by name. */
  ghost predicate LinkAt(children: map<(nat, string), nat>, pathOf: map<nat, seq<string>>, k: (nat, string))
    requires k in children
  {
    k.0 in pathOf && children[k] in pathOf && pathOf[children[k]] == pathOf[k.0] + [k.1]
  }

  /** Every link extends the path of its parent by its name. */
  ghost predicate LinksLabelled(children: map<(nat, string), nat>, pathOf: map<nat, seq<string>>) {
    forall k {:trigger LinkAt(children, pathOf, k)} :: k in children ==> LinkAt(children, pathOf, k)
  }

  /**
   * pathOf labels every node with its path from the root: the root has the
   * empty path, every node is reached by following its path, and every link
   * extends its parent's path.  Numbers other than the root's were issued by
   * the counter, and there are exactly as many distinct paths as numbers
   * issued plus the root.
   */
  ghost predicate Tree(a: Arena, pathOf: map<nat, seq<string>>) {
    && a.nodes.Keys == pathOf.Keys
    && RootId in pathOf && pathOf[RootId] == []
    && Reached(a.children, pathOf)
    && LinksLabelled(a.children, pathOf)
    && (forall x :: x in a.nodes ==> x == RootId || FirstRaw < x <= a.last)
    && |pathOf.Values| == a.last - 1
  }

  /** Adding a key adds its value to the values of a map. */
  lemma ValuesUpdate<K, V>(m: map<K, V>, k: K, v: V)
    requires k !in m
    ensures m[k := v].Values == m.Values + {v}
  {
    var m' := m[k := v];
    forall q | q in m'.Values ensures q in m.Values + {v} {
      var y :| y in m' && m'[y] == q;
      if y != k {
        assert m[y] == q;
      }
    }
    forall q | q in m.Values ensures q in m'.Values {
      var y :| y in m && m[y] == q;
      assert m'[y] == q;
    }
    assert m'[k] == v;
  }

  /** Following p from a labelled node y leads to the node labelled with y's path followed by p. */
  lemma {:induction false} LookupPath(a: Arena, pathOf: map<nat, seq<string>>, y: nat, p: seq<string>)
    requires Tree(a, pathOf) && y in pathOf && Lookup(a.children, y, p).Some?
    ensures Lookup(a.children, y, p).value in pathOf
    ensures pathOf[Lookup(a.children, y, p).value] == pathOf[y] + p
    decreases |p|
  {
    if p != [] {
      var z := a.children[(y, p[0])];
      assert LinkAt(a.children, pathOf, (y, p[0]));
      LookupPath(a, pathOf, z, p[1..]);
      assert pathOf[y] + [p[0]] + p[1..] == pathOf[y] + p;
    }
  }

  /** The tree before OnAdd: the root alone. */
  lemma InitialTree() returns (pathOf: map<nat, seq<string>>)
    ensures Tree(Initial(), pathOf) && pathOf.Values == {[]}
  {
    pathOf := map[RootId := []];
    var empty: map<nat, seq<string>> := map[];
    ValuesUpdate(empty, RootId, []);
    assert empty[RootId := []] == pathOf;
  }

  /**
   * Creating a child named name under wd when wd has none: the new node's
   * path is new, the numbering stays consecutive, and the labelling extends.
   */
  lemma AddNodeTree(a: Arena, pathOf: map<nat, seq<string>>, wd: nat, name: string, node: Node)
    returns (pathOf': map<nat, seq<string>>)
    requires Tree(a, pathOf) && wd in pathOf && (wd, name) !in a.children
    ensures var b := AddNode(a, wd, name, node);
      && b.last !in pathOf
      && pathOf' == pathOf[b.last := pathOf[wd] + [name]]
      && pathOf[wd] + [name] !in pathOf.Values
      && pathOf'.Values == pathOf.Values + {pathOf[wd] + [name]}
      && Tree(b, pathOf') && Extends(a, b) && SubMap(pathOf, pathOf')
  {
    var b := AddNode(a, wd, name, node);
    pathOf' := pathOf[b.last := pathOf[wd] + [name]];
    AddNodeKeepsTree(a, pathOf, wd, name, node);
  }

  lemma AddNodeKeepsTree(a: Arena, pathOf: map<nat, seq<string>>, wd: nat, name: string, node: Node)
    requires Tree(a, pathOf) && wd in pathOf && (wd, name) !in a.children
    ensures var b := AddNode(a, wd, name, node);
      && b.last !in pathOf
      && pathOf[wd] + [name] !in pathOf.Values
      && pathOf[b.last := pathOf[wd] + [name]].Values == pathOf.Values + {pathOf[wd] + [name]}
      && Tree(b, pathOf[b.last := pathOf[wd] + [name]])
  {
    var b := AddNode(a, wd, name, node);
    var id := b.last;
    var p := pathOf[wd] + [name];
    var pathOf' := pathOf[id := p];
    assert id !in pathOf;
    NewPathIsNew(a, pathOf, wd, name);
    ValuesUpdate(pathOf, id, p);
    AddNodeReached(a.children, b.children, pathOf, wd, name, id);
    AddNodeLinks(a.children, b.children, pathOf, wd, name, id);
  }

  /** A new link from wd to a new node id, labelled with wd's path and name, keeps every link labelled. */
  lemma AddNodeLinks(c: map<(nat, string), nat>, c': map<(nat, string), nat>,
                     pathOf: map<nat, seq<string>>, wd: nat, name: string, id: nat)
    requires LinksLabelled(c, pathOf) && wd in pathOf && id !in pathOf
    requires c' == c[(wd, name) := id]
    ensures LinksLabelled(c', pathOf[id := pathOf[wd] + [name]])
  {
    var pathOf' := pathOf[id := pathOf[wd] + [name]];
    forall k | k in c' ensures LinkAt(c', pathOf', k) {
      if k != (wd, name) {
        assert LinkAt(c, pathOf, k);
      }
    }
  }

  /** A new link from wd to a new node id reaches id and every node reached before. */
  lemma AddNodeReached(c: map<(nat, string), nat>, c': map<(nat, string), nat>,
                       pathOf: map<nat, seq<string>>, wd: nat, name: string, id: nat)
    requires Reached(c, pathOf) && wd in pathOf && (wd, name) !in c
    requires c' == c[(wd, name) := id]
    ensures Reached(c', pathOf[id := pathOf[wd] + [name]])
  {
    var pathOf' := pathOf[id := pathOf[wd] + [name]];
    assert ReachedAt(c, pathOf, wd);
    forall x | x in pathOf' ensures ReachedAt(c', pathOf', x) {
      if x == id {
        LookupExtend(c, c', RootId, pathOf[wd]);
        LookupSnoc(c', RootId, pathOf[wd], name);
      } else {
        assert ReachedAt(c, pathOf, x);
        LookupExtend(c, c', RootId, pathOf[x]);
      }
    }
  }

  /** A path that no link leads to belongs to no node. */
  lemma NewPathIsNew(a: Arena, pathOf: map<nat, seq<string>>, wd: nat, name: string)
    requires Tree(a, pathOf) && wd in pathOf && (wd, name) !in a.children
    ensures pathOf[wd] + [name] !in pathOf.Values
  {
    var p := pathOf[wd] + [name];
    LookupSnoc(a.children, RootId, pathOf[wd], name);
    assert ReachedAt(a.children, pathOf, wd);
    forall y | y in pathOf ensures pathOf[y] != p {
      assert ReachedAt(a.children, pathOf, y);
    }
  }

  /** Every node of b that a lacks is a directory whose path has between lo and hi names. */
  ghost predicate NewDirs(a: Arena, b: Arena, pathOf: map<nat, seq<string>>, lo: nat, hi: nat) {
    forall x :: x in b.nodes && x !in a.nodes ==> b.nodes[x] == Dir && x in pathOf && lo <= |pathOf[x]| <= hi
  }

  /** New directories of two successive extensions, the second one a level deeper. */
  lemma NewDirsTrans(a: Arena, a1: Arena, b: Arena, p1: map<nat, seq<string>>, p2: map<nat, seq<string>>, lo: nat, hi: nat)
    requires lo <= hi && NewDirs(a, a1, p1, lo, lo) && NewDirs(a1, b, p2, lo + 1, hi)
    requires Extends(a1, b) && SubMap(p1, p2)
    ensures NewDirs(a, b, p2, lo, hi)
  {
  }

  /**
   * One step of the walk keeps the labelling: cur is the node whose path is
   * wd's path followed by c, reused when it exists and created (as a
   * directory) otherwise.
   */
  lemma StepTree(a: Arena, pathOf: map<nat, seq<string>>, wd: nat, c: string, b: Arena, cur: nat)
    returns (pathOf': map<nat, seq<string>>)
    requires Tree(a, pathOf) && wd in pathOf && c != ""
    requires (b, cur) == Step(a, wd, c)
    ensures Tree(b, pathOf') && Extends(a, b) && SubMap(pathOf, pathOf')
    ensures cur in pathOf' && pathOf'[cur] == pathOf[wd] + [c]
    ensures pathOf'.Values == pathOf.Values + {pathOf[wd] + [c]}
    ensures NewDirs(a, b, pathOf', |pathOf[wd]| + 1, |pathOf[wd]| + 1)
  {
    if (wd, c) in a.children {
      pathOf' := pathOf;
      assert LinkAt(a.children, pathOf, (wd, c));
    } else {
      pathOf' := AddNodeTree(a, pathOf, wd, c, Dir);
    }
  }

  /** The paths base + comps[..k] for k = 1 .. |comps|: the directories a walk passes. */
  function PrefixPaths(base: seq<string>, comps: seq<string>): (r: set<seq<string>>)
    ensures forall p :: p in r ==> |base| + 1 <= |p| <= |base| + |comps|
  {
    set k | 1 <= k <= |comps| :: base + comps[..k]
  }

  lemma PrefixPathsCons(base: seq<string>, comps: seq<string>)
    requires comps != []
    ensures PrefixPaths(base, comps) == {base + [comps[0]]} + PrefixPaths(base + [comps[0]], comps[1..])
  {
    PrefixPathsConsLeft(base, comps);
    PrefixPathsConsRight(base, comps);
  }

  lemma PrefixPathsConsLeft(base: seq<string>, comps: seq<string>)
    requires comps != []
    ensures PrefixPaths(base, comps) <= {base + [comps[0]]} + PrefixPaths(base + [comps[0]], comps[1..])
  {
    forall p | p in PrefixPaths(base, comps) ensures p in {base + [comps[0]]} + PrefixPaths(base + [comps[0]], comps[1..]) {
      var k :| 1 <= k <= |comps| && p == base + comps[..k];
      if k > 1 {
        assert comps[..k] == [comps[0]] + comps[1..][..k - 1];
        assert p == base + [comps[0]] + comps[1..][..k - 1];
      } else {
        assert comps[..1] == [comps[0]];
      }
    }
  }

  lemma PrefixPathsConsRight(base: seq<string>, comps: seq<string>)
    requires comps != []
    ensures {base + [comps[0]]} + PrefixPaths(base + [comps[0]], comps[1..]) <= PrefixPaths(base, comps)
  {
    assert comps[..1] == [comps[0]];
    forall p | p in PrefixPaths(base + [comps[0]], comps[1..]) ensures p in PrefixPaths(base, comps) {
      var k :| 1 <= k <= |comps| - 1 && p == base + [comps[0]] + comps[1..][..k];
      assert comps[..k + 1] == [comps[0]] + comps[1..][..k];
      assert p == base + comps[..k + 1];
    }
  }

  /** The values gained by a step and then by the rest of the walk. */
  lemma WalkValues(v0: set<seq<string>>, v1: set<seq<string>>, v2: set<seq<string>>, base: seq<string>, comps: seq<string>)
    requires comps != []
    requires v1 == v0 + {base + [comps[0]]} && v2 == v1 + PrefixPaths(base + [comps[0]], comps[1..])
    ensures v2 == v0 + PrefixPaths(base, comps)
  {
    PrefixPathsCons(base, comps);
  }

  /**
   * The directory walk keeps the labelling: it ends at the node whose path
   * is wd's path followed by comps, and the paths gained are exactly the
   * prefixes it passes, every new node being a directory on one of them.
   */
  lemma {:induction false} WalkTree(a: Arena, pathOf: map<nat, seq<string>>, wd: nat, comps: seq<string>, b: Arena, cur: nat)
    returns (pathOf': map<nat, seq<string>>)
    requires Tree(a, pathOf) && wd in pathOf
    requires forall k :: 0 <= k < |comps| ==> comps[k] != ""
    requires (b, cur) == Walk(a, wd, comps)
    ensures Tree(b, pathOf') && Extends(a, b) && SubMap(pathOf, pathOf')
    ensures cur in pathOf' && pathOf'[cur] == pathOf[wd] + comps
    ensures pathOf'.Values == pathOf.Values + PrefixPaths(pathOf[wd], comps)
    ensures NewDirs(a, b, pathOf', |pathOf[wd]| + 1, |pathOf[wd]| + |comps|)
    decreases |comps|
  {
    if comps == [] {
      pathOf' := pathOf;
      assert PrefixPaths(pathOf[wd], comps) == {};
      assert pathOf[wd] + comps == pathOf[wd];
    } else {
      var (a1, w1) := Step(a, wd, comps[0]);
      var p1 := StepTree(a, pathOf, wd, comps[0], a1, w1);
      assert forall k :: 0 <= k < |comps[1..]| ==> comps[1..][k] != "";
      pathOf' := WalkTree(a1, p1, w1, comps[1..], b, cur);
      ExtendsTrans(a, a1, b);
      SubMapTrans(pathOf, p1, pathOf');
      WalkValues(pathOf.Values, p1.Values, pathOf'.Values, pathOf[wd], comps);
      ConsConcat(pathOf[wd], comps);
      NewDirsTrans(a, a1, b, p1, pathOf', |pathOf[wd]| + 1, |pathOf[wd]| + |comps|);
    }
  }

  lemma ConsConcat(base: seq<string>, comps: seq<string>)
    requires comps != []
    ensures base + [comps[0]] + comps[1..] == base + comps
  {
    assert [comps[0]] + comps[1..] == comps;
  }

  lemma SubMapTrans<K, V>(m1: map<K, V>, m2: map<K, V>, m3: map<K, V>)
    requires SubMap(m1, m2) && SubMap(m2, m3)
    ensures SubMap(m1, m3)
  {
  }

  lemma ExtendsTrans(a1: Arena, a2: Arena, a3: Arena)
    requires Extends(a1, a2) && Extends(a2, a3)
    ensures Extends(a1, a3)
  {
    SubMapTrans(a1.nodes, a2.nodes, a3.nodes);
    SubMapTrans(a1.children, a2.children, a3.children);
  }

  /** Empty components are skipped: walking comps is walking its non-empty elements. */
  lemma {:induction false} WalkSkipsEmpty(a: Arena, wd: nat, comps: seq<string>)
    ensures Walk(a, wd, comps) == Walk(a, wd, NonEmpty(comps))
    decreases |comps|
  {
    if comps != [] {
      var s := Step(a, wd, comps[0]);
      WalkSkipsEmpty(s.0, s.1, comps[1..]);
      if comps[0] != "" {
        var ne := NonEmpty(comps);
        assert ne[0] == comps[0] && ne[1..] == NonEmpty(comps[1..]);
      }
    }
  }

  // ---------------------------------------------------------------------
  // Adding tracks, by the link names they follow

  /**
   * Adding a song at the end of the link names p: walk (creating
   * directories) along all names but the last, then attach the song under
   * the last one.
   */
  function Place(a: Arena, p: seq<string>, song: L.Song): (r: Arena)
    ensures p != [] ==> a.last < r.last
  {
    if p == [] then a
    else
      var (b, wd) := Walk(a, RootId, p[..|p| - 1]);
      Attach(b, wd, p[|p| - 1], song)
  }

  /** The tree after placing the first n songs at the first n paths, in order. */
  function Build(paths: seq<seq<string>>, songs: seq<L.Song>, n: nat): (r: Arena)
    requires n <= |paths| && n <= |songs|
    decreases n
  {
    if n == 0 then Initial() else Place(Build(paths, songs, n - 1), paths[n - 1], songs[n - 1])
  }

  /** A track's path: d non-empty directory names, then a file name. */
  ghost predicate Shaped(p: seq<string>, d: nat) {
    |p| == d + 1 && forall k :: 0 <= k < d ==> p[k] != ""
  }

  /** Each of the first n paths has d directory names. */
  ghost predicate Uniform(paths: seq<seq<string>>, n: nat, d: nat) {
    n <= |paths| && forall i :: 0 <= i < n ==> Shaped(paths[i], d)
  }

  /** No two of the first n paths are the same. */
  ghost predicate Distinct(paths: seq<seq<string>>, n: nat)
    requires n <= |paths|
  {
    forall i, j :: 0 <= i < j < n ==> paths[i] != paths[j]
  }

  /** The directory paths (other than the root's) the first n paths pass through. */
  ghost function DirSet(paths: seq<seq<string>>, n: nat, d: nat): (r: set<seq<string>>)
    requires Uniform(paths, n, d)
    ensures forall p :: p in r ==> 1 <= |p| <= d
  {
    set i, k | 0 <= i < n && 1 <= k <= d :: paths[i][..k]
  }

  /** The first n paths, as a set. */
  ghost function FileSet(paths: seq<seq<string>>, n: nat): (r: set<seq<string>>)
    requires n <= |paths|
  {
    set i | 0 <= i < n :: paths[i]
  }

  lemma DirSetSnoc(paths: seq<seq<string>>, n: nat, d: nat)
    requires 0 < n && Uniform(paths, n, d)
    ensures DirSet(paths, n, d) == DirSet(paths, n - 1, d) + PrefixPaths([], paths[n - 1][..d])
  {
    var l, r := DirSet(paths, n, d), DirSet(paths, n - 1, d) + PrefixPaths([], paths[n - 1][..d]);
    forall p | p in l ensures p in r {
      var i, k :| 0 <= i < n && 1 <= k <= d && p == paths[i][..k];
      if i == n - 1 {
        assert p == [] + paths[n - 1][..d][..k];
      }
    }
    forall p | p in r ensures p in l {
      if p !in DirSet(paths, n - 1, d) {
        var k :| 1 <= k <= d && p == [] + paths[n - 1][..d][..k];
        assert p == paths[n - 1][..k];
      }
    }
  }

  lemma FileSetSnoc(paths: seq<seq<string>>, n: nat)
    requires 0 < n <= |paths|
    ensures FileSet(paths, n) == FileSet(paths, n - 1) + {paths[n - 1]}
  {
    assert paths[n - 1] in FileSet(paths, n);
  }

  lemma FileSetLengths(paths: seq<seq<string>>, n: nat, d: nat)
    requires Uniform(paths, n, d)
    ensures forall p :: p in FileSet(paths, n) ==> |p| == d + 1
  {
    forall p | p in FileSet(paths, n) ensures |p| == d + 1 {
      var i :| 0 <= i < n && paths[i] == p;
      assert Shaped(paths[i], d);
    }
  }

  /** Of n distinct paths, path i is not among the first m <= i. */
  lemma NotInFileSet(paths: seq<seq<string>>, i: nat, m: nat, n: nat)
    requires m <= i < n <= |paths| && Distinct(paths, n)
    ensures paths[i] !in FileSet(paths, m)
  {
    forall j | 0 <= j < m ensures paths[j] != paths[i] {
    }
  }

  /** n distinct paths make a set of n. */
  lemma {:induction false} FileSetCard(paths: seq<seq<string>>, n: nat)
    requires n <= |paths| && Distinct(paths, n)
    ensures |FileSet(paths, n)| == n
    decreases n
  {
    if n > 0 {
      FileSetCard(paths, n - 1);
      NotInFileSet(paths, n - 1, n - 1, n);
      FileSetSnoc(paths, n);
    }
  }

  /** The paths labelling a tree after n tracks: the root's, the directories' and the tracks'. */
  ghost predicate TrackPaths(pathOf: map<nat, seq<string>>, paths: seq<seq<string>>, n: nat, d: nat)
    requires Uniform(paths, n, d)
  {
    pathOf.Values == {[]} + DirSet(paths, n, d) + FileSet(paths, n)
  }

  /** The song nodes of a are exactly its nodes at depth d + 1. */
  ghost predicate SongsAtDepth(a: Arena, pathOf: map<nat, seq<string>>, d: nat)
    requires a.nodes.Keys == pathOf.Keys
  {
    forall x :: x in a.nodes ==> (a.nodes[x].File? <==> |pathOf[x]| == d + 1)
  }

  /** Track i's path leads from the root to a node holding its song. */
  ghost predicate TrackAt(a: Arena, paths: seq<seq<string>>, songs: seq<L.Song>, i: nat)
    requires i < |paths| && i < |songs|
  {
    NodeAt(a, paths[i]) == Some(File(songs[i]))
  }

  /** TrackAt holds of each of the first n tracks. */
  ghost predicate TracksFound(a: Arena, paths: seq<seq<string>>, songs: seq<L.Song>, n: nat)
    requires n <= |paths| && n <= |songs|
  {
    forall i {:trigger TrackAt(a, paths, songs, i)} :: 0 <= i < n ==> TrackAt(a, paths, songs, i)
  }

  /**
   * The tree after the first n tracks: labelled as in Tree; its paths are
   * the root, the directories the tracks pass and the tracks' own paths;
   * the song nodes are exactly the nodes at depth d + 1; and each track's
   * path leads from the root to a node holding its song.
   */
  ghost predicate Tracks(a: Arena, pathOf: map<nat, seq<string>>, paths: seq<seq<string>>, songs: seq<L.Song>, n: nat, d: nat) {
    && Uniform(paths, n, d) && n <= |songs|
    && Tree(a, pathOf)
    && TrackPaths(pathOf, paths, n, d)
    && SongsAtDepth(a, pathOf, d)
    && TracksFound(a, paths, songs, n)
  }

  lemma UnionSwap<T>(r: set<T>, x: set<T>, y: set<T>, z: set<T>, v1: set<T>, v2: set<T>)
    requires v1 == r + x + y && v2 == v1 + z
    ensures v2 == r + (x + z) + y
  {
  }

  lemma UnionAssoc<T>(r: set<T>, x: set<T>, y: set<T>, z: set<T>, v1: set<T>, v2: set<T>)
    requires v1 == r + x + y && v2 == v1 + z
    ensures v2 == r + x + (y + z)
  {
  }

  /** New directories shallower than d + 1 keep the song nodes exactly those at depth d + 1. */
  lemma SongsAtDepthExtend(a: Arena, b: Arena, pathOf: map<nat, seq<string>>, p1: map<nat, seq<string>>, d: nat)
    requires a.nodes.Keys == pathOf.Keys && b.nodes.Keys == p1.Keys
    requires SongsAtDepth(a, pathOf, d) && Extends(a, b) && SubMap(pathOf, p1) && NewDirs(a, b, p1, 1, d)
    ensures SongsAtDepth(b, p1, d)
  {
  }

  /** The walk along the directory names of track n - 1, from the root. */
  lemma TrackWalk(a: Arena, pathOf: map<nat, seq<string>>, paths: seq<seq<string>>, songs: seq<L.Song>, n: nat, d: nat,
                  b: Arena, wd: nat)
    returns (p1: map<nat, seq<string>>)
    requires 0 < n && Tracks(a, pathOf, paths, songs, n - 1, d) && Uniform(paths, n, d)
    requires (b, wd) == Walk(a, RootId, paths[n - 1][..d])
    ensures Tree(b, p1) && Extends(a, b) && SubMap(pathOf, p1)
    ensures wd in p1 && p1[wd] == paths[n - 1][..d]
    ensures p1.Values == {[]} + DirSet(paths, n, d) + FileSet(paths, n - 1)
    ensures SongsAtDepth(b, p1, d)
  {
    var comps := paths[n - 1][..d];
    assert Shaped(paths[n - 1], d);
    p1 := WalkTree(a, pathOf, RootId, comps, b, wd);
    assert [] + comps == comps;
    DirSetSnoc(paths, n, d);
    UnionSwap({[]}, DirSet(paths, n - 1, d), FileSet(paths, n - 1), PrefixPaths([], comps), pathOf.Values, p1.Values);
    SongsAtDepthExtend(a, b, pathOf, p1, d);
  }

  /** Tracks found in a are still found in any extension of a. */
  lemma TracksFoundExtend(a: Arena, c: Arena, paths: seq<seq<string>>, songs: seq<L.Song>, n: nat)
    requires n <= |paths| && n <= |songs|
    requires Extends(a, c) && TracksFound(a, paths, songs, n)
    ensures TracksFound(c, paths, songs, n)
  {
    forall i | 0 <= i < n ensures TrackAt(c, paths, songs, i) {
      assert TrackAt(a, paths, songs, i);
      LookupExtend(a.children, c.children, RootId, paths[i]);
    }
  }

  /**
   * Attaching a song under wd as the last name of P, a path no node has yet:
   * the song node gets path P, and the song nodes are still those at depth
   * |P|.
   */
  lemma AttachTree(b: Arena, p1: map<nat, seq<string>>, wd: nat, P: seq<string>, d: nat, song: L.Song, c: Arena)
    returns (pathOf': map<nat, seq<string>>)
    requires Tree(b, p1) && wd in p1 && |P| == d + 1 && p1[wd] == P[..d] && P !in p1.Values
    requires SongsAtDepth(b, p1, d)
    requires c == Attach(b, wd, P[d], song)
    ensures Tree(c, pathOf') && Extends(b, c) && SubMap(p1, pathOf')
    ensures pathOf'.Values == p1.Values + {P}
    ensures SongsAtDepth(c, pathOf', d)
    ensures NodeAt(c, P) == Some(File(song))
  {
    var fname := P[d];
    assert P[..d] + [fname] == P;
    forall k | k in b.children ensures k != (wd, fname) {
      assert LinkAt(b.children, p1, k);
    }
    pathOf' := AddNodeTree(b, p1, wd, fname, File(song));
    assert ReachedAt(c.children, pathOf', c.last);
  }

  lemma TracksFoundSnoc(c: Arena, paths: seq<seq<string>>, songs: seq<L.Song>, n: nat)
    requires 0 < n <= |paths| && n <= |songs|
    requires TracksFound(c, paths, songs, n - 1) && NodeAt(c, paths[n - 1]) == Some(File(songs[n - 1]))
    ensures TracksFound(c, paths, songs, n)
  {
    assert TrackAt(c, paths, songs, n - 1);
  }

  lemma BuildSnoc(paths: seq<seq<string>>, songs: seq<L.Song>, n: nat)
    requires 0 < n <= |paths| && n <= |songs|
    ensures Build(paths, songs, n) == Place(Build(paths, songs, n - 1), paths[n - 1], songs[n - 1])
  {
  }

  /** The path of track n - 1 is none of the paths in the tree before it is attached. */
  lemma NewTrackPath(paths: seq<seq<string>>, n: nat, d: nat)
    requires 0 < n && Uniform(paths, n, d) && Distinct(paths, n)
    ensures paths[n - 1] !in {[]} + DirSet(paths, n, d) + FileSet(paths, n - 1)
  {
    assert Shaped(paths[n - 1], d);
    NotInFileSet(paths, n - 1, n - 1, n);
  }

  /** Adding track n - 1 keeps the invariant, given its path is new. */
  lemma TrackStep(a: Arena, pathOf: map<nat, seq<string>>, c: Arena, paths: seq<seq<string>>, songs: seq<L.Song>, n: nat, d: nat)
    returns (pathOf': map<nat, seq<string>>)
    requires 0 < n <= |songs| && Uniform(paths, n, d) && Distinct(paths, n)
    requires Tracks(a, pathOf, paths, songs, n - 1, d)
    requires a == Build(paths, songs, n - 1) && c == Build(paths, songs, n)
    ensures Tracks(c, pathOf', paths, songs, n, d)
  {
    BuildSnoc(paths, songs, n);
    var P := paths[n - 1];
    assert Shaped(P, d);
    var (b, wd) := Walk(a, RootId, P[..d]);
    assert c == Attach(b, wd, P[d], songs[n - 1]);
    var p1 := TrackWalk(a, pathOf, paths, songs, n, d, b, wd);
    NewTrackPath(paths, n, d);
    pathOf' := AttachTree(b, p1, wd, P, d, songs[n - 1], c);
    ExtendsTrans(a, b, c);
    UnionAssoc({[]}, DirSet(paths, n, d), FileSet(paths, n - 1), {P}, p1.Values, pathOf'.Values);
    FileSetSnoc(paths, n);
    TracksFoundExtend(a, c, paths, songs, n - 1);
    TracksFoundSnoc(c, paths, songs, n);
  }

  /** Before any track, the tree is the root alone. */
  lemma InitialTracks(a: Arena, paths: seq<seq<string>>, songs: seq<L.Song>, d: nat) returns (pathOf: map<nat, seq<string>>)
    requires a == Initial()
    ensures Tracks(a, pathOf, paths, songs, 0, d)
  {
    pathOf := InitialTree();
    assert DirSet(paths, 0, d) == {} && FileSet(paths, 0) == {};
  }

  /** A prefix of uniform, distinct paths is uniform and distinct. */
  lemma UniformPrefix(paths: seq<seq<string>>, m: nat, n: nat, d: nat)
    requires m <= n && Uniform(paths, n, d) && Distinct(paths, n)
    ensures Uniform(paths, m, d) && Distinct(paths, m)
  {
  }

  /** The invariant holds of the tree after every prefix of the tracks. */
  lemma {:induction false} TracksTree(a: Arena, paths: seq<seq<string>>, songs: seq<L.Song>, n: nat, d: nat)
    returns (pathOf: map<nat, seq<string>>)
    requires n <= |songs| && Uniform(paths, n, d) && Distinct(paths, n)
    requires a == Build(paths, songs, n)
    ensures Tracks(a, pathOf, paths, songs, n, d)
    decreases n
  {
    if n > 0 {
      var prev := Build(paths, songs, n - 1);
      UniformPrefix(paths, n - 1, n, d);
      var p := TracksTree(prev, paths, songs, n - 1, d);
      pathOf := TrackStep(prev, p, a, paths, songs, n, d);
    } else {
      pathOf := InitialTracks(a, paths, songs, d);
    }
  }

  // ---------------------------------------------------------------------
  // From locations to link names

  /**
   * The links OnAdd follows or creates for a location: the non-empty
   * components of its directory part, then its file name.
   */
  function Parts(loc: string): (p: seq<string>)
    ensures |p| >= 1
    ensures forall k :: 0 <= k < |p| - 1 ==> p[k] != ""
  {
    var (dir, fname) := SplitPath(loc);
    NonEmpty(Split(dir)) + [fname]
  }

  /** Adding a track at a location places its song at the location's parts. */
  lemma WithTrackPlace(a: Arena, loc: string, song: L.Song)
    ensures WithTrack(a, loc, song) == Place(a, Parts(loc), song)
  {
    var (dir, fname) := SplitPath(loc);
    var P := Parts(loc);
    assert P[..|P| - 1] == NonEmpty(Split(dir)) && P[|P| - 1] == fname;
    WalkSkipsEmpty(a, RootId, Split(dir));
  }

  /** Track i's location has the link names paths[i]. */
  ghost predicate PartsAt(locs: seq<string>, paths: seq<seq<string>>, i: nat) {
    i < |locs| && i < |paths| && paths[i] == Parts(locs[i])
  }

  /** Adding track n - 1 by location places its song at its parts. */
  lemma WithTracksSnoc(locs: seq<string>, songs: seq<L.Song>, paths: seq<seq<string>>, n: nat)
    requires 0 < n <= |locs| && n <= |songs| && n <= |paths| && PartsAt(locs, paths, n - 1)
    ensures WithTracks(Initial(), locs, songs, n) == Place(WithTracks(Initial(), locs, songs, n - 1), paths[n - 1], songs[n - 1])
  {
    WithTrackPlace(WithTracks(Initial(), locs, songs, n - 1), locs[n - 1], songs[n - 1]);
  }

  /** If the first m tracks by location build their tree, so do the first n = m + 1. */
  lemma WithTracksBuildStep(locs: seq<string>, songs: seq<L.Song>, paths: seq<seq<string>>, m: nat, n: nat)
    requires n == m + 1 && n <= |locs| && n <= |songs| && n <= |paths| && PartsAt(locs, paths, m)
    requires WithTracks(Initial(), locs, songs, m) == Build(paths, songs, m)
    ensures WithTracks(Initial(), locs, songs, n) == Build(paths, songs, n)
  {
    WithTracksSnoc(locs, songs, paths, n);
    BuildSnoc(paths, songs, n);
  }

  /** Adding the first n tracks by location builds the tree of their parts. */
  lemma {:induction false} WithTracksBuild(locs: seq<string>, songs: seq<L.Song>, paths: seq<seq<string>>, n: nat)
    requires n <= |locs| && n <= |songs| && n <= |paths|
    requires forall i :: 0 <= i < n ==> PartsAt(locs, paths, i)
    ensures WithTracks(Initial(), locs, songs, n) == Build(paths, songs, n)
    decreases n
  {
    if n > 0 {
      WithTracksBuild(locs, songs, paths, n - 1);
      WithTracksBuildStep(locs, songs, paths, n - 1, n);
    }
  }

  // ---------------------------------------------------------------------
  // Counting nodes

  /** The song nodes of a tree. */
  ghost function Leaves(a: Arena): (r: set<nat>)
    ensures forall x :: x in r <==> x in a.nodes && a.nodes[x].File?
  {
    set x | x in a.nodes && a.nodes[x].File?
  }

  /** No two nodes of a labelled tree share a path. */
  lemma PathsInjective(a: Arena, pathOf: map<nat, seq<string>>, x: nat, y: nat)
    requires Tree(a, pathOf) && x in pathOf && y in pathOf && pathOf[x] == pathOf[y]
    ensures x == y
  {
    assert ReachedAt(a.children, pathOf, x);
    assert ReachedAt(a.children, pathOf, y);
  }

  /** The image of s under m, for s within m's keys. */
  ghost function Image<K, V>(m: map<K, V>, s: set<K>): (r: set<V>)
    requires s <= m.Keys
  {
    set x | x in s :: m[x]
  }

  /** A map that is one-to-one on s has an image as large as s. */
  lemma {:induction false} InjectiveImageCard<K, V>(m: map<K, V>, s: set<K>)
    requires s <= m.Keys
    requires forall x, y :: x in s && y in s && m[x] == m[y] ==> x == y
    ensures |Image(m, s)| == |s|
    decreases |s|
  {
    if s != {} {
      var x :| x in s;
      var s' := s - {x};
      InjectiveImageCard(m, s');
      assert Image(m, s) == Image(m, s') + {m[x]};
      assert m[x] !in Image(m, s');
    }
  }

  lemma DisjointCard<T>(x: set<T>, y: set<T>)
    requires x !! y
    ensures |x + y| == |x| + |y|
  {
  }

  /** The paths of the song nodes are exactly the tracks' paths. */
  lemma LeavesImage(a: Arena, pathOf: map<nat, seq<string>>, paths: seq<seq<string>>, songs: seq<L.Song>, n: nat, d: nat)
    requires Tracks(a, pathOf, paths, songs, n, d)
    ensures Image(pathOf, Leaves(a)) == FileSet(paths, n)
  {
    var leaves := Leaves(a);
    FileSetLengths(paths, n, d);
    forall p | p in Image(pathOf, leaves) ensures p in FileSet(paths, n) {
      var x :| x in leaves && pathOf[x] == p;
      assert p in pathOf.Values;
    }
    forall p | p in FileSet(paths, n) ensures p in Image(pathOf, leaves) {
      assert p in pathOf.Values;
      var x :| x in pathOf && pathOf[x] == p;
      assert x in leaves;
    }
  }

  /** The tree after n distinct tracks holds exactly n song nodes. */
  lemma LeavesCard(a: Arena, pathOf: map<nat, seq<string>>, paths: seq<seq<string>>, songs: seq<L.Song>, n: nat, d: nat)
    requires Tracks(a, pathOf, paths, songs, n, d) && Distinct(paths, n)
    ensures |Leaves(a)| == n
  {
    var leaves := Leaves(a);
    forall x, y | x in leaves && y in leaves && pathOf[x] == pathOf[y] ensures x == y {
      PathsInjective(a, pathOf, x, y);
    }
    InjectiveImageCard(pathOf, leaves);
    LeavesImage(a, pathOf, paths, songs, n, d);
    FileSetCard(paths, n);
  }

  /**
   * The counter after n distinct tracks: one number per directory the
   * tracks pass and one per track, after the FirstRaw reserved ones.
   */
  lemma LastIssued(a: Arena, pathOf: map<nat, seq<string>>, paths: seq<seq<string>>, songs: seq<L.Song>, n: nat, d: nat)
    requires Tracks(a, pathOf, paths, songs, n, d) && Distinct(paths, n)
    ensures a.last == FirstRaw + n + |DirSet(paths, n, d)|
  {
    var dirs, files := DirSet(paths, n, d), FileSet(paths, n);
    FileSetLengths(paths, n, d);
    FileSetCard(paths, n);
    assert {[]} !! dirs;
    DisjointCard({[]}, dirs);
    assert {[]} + dirs !! files;
    DisjointCard({[]} + dirs, files);
  }

  /** The numbers the counter has issued when the last one was last. */
  ghost function Counted(last: nat): (r: set<nat>)
    ensures forall x :: x in r <==> FirstRaw < x <= last
    ensures |r| == if last > FirstRaw then last - FirstRaw else 0
    decreases last
  {
    if last <= FirstRaw then {} else Counted(last - 1) + {last}
  }

  /** The numbers that name nodes: the root's, and every number the counter has issued. */
  ghost function IssuedIds(last: nat): set<nat> {
    {RootId} + Counted(last)
  }

  /** An image is no larger than the set it is the image of. */
  lemma {:induction false} ImageCardLe<K, V>(m: map<K, V>, s: set<K>)
    requires s <= m.Keys
    ensures |Image(m, s)| <= |s|
    decreases |s|
  {
    if s != {} {
      var x :| x in s;
      ImageCardLe(m, s - {x});
      assert Image(m, s) == Image(m, s - {x}) + {m[x]};
    }
  }

  /** A subset at least as large as its superset is the superset. */
  lemma SubsetCardEq<T>(x: set<T>, y: set<T>)
    requires x <= y && |y| <= |x|
    ensures x == y
  {
    assert y == x + (y - x);
    DisjointCard(x, y - x);
  }

  /**
   * In a labelled tree the nodes are numbered exactly by the root's number
   * and the numbers the counter issued: no issued number is unused and none
   * names two nodes.
   */
  lemma NodeIds(a: Arena, pathOf: map<nat, seq<string>>)
    requires Tree(a, pathOf)
    ensures a.nodes.Keys == IssuedIds(a.last) && |a.nodes| == a.last - 1
  {
    var keys := a.nodes.Keys;
    assert pathOf.Values == Image(pathOf, keys);
    ImageCardLe(pathOf, keys);
    assert [] in pathOf.Values;
    DisjointCard({RootId}, Counted(a.last));
    SubsetCardEq(keys, IssuedIds(a.last));
  }

  /**
   * The tree after n distinct tracks of d directory names each: n song
   * nodes; the counter at FirstRaw + n + the number of directory paths; the
   * nodes numbered by the root and the issued numbers; every track's path
   * leading to its song.
   */
  lemma BuildLayout(a: Arena, paths: seq<seq<string>>, songs: seq<L.Song>, n: nat, d: nat)
    requires n <= |songs| && Uniform(paths, n, d) && Distinct(paths, n)
    requires a == Build(paths, songs, n)
    ensures |Leaves(a)| == n
    ensures a.last == FirstRaw + n + |DirSet(paths, n, d)|
    ensures a.nodes.Keys == IssuedIds(a.last)
    ensures TracksFound(a, paths, songs, n)
  {
    var pathOf := TracksTree(a, paths, songs, n, d);
    LeavesCard(a, pathOf, paths, songs, n, d);
    LastIssued(a, pathOf, paths, songs, n, d);
    NodeIds(a, pathOf);
  }
}
