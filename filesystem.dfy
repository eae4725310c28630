/**
 * The mounted file system: the root node that, when added, lays the whole
 * library out as a tree of directories (one per artist, one per album)
 * holding one song node per track, and that numbers every node it creates
 * from its own inode counter.
 *
 * The go-fuse inode tree is modelled as an arena: a map from inode number to
 * node, and a map from (parent inode, child name) to child inode.
 */
module FileSystem {
  import opened PathStrings
  import L = Library

  /** The inode number of the root node; the counter never issues it. */
  const RootId: nat := 1

  /** The value the inode counter holds before it issues its first number. */
  const FirstRaw: nat := 2

  datatype Node = Dir | File(song: L.Song)

  datatype Option<T> = None | Some(value: T)

  /**
   * The inode tree: every node by inode number, the named child links, and
   * the last inode number issued (FirstRaw before the first one).
   */
  datatype Arena = Arena(nodes: map<nat, Node>, children: map<(nat, string), nat>, last: nat)

  /** The tree before OnAdd: only the root directory, and no number issued. */
  function Initial(): (a: Arena)
    ensures a.nodes.Keys == {RootId} && a.children == map[] && a.last < 3
  {
    Arena(map[RootId := Dir], map[], FirstRaw)
  }

  /** Every existing inode number is at most the last one issued. */
  ghost predicate NumbersIssued(a: Arena) {
    forall id :: id in a.nodes ==> id <= a.last
  }

  /** Every entry of m1 is also an entry of m2. */
  ghost predicate SubMap<K, V>(m1: map<K, V>, m2: map<K, V>) {
    forall k :: k in m1 ==> k in m2 && m2[k] == m1[k]
  }

  /** b keeps every node and every child link of a. */
  ghost predicate Extends(a: Arena, b: Arena) {
    a.last <= b.last && SubMap(a.nodes, b.nodes) && SubMap(a.children, b.children)
  }

  /**
   * NewPersistentInode followed by AddChild: a node numbered by the next
   * value of the counter, linked under wd as name (replacing any child of
   * that name).
   */
  function AddNode(a: Arena, wd: nat, name: string, node: Node): (r: Arena)
    ensures r.last == a.last + 1
    ensures r.nodes == a.nodes[r.last := node]
    ensures r.children == a.children[(wd, name) := r.last]
  {
    var id := a.last + 1;
    Arena(a.nodes[id := node], a.children[(wd, name) := id], id)
  }

  /**
   * One step of the directory walk: an empty component is skipped; an
   * existing child of that name is reused; otherwise a new directory with
   * the next inode number becomes that child.  Returns the new tree and the
   * new working directory.
   */
  function Step(a: Arena, wd: nat, c: string): (r: (Arena, nat))
    ensures c == "" ==> r == (a, wd)
    ensures c != "" && (wd, c) in a.children ==> r == (a, a.children[(wd, c)])
    ensures c != "" ==> (wd, c) in r.0.children && r.1 == r.0.children[(wd, c)]
    ensures r.0.last == a.last + (if c == "" || (wd, c) in a.children then 0 else 1)
    ensures NumbersIssued(a) ==> Extends(a, r.0) && NumbersIssued(r.0)
  {
    if c == "" then (a, wd)
    else if (wd, c) in a.children then (a, a.children[(wd, c)])
    else
      var b := AddNode(a, wd, c, Dir);
      (b, b.last)
  }

  /**
   * The directory walk of one track: Step over every component in turn.
   * It creates at most one directory per non-empty component and changes
   * none of the existing nodes or links.
   */
  function Walk(a: Arena, wd: nat, comps: seq<string>): (r: (Arena, nat))
    ensures a.last <= r.0.last <= a.last + |NonEmpty(comps)|
    ensures NumbersIssued(a) ==> Extends(a, r.0) && NumbersIssued(r.0)
    decreases |comps|
  {
    if comps == [] then (a, wd)
    else
      var s := Step(a, wd, comps[0]);
      assert comps[0] != "" ==> NonEmpty(comps) == [comps[0]] + NonEmpty(comps[1..]);
      Walk(s.0, s.1, comps[1..])
  }

  /**
   * Attaches a song node with the next inode number under wd as fname,
   * replacing any child of that name.
   */
  function Attach(a: Arena, wd: nat, fname: string, song: L.Song): (r: Arena)
    ensures r.last == a.last + 1
    ensures r.children == a.children[(wd, fname) := r.last]
    ensures r.last in r.nodes && r.nodes[r.last] == File(song)
    ensures NumbersIssued(a) ==> NumbersIssued(r) && a.nodes.Keys < r.nodes.Keys
  {
    AddNode(a, wd, fname, File(song))
  }

  /**
   * The body of OnAdd's loop for one track: split the location into its
   * directory and file name, walk (creating as needed) the directory's
   * components from the root, and attach the song there.
   */
  function WithTrack(a: Arena, location: string, song: L.Song): (r: Arena)
    ensures a.last + 1 <= r.last
  {
    var (dir, fname) := SplitPath(location);
    var (b, wd) := Walk(a, RootId, Split(dir));
    Attach(b, wd, fname, song)
  }

  /** The tree after the first n (location, song) pairs have been added to a, in order. */
  function WithTracks(a: Arena, locations: seq<string>, songs: seq<L.Song>, n: nat): (r: Arena)
    requires n <= |locations| && n <= |songs|
    ensures a.last + n <= r.last
    decreases n
  {
    if n == 0 then a
    else WithTrack(WithTracks(a, locations, songs, n - 1), locations[n - 1], songs[n - 1])
  }

  /** The location PathAt gives each of the first n tracks. */
  function Locations(lib: L.Library, n: nat): (r: seq<string>)
    requires n == 0 || n <= lib.tracks
    ensures |r| == n
    ensures forall k :: 0 <= k < n ==> r[k] == lib.PathAt(k).value
  {
    if n == 0 then [] else Locations(lib, n - 1) + [lib.PathAt(n - 1).value]
  }

  /** The song SongAt gives each of the first n tracks. */
  function Songs(lib: L.Library, writeTag: L.TagFields -> seq<L.byte>, n: nat): (r: seq<L.Song>)
    requires n == 0 || n <= lib.tracks
    ensures |r| == n
    ensures forall k :: 0 <= k < n ==> r[k] == lib.SongAt(k, writeTag).value
  {
    if n == 0 then [] else Songs(lib, writeTag, n - 1) + [lib.SongAt(n - 1, writeTag).value]
  }

  /** The number of tracks OnAdd adds: Tracks, or none when it is negative. */
  function TrackCount(lib: L.Library): (n: nat)
    ensures n <= lib.tracks || n == 0
  {
    if lib.tracks < 0 then 0 else lib.tracks
  }

  /** The tree OnAdd makes from a: every track of lib added in index order. */
  function Mounted(a: Arena, lib: L.Library, writeTag: L.TagFields -> seq<L.byte>): (r: Arena)
    ensures a.last + TrackCount(lib) <= r.last
  {
    var n := TrackCount(lib);
    WithTracks(a, Locations(lib, n), Songs(lib, writeTag, n), n)
  }

  /** The inode reached from wd by following the named links of path, if any. */
  function Lookup(children: map<(nat, string), nat>, wd: nat, path: seq<string>): (r: Option<nat>)
    ensures path == [] ==> r == Some(wd)
    decreases |path|
  {
    if path == [] then Some(wd)
    else if (wd, path[0]) in children then Lookup(children, children[(wd, path[0])], path[1..])
    else None
  }

  /** The node reached from the root by following the named links of path, if any. */
  function NodeAt(a: Arena, path: seq<string>): (r: Option<Node>)
    ensures r.Some? ==> Lookup(a.children, RootId, path).Some?
  {
    match Lookup(a.children, RootId, path)
    case None => None
    case Some(x) => if x in a.nodes then Some(a.nodes[x]) else None
  }

  /** The root node of a mounted library, with its inode counter. */
  class Root {
    const lib: L.Library
    /** The id3v2 serialiser, which is not modelled. */
    const writeTag: L.TagFields -> seq<L.byte>
    var nodes: map<nat, Node>
    var children: map<(nat, string), nat>
    /** Whether the counter has been set up (the sync.Once has run). */
    var nextInodeInit: bool
    var nextInodeIDRaw: nat

    /** The inode tree the root and its descendants form. */
    function State(): Arena
      reads this
    {
      Arena(nodes, children, if nextInodeInit then nextInodeIDRaw else FirstRaw)
    }

    /** Mount's `&root{l: lib}`: a root with no children whose counter is not yet set up. */
    constructor (lib: L.Library, writeTag: L.TagFields -> seq<L.byte>)
      ensures this.lib == lib && this.writeTag == writeTag
      ensures State() == Initial()
      ensures !nextInodeInit
    {
      this.lib := lib;
      this.writeTag := writeTag;
      nodes := map[RootId := Dir];
      children := map[];
      nextInodeInit := false;
      nextInodeIDRaw := 0;
    }

    /**
     * nextInodeID: on the first call sets the counter to FirstRaw (the
     * smaller numbers are reserved), then increments it and returns the new
     * value; so the first call returns 3 and each later call one more.
     */
    method NextInodeID() returns (out: nat)
      modifies this
      ensures out == old(State().last) + 1
      ensures !old(nextInodeInit) ==> out == 3
      ensures State() == old(State()).(last := out)
      ensures nextInodeInit
    {
      if !nextInodeInit {
        nextInodeIDRaw := FirstRaw;
        nextInodeInit := true;
      }
      nextInodeIDRaw := nextInodeIDRaw + 1;
      out := nextInodeIDRaw;
    }

    /**
     * One step of the directory walk in OnAdd's inner loop: moves to the
     * child named component of wd, creating it with a fresh inode number
     * when it does not exist yet.
     */
    method StepIn(wd: nat, component: string) returns (cur: nat)
      requires component != ""
      modifies this
      ensures (State(), cur) == Step(old(State()), wd, component)
    {
      if (wd, component) in children {
        cur := children[(wd, component)];
      } else {
        cur := NextInodeID();
        nodes := nodes[cur := Dir];
        children := children[(wd, component) := cur];
      }
    }

    /**
     * The placement of one song in OnAdd's loop: splits its location into
     * directory and file name, walks the directory's components from the
     * root (skipping empty ones, reusing an existing child, creating a
     * numbered directory otherwise) and attaches a numbered song node there.
     */
    method AddTrack(location: string, song: L.Song)
      modifies this
      ensures State() == WithTrack(old(State()), location, song)
    {
      var dir, fname := SplitPath(location).0, SplitPath(location).1;
      var wd := WalkIn(Split(dir));
      var id := NextInodeID();
      nodes := nodes[id := File(song)];
      children := children[(wd, fname) := id];
    }

    /**
     * The walk of AddTrack: from the root, follows each non-empty component
     * in turn, reusing an existing child and creating a numbered directory
     * otherwise, and returns the directory it ends in.
     */
    method WalkIn(comps: seq<string>) returns (wd: nat)
      modifies this
      ensures (State(), wd) == Walk(old(State()), RootId, comps)
    {
      ghost var a0 := State();
      wd := RootId;
      for j := 0 to |comps|
        invariant Walk(State(), wd, comps[j..]) == Walk(a0, RootId, comps)
      {
        assert comps[j..][0] == comps[j] && comps[j..][1..] == comps[j + 1..];
        var component := comps[j];
        if component == "" {
          // A trailing '/' in dir yields an empty last component.
          continue;
        }
        wd := StepIn(wd, component);
      }
      assert comps[|comps|..] == [];
    }

    /**
     * OnAdd's loop over the track indices 0 .. Tracks - 1: adds each track at
     * the location PathAt gives it, holding the song SongAt gives it.  Both
     * succeed for an index in range, so the fatal-error branches of the
     * source are unreachable.  The ghost parameters name those locations and
     * songs.
     */
    method AddTracks(ghost locations: seq<string>, ghost songs: seq<L.Song>)
      requires |locations| == |songs| == lib.tracks
      requires locations == Locations(lib, lib.tracks) && songs == Songs(lib, writeTag, lib.tracks)
      modifies this
      ensures State() == WithTracks(old(State()), locations, songs, lib.tracks)
    {
      ghost var a0 := State();
      for i := 0 to lib.tracks
        invariant State() == WithTracks(a0, locations, songs, i)
      {
        var location := lib.PathAt(i).value;
        var song := lib.SongAt(i, writeTag).value;
        AddTrack(location, song);
      }
    }

    /** OnAdd: adds every track 0 .. Tracks - 1, in index order, under the root. */
    method OnAdd()
      modifies this
      ensures State() == Mounted(old(State()), lib, writeTag)
    {
      if lib.tracks > 0 {
        AddTracks(Locations(lib, lib.tracks), Songs(lib, writeTag, lib.tracks));
      }
    }
  }
}
