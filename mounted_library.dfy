/**
 * OnAdd over a library tagged by RepeatedLetters and laid out by
 * ArtistAlbumTitle.  Every track's path is artist/album/title.mp3 with
 * non-empty names, and no two tracks share one, so the mounted tree holds
 * one song node per track and one directory per artist and per album, and
 * with the default shape its inode numbers stay below twice the number of
 * tracks.
 */
module MountedLibrary {
  import opened PathStrings
  import opened FileSystem
  import opened TreeProofs
  import opened Arith
  import L = Library

  // ---------------------------------------------------------------------
  // Any library whose paths are distinct

  /**
   * Mounting a library whose first N = max(Tracks, 0) paths have the link
   * names paths[0 .. N) builds the tree of those links.
   */
  lemma MountedIsBuild(lib: L.Library, writeTag: L.TagFields -> seq<L.byte>, paths: seq<seq<string>>, a: Arena)
    requires TrackCount(lib) <= |paths|
    requires forall i :: 0 <= i < TrackCount(lib) ==> lib.PathAt(i).Ok? && Parts(lib.PathAt(i).value) == paths[i]
    requires a == Mounted(Initial(), lib, writeTag)
    ensures a == Build(paths, Songs(lib, writeTag, TrackCount(lib)), TrackCount(lib))
  {
    var n := TrackCount(lib);
    var locs := Locations(lib, n);
    forall i | 0 <= i < n ensures PartsAt(locs, paths, i) {
    }
    WithTracksBuild(locs, Songs(lib, writeTag, n), paths, n);
  }

  /**
   * OnAdd over any library whose N = max(Tracks, 0) paths have the
   * distinct link names paths[0 .. N), each d directories deep: exactly N
   * song nodes; the counter at 2 + N + D, with D the number of directory
   * paths; the nodes numbered by the root's 1 and the issued numbers
   * 3 .. counter, each naming one node; and the links of PathAt(i) leading
   * from the root to the song node holding SongAt(i).
   */
  lemma MountedTracks(lib: L.Library, writeTag: L.TagFields -> seq<L.byte>, paths: seq<seq<string>>, d: nat, a: Arena)
    requires Uniform(paths, TrackCount(lib), d) && Distinct(paths, TrackCount(lib))
    requires forall i :: 0 <= i < TrackCount(lib) ==> lib.PathAt(i).Ok? && Parts(lib.PathAt(i).value) == paths[i]
    requires a == Mounted(Initial(), lib, writeTag)
    ensures |Leaves(a)| == TrackCount(lib)
    ensures a.last == FirstRaw + TrackCount(lib) + |DirSet(paths, TrackCount(lib), d)|
    ensures a.nodes.Keys == IssuedIds(a.last)
    ensures forall i :: 0 <= i < TrackCount(lib) ==>
      lib.SongAt(i, writeTag).Ok? && NodeAt(a, paths[i]) == Some(File(lib.SongAt(i, writeTag).value))
  {
    var n := TrackCount(lib);
    var songs := Songs(lib, writeTag, n);
    MountedIsBuild(lib, writeTag, paths, a);
    BuildLayout(a, paths, songs, n, d);
    SongsFound(a, lib, writeTag, paths, n);
  }

  /** The tracks found at their paths hold the library's songs. */
  lemma SongsFound(a: Arena, lib: L.Library, writeTag: L.TagFields -> seq<L.byte>, paths: seq<seq<string>>, n: nat)
    requires n == TrackCount(lib) && n <= |paths| && TracksFound(a, paths, Songs(lib, writeTag, n), n)
    ensures forall i :: 0 <= i < n ==>
      lib.SongAt(i, writeTag).Ok? && NodeAt(a, paths[i]) == Some(File(lib.SongAt(i, writeTag).value))
  {
    var songs := Songs(lib, writeTag, n);
    forall i | 0 <= i < n ensures NodeAt(a, paths[i]) == Some(File(lib.SongAt(i, writeTag).value)) {
      assert TrackAt(a, paths, songs, i);
    }
  }

  // ---------------------------------------------------------------------
  // Tracks laid out as artist/album/title.mp3

  /** The links OnAdd follows for a track: its artist, its album, then title.mp3. */
  function TrackParts(t: L.TagFields): (p: seq<string>)
    ensures |p| == 3 && p[0] == t.artist && p[1] == t.album && p[2] == t.title + ".mp3"
  {
    [t.artist, t.album, t.title + ".mp3"]
  }

  /** The links of each track, given the tracks' tags in index order. */
  function PartsOf(tags: seq<L.TagFields>): (r: seq<seq<string>>)
    ensures |r| == |tags|
    ensures forall i :: 0 <= i < |tags| ==> r[i] == TrackParts(tags[i])
  {
    if tags == [] then [] else PartsOf(tags[..|tags| - 1]) + [TrackParts(tags[|tags| - 1])]
  }

  /** Every artist and album name is non-empty. */
  ghost predicate DirsNamed(tags: seq<L.TagFields>) {
    forall i :: 0 <= i < |tags| ==> tags[i].artist != "" && tags[i].album != ""
  }

  /** No two tracks have the same artist, album and title. */
  ghost predicate TagsDistinct(tags: seq<L.TagFields>) {
    forall i, j ::
      (0 <= i < |tags| && 0 <= j < |tags| && tags[i].artist == tags[j].artist &&
       tags[i].album == tags[j].album && tags[i].title == tags[j].title) ==> i == j
  }

  /** A track that does not start an album (of t tracks) has the artist and album of the track before. */
  ghost predicate AlbumsOf(tags: seq<L.TagFields>, t: nat)
    requires t >= 1
  {
    forall i :: 0 < i < |tags| && i % t != 0 ==> tags[i].artist == tags[i - 1].artist && tags[i].album == tags[i - 1].album
  }

  /** The artist directories: one path per artist name. */
  ghost function ArtistDirs(tags: seq<L.TagFields>): set<seq<string>> {
    set i | 0 <= i < |tags| :: [tags[i].artist]
  }

  /** The album directories: one path per (artist, album) pair. */
  ghost function AlbumDirs(tags: seq<L.TagFields>): set<seq<string>> {
    set i | 0 <= i < |tags| :: [tags[i].artist, tags[i].album]
  }

  /** Tracks with named artists and albums are two directories deep. */
  lemma PartsUniform(tags: seq<L.TagFields>, m: nat)
    requires DirsNamed(tags) && m <= |tags|
    ensures Uniform(PartsOf(tags), m, 2)
  {
    var paths := PartsOf(tags);
    forall i | 0 <= i < m ensures Shaped(paths[i], 2) {
      assert paths[i][0] == tags[i].artist && paths[i][1] == tags[i].album;
    }
  }

  /** Distinct tags give distinct links. */
  lemma PartsDistinct(tags: seq<L.TagFields>)
    requires TagsDistinct(tags)
    ensures Distinct(PartsOf(tags), |tags|)
  {
    var paths := PartsOf(tags);
    forall i, j | 0 <= i < |tags| && 0 <= j < |tags| && paths[i] == paths[j] ensures i == j {
      var ti, tj := tags[i], tags[j];
      var fi, fj := ti.title + ".mp3", tj.title + ".mp3";
      assert ti.artist == paths[i][0] == paths[j][0] == tj.artist;
      assert ti.album == paths[i][1] == paths[j][1] == tj.album;
      assert fi == paths[i][2] == paths[j][2] == fj;
      assert ti.title == fi[..|fi| - 4] == fj[..|fj| - 4] == tj.title;
    }
  }

  /** The one- and two-link prefixes of a track's links name its artist and its album. */
  lemma TrackPrefixes(t: L.TagFields)
    ensures TrackParts(t)[..1] == [t.artist] && TrackParts(t)[..2] == [t.artist, t.album]
  {
  }

  /** Every directory path of the tracks is an artist's or an album's. */
  lemma DirectoriesNamed(tags: seq<L.TagFields>, paths: seq<seq<string>>)
    requires DirsNamed(tags) && paths == PartsOf(tags) && Uniform(paths, |tags|, 2)
    ensures DirSet(paths, |tags|, 2) <= ArtistDirs(tags) + AlbumDirs(tags)
  {
    forall p | p in DirSet(paths, |tags|, 2) ensures p in ArtistDirs(tags) + AlbumDirs(tags) {
      var i, k :| 0 <= i < |tags| && 1 <= k <= 2 && p == paths[i][..k];
      TrackPrefixes(tags[i]);
      if k == 1 {
        assert [tags[i].artist] in ArtistDirs(tags);
      } else {
        assert [tags[i].artist, tags[i].album] in AlbumDirs(tags);
      }
    }
  }

  /** Every artist's and album's path is a directory path of the tracks. */
  lemma DirectoriesMade(tags: seq<L.TagFields>, paths: seq<seq<string>>)
    requires DirsNamed(tags) && paths == PartsOf(tags) && Uniform(paths, |tags|, 2)
    ensures ArtistDirs(tags) + AlbumDirs(tags) <= DirSet(paths, |tags|, 2)
  {
    forall p | p in ArtistDirs(tags) ensures p in DirSet(paths, |tags|, 2) {
      var i :| 0 <= i < |tags| && p == [tags[i].artist];
      TrackPrefixes(tags[i]);
      assert p == paths[i][..1];
    }
    forall p | p in AlbumDirs(tags) ensures p in DirSet(paths, |tags|, 2) {
      var i :| 0 <= i < |tags| && p == [tags[i].artist, tags[i].album];
      TrackPrefixes(tags[i]);
      assert p == paths[i][..2];
    }
  }

  /** The directory paths of the tracks are their artists' and their albums'. */
  lemma Directories(tags: seq<L.TagFields>)
    requires DirsNamed(tags)
    ensures Uniform(PartsOf(tags), |tags|, 2)
    ensures DirSet(PartsOf(tags), |tags|, 2) == ArtistDirs(tags) + AlbumDirs(tags)
  {
    PartsUniform(tags, |tags|);
    DirectoriesNamed(tags, PartsOf(tags));
    DirectoriesMade(tags, PartsOf(tags));
  }

  /** The number of albums the first n tracks reach into: the i < n with i % t == 0. */
  function AlbumCount(n: nat, t: nat): nat
    requires t >= 1
  {
    (n + t - 1) / t
  }

  /** The album count grows by one at an album's first track and never shrinks. */
  lemma AlbumCountStep(m: nat, t: nat)
    requires m >= 1 && t >= 1
    ensures (m - 1) % t == 0 ==> AlbumCount(m, t) == AlbumCount(m - 1, t) + 1
    ensures AlbumCount(m - 1, t) <= AlbumCount(m, t)
  {
    var q, r := (m - 1) / t, (m - 1) % t;
    if r == 0 {
      DivModUnique(m - 1 + t - 1, t, q, t - 1);
      DivModUnique(m + t - 1, t, q + 1, 0);
    } else {
      DivModUnique(m - 1 + t - 1, t, q + 1, r - 1);
      DivModUnique(m + t - 1, t, q + 1, r);
    }
  }

  /** The directories of one track: its artist's and its album's. */
  lemma TrackDirs(p: seq<string>)
    requires |p| == 3
    ensures PrefixPaths([], p[..2]) == {p[..1], p[..2]}
  {
    var l := PrefixPaths([], p[..2]);
    assert [] + p[..2][..1] == p[..1] && [] + p[..2][..2] == p[..2];
    forall q | q in l ensures q in {p[..1], p[..2]} {
      var k :| 1 <= k <= 2 && q == [] + p[..2][..k];
    }
  }

  /** Adding two elements to a set adds at most two to its size, and none when both are in it. */
  lemma AddTwoCard<T>(s: set<T>, x: T, y: T)
    ensures |s + {x, y}| <= |s| + 2
    ensures x in s && y in s ==> s + {x, y} == s
  {
    if x !in s {
      DisjointCard(s, {x});
    } else {
      assert s + {x} == s;
    }
    assert s + {x, y} == s + {x} + {y};
    if y !in s + {x} {
      DisjointCard(s + {x}, {y});
    } else {
      assert s + {x} + {y} == s + {x};
    }
  }

  /** One more track adds its two directories, or none when it continues an album. */
  lemma DirectoriesStep(tags: seq<L.TagFields>, t: nat, paths: seq<seq<string>>, m: nat, n: nat)
    requires t >= 1 && DirsNamed(tags) && AlbumsOf(tags, t)
    requires paths == PartsOf(tags) && n == m + 1 && n <= |tags| && Uniform(paths, n, 2)
    requires |DirSet(paths, m, 2)| <= 2 * AlbumCount(m, t)
    ensures |DirSet(paths, n, 2)| <= 2 * AlbumCount(n, t)
  {
    var old_dirs := DirSet(paths, m, 2);
    var p := paths[m];
    DirSetSnoc(paths, n, 2);
    TrackDirs(p);
    AddTwoCard(old_dirs, p[..1], p[..2]);
    AlbumCountStep(n, t);
    if m >= 1 && m % t != 0 {
      var prev := paths[m - 1];
      TrackPrefixes(tags[m]);
      TrackPrefixes(tags[m - 1]);
      assert p[..1] == prev[..1] && p[..2] == prev[..2];
      assert prev[..1] in old_dirs && prev[..2] in old_dirs;
    }
  }

  /**
   * The first m tracks have at most two directories per album they reach
   * into: a track that does not start an album shares both directories
   * with the track before.
   */
  lemma {:induction false} DirectoriesBound(tags: seq<L.TagFields>, t: nat, paths: seq<seq<string>>, m: nat)
    requires t >= 1 && DirsNamed(tags) && AlbumsOf(tags, t)
    requires paths == PartsOf(tags) && m <= |tags|
    ensures Uniform(paths, m, 2)
    ensures |DirSet(paths, m, 2)| <= 2 * AlbumCount(m, t)
    decreases m
  {
    PartsUniform(tags, m);
    if m > 0 {
      DirectoriesBound(tags, t, paths, m - 1);
      DirectoriesStep(tags, t, paths, m - 1, m);
    }
  }

  // ---------------------------------------------------------------------
  // RepeatedLetters libraries

  /** The tags of the first n tracks of a library tagged by shape. */
  function TagsOf(shape: L.RepeatedLetters, n: nat): (r: seq<L.TagFields>)
    requires shape.Valid()
    ensures |r| == n
    ensures forall i :: 0 <= i < n ==> r[i] == shape.Tag(i)
  {
    if n == 0 then [] else TagsOf(shape, n - 1) + [shape.Tag(n - 1)]
  }

  /** RepeatedLetters artist and album names are non-empty. */
  lemma ShapeTagsNamed(shape: L.RepeatedLetters, n: nat)
    requires shape.Valid()
    ensures DirsNamed(TagsOf(shape, n))
  {
    var tags := TagsOf(shape, n);
    forall i | 0 <= i < n ensures tags[i].artist != "" && tags[i].album != "" {
      var t := shape.Tag(i);
    }
  }

  /** No two RepeatedLetters tracks have the same artist, album and title. */
  lemma ShapeTagsDistinct(shape: L.RepeatedLetters, n: nat)
    requires shape.Valid()
    ensures TagsDistinct(TagsOf(shape, n))
  {
    var tags := TagsOf(shape, n);
    forall i, j | 0 <= i < n && 0 <= j < n && tags[i].artist == tags[j].artist &&
      tags[i].album == tags[j].album && tags[i].title == tags[j].title
      ensures i == j
    {
      shape.TagInjective(i, j);
    }
  }

  /** A RepeatedLetters track changes album only every tracksPerAlbum tracks. */
  lemma ShapeTagsAlbums(shape: L.RepeatedLetters, n: nat)
    requires shape.Valid()
    ensures AlbumsOf(TagsOf(shape, n), shape.tracksPerAlbum)
  {
    var tags := TagsOf(shape, n);
    forall i | 0 < i < n && i % shape.tracksPerAlbum != 0
      ensures tags[i].artist == tags[i - 1].artist && tags[i].album == tags[i - 1].album
    {
      shape.SameAlbumAsNext(i - 1);
    }
  }

  /** RepeatedLetters tags are named, distinct, and change album only every tracksPerAlbum tracks. */
  lemma ShapeTags(shape: L.RepeatedLetters, n: nat)
    requires shape.Valid()
    ensures DirsNamed(TagsOf(shape, n))
    ensures TagsDistinct(TagsOf(shape, n))
    ensures AlbumsOf(TagsOf(shape, n), shape.tracksPerAlbum)
  {
    ShapeTagsNamed(shape, n);
    ShapeTagsDistinct(shape, n);
    ShapeTagsAlbums(shape, n);
  }

  /**
   * The location PathAt gives an in-range track splits at '/' into its
   * artist, album and file name, and those are the links OnAdd follows.
   */
  lemma PathParts(tracks: int, shape: L.RepeatedLetters, golden: seq<L.byte>, i: nat)
    requires shape.Valid() && i < tracks
    ensures L.RepeatedLettersLibrary(tracks, shape, golden).PathAt(i).Ok?
    ensures var loc := L.RepeatedLettersLibrary(tracks, shape, golden).PathAt(i).value;
      && Split(loc) == TrackParts(shape.Tag(i))
      && Parts(loc) == TrackParts(shape.Tag(i))
  {
    var t := shape.Tag(i);
    L.RepeatedLettersPathAt(tracks, shape, golden, i);
    L.SplitArtistAlbumTitle(i, t);
    var comps := [t.artist, t.album, ""];
    assert comps[1..] == [t.album, ""] && comps[1..][1..] == [""] && [""][1..] == [];
    assert NonEmpty([""]) == [];
    assert NonEmpty([t.album, ""]) == [t.album];
    assert NonEmpty(comps) == [t.artist, t.album];
  }

  /** The links of every in-range path of a RepeatedLetters library. */
  lemma LibraryParts(tracks: int, shape: L.RepeatedLetters, golden: seq<L.byte>, n: nat, paths: seq<seq<string>>)
    requires shape.Valid() && (n == 0 || n <= tracks) && paths == PartsOf(TagsOf(shape, n))
    ensures forall i :: 0 <= i < n ==>
      L.RepeatedLettersLibrary(tracks, shape, golden).PathAt(i).Ok? &&
      Parts(L.RepeatedLettersLibrary(tracks, shape, golden).PathAt(i).value) == paths[i]
  {
    forall i | 0 <= i < n
      ensures L.RepeatedLettersLibrary(tracks, shape, golden).PathAt(i).Ok?
      ensures Parts(L.RepeatedLettersLibrary(tracks, shape, golden).PathAt(i).value) == paths[i]
    {
      PathParts(tracks, shape, golden, i);
    }
  }

  /**
   * OnAdd over a RepeatedLetters library with N = max(Tracks, 0) tracks:
   * exactly N song nodes; the counter at 2 + N + D, with D the number of
   * distinct artists plus the number of distinct (artist, album) pairs; and
   * the nodes numbered by the root's 1 and the issued numbers 3 .. counter.
   */
  lemma MountedLayout(tracks: int, shape: L.RepeatedLetters, golden: seq<L.byte>, writeTag: L.TagFields -> seq<L.byte>, a: Arena)
    requires shape.Valid()
    requires a == Mounted(Initial(), L.RepeatedLettersLibrary(tracks, shape, golden), writeTag)
    ensures var n := TrackCount(L.RepeatedLettersLibrary(tracks, shape, golden));
      && |Leaves(a)| == n
      && a.last == FirstRaw + n + |ArtistDirs(TagsOf(shape, n)) + AlbumDirs(TagsOf(shape, n))|
      && a.nodes.Keys == IssuedIds(a.last)
  {
    var lib := L.RepeatedLettersLibrary(tracks, shape, golden);
    var n := TrackCount(lib);
    var tags := TagsOf(shape, n);
    var paths := PartsOf(tags);
    ShapeTags(shape, n);
    LibraryParts(tracks, shape, golden, n, paths);
    Directories(tags);
    PartsDistinct(tags);
    MountedTracks(lib, writeTag, paths, 2, a);
  }

  /**
   * After OnAdd over a RepeatedLetters library, the '/'-separated
   * components of the path of an in-range track lead from the root to the
   * song node holding that track's song.
   */
  lemma MountedPathAt(tracks: int, shape: L.RepeatedLetters, golden: seq<L.byte>, writeTag: L.TagFields -> seq<L.byte>, a: Arena, i: nat)
    requires shape.Valid() && i < tracks
    requires a == Mounted(Initial(), L.RepeatedLettersLibrary(tracks, shape, golden), writeTag)
    ensures var lib := L.RepeatedLettersLibrary(tracks, shape, golden);
      && lib.PathAt(i).Ok? && lib.SongAt(i, writeTag).Ok?
      && NodeAt(a, Split(lib.PathAt(i).value)) == Some(File(lib.SongAt(i, writeTag).value))
  {
    var lib := L.RepeatedLettersLibrary(tracks, shape, golden);
    var n := TrackCount(lib);
    var tags := TagsOf(shape, n);
    var paths := PartsOf(tags);
    ShapeTags(shape, n);
    LibraryParts(tracks, shape, golden, n, paths);
    PartsUniform(tags, n);
    PartsDistinct(tags);
    MountedTracks(lib, writeTag, paths, 2, a);
    PathParts(tracks, shape, golden, i);
  }

  /** With ten tracks per album and N >= 4 tracks, 2 + N + 2 * (number of albums) <= 2N. */
  lemma DefaultCounterBound(n: nat)
    requires n >= 4
    ensures FirstRaw + n + 2 * AlbumCount(n, 10) <= 2 * n
  {
    var q := AlbumCount(n, 10);
    assert q * 10 <= n + 9;
  }

  /** Every node number of a tree numbered 1, 3 .. last is at most any bound on last. */
  lemma IdsBelow(a: Arena, bound: nat)
    requires a.nodes.Keys == IssuedIds(a.last) && a.last <= bound && RootId <= bound
    ensures forall x :: x in a.nodes ==> x <= bound
  {
  }

  /**
   * A tree numbered 1, 3 .. last whose counter stands at 2 + N + D, with
   * D the directories of the first N >= 4 tracks of the default shape, has
   * no number above 2N.
   */
  lemma DefaultLayoutBound(tracks: nat, a: Arena)
    requires tracks >= 4
    requires a.nodes.Keys == IssuedIds(a.last)
    requires a.last == FirstRaw + tracks + |ArtistDirs(TagsOf(L.DefaultShape, tracks)) + AlbumDirs(TagsOf(L.DefaultShape, tracks))|
    ensures forall x :: x in a.nodes ==> x <= 2 * tracks
  {
    var tags := TagsOf(L.DefaultShape, tracks);
    ShapeTags(L.DefaultShape, tracks);
    Directories(tags);
    DirectoriesBound(tags, 10, PartsOf(tags), tracks);
    DefaultCounterBound(tracks);
    IdsBelow(a, 2 * tracks);
  }

  /**
   * With the default shape (10 tracks per album, 3 albums per artist) and
   * N >= 4 tracks, every inode number is at most 2N.
   */
  lemma DefaultIdsBound(tracks: nat, golden: seq<L.byte>, writeTag: L.TagFields -> seq<L.byte>, a: Arena)
    requires tracks >= 4
    requires a == Mounted(Initial(), L.RepeatedLettersLibrary(tracks, L.DefaultShape, golden), writeTag)
    ensures forall x :: x in a.nodes ==> x <= 2 * tracks
  {
    MountedLayout(tracks, L.DefaultShape, golden, writeTag, a);
    assert TrackCount(L.RepeatedLettersLibrary(tracks, L.DefaultShape, golden)) == tracks;
    DefaultLayoutBound(tracks, a);
  }

  /** The test library of 20 000 tracks: every inode number is at most 40 000. */
  lemma TwentyThousandTracks(golden: seq<L.byte>, writeTag: L.TagFields -> seq<L.byte>, a: Arena)
    requires a == Mounted(Initial(), L.RepeatedLettersLibrary(20_000, L.DefaultShape, golden), writeTag)
    ensures forall x :: x in a.nodes ==> x <= 40_000
  {
    DefaultIdsBound(20_000, golden, writeTag, a);
  }

  /** The links of the first track of the default shape. */
  lemma FirstTrackParts()
    ensures TrackParts(L.TagFields("A", "A", "A", 1)) == ["A", "A", "A.mp3"]
  {
    assert "A" + ".mp3" == "A.mp3";
  }

  /** In a mounted new library, A/A/A.mp3 is the song node of track 0. */
  lemma FirstTrackMounted(golden: seq<L.byte>, writeTag: L.TagFields -> seq<L.byte>, a: Arena)
    requires a == Mounted(Initial(), L.NewLibrary(golden), writeTag)
    ensures NodeAt(a, ["A", "A", "A.mp3"]) == Some(File(L.NewLibrary(golden).SongAt(0, writeTag).value))
  {
    L.DefaultTagFirstAlbum();
    FirstTrackParts();
    MountedPathAt(L.DefaultTracks, L.DefaultShape, golden, writeTag, a, 0);
    PathParts(L.DefaultTracks, L.DefaultShape, golden, 0);
  }
}
