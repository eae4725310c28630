/**
 * The fake library: per-track metadata generated from the track index with
 * the RepeatedLetters scheme, the <artist>/<album>/<title>.mp3 path layout,
 * bounds-checked lookup of a track's path and song, and the song itself,
 * served as the tag header followed by the shared golden bytes.
 */
module Library {
  import opened LetterNames
  import opened PathStrings
  import opened Arith

  newtype byte = x: int | 0 <= x < 256

  /** The fields the generated id3v2 tag carries (the tag object itself is not modelled). */
  datatype TagFields = TagFields(artist: string, album: string, title: string, track: int)

  /**
   * The RepeatedLetters tagger: the shape of the library (tracks per album,
   * albums per artist) and the number of times each name is repeated.
   */
  datatype RepeatedLetters = RepeatedLetters(tracksPerAlbum: int, albumsPerArtist: int, minComponentLength: int) {

    /**
     * The shapes New builds: at least one track per album and one album per
     * artist, and a repetition count that strings.Repeat accepts.  Zero
     * counts panic in Go.  Negative counts are not modelled: depending on
     * the signs and the index, Go either panics in letterName on a negative
     * ordinal or returns a tag.  The wrap-around of the int product T * A
     * is not modelled either.
     */
    predicate Valid() {
      tracksPerAlbum >= 1 && albumsPerArtist >= 1 && minComponentLength >= 0
    }

    /** The repetition count of name: MinComponentLength, where 0 stands for 1. */
    function Copies(): (k: nat)
      requires Valid()
      ensures k >= 1
      ensures minComponentLength >= 1 ==> k == minComponentLength
    {
      if minComponentLength == 0 then 1 else minComponentLength
    }

    /**
     * name: the spreadsheet name of i, repeated Copies() times; its first
     * copy is the plain name, and every character is a letter.
     */
    function Name(i: nat): (r: string)
      requires Valid()
      ensures |r| == Copies() * |SpreadsheetName(i)|
      ensures |r| >= minComponentLength
      ensures IsName(r)
      ensures r[..|SpreadsheetName(i)|] == SpreadsheetName(i)
    {
      var s := SpreadsheetName(i);
      var r := Repeat(s, Copies());
      MulAtLeast(Copies(), |s|);
      assert forall k :: 0 <= k < |r| ==> IsLetter(r[k]) by {
        forall k | 0 <= k < |r| ensures IsLetter(r[k]) {
          assert r[k] in s;
        }
      }
      r
    }

    /** For a fixed repetition count, distinct indices keep distinct names. */
    lemma NameInjective(i: nat, j: nat)
      requires Valid()
      requires Name(i) == Name(j)
      ensures i == j
    {
      var si, sj := SpreadsheetName(i), SpreadsheetName(j);
      MulCancel(Copies(), |si|, |sj|);
      assert si == Name(i)[..|si|] == Name(j)[..|sj|] == sj;
      SpreadsheetNameInjective(i, j);
    }

    /**
     * Tag: the index read as the mixed-radix number
     * (artist, album, track) with radices (albumsPerArtist, tracksPerAlbum);
     * the track number is 1-based.
     */
    function Tag(idx: nat): (t: TagFields)
      requires Valid()
      ensures 1 <= t.track <= tracksPerAlbum
      ensures t.track == idx % tracksPerAlbum + 1
      ensures IsName(t.artist) && IsName(t.album) && IsName(t.title)
    {
      MulLeftMonotone(1, albumsPerArtist, tracksPerAlbum);
      var artist := Name(idx / (tracksPerAlbum * albumsPerArtist));
      var album := Name((idx / tracksPerAlbum) % albumsPerArtist);
      var trackIdx := idx % tracksPerAlbum;
      var track := trackIdx + 1;
      TagFields(artist, album, Name(trackIdx), track)
    }

    /**
     * Tag inverts the mixed-radix composition: the index composed from
     * artist a, album b < albumsPerArtist and track c < tracksPerAlbum is
     * tagged with exactly those three names and track number c + 1.
     */
    lemma TagOfDigits(idx: nat, a: nat, b: nat, c: nat)
      requires Valid()
      requires b < albumsPerArtist && c < tracksPerAlbum
      requires idx == (a * albumsPerArtist + b) * tracksPerAlbum + c
      ensures Tag(idx) == TagFields(Name(a), Name(b), Name(c), c + 1)
    {
      var t, n := tracksPerAlbum, albumsPerArtist;
      var q := a * n + b;
      DivModUnique(idx, t, q, c);
      DivModUnique(q, n, a, b);
      DivDiv(idx, t, n);
    }

    /** The three digits of idx, and the tag they determine. */
    lemma Digits(idx: nat) returns (a: nat, b: nat, c: nat)
      requires Valid()
      ensures b < albumsPerArtist && c < tracksPerAlbum
      ensures idx == (a * albumsPerArtist + b) * tracksPerAlbum + c
      ensures Tag(idx) == TagFields(Name(a), Name(b), Name(c), c + 1)
    {
      var t, n := tracksPerAlbum, albumsPerArtist;
      MulLeftMonotone(1, n, t);
      DivDiv(idx, t, n);
      a, b, c := idx / (t * n), (idx / t) % n, idx % t;
    }

    /** Two indices whose tags agree on artist, album and title are equal. */
    lemma TagInjective(i: nat, j: nat)
      requires Valid()
      requires Tag(i).artist == Tag(j).artist
      requires Tag(i).album == Tag(j).album
      requires Tag(i).title == Tag(j).title
      ensures i == j
    {
      var a1, b1, c1 := Digits(i);
      var a2, b2, c2 := Digits(j);
      NameInjective(a1, a2);
      NameInjective(b1, b2);
      NameInjective(c1, c2);
    }

    /**
     * Consecutive indices inside one album share artist and album: idx + 1
     * starts a new album only when it is a multiple of tracksPerAlbum.
     */
    lemma SameAlbumAsNext(idx: nat)
      requires Valid()
      requires (idx + 1) % tracksPerAlbum != 0
      ensures Tag(idx + 1).artist == Tag(idx).artist
      ensures Tag(idx + 1).album == Tag(idx).album
    {
      var t, n := tracksPerAlbum, albumsPerArtist;
      var q, c := idx / t, idx % t;
      if c + 1 == t {
        DivModUnique(idx + 1, t, q + 1, 0);
        assert false;
      }
      DivModUnique(idx + 1, t, q, c + 1);
      MulLeftMonotone(1, n, t);
      DivDiv(idx, t, n);
      DivDiv(idx + 1, t, n);
    }
  }

  /** The default tagger of a new library: 10 tracks per album, 3 albums per artist. */
  const DefaultShape := RepeatedLetters(10, 3, 0)

  /** The number of tracks of a new library. */
  const DefaultTracks := 1000

  /** With the default repetition count, a name is the plain spreadsheet name. */
  lemma DefaultName(i: nat)
    ensures DefaultShape.Valid()
    ensures DefaultShape.Name(i) == SpreadsheetName(i)
  {
    var s := SpreadsheetName(i);
    assert Repeat(s, 1) == s + Repeat(s, 0);
  }

  /**
   * The default tag of the index with artist a, album b < 3 and title
   * c < 10: their plain spreadsheet names, and track number c + 1.
   */
  lemma DefaultTagOfDigits(idx: nat, a: nat, b: nat, c: nat)
    requires b < 3 && c < 10 && idx == (a * 3 + b) * 10 + c
    ensures DefaultShape.Valid()
    ensures DefaultShape.Tag(idx) == TagFields(SpreadsheetName(a), SpreadsheetName(b), SpreadsheetName(c), c + 1)
  {
    DefaultShape.TagOfDigits(idx, a, b, c);
    DefaultName(a);
    DefaultName(b);
    DefaultName(c);
  }

  /** The metadata of the first album of the test table, with titles as the code generates them. */
  lemma DefaultTagFirstAlbum()
    ensures DefaultShape.Valid()
    ensures DefaultShape.Tag(0) == TagFields("A", "A", "A", 1)
    ensures DefaultShape.Tag(1) == TagFields("A", "A", "B", 2)
    ensures DefaultShape.Tag(2) == TagFields("A", "A", "C", 3)
  {
    DefaultTagOfDigits(0, 0, 0, 0);
    DefaultTagOfDigits(1, 0, 0, 1);
    DefaultTagOfDigits(2, 0, 0, 2);
  }

  /** The test table's second album (index 10). */
  lemma DefaultTagNextAlbum()
    ensures DefaultShape.Valid()
    ensures DefaultShape.Tag(10) == TagFields("A", "B", "A", 1)
    ensures DefaultShape.Tag(11) == TagFields("A", "B", "B", 2)
  {
    DefaultTagOfDigits(10, 0, 1, 0);
    DefaultTagOfDigits(11, 0, 1, 1);
  }

  /** The test table's second artist (index 30) and its second album (index 40). */
  lemma DefaultTagNextArtist()
    ensures DefaultShape.Valid()
    ensures DefaultShape.Tag(30) == TagFields("B", "A", "A", 1)
    ensures DefaultShape.Tag(31) == TagFields("B", "A", "B", 2)
    ensures DefaultShape.Tag(40) == TagFields("B", "B", "A", 1)
  {
    DefaultTagOfDigits(30, 1, 0, 0);
    DefaultTagOfDigits(31, 1, 0, 1);
    DefaultTagOfDigits(40, 1, 1, 0);
  }

  /** Artist 26 of the test table is the first with a two-letter name. */
  lemma DefaultTagTwoLetterArtist()
    ensures DefaultShape.Valid()
    ensures DefaultShape.Tag(26 * 3 * 10) == TagFields("AA", "A", "A", 1)
    ensures DefaultShape.Tag(26 * 3 * 10 + 1) == TagFields("AA", "A", "B", 2)
  {
    SpreadsheetNameExamples();
    DefaultTagOfDigits(780, 26, 0, 0);
    DefaultTagOfDigits(781, 26, 0, 1);
  }

  /** A name repeated MinComponentLength = 2 times: "AB" becomes "ABAB". */
  lemma RepeatedNameExample()
    ensures RepeatedLetters(10, 3, 2).Name(27) == "ABAB"
  {
    assert SpreadsheetName(27) == SpreadsheetName(0) + [Letter(1)];
    assert Repeat("AB", 1) == "AB" + Repeat("AB", 0);
  }

  /**
   * ArtistAlbumTitle: path.Join of artist, album and title, with ".mp3"
   * appended; for non-empty components that is artist/album/title.mp3.
   */
  function ArtistAlbumTitle(index: nat, tag: TagFields): (p: string)
    ensures tag.artist != "" && tag.album != "" && tag.title != ""
         ==> p == tag.artist + "/" + tag.album + "/" + tag.title + ".mp3"
  {
    var p := Join([tag.artist, tag.album, tag.title]) + ".mp3";
    if tag.artist != "" && tag.album != "" && tag.title != "" then
      JoinThree(tag.artist, tag.album, tag.title);
      p
    else
      p
  }

  lemma LettersHaveNoSlash(s: string)
    requires AllLetters(s)
    ensures NoSlash(s) && NoSlash(s + ".mp3")
  {
    assert forall k :: |s| <= k < |s| + 4 ==> (s + ".mp3")[k] == ".mp3"[k - |s|];
  }

  /** path.Split of artist/album/file gives "artist/album/" and the file name. */
  lemma SplitPathOfThree(a: string, b: string, f: string)
    requires NoSlash(f)
    ensures SplitPath(a + "/" + b + "/" + f) == (a + "/" + b + "/", f)
  {
    SplitPathAt(a + "/" + b, f);
  }

  /** Splitting "artist/album/" on '/' gives artist, album and a final "". */
  lemma SplitDirOfTwo(a: string, b: string)
    requires NoSlash(a) && NoSlash(b)
    ensures Split(a + "/" + b + "/") == [a, b, ""]
  {
    assert a + "/" + b + "/" == a + "/" + (b + "/" + "");
    SplitCons(a, b + "/" + "");
    SplitCons(b, "");
  }

  /** Splitting artist/album/file on '/' gives the three components. */
  lemma SplitThree(a: string, b: string, f: string)
    requires NoSlash(a) && NoSlash(b) && NoSlash(f)
    ensures Split(a + "/" + b + "/" + f) == [a, b, f]
  {
    assert a + "/" + b + "/" + f == a + "/" + (b + "/" + f);
    SplitCons(a, b + "/" + f);
    SplitCons(b, f);
    SplitNoSlash(f);
  }

  /**
   * A path built from letter names splits back into its components:
   * path.Split gives "artist/album/" and "title.mp3", and splitting on '/'
   * gives artist, album and title.mp3.
   */
  lemma SplitArtistAlbumTitle(index: nat, tag: TagFields)
    requires IsName(tag.artist) && IsName(tag.album) && IsName(tag.title)
    ensures var p := ArtistAlbumTitle(index, tag);
      && SplitPath(p) == (tag.artist + "/" + tag.album + "/", tag.title + ".mp3")
      && Split(SplitPath(p).0) == [tag.artist, tag.album, ""]
      && Split(p) == [tag.artist, tag.album, tag.title + ".mp3"]
  {
    var a, b, f := tag.artist, tag.album, tag.title + ".mp3";
    LettersHaveNoSlash(a);
    LettersHaveNoSlash(b);
    LettersHaveNoSlash(tag.title);
    assert ArtistAlbumTitle(index, tag) == a + "/" + b + "/" + f;
    SplitPathOfThree(a, b, f);
    SplitDirOfTwo(a, b);
    SplitThree(a, b, f);
  }

  datatype Error = OutOfRange(idx: int, tracks: int)

  datatype Result<T> = Ok(value: T) | Err(error: Error)

  /**
   * A song: its own encoded tag header followed by the library's golden
   * bytes, which every song shares.
   */
  datatype Song = Song(tag: seq<byte>, data: seq<byte>) {

    /** The byte stream the song stands for. */
    ghost function Content(): seq<byte> {
      tag + data
    }

    /** Size: the length of the song's byte stream. */
    function Size(): (n: int)
      ensures n == |Content()|
    {
      |tag| + |data|
    }

    /**
     * Read: copies the song's bytes from offset off into buf.  At or past
     * the end nothing is written; otherwise buf starts with the next
     * min(len(buf), Size - off) bytes of the stream, crossing from the tag
     * into the golden bytes where needed, and the rest of buf is untouched.
     */
    method Read(buf: array<byte>, off: int)
      requires off >= 0
      modifies buf
      ensures off >= Size() ==> buf[..] == old(buf[..])
      ensures off < Size() ==>
        var n := Min(buf.Length, Size() - off);
        && buf[..n] == Content()[off..off + n]
        && buf[n..] == old(buf[n..])
    {
      if off >= Size() {
        return;
      }
      ghost var before := buf[..];
      var start := 0;
      var o := off;
      if o < |tag| {
        var read := Copy(buf, 0, tag[o..]);
        // The rest of buf is filled from the start of the golden bytes.
        start := read;
        o := 0;
      } else {
        o := o - |tag|;
      }
      ghost var mid := buf[..];
      var copied := Copy(buf, start, data[o..]);
      if off < |tag| {
        ReadFromTag(before, mid, buf[..], tag, data, off, start, copied);
      } else {
        ReadFromData(before, buf[..], tag, data, off, copied);
      }
    }
  }

  /**
   * Read starting inside the tag: the tag from off, then the golden bytes
   * from their start, is the stream from off; the rest of buf is untouched.
   */
  lemma ReadFromTag(b0: seq<byte>, b1: seq<byte>, b2: seq<byte>, tag: seq<byte>, data: seq<byte>, off: nat, start: nat, copied: nat)
    requires off < |tag| && |b1| == |b0| && |b2| == |b0|
    requires start == Min(|b0|, |tag| - off) && b1[..start] == tag[off..][..start] && b1[start..] == b0[start..]
    requires copied == Min(|b0| - start, |data[0..]|) && b2[..start] == b1[..start]
    requires b2[start..start + copied] == data[0..][..copied] && b2[start + copied..] == b1[start + copied..]
    ensures var n := Min(|b0|, |tag| + |data| - off);
      b2[..n] == (tag + data)[off..off + n] && b2[n..] == b0[n..]
  {
    assert tag[off..][..start] == tag[off..off + start] && data[0..] == data;
    ReadSplice(b2, tag, data, off, start, copied);
    SuffixChain(b0, b1, b2, start, start + copied);
  }

  /** Read starting past the tag: the golden bytes from off - |tag|; the rest of buf is untouched. */
  lemma ReadFromData(b0: seq<byte>, b2: seq<byte>, tag: seq<byte>, data: seq<byte>, off: nat, copied: nat)
    requires |tag| <= off < |tag| + |data| && |b2| == |b0|
    requires copied == Min(|b0|, |data[off - |tag|..]|)
    requires b2[..copied] == data[off - |tag|..][..copied] && b2[copied..] == b0[copied..]
    ensures var n := Min(|b0|, |tag| + |data| - off);
      b2[..n] == (tag + data)[off..off + n] && b2[n..] == b0[n..]
  {
    assert (tag + data)[off..off + copied] == data[off - |tag|..][..copied];
  }

  /**
   * The two copies of Read fit together: when the first copy took the tag
   * from off onwards and the second continued with the golden bytes from
   * their start, what buf holds is the stream tag + data from off.
   */
  lemma ReadSplice(b: seq<byte>, tag: seq<byte>, data: seq<byte>, off: nat, start: nat, copied: nat)
    requires off < |tag| && start == Min(|b|, |tag| - off) && copied == Min(|b| - start, |data|)
    requires b[..start] == tag[off..off + start] && b[start..start + copied] == data[..copied]
    ensures start + copied == Min(|b|, |tag| + |data| - off)
    ensures b[..start + copied] == (tag + data)[off..off + start + copied]
  {
    assert b[..start + copied] == b[..start] + b[start..start + copied];
    assert (tag + data)[off..off + start + copied] == tag[off..off + start] + data[..copied];
  }

  /** What two writes both leave alone from j on is what was there before them. */
  lemma SuffixChain(b0: seq<byte>, b1: seq<byte>, b2: seq<byte>, i: nat, j: nat)
    requires i <= j <= |b0| && |b1| == |b0| && |b2| == |b0|
    requires b1[i..] == b0[i..] && b2[j..] == b1[j..]
    ensures b2[j..] == b0[j..]
  {
    assert b1[j..] == b1[i..][j - i..];
    assert b0[j..] == b0[i..][j - i..];
  }

  function Min(x: int, y: int): int {
    if x <= y then x else y
  }

  /**
   * Go's built-in copy(dst[at:], src): copies as many elements as both
   * have room for and returns that count.
   */
  method Copy(dst: array<byte>, at: nat, src: seq<byte>) returns (n: nat)
    requires at <= dst.Length
    modifies dst
    ensures n == Min(dst.Length - at, |src|)
    ensures dst[..at] == old(dst[..at])
    ensures dst[at..at + n] == src[..n]
    ensures dst[at + n..] == old(dst[at + n..])
  {
    n := Min(dst.Length - at, |src|);
    for k := 0 to n
      invariant forall j :: 0 <= j < at ==> dst[j] == old(dst[j])
      invariant forall j :: 0 <= j < k ==> dst[at + j] == src[j]
      invariant forall j :: at + k <= j < dst.Length ==> dst[j] == old(dst[j])
    {
      dst[at + k] := src[k];
    }
  }

  /**
   * The library: the number of tracks, the tagging and path functions, and
   * the golden bytes (the golden file without its own id3v2 header).
   */
  datatype Library = Library(
    tracks: int,
    tagger: nat -> TagFields,
    pather: (nat, TagFields) -> string,
    golden: seq<byte>)
  {
    /**
     * PathAt: an out-of-range error exactly when idx is outside
     * [0, tracks); otherwise the path the pather makes from the tag the
     * tagger made for the same index.
     */
    function PathAt(idx: int): (r: Result<string>)
      ensures r.Err? <==> idx < 0 || idx >= tracks
      ensures r.Err? ==> r.error == OutOfRange(idx, tracks)
      ensures r.Ok? ==> r.value == pather(idx, tagger(idx))
    {
      if idx < 0 || idx > tracks - 1 then Err(OutOfRange(idx, tracks))
      else Ok(pather(idx, tagger(idx)))
    }

    /**
     * SongAt: the same bounds check; otherwise a song whose header is the
     * encoding of the tagger's tag and whose body is the golden bytes,
     * unchanged.  writeTag stands for the id3v2 tag serialiser.
     */
    function SongAt(idx: int, writeTag: TagFields -> seq<byte>): (r: Result<Song>)
      ensures r.Err? <==> idx < 0 || idx >= tracks
      ensures r.Err? ==> r.error == OutOfRange(idx, tracks)
      ensures r.Ok? ==> r.value.tag == writeTag(tagger(idx)) && r.value.data == golden
      ensures r.Ok? ==> r.value.Size() == |writeTag(tagger(idx))| + |golden|
    {
      if idx < 0 || idx > tracks - 1 then Err(OutOfRange(idx, tracks))
      else
        var tag := tagger(idx);
        Ok(Song(writeTag(tag), golden))
    }
  }

  /** A library tagged by a RepeatedLetters shape and laid out by ArtistAlbumTitle. */
  function RepeatedLettersLibrary(tracks: int, shape: RepeatedLetters, golden: seq<byte>): (l: Library)
    requires shape.Valid()
    ensures l.tracks == tracks && l.golden == golden
    ensures forall i: nat :: l.tagger(i) == shape.Tag(i)
  {
    Library(tracks, (i: nat) => shape.Tag(i), (i: nat, t: TagFields) => ArtistAlbumTitle(i, t), golden)
  }

  /** The configuration a new library starts with. */
  function NewLibrary(golden: seq<byte>): (l: Library)
    ensures l.tracks == 1000 && l.golden == golden
    ensures forall i: nat :: 1 <= l.tagger(i).track <= 10 && l.tagger(i).track == i % 10 + 1
    ensures forall i: nat :: l.tagger(i).title == SpreadsheetName(i % 10)
  {
    var l := RepeatedLettersLibrary(DefaultTracks, DefaultShape, golden);
    assert forall i: nat :: l.tagger(i).title == SpreadsheetName(i % 10) by {
      forall i: nat ensures l.tagger(i).title == SpreadsheetName(i % 10) {
        DefaultName(i % 10);
      }
    }
    l
  }

  /**
   * In a RepeatedLetters library, the path of an in-range track is
   * artist/album/title.mp3 with the names of its tag.
   */
  lemma RepeatedLettersPathAt(tracks: int, shape: RepeatedLetters, golden: seq<byte>, idx: int)
    requires shape.Valid() && 0 <= idx < tracks
    ensures var t := shape.Tag(idx);
      RepeatedLettersLibrary(tracks, shape, golden).PathAt(idx)
        == Ok(t.artist + "/" + t.album + "/" + t.title + ".mp3")
  {
  }

  /** Tags with names as their fields and the same ArtistAlbumTitle path have the same names. */
  lemma ArtistAlbumTitleInjective(ti: TagFields, tj: TagFields)
    requires IsName(ti.artist) && IsName(ti.album) && IsName(ti.title)
    requires IsName(tj.artist) && IsName(tj.album) && IsName(tj.title)
    requires ArtistAlbumTitle(0, ti) == ArtistAlbumTitle(0, tj)
    ensures ti.artist == tj.artist && ti.album == tj.album && ti.title == tj.title
  {
    SplitArtistAlbumTitle(0, ti);
    SplitArtistAlbumTitle(0, tj);
    var fi, fj := ti.title + ".mp3", tj.title + ".mp3";
    assert fi == fj;
    assert ti.title == fi[..|fi| - 4] == fj[..|fj| - 4] == tj.title;
  }

  /** Distinct in-range tracks of a RepeatedLetters library have distinct paths. */
  lemma PathAtInjective(tracks: int, shape: RepeatedLetters, golden: seq<byte>, i: int, j: int)
    requires shape.Valid() && 0 <= i < tracks && 0 <= j < tracks
    requires RepeatedLettersLibrary(tracks, shape, golden).PathAt(i)
          == RepeatedLettersLibrary(tracks, shape, golden).PathAt(j)
    ensures i == j
  {
    var ti, tj := shape.Tag(i), shape.Tag(j);
    RepeatedLettersPathAt(tracks, shape, golden, i);
    RepeatedLettersPathAt(tracks, shape, golden, j);
    ArtistAlbumTitleInjective(ti, tj);
    shape.TagInjective(i, j);
  }

  /**
   * The path of the track of a new library with artist a, album b < 3 and
   * title c < 10: the three plain spreadsheet names as artist/album/title.mp3.
   */
  lemma NewLibraryPathOfDigits(golden: seq<byte>, idx: nat, a: nat, b: nat, c: nat)
    requires b < 3 && c < 10 && idx == (a * 3 + b) * 10 + c && idx < DefaultTracks
    ensures NewLibrary(golden).PathAt(idx)
         == Ok(SpreadsheetName(a) + "/" + SpreadsheetName(b) + "/" + SpreadsheetName(c) + ".mp3")
  {
    DefaultTagOfDigits(idx, a, b, c);
    RepeatedLettersPathAt(DefaultTracks, DefaultShape, golden, idx);
  }

  /** The paths of the first album of a new library. */
  lemma NewLibraryPathsFirstAlbum(golden: seq<byte>)
    ensures NewLibrary(golden).PathAt(0) == Ok("A/A/A.mp3")
    ensures NewLibrary(golden).PathAt(1) == Ok("A/A/B.mp3")
    ensures NewLibrary(golden).PathAt(2) == Ok("A/A/C.mp3")
  {
    assert "A" + "/" + "A" + "/" + "A" + ".mp3" == "A/A/A.mp3";
    assert "A" + "/" + "A" + "/" + "B" + ".mp3" == "A/A/B.mp3";
    assert "A" + "/" + "A" + "/" + "C" + ".mp3" == "A/A/C.mp3";
    NewLibraryPathOfDigits(golden, 0, 0, 0, 0);
    NewLibraryPathOfDigits(golden, 1, 0, 0, 1);
    NewLibraryPathOfDigits(golden, 2, 0, 0, 2);
  }

  /** The paths of the second album of a new library. */
  lemma NewLibraryPathsNextAlbum(golden: seq<byte>)
    ensures NewLibrary(golden).PathAt(10) == Ok("A/B/A.mp3")
    ensures NewLibrary(golden).PathAt(11) == Ok("A/B/B.mp3")
  {
    assert "A" + "/" + "B" + "/" + "A" + ".mp3" == "A/B/A.mp3";
    assert "A" + "/" + "B" + "/" + "B" + ".mp3" == "A/B/B.mp3";
    NewLibraryPathOfDigits(golden, 10, 0, 1, 0);
    NewLibraryPathOfDigits(golden, 11, 0, 1, 1);
  }

  /** The paths of the second artist of a new library. */
  lemma NewLibraryPathsNextArtist(golden: seq<byte>)
    ensures NewLibrary(golden).PathAt(30) == Ok("B/A/A.mp3")
    ensures NewLibrary(golden).PathAt(31) == Ok("B/A/B.mp3")
    ensures NewLibrary(golden).PathAt(40) == Ok("B/B/A.mp3")
  {
    assert "B" + "/" + "A" + "/" + "A" + ".mp3" == "B/A/A.mp3";
    assert "B" + "/" + "A" + "/" + "B" + ".mp3" == "B/A/B.mp3";
    assert "B" + "/" + "B" + "/" + "A" + ".mp3" == "B/B/A.mp3";
    NewLibraryPathOfDigits(golden, 30, 1, 0, 0);
    NewLibraryPathOfDigits(golden, 31, 1, 0, 1);
    NewLibraryPathOfDigits(golden, 40, 1, 1, 0);
  }

  /** The paths of the first two-letter artist of a new library. */
  lemma NewLibraryPathsTwoLetterArtist(golden: seq<byte>)
    ensures NewLibrary(golden).PathAt(26 * 3 * 10) == Ok("AA/A/A.mp3")
    ensures NewLibrary(golden).PathAt(26 * 3 * 10 + 1) == Ok("AA/A/B.mp3")
  {
    assert "AA" + "/" + "A" + "/" + "A" + ".mp3" == "AA/A/A.mp3";
    assert "AA" + "/" + "A" + "/" + "B" + ".mp3" == "AA/A/B.mp3";
    SpreadsheetNameExamples();
    NewLibraryPathOfDigits(golden, 780, 26, 0, 0);
    NewLibraryPathOfDigits(golden, 781, 26, 0, 1);
  }

  /** The range checks of the test table: -1 and 1000 are out of range, 999 is in range. */
  lemma NewLibraryPathRange(golden: seq<byte>)
    ensures NewLibrary(golden).PathAt(-1) == Err(OutOfRange(-1, 1000))
    ensures NewLibrary(golden).PathAt(1000) == Err(OutOfRange(1000, 1000))
    ensures NewLibrary(golden).PathAt(999).Ok?
  {
  }

  /** Reading two bytes at the last tag byte returns it and the first golden byte. */
  method ReadAcrossHeader(s: Song, buf: array<byte>)
    requires |s.tag| >= 1 && |s.data| >= 1 && buf.Length == 2
    modifies buf
    ensures buf[0] == s.tag[|s.tag| - 1] && buf[1] == s.data[0]
  {
    s.Read(buf, |s.tag| - 1);
    assert buf[..2][0] == buf[0] && buf[..2][1] == buf[1];
  }

  /** Reading at the end of a song writes nothing. */
  method ReadAtEnd(s: Song, buf: array<byte>)
    modifies buf
    ensures buf[..] == old(buf[..])
  {
    s.Read(buf, s.Size());
  }
}
