# fakelib in Dafny

fakelib serves a fake music library that is generated on the fly and mounted
as a FUSE file system. This project models and verifies its two cores.

**`library/library.go`.**
- `letterName` names components in the spreadsheet-column scheme: A … Z, AA … ZZ, AAA, …
- `RepeatedLetters.name` pads a name by repeating it whole.
- `RepeatedLetters.Tag` reads a track index as artist, album and title ordinals and derives a 1-based track number.
- `ArtistAlbumTitle` builds `artist/album/title.mp3`.
- `Library.PathAt` and `Library.SongAt` check bounds and compose the tagger with the pather.
- `Song.Size` and `Song.Read` serve a song as its tag header followed by the shared golden bytes.

**`filesystem/filesystem.go`.**
- `root.nextInodeID` is the inode counter: it issues 3, 4, 5, …
- `root.OnAdd` lays every track out as a tree. For each directory component it reuses the existing child or creates a new numbered directory. It then attaches one numbered song node.

The go-fuse inode tree is modelled as an arena:
- a map from inode number to node;
- a map from (parent number, child name) to child number;
- the last number the counter issued.

The root node is a `class` that holds these fields and the counter flag. `NextInodeID`, the directory walk, the placing of one track and `OnAdd` are methods that update these fields. The walk and `OnAdd` are loops. Each method is proved equal to a function on the arena. The proofs about that function give:
- every path of the library leads to its song;
- the tree holds exactly one song node per track;
- the counter ends at 2 + tracks + directories;
- with the default shape and from 4 tracks on, no inode number exceeds twice the number of tracks.

Files:
- `letter_names.dfy`: the naming scheme (`LetterNames`).
- `path_strings.dfy`: the Go standard-library string functions the core relies on (`PathStrings`).
- `arith.dfy`: division lemmas (`Arith`).
- `library.dfy`: tags, paths, the library and songs (`Library`).
- `filesystem.dfy`: the arena and the root node (`FileSystem`).
- `tree_proofs.dfy`: the invariant of the tree OnAdd builds (`TreeProofs`).
- `mounted_library.dfy`: that invariant applied to generated libraries (`MountedLibrary`).

Code and tests disagree in one place, and the model follows the code. The test table in `library/library_test.go` expects titles such as `"A - A - A"`. `Tag` sets the title to `name(trackIdx)` (library/library.go:146, 151), which is `"A"`. The expected paths in the same table agree with the code.

## Model

| member | source | states |
|---|---|---|
| LetterNames.LetterName | library/library.go:111-128 | The two loops return the spreadsheet name of i: the digit loop (mod 26, divide, step back by one) followed by the in-place reversal. |
| LetterNames.SpreadsheetNameExamples | library/library.go:96-97 | 0 → A, 1 → B, 25 → Z, 26 → AA (not AB), 27 → AB, 51 → AZ, 676 → ZA, 701 → ZZ, 702 → AAA. |
| LetterNames.OrdinalOfName | library/library.go:111-128 | Reading a name back as a bijective base-26 numeral gives the index it was made from. |
| LetterNames.NameOfOrdinal | library/library.go:111-128 | Every non-empty string of A–Z is the name of some index (the scheme is onto). |
| LetterNames.SpreadsheetNameInjective | library/library.go:111-128 | Distinct indices have distinct names. |
| LetterNames.SpreadsheetNameSucc | library/library.go:96-97 | The name of i + 1 comes after the name of i in shortlex order. |
| LetterNames.SpreadsheetNameIncreasing | library/library.go:96-97 | i < j implies name(i) is shortlex-smaller than name(j) and no longer. |
| LetterNames.ShortlexLessTransitive | library/library.go:96-97 | The shortlex order the names follow is transitive; LetterNames.ShortlexLessIrreflexive makes it strict. |
| LetterNames.ShortlexLessIrreflexive | library/library.go:96-97 | No name is shortlex-smaller than itself. |
| PathStrings.Repeat | library/library.go:136 | strings.Repeat(s, n) has length n·\|s\|, consists of characters of s, and starts with s when n ≥ 1. |
| PathStrings.Split | filesystem/filesystem.go:94 | strings.Split(s, "/") gives at least one piece, and no piece contains '/'. |
| PathStrings.JoinSplit | filesystem/filesystem.go:94 | Joining the pieces of Split with '/' gives back s, so Split loses nothing. |
| PathStrings.SplitCons | filesystem/filesystem.go:94 | Splitting x/rest, with x slash-free, gives x followed by the pieces of rest. |
| PathStrings.SplitNoSlash | filesystem/filesystem.go:94 | A slash-free string splits into itself alone. |
| PathStrings.SplitPath | filesystem/filesystem.go:91 | path.Split: dir + file is the path, file has no '/', and dir is empty or ends in '/'. |
| PathStrings.SplitPathAt | filesystem/filesystem.go:91 | path.Split of x/y with y slash-free is (x/, y). |
| PathStrings.NonEmpty | filesystem/filesystem.go:95-99 | The components the walk keeps are non-empty, and there are no more of them than there were pieces. |
| PathStrings.Join | library/library.go:168 | path.Join without Clean: the result is empty exactly when every element is empty. |
| PathStrings.SplitJoin | library/library.go:168 | For slash-free elements, splitting the join at '/' gives back the non-empty elements in order, so none is lost or merged. |
| PathStrings.JoinThree | library/library.go:168 | path.Join of three non-empty names is a/b/c. |
| Library.RepeatedLetters.Copies | library/library.go:131-135 | The repetition count is at least 1 and equals MinComponentLength when that is positive (0 counts as 1). |
| Library.RepeatedLetters.Name | library/library.go:106-137 | name(i) has length k·\|letterName(i)\|, which is at least MinComponentLength. It is made of letters, and its first copy is letterName(i). |
| Library.RepeatedLetters.NameInjective | library/library.go:130-137 | For a fixed repetition count, distinct indices keep distinct names. |
| Library.RepeatedNameExample | library/library.go:98-99 | With MinComponentLength = 2, index 27 ("AB") is named "ABAB". |
| Library.RepeatedLetters.Tag | library/library.go:140-159 | The track number is idx % T + 1, which lies in [1, T], and artist, album and title are well-formed names. |
| Library.RepeatedLetters.TagOfDigits | library/library.go:141-146 | idx = (a·A + b)·T + c with b < A and c < T is tagged (name(a), name(b), name(c), c + 1). |
| Library.RepeatedLetters.Digits | library/library.go:141-146 | Every index has such digits a, b, c, and its tag is made from them. |
| Library.RepeatedLetters.TagInjective | library/library.go:141-146 | Two indices with the same artist, album and title are equal. |
| Library.RepeatedLetters.SameAlbumAsNext | library/library.go:141-143 | Unless idx + 1 starts a new album, track idx + 1 has the artist and album of track idx. |
| Library.DefaultName | library/library.go:245-248 | In the default shape (MinComponentLength unset), name is the plain spreadsheet name. |
| Library.DefaultTagOfDigits | library/library.go:245-248 | Default shape: (a·3 + b)·10 + c is tagged with the plain names of a, b, c and track c + 1. |
| Library.DefaultTagFirstAlbum | library/library_test.go:44-73 | Tracks 0, 1, 2 are artist A, album A, tracks 1–3 (titles A, B, C). |
| Library.DefaultTagNextAlbum | library/library_test.go:74-93 | Tracks 10, 11 are artist A, album B, tracks 1 and 2. |
| Library.DefaultTagNextArtist | library/library_test.go:94-123 | Tracks 30, 31 are artist B, album A; track 40 is artist B, album B, track 1. |
| Library.DefaultTagTwoLetterArtist | library/library_test.go:124-144 | Tracks 780, 781 are artist AA, album A, tracks 1 and 2. |
| Library.ArtistAlbumTitle | library/library.go:163-169 | With non-empty names the path is artist/album/title.mp3. |
| Library.SplitArtistAlbumTitle | filesystem/filesystem.go:91-94 | The path of a tag with letter names splits into (artist/album/, title.mp3), and its directory splits into artist, album and a trailing empty piece. |
| Library.ArtistAlbumTitleInjective | library/library.go:163-169 | Tags with letter names and the same path have the same artist, album and title. |
| Library.Song.Size | library/library.go:56-58 | The size is the length of tag followed by data. |
| Library.Song.Read | library/library.go:62-81 | At or past the end buf is unchanged. Otherwise buf[0..n) = (tag ++ data)[off..off+n) with n = min(len(buf), Size − off), and buf[n..] is unchanged. |
| Library.ReadSplice | library/library.go:68-80 | A copy of the tag from off followed by a copy of the golden bytes from 0 yields tag ++ data from off, min(len(buf), Size − off) bytes long. |
| Library.Copy | library/library.go:69 | Go's copy writes min(room, len(src)) elements of src at the target offset and leaves the rest of dst unchanged. |
| Library.ReadAcrossHeader | library/library.go:71-74 | A two-byte read at the last tag byte returns that byte, then data[0]. |
| Library.ReadAtEnd | library/library.go:64-66 | Reading at offset Size writes nothing. |
| Library.Library.PathAt | library/library.go:201-207 | Error (naming idx and Tracks) exactly when idx < 0 or idx ≥ Tracks; otherwise Pather(idx, Tagger(idx)). |
| Library.Library.SongAt | library/library.go:210-223 | Same bounds. Otherwise the header is the encoding of Tagger(idx), the data is the golden bytes unchanged, and the size is their sum. |
| Library.NewLibrary | library/library.go:243-251 | The library New returns: 1000 tracks, the golden bytes unchanged, track numbers i mod 10 + 1 (ten tracks per album), and titles equal to the plain letter name of i mod 10 (MinComponentLength unset). |
| Library.RepeatedLettersLibrary | library/library.go:243-251 | A library with RepeatedLetters.Tag as tagger: given tracks and golden bytes, and the shape's Tag for every index. |
| Library.RepeatedLettersPathAt | library/library.go:206 | In such a library the path of an in-range track is artist/album/title.mp3 from its tag. |
| Library.PathAtInjective | library/library.go:201-207 | Distinct in-range indices have distinct paths. |
| Library.NewLibraryPathOfDigits | library/library.go:243-251 | In a new library, track (a·3 + b)·10 + c lies at name(a)/name(b)/name(c).mp3. |
| Library.NewLibraryPathsFirstAlbum | library/library_test.go:44-73 | Tracks 0, 1, 2 lie at A/A/A.mp3, A/A/B.mp3, A/A/C.mp3. |
| Library.NewLibraryPathsNextAlbum | library/library_test.go:74-93 | Tracks 10, 11 lie at A/B/A.mp3, A/B/B.mp3. |
| Library.NewLibraryPathsNextArtist | library/library_test.go:94-123 | Tracks 30, 31, 40 lie at B/A/A.mp3, B/A/B.mp3, B/B/A.mp3. |
| Library.NewLibraryPathsTwoLetterArtist | library/library_test.go:124-144 | Tracks 780, 781 lie at AA/A/A.mp3, AA/A/B.mp3. |
| Library.NewLibraryPathRange | library/library.go:202-203 | A new library (1000 tracks) rejects −1 and 1000 with the out-of-range error and accepts 999. |
| FileSystem.Initial | filesystem/filesystem.go:62-68 | Before OnAdd the tree is the root alone, with no child links and no number issued. |
| FileSystem.AddNode | filesystem/filesystem.go:103-107 | NewPersistentInode + AddChild: the node gets the counter's next number and is linked under wd by name. |
| FileSystem.Step | filesystem/filesystem.go:95-110 | Get-or-create. An empty component changes nothing. An existing child is reused, with no node and no number. Otherwise the counter goes up by exactly one. Afterwards wd has a child of that name, which is the result. |
| FileSystem.Walk | filesystem/filesystem.go:93-111 | The walk issues at most one number per non-empty component and keeps every existing node and link. |
| FileSystem.Attach | filesystem/filesystem.go:113-114 | The song node gets the counter's next number, a number no node had, and is linked under wd by the file name. |
| FileSystem.WithTrack | filesystem/filesystem.go:91-114 | Placing one track issues at least one number (its song node). |
| FileSystem.WithTracks | filesystem/filesystem.go:82-115 | Placing n tracks issues at least n numbers. |
| FileSystem.Locations | filesystem/filesystem.go:83 | The k-th location is PathAt(k), in range for every k < Tracks. |
| FileSystem.Songs | filesystem/filesystem.go:87 | The k-th song is SongAt(k), in range for every k < Tracks. |
| FileSystem.TrackCount | filesystem/filesystem.go:82 | The loop runs Tracks times, or not at all when Tracks is negative. |
| FileSystem.Mounted | filesystem/filesystem.go:81-116 | OnAdd issues at least one number per track. |
| FileSystem.Lookup | filesystem/filesystem.go:101 | Following no names stays at the start node. |
| FileSystem.NodeAt | filesystem/filesystem.go:101 | A node found at a path is reached from the root by following its names. |
| FileSystem.Root.constructor | filesystem/filesystem.go:124-125 | A fresh root: the tree is the root alone and the counter is not yet initialised. |
| FileSystem.Root.NextInodeID | filesystem/filesystem.go:72-79 | Returns one more than the last number issued, which is 3 on the first call; it changes nothing else. |
| FileSystem.Root.StepIn | filesystem/filesystem.go:101-110 | The get-or-create step on the root's fields equals Step on the old tree. |
| FileSystem.Root.WalkIn | filesystem/filesystem.go:93-111 | The component loop, skipping empty components, equals Walk from the root on the old tree. |
| FileSystem.Root.AddTrack | filesystem/filesystem.go:91-114 | Splitting, walking and attaching one track equals WithTrack on the old tree. |
| FileSystem.Root.AddTracks | filesystem/filesystem.go:82-115 | The track loop equals WithTracks over PathAt(0..Tracks) and SongAt(0..Tracks). |
| FileSystem.Root.OnAdd | filesystem/filesystem.go:81-116 | OnAdd leaves the tree Mounted(old tree, library). |
| TreeProofs.LookupPath | filesystem/filesystem.go:101-110 | In a labelled tree, following p from a node leads to the node labelled with its path followed by p. |
| TreeProofs.LookupExtend | filesystem/filesystem.go:107 | Adding links never changes where an existing path leads. |
| TreeProofs.InitialTree | filesystem/filesystem.go:62-68 | The initial tree is labelled, the root with the empty path. |
| TreeProofs.AddNodeTree | filesystem/filesystem.go:103-107 | A new child takes a number no node has, gets a path no node has, and keeps the labelling. |
| TreeProofs.StepTree | filesystem/filesystem.go:101-110 | Get-or-create keeps the labelling: the result is the node at wd's path plus c, and at most that one path is new. |
| TreeProofs.WalkTree | filesystem/filesystem.go:93-111 | The walk ends at wd's path plus the components. The paths gained are exactly the prefixes it passes, and every new node is a directory. |
| TreeProofs.WalkSkipsEmpty | filesystem/filesystem.go:95-99 | Walking the pieces equals walking only the non-empty ones. |
| TreeProofs.AttachTree | filesystem/filesystem.go:113-114 | The song attached under the last directory is reached at its full path and gets a fresh number. |
| TreeProofs.TrackStep | filesystem/filesystem.go:82-115 | One more track with a new path keeps the invariant. |
| TreeProofs.TracksTree | filesystem/filesystem.go:82-115 | After n distinct tracks: the tree is labelled, its paths are the root, the directories passed and the tracks' paths, song nodes are exactly the nodes at depth d + 1, and each track's path leads to its song. |
| TreeProofs.Parts | filesystem/filesystem.go:91-99 | The links OnAdd follows for a location: the non-empty pieces of path.Split's directory, split at '/', then the file name. At least one link, and every directory link is non-empty. |
| TreeProofs.WithTrackPlace | filesystem/filesystem.go:91-114 | Adding a track by location places its song at the location's links. |
| TreeProofs.WithTracksBuild | filesystem/filesystem.go:82-115 | Adding the first n tracks by location builds the tree of their links. |
| TreeProofs.Leaves | filesystem/filesystem.go:113 | A number is a leaf exactly when it names a song node. |
| TreeProofs.LeavesCard | filesystem/filesystem.go:82-115 | After n tracks with distinct paths, all with the same number of directory links, there are exactly n song nodes. |
| TreeProofs.LastIssued | filesystem/filesystem.go:72-79 | After n tracks with distinct paths, all with the same number of directory links, the counter stands at 2 + n + D, with D the number of distinct directory paths. |
| TreeProofs.NodeIds | filesystem/filesystem_test.go:119-127 | The node numbers are exactly 1 and the issued 3 .. last. None is skipped, and none names two nodes. |
| TreeProofs.BuildLayout | filesystem/filesystem.go:82-115 | The layout after n tracks with distinct paths, all with the same number of directory links: leaves, counter, numbering, and each path leading to its song. |
| MountedLibrary.MountedIsBuild | filesystem/filesystem.go:81-116 | OnAdd over a library whose paths have links paths[i] builds the tree of those links. |
| MountedLibrary.MountedTracks | filesystem/filesystem.go:81-116 | Any library whose paths are distinct and equally deep: N song nodes, counter at 2 + N + D, nodes numbered 1 and 3..counter, and PathAt(i)'s links reaching SongAt(i). |
| MountedLibrary.PartsUniform | library/library.go:163-169 | Tracks with named artist and album are two directories deep. |
| MountedLibrary.PartsDistinct | library/library.go:163-169 | Tracks with distinct (artist, album, title) have distinct links. |
| MountedLibrary.Directories | filesystem/filesystem.go:101-108 | The directories created are exactly one per artist and one per (artist, album). |
| MountedLibrary.AlbumCountStep | library/library.go:142 | The number of albums reached grows by one exactly at an album's first track. |
| MountedLibrary.DirectoriesBound | filesystem/filesystem.go:101-108 | The first m tracks create at most two directories per album they reach into. |
| MountedLibrary.TagsOf | library/library.go:140-159 | The tags of the first n tracks, in index order. |
| MountedLibrary.ShapeTags | library/library.go:141-146 | RepeatedLetters tags have non-empty names, are pairwise distinct, and change album only every T tracks. |
| MountedLibrary.PathParts | filesystem/filesystem.go:91-94 | The path of an in-range track splits into artist, album and title.mp3, which are the links OnAdd follows. |
| MountedLibrary.LibraryParts | filesystem/filesystem.go:91-94 | The same holds for every track below n. |
| MountedLibrary.MountedLayout | filesystem/filesystem.go:81-116 | RepeatedLetters library: N song nodes, counter at 2 + N + artists + (artist, album) pairs, nodes numbered 1 and 3..counter. |
| MountedLibrary.MountedPathAt | filesystem/filesystem.go:93-114 | After OnAdd, the components of PathAt(i) lead from the root to the song node of SongAt(i). |
| MountedLibrary.DefaultCounterBound | library/library.go:245-248 | With ten tracks per album and N ≥ 4, 2 + N + 2·(albums reached) ≤ 2N. |
| MountedLibrary.DefaultLayoutBound | filesystem/filesystem_test.go:96-98 | Default shape with N ≥ 4 tracks: a tree laid out as MountedLayout states has no number above 2N. |
| MountedLibrary.DefaultIdsBound | filesystem/filesystem_test.go:96-116 | OnAdd over N ≥ 4 default-shape tracks issues no inode number above 2N. |
| MountedLibrary.TwentyThousandTracks | filesystem/filesystem_test.go:88-116 | The test's 20 000-track library has no inode number above 40 000. |
| MountedLibrary.FirstTrackMounted | filesystem/filesystem_test.go:63-66 | In a mounted new library, A/A/A.mp3 is the song node holding track 0. |

## Left out

- library.New (library/library.go:227-252) parses the golden file's id3v2 header and reads the rest (I/O and a foreign library). The golden bytes are a parameter; the configuration New builds is `Library.NewLibrary`.
- The id3v2 tag object and its serialisation are not modelled. A tag is the record `TagFields`. The header bytes are `writeTag(tag)`, a function the caller supplies. The track number is an int, not the text strconv.Itoa produces.
- The `log.Fatalf` branches of SongAt and OnAdd are process exits. In OnAdd they cannot be reached: `AddTracks` reads PathAt and SongAt only for indices in range.
- FUSE plumbing is not modelled: song.Open, song.Read, song.Getattr, Mount, and go-fuse's NewPersistentInode, AddChild and GetChild. The inode tree is the arena, and the root's own inode is the reserved number 1.
- `sync.Once` and `atomic.AddUint64` exist for concurrency; the counter is a plain flag and field and concurrent calls are not modelled.
- fakelib.go (the command: flags, mount directory, a duplicate of OnAdd) is not part of this model.
- Library.Song.Size: does not model int64 overflow of the size or of `off`, because integers are unbounded here.
- FileSystem.Root.NextInodeID: does not model uint64 wrap-around of the counter, because integers are unbounded here.
- PathStrings.Join: path.Clean is not modelled, so `.` and `..` elements and repeated or trailing slashes inside elements are kept as they are. Go's `path.Join("a", ".", "c")` is "a/c", but `Join` gives "a/./c". The letter names the core joins contain no '/' or '.', and on those Clean changes nothing.
- Library.ArtistAlbumTitle: path.Join is modelled as joining the non-empty elements with '/', without the final Clean step. The contract covers only non-empty names, which is all RepeatedLetters produces.
- Library.RepeatedLetters.Tag: `Valid()` requires T ≥ 1, A ≥ 1 and MinComponentLength ≥ 0, which covers the shapes New builds. T or A equal to 0, a negative index and a negative MinComponentLength panic in Go. Negative T or A are not modelled. With Go's truncating `/` and `%` they can give a negative ordinal, and letterName then panics. Example: T = −2, A = 1, idx = 2 gives artist ordinal −1. Other combinations return a tag. Example: T = A = −1 gives name(idx), "A", "A" and track 1. It also does not model the wrap-around of the int product T·A.
- Library.Library.PathAt: integers are unbounded here, so `Tracks - 1` never wraps. In Go it wraps when Tracks is math.MinInt, every idx ≥ 0 then passes the bounds check, and the model returns an out-of-range error instead.
- Library.Library.SongAt: the same `Tracks - 1` wrap at math.MinInt is not modelled, as for PathAt.
- Library.Song.Read: a negative `off` panics in Go and is excluded by its precondition.
- MountedLibrary.MountedTracks: the counting results need distinct paths, all with the same number of directory components. Libraries whose pather repeats a path (AddChild then replaces the earlier child) or mixes depths are not covered. Every path reaching its song is proved under the same assumption.
- TreeProofs.LeavesCard: proved only when all paths have the same number of directory links (`Uniform`). Mixed depths are not covered. Every RepeatedLetters path is artist/album/title.mp3, so it meets this.
- TreeProofs.LastIssued: the counter formula 2 + n + D is proved only for paths with the same number of directory links (`Uniform`), as for LeavesCard.
- TreeProofs.BuildLayout: requires distinct paths with the same number of directory links (`Uniform`). Repeated paths and mixed depths are not covered.
- MountedLibrary.DefaultLayoutBound: requires at least 4 tracks, for the reason given for DefaultIdsBound.
- MountedLibrary.DefaultIdsBound: requires at least 4 tracks. With 1 to 3 tracks the two directories already push the counter above 2N (one track gets number 5).
