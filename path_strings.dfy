/**
 * The few functions of Go's standard library that the core relies on, on
 * strings over '/' separators: strings.Repeat, strings.Split(s, "/"),
 * path.Split, and path.Join (whose final Clean step is not modelled).
 */
module PathStrings {

  predicate NoSlash(s: string) {
    forall k :: 0 <= k < |s| ==> s[k] != '/'
  }

  /** strings.Repeat(s, n): n copies of s, one after another. */
  function Repeat(s: string, n: nat): (r: string)
    ensures |r| == n * |s|
    ensures forall k :: 0 <= k < |r| ==> r[k] in s
    ensures n >= 1 ==> r[..|s|] == s
    decreases n
  {
    if n == 0 then [] else
      var rest := Repeat(s, n - 1);
      assert forall k :: |s| <= k < |s| + |rest| ==> (s + rest)[k] == rest[k - |s|];
      s + rest
  }

  /** strings.Join(parts, "/"). */
  function JoinWithSlash(parts: seq<string>): (r: string)
    requires |parts| >= 1
    ensures |r| >= |parts[0]|
    decreases |parts|
  {
    if |parts| == 1 then parts[0] else parts[0] + "/" + JoinWithSlash(parts[1..])
  }

  /**
   * strings.Split(s, "/"): the maximal slash-free pieces between separators;
   * splitting "" gives [""], and a trailing '/' gives a trailing "".
   */
  function Split(s: string): (parts: seq<string>)
    ensures |parts| >= 1
    ensures forall k :: 0 <= k < |parts| ==> NoSlash(parts[k])
    decreases |s|
  {
    if s == [] then [""]
    else if s[0] == '/' then [""] + Split(s[1..])
    else
      var rest := Split(s[1..]);
      [[s[0]] + rest[0]] + rest[1..]
  }

  /** Splitting and re-joining gives back the original string. */
  lemma {:induction false} JoinSplit(s: string)
    ensures JoinWithSlash(Split(s)) == s
    decreases |s|
  {
    if s == [] {
    } else if s[0] == '/' {
      JoinSplit(s[1..]);
      assert Split(s)[1..] == Split(s[1..]);
    } else {
      var rest := Split(s[1..]);
      JoinSplit(s[1..]);
      if |rest| > 1 {
        assert Split(s)[1..] == rest[1..];
        assert rest[1..] == rest[1..][0..];
        assert JoinWithSlash(rest) == rest[0] + "/" + JoinWithSlash(rest[1..]);
      }
      assert s == [s[0]] + s[1..];
    }
  }

  /** Splitting a slash-free piece followed by a separator peels off that piece. */
  lemma {:induction false} SplitCons(x: string, rest: string)
    requires NoSlash(x)
    ensures Split(x + "/" + rest) == [x] + Split(rest)
    decreases |x|
  {
    if x == [] {
      assert x + "/" + rest == "/" + rest;
      assert ("/" + rest)[1..] == rest;
    } else {
      assert (x + "/" + rest)[0] == x[0];
      assert (x + "/" + rest)[1..] == x[1..] + "/" + rest;
      SplitCons(x[1..], rest);
      assert [x[0]] + x[1..] == x;
    }
  }

  /** A slash-free string splits into itself alone. */
  lemma {:induction false} SplitNoSlash(x: string)
    requires NoSlash(x)
    ensures Split(x) == [x]
    decreases |x|
  {
    if x != [] {
      SplitNoSlash(x[1..]);
      assert [x[0]] + x[1..] == x;
    }
  }

  /**
   * path.Split: splits immediately after the final '/' into a directory part
   * (empty, or ending in '/') and a slash-free file name; the two concatenate
   * back to the input.
   */
  function SplitPath(p: string): (r: (string, string))
    ensures r.0 + r.1 == p
    ensures NoSlash(r.1)
    ensures r.0 == [] || r.0[|r.0| - 1] == '/'
    decreases |p|
  {
    if p == [] then ([], [])
    else if p[|p| - 1] == '/' then (p, [])
    else
      var (dir, file) := SplitPath(p[..|p| - 1]);
      assert dir + (file + [p[|p| - 1]]) == p[..|p| - 1] + [p[|p| - 1]] == p;
      (dir, file + [p[|p| - 1]])
  }

  /** path.Split cuts right after the separator that precedes a slash-free tail. */
  lemma {:induction false} SplitPathAt(x: string, y: string)
    requires NoSlash(y)
    ensures SplitPath(x + "/" + y) == (x + "/", y)
    decreases |y|
  {
    var p := x + "/" + y;
    if y == [] {
      assert p == x + "/";
    } else {
      var y' := y[..|y| - 1];
      assert p[..|p| - 1] == x + "/" + y';
      SplitPathAt(x, y');
      assert y' + [y[|y| - 1]] == y;
    }
  }

  /** The non-empty elements of parts, in order. */
  function NonEmpty(parts: seq<string>): (r: seq<string>)
    ensures forall k :: 0 <= k < |r| ==> r[k] != ""
    ensures |r| <= |parts|
    decreases |parts|
  {
    if parts == [] then []
    else if parts[0] == "" then NonEmpty(parts[1..])
    else [parts[0]] + NonEmpty(parts[1..])
  }

  /**
   * path.Join: the non-empty elements joined with '/', or "" when there are
   * none.  Go's Join then applies path.Clean, which is the identity on the
   * slash-free, dot-free elements this core joins (see README, Left out).
   */
  function Join(elems: seq<string>): (r: string)
    ensures r == "" <==> NonEmpty(elems) == []
  {
    var kept := NonEmpty(elems);
    if kept == [] then "" else JoinWithSlash(kept)
  }

  /** Every element NonEmpty keeps is one of the original elements. */
  lemma {:induction false} NonEmptyKeeps(parts: seq<string>)
    ensures forall k :: 0 <= k < |NonEmpty(parts)| ==> NonEmpty(parts)[k] in parts
    decreases |parts|
  {
    if parts != [] {
      NonEmptyKeeps(parts[1..]);
      assert forall x :: x in parts[1..] ==> x in parts;
    }
  }

  /** Splitting the join of slash-free pieces gives back the pieces. */
  lemma {:induction false} SplitJoinWithSlash(parts: seq<string>)
    requires |parts| >= 1
    requires forall k :: 0 <= k < |parts| ==> NoSlash(parts[k])
    ensures Split(JoinWithSlash(parts)) == parts
    decreases |parts|
  {
    if |parts| == 1 {
      SplitNoSlash(parts[0]);
    } else {
      SplitJoinWithSlash(parts[1..]);
      SplitCons(parts[0], JoinWithSlash(parts[1..]));
    }
  }

  /**
   * Join of slash-free elements is undone by Split: the pieces come back as
   * the non-empty elements, in order, so no element is lost or merged.
   */
  lemma SplitJoin(elems: seq<string>)
    requires forall k :: 0 <= k < |elems| ==> NoSlash(elems[k])
    requires NonEmpty(elems) != []
    ensures Split(Join(elems)) == NonEmpty(elems)
  {
    NonEmptyKeeps(elems);
    SplitJoinWithSlash(NonEmpty(elems));
  }

  /** Joining three non-empty elements puts exactly one '/' between each pair. */
  lemma JoinThree(a: string, b: string, c: string)
    requires a != "" && b != "" && c != ""
    ensures Join([a, b, c]) == a + "/" + b + "/" + c
  {
    assert [a, b, c][1..] == [b, c];
    assert [b, c][1..] == [c];
    assert [c][1..] == [];
    assert NonEmpty([c]) == [c];
    assert NonEmpty([b, c]) == [b] + NonEmpty([c]);
    assert NonEmpty([a, b, c]) == [a] + NonEmpty([b, c]);
    assert NonEmpty([a, b, c]) == [a, b, c];
    assert JoinWithSlash([b, c]) == b + "/" + c;
    assert JoinWithSlash([a, b, c]) == a + "/" + (b + "/" + c);
  }
}
