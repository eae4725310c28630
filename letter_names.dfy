/**
 * The "spreadsheet column" naming scheme used for every generated artist,
 * album and title component: 0 -> "A", 25 -> "Z", 26 -> "AA", 27 -> "AB",
 * ..., 701 -> "ZZ", 702 -> "AAA", ...  This is bijective base 26: every
 * non-empty string over 'A'..'Z' is the name of exactly one index.
 */
module LetterNames {

  /** The letter for base-26 digit d: the d-th character of "ABC...XYZ". */
  function Letter(d: nat): (c: char)
    requires d < 26
  {
    (('A' as int) + d) as char
  }

  /** The base-26 digit of a letter, the inverse of Letter. */
  function Digit(c: char): int {
    c as int - 'A' as int
  }

  predicate IsLetter(c: char) {
    'A' <= c <= 'Z'
  }

  predicate AllLetters(s: string) {
    forall k :: 0 <= k < |s| ==> IsLetter(s[k])
  }

  /** A well-formed name: non-empty and made of upper-case letters only. */
  predicate IsName(s: string) {
    |s| >= 1 && AllLetters(s)
  }

  /**
   * The specification of letterName: the last letter is i mod 26, and what
   * precedes it is the name of i / 26 - 1 (the "- 1" is what makes 26 map to
   * "AA" rather than "BA").
   */
  function SpreadsheetName(i: nat): (r: string)
    ensures IsName(r)
    decreases i
  {
    if i < 26 then [Letter(i)]
    else SpreadsheetName(i / 26 - 1) + [Letter(i % 26)]
  }

  /** Reads a name back as an index: the inverse of SpreadsheetName. */
  function Ordinal(s: string): (n: nat)
    requires IsName(s)
    decreases |s|
  {
    var d := Digit(s[|s| - 1]);
    if |s| == 1 then d
    else 26 * (Ordinal(s[..|s| - 1]) + 1) + d
  }

  /** The reverse of a sequence of characters. */
  function Reverse(s: string): (r: string)
    ensures |r| == |s|
    ensures forall k :: 0 <= k < |s| ==> r[k] == s[|s| - 1 - k]
  {
    seq(|s|, k requires 0 <= k < |s| => s[|s| - 1 - k])
  }

  lemma ReverseSnoc(s: string, c: char)
    ensures Reverse(s + [c]) == [c] + Reverse(s)
  {
    var l, r := Reverse(s + [c]), [c] + Reverse(s);
    assert |l| == |r|;
    forall k | 0 <= k < |l| ensures l[k] == r[k] {
      if k > 0 {
        assert l[k] == (s + [c])[|s| - k] == s[|s| - k];
      }
    }
  }

  /**
   * letterName: collects the digits least significant first with a loop that
   * divides by 26 and steps back by one, then reverses the collected letters
   * in place with a swap loop.
   */
  method LetterName(i0: nat) returns (name: string)
    ensures name == SpreadsheetName(i0)
  {
    name := [];
    var i := i0;
    while true
      invariant SpreadsheetName(i0) == SpreadsheetName(i) + Reverse(name)
      decreases i
    {
      ghost var digits := i;
      ReverseSnoc(name, Letter(i % 26));
      name := name + [Letter(i % 26)];
      i := i / 26;
      if i == 0 {
        assert SpreadsheetName(digits) == [Letter(digits % 26)];
        break;
      }
      i := i - 1;
    }
    assert SpreadsheetName(i0) == Reverse(name);
    ghost var collected := name;
    var j := 0;
    while j < |name| / 2
      invariant |name| == |collected|
      invariant 0 <= j <= |name| / 2
      invariant forall k :: 0 <= k < j ==> name[k] == collected[|name| - 1 - k] && name[|name| - 1 - k] == collected[k]
      invariant forall k :: j <= k < |name| - j ==> name[k] == collected[k]
    {
      var opp := |name| - j - 1;
      name := name[j := name[opp]][opp := name[j]];
      j := j + 1;
    }
    assert name == Reverse(collected);
  }

  /** The concrete values of the naming scheme, as documented for letterName. */
  lemma SpreadsheetNameExamples()
    ensures SpreadsheetName(0) == "A"
    ensures SpreadsheetName(1) == "B"
    ensures SpreadsheetName(25) == "Z"
    ensures SpreadsheetName(26) == "AA"
    ensures SpreadsheetName(27) == "AB"
    ensures SpreadsheetName(51) == "AZ"
    ensures SpreadsheetName(26 + 26 * 25) == "ZA"
    ensures SpreadsheetName(26 + 26 * 25 + 25) == "ZZ"
    ensures SpreadsheetName(26 + 26 * 26) == "AAA"
  {
    assert SpreadsheetName(26) == SpreadsheetName(0) + [Letter(0)];
    assert SpreadsheetName(702) == SpreadsheetName(26) + [Letter(0)];
  }

  /** Reading a generated name back yields the index it was generated from. */
  lemma {:induction false} OrdinalOfName(i: nat)
    ensures Ordinal(SpreadsheetName(i)) == i
    decreases i
  {
    if i >= 26 {
      var s := SpreadsheetName(i);
      var p := SpreadsheetName(i / 26 - 1);
      assert s[..|s| - 1] == p;
      assert Digit(s[|s| - 1]) == i % 26;
      OrdinalOfName(i / 26 - 1);
    }
  }

  /** Every well-formed name is generated, by the index it reads back as. */
  lemma {:induction false} NameOfOrdinal(s: string)
    requires IsName(s)
    ensures SpreadsheetName(Ordinal(s)) == s
    decreases |s|
  {
    var d := Digit(s[|s| - 1]);
    assert 0 <= d < 26 && Letter(d) == s[|s| - 1];
    if |s| == 1 {
      assert s == [s[0]];
    } else {
      var p := s[..|s| - 1];
      assert IsName(p);
      var m := Ordinal(p);
      var n := 26 * (m + 1) + d;
      assert n / 26 - 1 == m && n % 26 == d;
      NameOfOrdinal(p);
      assert s == p + [s[|s| - 1]];
    }
  }

  /** Distinct indices get distinct names. */
  lemma SpreadsheetNameInjective(i: nat, j: nat)
    requires SpreadsheetName(i) == SpreadsheetName(j)
    ensures i == j
  {
    OrdinalOfName(i);
    OrdinalOfName(j);
  }

  // ---------------------------------------------------------------------
  // Shortlex order: shorter strings first, lexicographic within a length.

  /** Lexicographic "strictly before" on strings, compared from the front. */
  predicate LexLess(a: string, b: string)
    decreases |a|
  {
    |a| > 0 && |b| > 0 && (a[0] < b[0] || (a[0] == b[0] && LexLess(a[1..], b[1..])))
  }

  predicate ShortlexLess(a: string, b: string) {
    |a| < |b| || (|a| == |b| && LexLess(a, b))
  }

  lemma {:induction false} LexLessIrreflexive(a: string)
    ensures !LexLess(a, a)
    decreases |a|
  {
    if |a| > 0 {
      LexLessIrreflexive(a[1..]);
    }
  }

  lemma {:induction false} LexLessTransitive(a: string, b: string, c: string)
    requires LexLess(a, b) && LexLess(b, c)
    ensures LexLess(a, c)
    decreases |a|
  {
    if a[0] == b[0] && b[0] == c[0] {
      LexLessTransitive(a[1..], b[1..], c[1..]);
    }
  }

  /** Appending one letter to two equally long strings keeps their order. */
  lemma {:induction false} LexLessAppend(a: string, b: string, x: char, y: char)
    requires |a| == |b| && LexLess(a, b)
    ensures LexLess(a + [x], b + [y])
    decreases |a|
  {
    assert (a + [x])[0] == a[0] && (b + [y])[0] == b[0];
    if a[0] == b[0] {
      assert (a + [x])[1..] == a[1..] + [x];
      assert (b + [y])[1..] == b[1..] + [y];
      LexLessAppend(a[1..], b[1..], x, y);
    }
  }

  /** Two strings that differ only in a last letter are ordered by it. */
  lemma {:induction false} LexLessLastLetter(p: string, x: char, y: char)
    requires x < y
    ensures LexLess(p + [x], p + [y])
    decreases |p|
  {
    if |p| > 0 {
      assert (p + [x])[1..] == p[1..] + [x];
      assert (p + [y])[1..] == p[1..] + [y];
      LexLessLastLetter(p[1..], x, y);
    }
  }

  lemma ShortlexLessIrreflexive(a: string)
    ensures !ShortlexLess(a, a)
  {
    LexLessIrreflexive(a);
  }

  lemma ShortlexLessTransitive(a: string, b: string, c: string)
    requires ShortlexLess(a, b) && ShortlexLess(b, c)
    ensures ShortlexLess(a, c)
  {
    if |a| == |b| == |c| {
      LexLessTransitive(a, b, c);
    }
  }

  /** The name of i + 1 comes right after the name of i in shortlex order. */
  lemma {:induction false} SpreadsheetNameSucc(i: nat)
    ensures ShortlexLess(SpreadsheetName(i), SpreadsheetName(i + 1))
    decreases i
  {
    if i < 25 {
    } else if i == 25 {
      assert SpreadsheetName(26) == SpreadsheetName(0) + [Letter(0)];
    } else {
      var q, r := i / 26, i % 26;
      if r < 25 {
        assert (i + 1) / 26 == q && (i + 1) % 26 == r + 1;
        LexLessLastLetter(SpreadsheetName(q - 1), Letter(r), Letter(r + 1));
      } else {
        assert (i + 1) / 26 == q + 1 && (i + 1) % 26 == 0;
        SpreadsheetNameSucc(q - 1);
        var a, b := SpreadsheetName(q - 1), SpreadsheetName(q);
        if |a| == |b| {
          LexLessAppend(a, b, Letter(r), Letter(0));
        }
      }
    }
  }

  /**
   * Names are strictly increasing in shortlex order: a smaller index never
   * gets a longer name, and equally long names are alphabetical.
   */
  lemma {:induction false} SpreadsheetNameIncreasing(i: nat, j: nat)
    requires i < j
    ensures ShortlexLess(SpreadsheetName(i), SpreadsheetName(j))
    ensures |SpreadsheetName(i)| <= |SpreadsheetName(j)|
    decreases j - i
  {
    SpreadsheetNameSucc(j - 1);
    if i < j - 1 {
      SpreadsheetNameIncreasing(i, j - 1);
      ShortlexLessTransitive(SpreadsheetName(i), SpreadsheetName(j - 1), SpreadsheetName(j));
    }
  }
}
