/** The string operations the two pages rely on: `String.prototype.trim`,
    lower-casing, `String.prototype.includes`, and the order of ISO dates. */
module Text {

  /** The characters `trim` strips: ECMAScript WhiteSpace (tab, vertical tab,
      form feed, zero-width no-break space and every space separator) and
      LineTerminator (line feed, carriage return, line and paragraph separators). */
  const WhiteSpace: set<char> := {
    '\t', '\n', '\U{000B}', '\U{000C}', '\r', ' ', '\U{00A0}', '\U{1680}',
    '\U{2000}', '\U{2001}', '\U{2002}', '\U{2003}', '\U{2004}', '\U{2005}',
    '\U{2006}', '\U{2007}', '\U{2008}', '\U{2009}', '\U{200A}',
    '\U{2028}', '\U{2029}', '\U{202F}', '\U{205F}', '\U{3000}', '\U{FEFF}'
  }

  predicate IsWhiteSpace(c: char) {
    c in WhiteSpace
  }

  function TrimStart(s: string): (r: string)
    ensures |r| <= |s| && r == s[|s| - |r|..]
    ensures forall k :: 0 <= k < |s| - |r| ==> IsWhiteSpace(s[k])
    ensures r != [] ==> !IsWhiteSpace(r[0])
  {
    if s != [] && IsWhiteSpace(s[0]) then
      var r := TrimStart(s[1..]);
      assert forall k :: 1 <= k < |s| - |r| ==> s[k] == s[1..][k - 1];
      r
    else s
  }

  function TrimEnd(s: string): (r: string)
    ensures |r| <= |s| && r == s[..|r|]
    ensures forall k :: |r| <= k < |s| ==> IsWhiteSpace(s[k])
    ensures r != [] ==> !IsWhiteSpace(r[|r| - 1])
  {
    if s != [] && IsWhiteSpace(s[|s| - 1]) then
      var r := TrimEnd(s[..|s| - 1]);
      assert forall k :: |r| <= k < |s| - 1 ==> s[k] == s[..|s| - 1][k];
      r
    else s
  }

  /** `needle` occurs in `hay` starting at position `i`. */
  predicate OccursAt(hay: string, needle: string, i: int) {
    0 <= i <= |hay| - |needle| && hay[i..i + |needle|] == needle
  }

  /** `r` is the slice of `s` at `i`, and only white space lies outside it. */
  predicate TrimmedAt(s: string, r: string, i: int) {
    OccursAt(s, r, i) &&
    (forall k :: 0 <= k < i ==> IsWhiteSpace(s[k])) &&
    (forall k :: i + |r| <= k < |s| ==> IsWhiteSpace(s[k]))
  }

  /** `trim`: the slice of `s` left after removing white space from both ends;
      it neither starts nor ends with white space, and it is empty exactly when
      `s` is white space throughout. */
  function Trim(s: string): (r: string)
    ensures exists i :: TrimmedAt(s, r, i)
    ensures r != [] ==> !IsWhiteSpace(r[0]) && !IsWhiteSpace(r[|r| - 1])
    ensures r == [] <==> forall k :: 0 <= k < |s| ==> IsWhiteSpace(s[k])
  {
    var r := TrimEnd(TrimStart(s));
    TrimIsSlice(s, |s| - |TrimStart(s)|);
    TrimmedEmptyIff(s, r, |s| - |TrimStart(s)|);
    r
  }

  lemma {:induction false} TrimIsSlice(s: string, i: nat)
    requires i == |s| - |TrimStart(s)|
    ensures TrimmedAt(s, TrimEnd(TrimStart(s)), i)
  {
    var front := TrimStart(s);
    var r := TrimEnd(front);
    PrefixOfSuffix(s, i, front, r);
    TrimEndOfSuffix(s, i, front, r);
  }

  /** A prefix of the suffix of `s` at `i` occurs in `s` at `i`. */
  lemma {:induction false} PrefixOfSuffix(s: string, i: nat, front: string, r: string)
    requires i <= |s| && front == s[i..] && |r| <= |front| && r == front[..|r|]
    ensures OccursAt(s, r, i)
  {
    assert s[i..i + |r|] == s[i..][..|r|];
  }

  /** What is left after trimming is empty exactly when everything was white space. */
  lemma {:induction false} TrimmedEmptyIff(s: string, r: string, i: int)
    requires TrimmedAt(s, r, i) && (r != [] ==> !IsWhiteSpace(r[0]))
    ensures r == [] <==> forall k :: 0 <= k < |s| ==> IsWhiteSpace(s[k])
  {
    if r != [] {
      assert r[0] == s[i];
    }
  }

  lemma {:induction false} TrimEndOfSuffix(s: string, i: nat, front: string, r: string)
    requires i <= |s| && front == s[i..] && r == TrimEnd(front)
    ensures forall k :: i + |r| <= k < |s| ==> IsWhiteSpace(s[k])
  {
    forall k | i + |r| <= k < |s|
      ensures IsWhiteSpace(s[k])
    {
      assert s[k] == front[k - i];
    }
  }

  /** Lower-cases the ASCII letters and leaves every other character as it is. */
  function LowerChar(c: char): char {
    if 'A' <= c <= 'Z' then (c as int + 32) as char else c
  }

  predicate IsUpper(c: char) {
    'A' <= c <= 'Z'
  }

  /** `x` and `y` are the same character up to ASCII letter case. */
  predicate SameUpToCase(x: char, y: char) {
    x == y ||
    (IsUpper(x) && y as int == x as int + 32) ||
    (IsUpper(y) && x as int == y as int + 32)
  }

  /** `a` and `b` spell the same text up to ASCII letter case. */
  predicate EqualUpToCase(a: string, b: string) {
    |a| == |b| && forall i :: 0 <= i < |a| ==> SameUpToCase(a[i], b[i])
  }

  /** `toLowerCase`, on ASCII letters: the result spells the same text up to
      case and holds no upper-case letter. */
  function Lower(s: string): (r: string)
    ensures EqualUpToCase(s, r)
    ensures forall i :: 0 <= i < |r| ==> !IsUpper(r[i])
  {
    seq(|s|, i requires 0 <= i < |s| => LowerChar(s[i]))
  }

  /** Lower-casing forgets case: texts equal up to case lower to the same text. */
  lemma {:induction false} LowerIgnoresCase(a: string, b: string)
    requires EqualUpToCase(a, b)
    ensures Lower(a) == Lower(b)
  {
    forall i | 0 <= i < |a|
      ensures Lower(a)[i] == Lower(b)[i]
    {
      assert SameUpToCase(a[i], b[i]);
      assert Lower(a)[i] == LowerChar(a[i]) && Lower(b)[i] == LowerChar(b[i]);
    }
  }

  /** Lowering a lowered text changes nothing. */
  lemma {:induction false} LowerIdempotent(s: string)
    ensures Lower(Lower(s)) == Lower(s)
  {
    var r := Lower(s);
    forall i | 0 <= i < |r|
      ensures Lower(r)[i] == r[i]
    {
      assert !IsUpper(r[i]);
    }
  }

  /** `hay.includes(needle)`, decided by trying each starting position in turn. */
  predicate Contains(hay: string, needle: string)
    decreases |hay|
  {
    |needle| <= |hay| && (hay[..|needle|] == needle || Contains(hay[1..], needle))
  }

  /** `Contains` holds exactly when `needle` occurs as a slice of `hay`. */
  lemma {:induction false} ContainsIffSlice(hay: string, needle: string)
    ensures Contains(hay, needle) <==> exists i :: OccursAt(hay, needle, i)
    decreases |hay|
  {
    if |needle| <= |hay| {
      if hay[..|needle|] == needle {
        assert OccursAt(hay, needle, 0);
      } else {
        ContainsIffSlice(hay[1..], needle);
        if exists i :: OccursAt(hay, needle, i) {
          var i :| OccursAt(hay, needle, i);
          assert i != 0;
          assert OccursAt(hay[1..], needle, i - 1);
        }
        if Contains(hay[1..], needle) {
          var i :| OccursAt(hay[1..], needle, i);
          assert OccursAt(hay, needle, i + 1);
        }
      }
    } else {
      assert forall i :: !OccursAt(hay, needle, i);
    }
  }

  /** The empty search term occurs in every label. */
  lemma ContainsEmpty(hay: string)
    ensures Contains(hay, "")
  {
  }

  /** Lexicographic order on strings. For the `YYYY-MM-DD` strings a date input
      produces it is the chronological order that comparing `Date` objects gives. */
  predicate LexLe(a: string, b: string) {
    if a == [] then true
    else if b == [] then false
    else if a[0] != b[0] then a[0] < b[0]
    else LexLe(a[1..], b[1..])
  }

  lemma {:induction false} LexLeReflexive(a: string)
    ensures LexLe(a, a)
  {
    if a != [] {
      LexLeReflexive(a[1..]);
    }
  }

  lemma {:induction false} LexLeTotal(a: string, b: string)
    ensures LexLe(a, b) || LexLe(b, a)
  {
    if a != [] && b != [] && a[0] == b[0] {
      LexLeTotal(a[1..], b[1..]);
    }
  }

  lemma {:induction false} LexLeTransitive(a: string, b: string, c: string)
    requires LexLe(a, b) && LexLe(b, c)
    ensures LexLe(a, c)
  {
    if a != [] && b != [] && c != [] && a[0] == b[0] && b[0] == c[0] {
      LexLeTransitive(a[1..], b[1..], c[1..]);
    }
  }
}
