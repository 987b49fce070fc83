/**
 * String helpers shared by the pages: the parts of JavaScript's String API
 * that the storefront's filters, validators and labels rely on
 * (`toLowerCase`, `includes`, `trim`, `/^\d+$/`, `join`, number display),
 * restricted to ASCII, and `length` and `slice` as JavaScript counts them,
 * in UTF-16 code units.
 */
module Text {

  predicate IsUpper(c: char) { 'A' <= c <= 'Z' }

  predicate IsLowerLetter(c: char) { 'a' <= c <= 'z' }

  predicate IsDigit(c: char) { '0' <= c <= '9' }

  /** The characters JavaScript's `\s` and `trim` treat as white space, ASCII part. */
  predicate IsSpace(c: char) {
    c == ' ' || c == '\t' || c == '\n' || c == '\r' || c == '\U{B}' || c == '\U{C}'
  }

  /** `toLowerCase` on one character (ASCII letters only). */
  function LowerChar(c: char): (r: char)
    ensures !IsUpper(r)
    ensures IsUpper(c) ==> IsLowerLetter(r) && r as int == c as int + 32
    ensures !IsUpper(c) ==> r == c
  {
    if IsUpper(c) then (c as int + 32) as char else c
  }

  /** `toLowerCase` on a string. */
  function Lower(s: string): (r: string)
    ensures |r| == |s|
    ensures forall i :: 0 <= i < |s| ==> r[i] == LowerChar(s[i])
  {
    if s == [] then [] else [LowerChar(s[0])] + Lower(s[1..])
  }

  lemma {:induction false} LowerIdempotent(s: string)
    ensures Lower(Lower(s)) == Lower(s)
  {
    if s != [] {
      LowerIdempotent(s[1..]);
      assert Lower(s)[1..] == Lower(s[1..]);
    }
  }

  /** A string without capitals is its own lower-case form. */
  lemma LowerUnchanged(s: string)
    requires forall i :: 0 <= i < |s| ==> !IsUpper(s[i])
    ensures Lower(s) == s
  {
    assert forall i :: 0 <= i < |s| ==> Lower(s)[i] == s[i];
  }

  /** Where s has a character outside the Basic Multilingual Plane. */
  function AstralPositions(s: string): set<int> {
    set i | 0 <= i < |s| && s[i] as int >= 0x1_0000
  }

  /** At most every position of s is astral. */
  lemma {:induction false} AstralPositionsBound(s: string)
    ensures |AstralPositions(s)| <= |s|
  {
    if s != [] {
      var t := s[..|s| - 1];
      AstralPositionsBound(t);
      assert AstralPositions(s) <= AstralPositions(t) + {|s| - 1};
      SubsetCard(AstralPositions(s), AstralPositions(t) + {|s| - 1});
    }
  }

  lemma SubsetCard(a: set<int>, b: set<int>)
    requires a <= b
    ensures |a| <= |b|
  {
    assert b == a + (b - a);
  }

  /**
   * `s.length` in JavaScript, which is what zod's `min(n)` on a string
   * compares: the number of UTF-16 code units, where a character outside
   * the Basic Multilingual Plane takes two.
   */
  function Utf16Length(s: string): (n: nat)
    ensures |s| <= n <= 2 * |s|
  {
    AstralPositionsBound(s);
    |s| + |AstralPositions(s)|
  }

  /** Every character of s lies in the Basic Multilingual Plane. */
  predicate InBmp(s: string) {
    forall i :: 0 <= i < |s| ==> s[i] as int < 0x1_0000
  }

  /** Within the Basic Multilingual Plane, code units and characters agree. */
  lemma Utf16LengthInBmp(s: string)
    requires InBmp(s)
    ensures Utf16Length(s) == |s|
  {
    assert AstralPositions(s) == {};
  }

  /** A character outside the plane counts twice: one emoji already has length 2. */
  lemma AstralCountsTwo(c: char)
    requires c as int >= 0x1_0000
    ensures Utf16Length([c]) == 2
  {
    assert AstralPositions([c]) == {0};
  }

  /** Appending one character adds its width. */
  lemma Utf16LengthSnoc(t: string, c: char)
    ensures Utf16Length(t + [c]) == Utf16Length(t) + (if c as int < 0x1_0000 then 1 else 2)
  {
    var s := t + [c];
    if c as int < 0x1_0000 {
      assert AstralPositions(s) == AstralPositions(t);
    } else {
      assert AstralPositions(s) == AstralPositions(t) + {|t|};
    }
  }

  /**
   * Where `slice(0, n)` ends, counted in characters: the longest prefix of
   * s, among the first j characters, that fits in n code units.
   */
  function Utf16Cut(s: string, n: nat, j: nat): (k: nat)
    requires j <= |s|
    ensures k <= j && Utf16Length(s[..k]) <= n
    ensures forall i :: k < i <= j ==> Utf16Length(s[..i]) > n
    decreases j
  {
    if Utf16Length(s[..j]) <= n then j
    else
      assert j != 0;
      Utf16Cut(s, n, j - 1)
  }

  /** `s.includes(q)`: q occurs in s as a contiguous piece. */
  predicate Contains(s: string, q: string)
    decreases |s|
  {
    q <= s || (s != [] && Contains(s[1..], q))
  }

  lemma ContainsEmpty(s: string)
    ensures Contains(s, [])
  {
  }

  /** q sits in s at offset k. */
  predicate OccursAt(s: string, q: string, k: int) {
    0 <= k <= |s| - |q| && s[k..k + |q|] == q
  }

  /** Where Contains finds q, q sits at an offset of s. */
  lemma {:induction false} ContainsOffset(s: string, q: string) returns (k: int)
    requires Contains(s, q)
    ensures OccursAt(s, q, k)
    decreases |s|
  {
    if q <= s {
      k := 0;
      assert s[..|q|] == q;
    } else {
      var j := ContainsOffset(s[1..], q);
      k := j + 1;
      assert s[k..k + |q|] == s[1..][j..j + |q|];
    }
  }

  /** A piece at any offset is found by Contains. */
  lemma {:induction false} OccurrenceContained(s: string, q: string, k: int)
    requires OccursAt(s, q, k)
    ensures Contains(s, q)
    decreases k
  {
    if k == 0 {
      assert q == s[..|q|];
    } else {
      assert s[1..][k - 1..k - 1 + |q|] == s[k..k + |q|];
      OccurrenceContained(s[1..], q, k - 1);
    }
  }

  /** Contains holds exactly when q sits at some offset of s. */
  lemma ContainsIsOccurrence(s: string, q: string)
    ensures Contains(s, q) <==> exists k :: OccursAt(s, q, k)
  {
    if Contains(s, q) {
      var k := ContainsOffset(s, q);
    }
    if exists k :: OccursAt(s, q, k) {
      var k :| OccursAt(s, q, k);
      OccurrenceContained(s, q, k);
    }
  }

  /** `/^\d+$/`: at least one character, all of them digits. */
  predicate AllDigits(s: string) {
    |s| > 0 && forall i :: 0 <= i < |s| ==> IsDigit(s[i])
  }

  predicate IsBlank(s: string) {
    forall i :: 0 <= i < |s| ==> IsSpace(s[i])
  }

  /** `trimStart`: what is left is a suffix, and everything cut off is white space. */
  function TrimStart(s: string): (r: string)
    ensures r == [] || !IsSpace(r[0])
    ensures |r| <= |s| && r == s[|s| - |r|..] && IsBlank(s[..|s| - |r|])
  {
    if s != [] && IsSpace(s[0]) then
      var r := TrimStart(s[1..]);
      assert s[..|s| - |r|] == [s[0]] + s[1..][..|s[1..]| - |r|];
      r
    else
      s
  }

  /** `trimEnd`: what is left is a prefix, and everything cut off is white space. */
  function TrimEnd(s: string): (r: string)
    ensures r == [] || !IsSpace(r[|r| - 1])
    ensures |r| <= |s| && r == s[..|r|] && IsBlank(s[|r|..])
  {
    if s != [] && IsSpace(s[|s| - 1]) then
      var r := TrimEnd(s[..|s| - 1]);
      assert s[|r|..] == s[..|s| - 1][|r|..] + [s[|s| - 1]];
      r
    else
      s
  }

  /** `trim`: drop white space at both ends. */
  function Trim(s: string): (r: string)
    ensures r == [] || (!IsSpace(r[0]) && !IsSpace(r[|r| - 1]))
    ensures |r| <= |s|
  {
    var t := TrimStart(s);
    var r := TrimEnd(t);
    assert r != [] ==> r[0] == t[0];
    r
  }

  /** A string is blank exactly when trimming leaves nothing. */
  lemma TrimEmptyIffBlank(s: string)
    ensures Trim(s) == [] <==> IsBlank(s)
  {
    var t := TrimStart(s);
    if t != [] {
      assert t[0] == s[|s| - |t|];
      var r := TrimEnd(t);
    } else {
      assert s[..|s|] == s;
    }
  }

  /** A string with no white space at either end is left alone by trim. */
  lemma TrimUnchanged(s: string)
    requires s == [] || (!IsSpace(s[0]) && !IsSpace(s[|s| - 1]))
    ensures Trim(s) == s
  {
  }

  /** Trimming only removes characters: what is left is a piece of the input. */
  lemma TrimIsPiece(s: string)
    ensures forall i :: 0 <= i < |Trim(s)| ==> Trim(s)[i] in s
  {
    var t := TrimStart(s);
    var r := TrimEnd(t);
    assert Trim(s) == r;
    forall i | 0 <= i < |r|
      ensures r[i] in s
    {
      PieceAt(s, t, r, i);
    }
  }

  lemma PieceAt(s: string, t: string, r: string, i: int)
    requires |t| <= |s| && t == s[|s| - |t|..]
    requires |r| <= |t| && r == t[..|r|]
    requires 0 <= i < |r|
    ensures r[i] in s
  {
    var j := |s| - |t| + i;
    assert r[i] == t[i] == s[j];
  }

  /** Decimal digits of one number 0..9. */
  function DigitChar(d: nat): (c: char)
    requires d < 10
    ensures IsDigit(c)
  {
    ('0' as int + d) as char
  }

  /** How JavaScript prints a non-negative integer in a template string. */
  function NatToString(n: nat): (r: string)
    ensures AllDigits(r)
    ensures |r| == 1 <==> n < 10
    decreases n
  {
    if n < 10 then [DigitChar(n)] else NatToString(n / 10) + [DigitChar(n % 10)]
  }

  /** How JavaScript prints any integer in a template string. */
  function IntToString(i: int): string
  {
    if i < 0 then "-" + NatToString(-i) else NatToString(i)
  }

  /** `parts.join(sep)`. */
  function Join(parts: seq<string>, sep: string): (r: string)
    ensures parts == [] ==> r == []
    decreases |parts|
  {
    if parts == [] then []
    else if |parts| == 1 then parts[0]
    else Join(parts[..|parts| - 1], sep) + sep + parts[|parts| - 1]
  }

  /** Joining one more part adds exactly one separator and that part. */
  lemma JoinAppend(parts: seq<string>, p: string, sep: string)
    requires parts != []
    ensures Join(parts + [p], sep) == Join(parts, sep) + sep + p
  {
    assert (parts + [p])[..|parts|] == parts;
  }
}
