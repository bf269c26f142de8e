/**
 * The pieces of Python string behaviour the tourism tools rely on:
 * `str.lower()`, the substring test `needle in hay`, `str(i)` inside an
 * f-string, and `", ".join(parts)`.
 */
module Text {

  // ---------------------------------------------------------------------
  // Lower-casing
  // ---------------------------------------------------------------------

  /** The upper-case letters that `lower` folds one-to-one by adding 32:
      A..Z and the Latin-1 letters from U+00C0 to U+00DE except U+00D7. */
  predicate IsUpper(c: char) {
    'A' <= c <= 'Z' || ('À' <= c <= 'Þ' && c != '×')
  }

  function LowerChar(c: char): (d: char)
    ensures !IsUpper(d)
    ensures IsUpper(c) || d == c
  {
    if IsUpper(c) then (c as int + 32) as char else c
  }

  /** `s.lower()`, folding the letters IsUpper names and keeping every other character.
      No upper-case letter is left, and a string without one is its own lower-cased form. */
  function Lower(s: string): (r: string)
    ensures forall i :: 0 <= i < |r| ==> !IsUpper(r[i])
    ensures (forall i :: 0 <= i < |s| ==> !IsUpper(s[i])) ==> r == s
  {
    seq(|s|, i requires 0 <= i < |s| => LowerChar(s[i]))
  }

  /** Lower-casing twice is lower-casing once. */
  lemma LowerIdempotent(s: string)
    ensures Lower(Lower(s)) == Lower(s)
  {
  }


  // ---------------------------------------------------------------------
  // Substrings
  // ---------------------------------------------------------------------

  /** `needle` agrees with `hay` at offset `i`, from character `k` of `needle` on. */
  predicate MatchesFrom(hay: string, needle: string, i: nat, k: nat)
    requires i + |needle| <= |hay| && k <= |needle|
    decreases |needle| - k
  {
    k == |needle| || (hay[i + k] == needle[k] && MatchesFrom(hay, needle, i, k + 1))
  }

  /** `needle` occurs in `hay` at offset `i` or at a later one. */
  predicate OccursFrom(hay: string, needle: string, i: nat)
    decreases |hay| - i
  {
    i + |needle| <= |hay| && (MatchesFrom(hay, needle, i, 0) || OccursFrom(hay, needle, i + 1))
  }

  /** Python's `needle in hay` on two strings; the empty string is in every string. */
  predicate Contains(hay: string, needle: string) {
    OccursFrom(hay, needle, 0)
  }

  /** The reference meaning of a substring: the slice of `hay` at `i` is `needle`. */
  ghost predicate OccursAt(hay: string, needle: string, i: int) {
    0 <= i && i + |needle| <= |hay| && hay[i..i + |needle|] == needle
  }

  lemma {:induction false} MatchesFromIff(hay: string, needle: string, i: nat, k: nat)
    requires i + |needle| <= |hay| && k <= |needle|
    ensures MatchesFrom(hay, needle, i, k) <==> hay[i + k..i + |needle|] == needle[k..]
    decreases |needle| - k
  {
    if k < |needle| {
      MatchesFromIff(hay, needle, i, k + 1);
      assert hay[i + k..i + |needle|] == [hay[i + k]] + hay[i + k + 1..i + |needle|];
      assert needle[k..] == [needle[k]] + needle[k + 1..];
    }
  }

  lemma {:induction false} OccursFromIff(hay: string, needle: string, i: nat)
    ensures OccursFrom(hay, needle, i) <==> exists j :: i <= j && OccursAt(hay, needle, j)
    decreases |hay| - i
  {
    if i + |needle| <= |hay| {
      MatchesFromIff(hay, needle, i, 0);
      assert needle[0..] == needle;
      OccursFromIff(hay, needle, i + 1);
      if OccursFrom(hay, needle, i) {
        if MatchesFrom(hay, needle, i, 0) {
          assert OccursAt(hay, needle, i);
        }
      }
      if exists j :: i <= j && OccursAt(hay, needle, j) {
        var j :| i <= j && OccursAt(hay, needle, j);
        if j == i {
          assert MatchesFrom(hay, needle, i, 0);
        } else {
          assert OccursFrom(hay, needle, i + 1);
        }
      }
    }
  }

  /** `Contains` is the substring relation: some slice of `hay` equals `needle`. */
  lemma ContainsIff(hay: string, needle: string)
    ensures Contains(hay, needle) <==> exists j :: OccursAt(hay, needle, j)
  {
    OccursFromIff(hay, needle, 0);
  }

  /** A string lacking one of the characters of `needle` does not contain it. */
  lemma MissingCharNotContained(hay: string, needle: string, c: char)
    requires c in needle && c !in hay
    ensures !Contains(hay, needle)
  {
    ContainsIff(hay, needle);
  }

  /** Every string contains itself. */
  lemma ContainsSelf(s: string)
    ensures Contains(s, s)
  {
    ContainsIff(s, s);
    assert OccursAt(s, s, 0);
  }

  /** A string cannot contain a longer one. */
  lemma ShorterNotContained(hay: string, needle: string)
    requires |hay| < |needle|
    ensures !Contains(hay, needle)
  {
  }

  /** Between strings of one length, containment is equality. */
  lemma SameLengthContains(hay: string, needle: string)
    requires |hay| == |needle|
    ensures Contains(hay, needle) <==> hay == needle
  {
    ContainsIff(hay, needle);
    if Contains(hay, needle) {
      var j :| OccursAt(hay, needle, j);
      assert hay[j..j + |needle|] == hay;
    } else {
      assert !OccursAt(hay, needle, 0);
    }
  }

  /** Neither of two strings contains the other when each has a character the other lacks. */
  lemma NeitherContains(x: string, y: string, cx: char, cy: char)
    requires cx in x && cx !in y
    requires cy in y && cy !in x
    ensures !Contains(x, y) && !Contains(y, x)
  {
    MissingCharNotContained(x, y, cy);
    MissingCharNotContained(y, x, cx);
  }

  /** Lower-casing brings in no character that neither case of it provided. */
  lemma LowerLacks(s: string, c: char)
    requires c !in s
    requires 'a' <= c <= 'z' ==> (c as int - 32) as char !in s
    requires !('à' <= c <= 'þ')
    ensures c !in Lower(s)
  {
    forall i | 0 <= i < |s|
      ensures Lower(s)[i] != c
    {
      assert s[i] in s;
    }
  }

  // ---------------------------------------------------------------------
  // Integers written in decimal
  // ---------------------------------------------------------------------

  predicate IsDigit(c: char) {
    '0' <= c <= '9'
  }

  predicate AllDigits(s: string) {
    forall i :: 0 <= i < |s| ==> IsDigit(s[i])
  }

  function DigitChar(d: nat): (c: char)
    requires d < 10
    ensures IsDigit(c)
  {
    ('0' as int + d) as char
  }

  function DigitValue(c: char): nat
    requires IsDigit(c)
  {
    c as int - '0' as int
  }

  /** Python's `str(n)` for a natural number: its decimal digits without leading zeros. */
  function NatToString(n: nat): (s: string)
    ensures 1 <= |s| && AllDigits(s)
    ensures (s[0] == '0') == (n == 0)
    ensures n == 0 ==> s == "0"
    decreases n
  {
    if n < 10 then [DigitChar(n)] else NatToString(n / 10) + [DigitChar(n % 10)]
  }

  /** The number a string of decimal digits stands for. */
  function DigitsValue(s: string): nat
    requires AllDigits(s)
  {
    if s == [] then 0 else 10 * DigitsValue(s[..|s| - 1]) + DigitValue(s[|s| - 1])
  }

  lemma {:induction false} NatToStringRoundTrip(n: nat)
    ensures DigitsValue(NatToString(n)) == n
    decreases n
  {
    if n >= 10 {
      NatToStringRoundTrip(n / 10);
      var s := NatToString(n);
      assert s[..|s| - 1] == NatToString(n / 10);
    }
  }

  /** Python's `str(i)` (an f-string field `{i}`) for any integer. */
  function IntToString(i: int): string {
    if i < 0 then "-" + NatToString(-i) else NatToString(i)
  }

  /** An optional minus sign followed by at least one decimal digit. */
  predicate IsIntLiteral(s: string) {
    (1 <= |s| && AllDigits(s)) || (2 <= |s| && s[0] == '-' && AllDigits(s[1..]))
  }

  /** The way `str(i)` writes an integer: no leading zero, and no minus sign before zero. */
  predicate IsCanonicalIntLiteral(s: string) {
    IsIntLiteral(s) && (s[0] == '0' ==> s == "0") && (s[0] == '-' ==> s[1] != '0')
  }

  /** Python's `int(s)` on an integer literal. */
  function IntValue(s: string): int
    requires IsIntLiteral(s)
  {
    if s[0] == '-' then -(DigitsValue(s[1..]) as int) else DigitsValue(s)
  }

  /** Writing an integer in decimal loses nothing: reading it back gives the integer. */
  lemma IntToStringRoundTrip(i: int)
    ensures IsCanonicalIntLiteral(IntToString(i))
    ensures IntValue(IntToString(i)) == i
  {
    var s := IntToString(i);
    if i < 0 {
      assert s[1..] == NatToString(-i);
      NatToStringRoundTrip(-i);
    } else {
      NatToStringRoundTrip(i);
    }
  }

  // ---------------------------------------------------------------------
  // Joining with ", "
  // ---------------------------------------------------------------------

  /** Python's `", ".join(parts)`. */
  function JoinComma(parts: seq<string>): string {
    if parts == [] then ""
    else if |parts| == 1 then parts[0]
    else parts[0] + ", " + JoinComma(parts[1..])
  }

  /** Cuts `s` at every ", ", in the manner of Python's `s.split(", ")`. */
  function SplitComma(s: string): (parts: seq<string>)
    ensures 1 <= |parts|
    decreases |s|
  {
    if 2 <= |s| && s[0] == ',' && s[1] == ' ' then [""] + SplitComma(s[2..])
    else if s == [] then [""]
    else
      var rest := SplitComma(s[1..]);
      [[s[0]] + rest[0]] + rest[1..]
  }

  lemma {:induction false} SplitWithoutComma(s: string)
    requires ',' !in s
    ensures SplitComma(s) == [s]
    decreases |s|
  {
    if s != [] {
      SplitWithoutComma(s[1..]);
      assert [s[0]] + s[1..] == s;
    }
  }

  lemma {:induction false} SplitAfterPart(x: string, y: string)
    requires ',' !in x
    ensures SplitComma(x + ", " + y) == [x] + SplitComma(y)
    decreases |x|
  {
    var s := x + ", " + y;
    if x == [] {
      assert s == ", " + y;
      assert s[2..] == y;
    } else {
      SplitAfterPart(x[1..], y);
      assert s[1..] == x[1..] + ", " + y;
      assert [x[0]] + x[1..] == x;
    }
  }

  /** Splitting a ", "-joined non-empty list gives the list back when no part holds a comma.
      The empty list is excluded: it joins to "", which splits to [""]. */
  lemma {:induction false} SplitJoinRoundTrip(parts: seq<string>)
    requires 1 <= |parts|
    requires forall i :: 0 <= i < |parts| ==> ',' !in parts[i]
    ensures SplitComma(JoinComma(parts)) == parts
  {
    if |parts| == 1 {
      SplitWithoutComma(parts[0]);
    } else {
      SplitAfterPart(parts[0], JoinComma(parts[1..]));
      SplitJoinRoundTrip(parts[1..]);
      assert parts == [parts[0]] + parts[1..];
    }
  }
}
