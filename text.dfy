/**
 * Characters, strings and decimal numbers as the three extractors see them:
 * the character classes behind `\d`, `\w` and `str.isspace`, `str.lower`,
 * substring tests, `str.strip`, `str.replace`, decimal text and its value,
 * `str(int)`, `int(str)` and `round(x, 2)`.
 */
module Text {
  import opened Wrappers

  // ---------------------------------------------------------------------
  // Character classes
  // ---------------------------------------------------------------------

  /** A decimal digit (`\d`, `str.isdigit`), ASCII only. */
  predicate IsDigit(c: char) { '0' <= c <= '9' }

  predicate IsAsciiLetter(c: char) { 'a' <= c <= 'z' || 'A' <= c <= 'Z' }

  /** A character of the regular-expression class `\w`, ASCII only. */
  predicate IsWordChar(c: char) { IsAsciiLetter(c) || IsDigit(c) || c == '_' }

  /** The characters for which Python's `str.isspace` holds. */
  const Whitespace: set<char> :=
    {' ', '\t', '\n', '\r', '\U{B}', '\U{C}', '\U{1C}', '\U{1D}', '\U{1E}', '\U{1F}',
     '\U{85}', '\U{A0}', '\U{1680}', '\U{2000}', '\U{2001}', '\U{2002}', '\U{2003}',
     '\U{2004}', '\U{2005}', '\U{2006}', '\U{2007}', '\U{2008}', '\U{2009}', '\U{200A}',
     '\U{2028}', '\U{2029}', '\U{202F}', '\U{205F}', '\U{3000}'}

  lemma DigitsAreNotWhitespace(c: char)
    requires IsDigit(c)
    ensures c !in Whitespace
  {
  }

  /** `str.lower` on one character, ASCII letters only. */
  function LowerChar(c: char): char
  {
    if 'A' <= c <= 'Z' then (c as int + 32) as char else c
  }

  function Lower(s: string): (r: string)
    ensures |r| == |s|
  {
    seq(|s|, i requires 0 <= i < |s| => LowerChar(s[i]))
  }

  // ---------------------------------------------------------------------
  // Substrings
  // ---------------------------------------------------------------------

  /** `sub` occurs in `s` at position `i`. */
  predicate OccursAt(s: string, sub: string, i: int)
  {
    0 <= i <= |s| - |sub| && s[i..i + |sub|] == sub
  }

  /** `sub in s` for Python strings. */
  predicate Contains(s: string, sub: string)
  {
    exists i | 0 <= i <= |s| - |sub| :: OccursAt(s, sub, i)
  }

  /** A substring of a substring is a substring. */
  lemma ContainsTransitive(s: string, t: string, u: string)
    requires Contains(s, t) && Contains(t, u)
    ensures Contains(s, u)
  {
    var i :| 0 <= i <= |s| - |t| && OccursAt(s, t, i);
    var j :| 0 <= j <= |t| - |u| && OccursAt(t, u, j);
    forall k | 0 <= k < |u|
      ensures s[i + j + k] == u[k]
    {
      assert t[j + k] == u[k];
      assert s[i + (j + k)] == t[j + k];
    }
    assert s[i + j..i + j + |u|] == u;
    assert OccursAt(s, u, i + j);
  }

  /** Every string contains itself. */
  lemma ContainsSelf(s: string)
    ensures Contains(s, s)
  {
    assert s[0..|s|] == s;
    assert OccursAt(s, s, 0);
  }

  /** A string lacking one of the characters of `sub` does not contain it. */
  lemma NotContainsForeign(s: string, sub: string, c: char)
    requires c in sub && c !in s
    ensures !Contains(s, sub)
  {
  }

  // ---------------------------------------------------------------------
  // str.strip(chars), str.strip(), str.replace(pat, "")
  // ---------------------------------------------------------------------

  /** Length of the run of characters of `cs` that starts at position `i` of `s`. */
  function RunOf(s: string, i: nat, cs: set<char>): (n: nat)
    requires i <= |s|
    ensures i + n <= |s|
    ensures forall k :: i <= k < i + n ==> s[k] in cs
    ensures i + n == |s| || s[i + n] !in cs
    decreases |s| - i
  {
    if i < |s| && s[i] in cs then 1 + RunOf(s, i + 1, cs) else 0
  }

  /** Length of the run of characters of `cs` that ends `s`. */
  function TrailingRun(s: string, cs: set<char>): (n: nat)
    ensures n <= |s|
    ensures forall k :: |s| - n <= k < |s| ==> s[k] in cs
    ensures n == |s| || s[|s| - n - 1] !in cs
  {
    if s != [] && s[|s| - 1] in cs then 1 + TrailingRun(s[..|s| - 1], cs) else 0
  }

  /** `s.lstrip(cs)`: `s` without the characters of `cs` it starts with. */
  function TrimLeft(s: string, cs: set<char>): string
  {
    s[RunOf(s, 0, cs)..]
  }

  /** `s.rstrip(cs)`: `s` without the characters of `cs` it ends with. */
  function TrimRight(s: string, cs: set<char>): string
  {
    s[..|s| - TrailingRun(s, cs)]
  }

  /** `s.strip(cs)`. */
  function StripChars(s: string, cs: set<char>): string
  {
    TrimRight(TrimLeft(s, cs), cs)
  }

  /** `s.strip()`. */
  function Strip(s: string): string
  {
    StripChars(s, Whitespace)
  }

  /** Stripping removes characters of `cs` only: every character that is kept was in `s`. */
  lemma StripCharsKeeps(s: string, cs: set<char>)
    ensures forall c :: c in StripChars(s, cs) ==> c in s
    ensures forall c :: c in s && c !in cs ==> c in StripChars(s, cs)
  {
    var m := RunOf(s, 0, cs);
    var l := TrimLeft(s, cs);
    var r := TrimRight(l, cs);
    assert r == s[m..m + |r|];
    forall c | c in s && c !in cs
      ensures c in r
    {
      var i :| 0 <= i < |s| && s[i] == c;
      assert l[i - m] == c;
      assert r[i - m] == c;
    }
  }

  /** `s.strip()` is empty exactly when `s` consists of whitespace only. */
  lemma StripEmptyIffBlank(s: string)
    ensures Strip(s) == [] <==> forall i :: 0 <= i < |s| ==> s[i] in Whitespace
  {
    StripCharsKeeps(s, Whitespace);
  }

  /** Stripping a string that neither starts nor ends with a character of `cs` changes nothing. */
  lemma StripCharsNoop(s: string, cs: set<char>)
    requires s != [] && s[0] !in cs && s[|s| - 1] !in cs
    ensures StripChars(s, cs) == s
  {
    assert TrimLeft(s, cs) == s;
  }

  /** `s.replace(pat, "")`: every non-overlapping occurrence of `pat` deleted, left to right. */
  function RemoveAll(s: string, pat: string): (r: string)
    requires pat != []
    ensures |r| <= |s|
    decreases |s|
  {
    if |s| < |pat| then s
    else if s[..|pat|] == pat then RemoveAll(s[|pat|..], pat)
    else [s[0]] + RemoveAll(s[1..], pat)
  }

  /** Deleting occurrences adds no character. */
  lemma {:induction false} RemoveAllKeeps(s: string, pat: string)
    requires pat != []
    ensures forall c :: c in RemoveAll(s, pat) ==> c in s
    decreases |s|
  {
    if |s| < |pat| {
    } else if s[..|pat|] == pat {
      RemoveAllKeeps(s[|pat|..], pat);
    } else {
      RemoveAllKeeps(s[1..], pat);
    }
  }

  /** Deleting a single character distributes over concatenation. */
  lemma {:induction false} RemoveCharAppend(a: string, b: string, c: char)
    ensures RemoveAll(a + b, [c]) == RemoveAll(a, [c]) + RemoveAll(b, [c])
    decreases |a|
  {
    if a != [] {
      assert (a + b)[..1] == a[..1] && (a + b)[1..] == a[1..] + b;
      RemoveCharAppend(a[1..], b, c);
    } else {
      assert a + b == b;
    }
  }

  /** After deleting a character it no longer occurs. */
  lemma {:induction false} RemoveCharGone(s: string, c: char)
    ensures c !in RemoveAll(s, [c])
    decreases |s|
  {
    if s != [] {
      RemoveCharGone(s[1..], c);
    }
  }

  /** Deleting a pattern whose first character does not occur changes nothing. */
  lemma {:induction false} RemoveAllAbsent(s: string, pat: string)
    requires pat != [] && pat[0] !in s
    ensures RemoveAll(s, pat) == s
    decreases |s|
  {
    if |s| >= |pat| {
      assert s[..|pat|] != pat by {
        assert s[0] in s;
      }
      RemoveAllAbsent(s[1..], pat);
      assert [s[0]] + s[1..] == s;
    }
  }

  /** Deleting a character that does not occur changes nothing. */
  lemma {:induction false} RemoveCharAbsent(s: string, c: char)
    requires c !in s
    ensures RemoveAll(s, [c]) == s
    decreases |s|
  {
    if s != [] {
      assert s[0] in s && s[..1] == [s[0]];
      RemoveCharAbsent(s[1..], c);
      assert [s[0]] + s[1..] == s;
    }
  }

  // ---------------------------------------------------------------------
  // Digits in text
  // ---------------------------------------------------------------------

  predicate HasDigit(s: string)
  {
    exists i | 0 <= i < |s| :: IsDigit(s[i])
  }

  predicate AllDigits(s: string)
  {
    forall i | 0 <= i < |s| :: IsDigit(s[i])
  }

  /** Index of the first digit of `s`, or `|s|` when there is none. */
  function FirstDigit(s: string): (k: nat)
    ensures k <= |s|
    ensures forall i :: 0 <= i < k ==> !IsDigit(s[i])
    ensures k < |s| <==> HasDigit(s)
    ensures k < |s| ==> IsDigit(s[k])
  {
    if s == [] || IsDigit(s[0]) then 0 else 1 + FirstDigit(s[1..])
  }

  /** Length of the run of digits that starts at position `i` of `s`. */
  function DigitRun(s: string, i: nat): (n: nat)
    requires i <= |s|
    ensures i + n <= |s|
    ensures i + n == |s| || !IsDigit(s[i + n])
    decreases |s| - i
  {
    if i < |s| && IsDigit(s[i]) then 1 + DigitRun(s, i + 1) else 0
  }

  /** The run `DigitRun` measures is all digits. */
  lemma {:induction false} DigitRunIsDigits(s: string, i: nat)
    requires i <= |s|
    ensures forall k :: i <= k < i + DigitRun(s, i) ==> IsDigit(s[k])
    decreases |s| - i
  {
    if i < |s| && IsDigit(s[i]) {
      DigitRunIsDigits(s, i + 1);
    }
  }

  /** Index of the first occurrence of `c` in `s`, or `|s|`. */
  function IndexOf(s: string, c: char): (k: nat)
    ensures k <= |s|
    ensures forall i :: 0 <= i < k ==> s[i] != c
    ensures k < |s| ==> s[k] == c
  {
    if s == [] || s[0] == c then 0 else 1 + IndexOf(s[1..], c)
  }

  /** `IndexOf` is at least `k` when no `c` comes before `k`. */
  lemma {:induction false} IndexOfPast(s: string, c: char, k: nat)
    requires k <= |s|
    requires forall i :: 0 <= i < k ==> s[i] != c
    ensures IndexOf(s, c) >= k
  {
    if k > 0 {
      IndexOfPast(s[1..], c, k - 1);
    }
  }

  /** `IndexOf` is `k` when `s[k]` is the first `c`. */
  lemma {:induction false} IndexOfAt(s: string, c: char, k: nat)
    requires k <= |s|
    requires forall i :: 0 <= i < k ==> s[i] != c
    requires k == |s| || s[k] == c
    ensures IndexOf(s, c) == k
  {
    if k > 0 {
      IndexOfAt(s[1..], c, k - 1);
    }
  }

  // ---------------------------------------------------------------------
  // Decimal values
  // ---------------------------------------------------------------------

  function DigitValue(c: char): nat
    requires IsDigit(c)
  {
    c as int - '0' as int
  }

  /** The value of a string of digits, most significant first. */
  function DigitsValue(s: string): nat
    requires AllDigits(s)
  {
    if s == [] then 0 else 10 * DigitsValue(s[..|s| - 1]) + DigitValue(s[|s| - 1])
  }

  /** The value of the digits after a decimal point: "25" is 0.25. */
  function FractionValue(s: string): (r: real)
    requires AllDigits(s)
    ensures 0.0 <= r < 1.0
  {
    if s == [] then 0.0 else (DigitValue(s[0]) as real + FractionValue(s[1..])) / 10.0
  }

  predicate IsInteger(x: real)
  {
    x.Floor as real == x
  }

  /**
   * `float(s)` on plain decimal text: digits with at most one '.', and at least
   * one digit ("12", "12.5", "12.", ".5"); anything else is the ValueError case.
   */
  function ParseDecimal(s: string): (r: Option<real>)
    ensures r.Some? ==> r.value >= 0.0
    ensures r.Some? && '.' !in s ==> IsInteger(r.value)
  {
    var k := IndexOf(s, '.');
    var intPart, fracPart := s[..k], if k < |s| then s[k + 1..] else [];
    if AllDigits(intPart) && AllDigits(fracPart) && |intPart| + |fracPart| > 0 then
      assert k == |s| ==> fracPart == [];
      Some(DigitsValue(intPart) as real + FractionValue(fracPart))
    else
      None
  }

  function DigitChar(d: nat): (c: char)
    requires d < 10
    ensures IsDigit(c) && DigitValue(c) == d
  {
    ('0' as int + d) as char
  }

  /** `str(n)` for a non-negative integer: decimal digits, no leading zero. */
  function NatToString(n: nat): (s: string)
    ensures |s| > 0 && AllDigits(s)
    ensures (s[0] == '0') == (n == 0)
  {
    if n < 10 then [DigitChar(n)] else NatToString(n / 10) + [DigitChar(n % 10)]
  }

  /** `int(str(n)) == n`. */
  lemma {:induction false} NatToStringRoundTrip(n: nat)
    ensures DigitsValue(NatToString(n)) == n
  {
    var s := NatToString(n);
    if n >= 10 {
      NatToStringRoundTrip(n / 10);
      assert s[..|s| - 1] == NatToString(n / 10);
    }
  }

  // ---------------------------------------------------------------------
  // round(x, 2)
  // ---------------------------------------------------------------------

  /** A whole number of hundredths. */
  predicate IsCents(x: real)
  {
    IsInteger(x * 100.0)
  }

  function Abs(x: real): real { if x < 0.0 then -x else x }

  function Max(x: real, y: real): real { if x >= y then x else y }

  /** The integer nearest to `y`, ties to the even one. */
  function RoundHalfEven(y: real): (n: int)
    ensures -0.5 <= n as real - y <= 0.5
    ensures IsInteger(y) ==> n as real == y
    ensures y >= 0.0 ==> n >= 0
  {
    var f := y.Floor;
    var d := y - f as real;
    if d < 0.5 then f else if d > 0.5 then f + 1 else if f % 2 == 0 then f else f + 1
  }

  /**
   * `round(x, 2)`: the nearest whole number of hundredths, ties to the even
   * neighbour, computed on the exact value of `x`.
   */
  function Round2(x: real): (r: real)
    ensures IsCents(r)
    ensures -0.005 <= r - x <= 0.005
    ensures IsCents(x) ==> r == x
    ensures x >= 0.0 ==> r >= 0.0
  {
    var n := RoundHalfEven(x * 100.0);
    assert (n as real / 100.0) * 100.0 == n as real;
    n as real / 100.0
  }
}
