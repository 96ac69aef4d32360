/**
 * The heuristic line-item extractor: per-page OCR text lines in, one page of
 * `(name, quantity, rate, amount)` items per input page out. A line is kept
 * when it is not blank, not a header/total line, holds a digit and is at least
 * five characters long; dates are cut out, decimal numbers are collected
 * (bare years dropped), quantity/rate/amount are chosen by a fixed cascade,
 * the result is sanity-checked and the name is cleaned.
 */
module LineItemExtractor {
  import opened Wrappers
  import opened Text
  import opened Schemas

  // ---------------------------------------------------------------------
  // Header, meta and total lines
  // ---------------------------------------------------------------------

  /** The keywords that mark a header, metadata or total line. */
  const HeaderKeywords: seq<string> :=
    ["invoice", "bill no", "bill number", "date:", "time:", "uhid", "ip no",
     "ward", "bed", "age", "sex", "doctor", "consultant", "total",
     "sub total", "subtotal", "grand total", "net amount", "amount in words"]

  /** The lower-cased line contains one of the keywords. */
  predicate IsHeaderOrMeta(line: string)
  {
    exists k | k in HeaderKeywords :: Contains(Lower(line), k)
  }

  /** The keywords that are not already implied by another one ("total" covers three). */
  const EssentialHeaderKeywords: seq<string> :=
    ["invoice", "bill no", "bill number", "date:", "time:", "uhid", "ip no",
     "ward", "bed", "age", "sex", "doctor", "consultant", "total",
     "net amount", "amount in words"]

  /**
   * "sub total", "subtotal" and "grand total" add nothing: a line is a header
   * line exactly when it contains one of the remaining keywords, so every line
   * mentioning "total" in any form is dropped.
   */
  lemma HeaderKeywordsReduce(line: string)
    ensures IsHeaderOrMeta(line) <==> exists k | k in EssentialHeaderKeywords :: Contains(Lower(line), k)
    ensures Contains(Lower(line), "total") ==> IsHeaderOrMeta(line)
  {
    var lower := Lower(line);
    assert OccursAt("sub total", "total", 4);
    assert OccursAt("subtotal", "total", 3);
    assert OccursAt("grand total", "total", 6);
    if IsHeaderOrMeta(line) {
      var k :| k in HeaderKeywords && Contains(lower, k);
      if k in ["sub total", "subtotal", "grand total"] {
        ContainsTransitive(lower, k, "total");
        assert "total" in EssentialHeaderKeywords;
      } else {
        assert k in EssentialHeaderKeywords;
      }
    }
    if exists k | k in EssentialHeaderKeywords :: Contains(lower, k) {
      var k :| k in EssentialHeaderKeywords && Contains(lower, k);
      assert k in HeaderKeywords;
    }
    assert "total" in HeaderKeywords;
  }

  /** Every keyword holds one of 'o', 'a', 'd', 'm' and 'x': a line whose lower case lacks them is no header line. */
  lemma NotHeaderWithoutLetters(line: string)
    requires forall i | 0 <= i < |Lower(line)| :: Lower(line)[i] !in {'o', 'a', 'd', 'm', 'x'}
    ensures !IsHeaderOrMeta(line)
  {
    var lower := Lower(line);
    NotContainsForeign(lower, "invoice", 'o');
    NotContainsForeign(lower, "bill no", 'o');
    NotContainsForeign(lower, "bill number", 'm');
    NotContainsForeign(lower, "date:", 'a');
    NotContainsForeign(lower, "time:", 'm');
    NotContainsForeign(lower, "uhid", 'd');
    NotContainsForeign(lower, "ip no", 'o');
    NotContainsForeign(lower, "ward", 'a');
    NotContainsForeign(lower, "bed", 'd');
    NotContainsForeign(lower, "age", 'a');
    NotContainsForeign(lower, "sex", 'x');
    NotContainsForeign(lower, "doctor", 'o');
    NotContainsForeign(lower, "consultant", 'o');
    NotContainsForeign(lower, "total", 'o');
    NotContainsForeign(lower, "sub total", 'o');
    NotContainsForeign(lower, "subtotal", 'o');
    NotContainsForeign(lower, "grand total", 'o');
    NotContainsForeign(lower, "net amount", 'o');
    NotContainsForeign(lower, "amount in words", 'o');
  }

  // ---------------------------------------------------------------------
  // Dates: re.sub(r"\b\d{1,2}[/.-]\d{1,2}[/.-]\d{2,4}\b", "", line)
  // ---------------------------------------------------------------------

  predicate IsDateSep(c: char) { c == '/' || c == '.' || c == '-' }

  /** `\b` at position `i`, given that `s[i]` is a digit. */
  predicate BoundaryBefore(s: string, i: nat)
    requires i <= |s|
  {
    i == 0 || !IsWordChar(s[i - 1])
  }

  /** `\b` at position `e`, given that `s[e - 1]` is a digit. */
  predicate BoundaryAfter(s: string, e: nat)
    requires e <= |s|
  {
    e == |s| || !IsWordChar(s[e])
  }

  predicate DigitsBetween(s: string, lo: nat, hi: nat)
    requires lo <= hi <= |s|
  {
    forall k | lo <= k < hi :: IsDigit(s[k])
  }

  /**
   * The date pattern matches at `i` with fields of `a`, `b` and `c` digits:
   * the match is `s[i..i + a + b + c + 2]`.
   */
  ghost predicate DateShape(s: string, i: nat, a: nat, b: nat, c: nat)
  {
    && 1 <= a <= 2 && 1 <= b <= 2 && 2 <= c <= 4
    && i + a + b + c + 2 <= |s|
    && BoundaryBefore(s, i)
    && DigitsBetween(s, i, i + a)
    && IsDateSep(s[i + a])
    && DigitsBetween(s, i + a + 1, i + a + 1 + b)
    && IsDateSep(s[i + a + 1 + b])
    && DigitsBetween(s, i + a + b + 2, i + a + b + 2 + c)
    && BoundaryAfter(s, i + a + b + c + 2)
  }

  /** The length of the date that the pattern matches at `i`, if any. */
  function DateAt(s: string, i: nat): (r: Option<nat>)
    requires i <= |s|
    ensures r.Some? ==> 6 <= r.value && i + r.value <= |s|
  {
    if !BoundaryBefore(s, i) then None
    else
      var a := DigitRun(s, i);
      if !(1 <= a <= 2 && i + a < |s| && IsDateSep(s[i + a])) then None
      else
        var j := i + a + 1;
        var b := DigitRun(s, j);
        if !(1 <= b <= 2 && j + b < |s| && IsDateSep(s[j + b])) then None
        else
          var m := j + b + 1;
          var c := DigitRun(s, m);
          if !(2 <= c <= 4 && BoundaryAfter(s, m + c)) then None
          else Some(m + c - i)
  }

  /** A run of digits followed by a non-digit is exactly what `DigitRun` measures. */
  lemma {:induction false} DigitRunExact(s: string, i: nat, n: nat)
    requires i + n <= |s|
    requires DigitsBetween(s, i, i + n)
    requires i + n == |s| || !IsDigit(s[i + n])
    ensures DigitRun(s, i) == n
    decreases n
  {
    if n > 0 {
      DigitRunExact(s, i + 1, n - 1);
    }
  }

  /** Every match `DateAt` reports is a match of the pattern. */
  lemma DateAtSound(s: string, i: nat)
    requires i <= |s| && DateAt(s, i).Some?
    ensures exists a: nat, b: nat, c: nat :: DateShape(s, i, a, b, c) && DateAt(s, i).value == a + b + c + 2
  {
    var a := DigitRun(s, i);
    var b := DigitRun(s, i + a + 1);
    var c := DigitRun(s, i + a + b + 2);
    DigitRunIsDigits(s, i);
    DigitRunIsDigits(s, i + a + 1);
    DigitRunIsDigits(s, i + a + b + 2);
    assert DateShape(s, i, a, b, c);
  }

  /**
   * Every match of the pattern is the one `DateAt` reports. So the match at a
   * position is unique: whichever way the regular expression backtracks over
   * `{1,2}`, `{1,2}` and `{2,4}`, only one split of the digits can succeed.
   */
  lemma DateAtComplete(s: string, i: nat, a: nat, b: nat, c: nat)
    requires DateShape(s, i, a, b, c)
    ensures DateAt(s, i) == Some(a + b + c + 2)
  {
    DigitRunExact(s, i, a);
    DigitRunExact(s, i + a + 1, b);
    assert i + a + b + c + 2 == |s| || !IsDigit(s[i + a + b + c + 2]);
    DigitRunExact(s, i + a + b + 2, c);
    DateAtOfRuns(s, i, a, b, c);
  }

  /** `DateAt` once the three digit runs are known. */
  lemma DateAtOfRuns(s: string, i: nat, a: nat, b: nat, c: nat)
    requires 1 <= a <= 2 && 1 <= b <= 2 && 2 <= c <= 4
    requires i + a + b + c + 2 <= |s| && BoundaryBefore(s, i)
    requires DigitRun(s, i) == a && IsDateSep(s[i + a])
    requires DigitRun(s, i + a + 1) == b && IsDateSep(s[i + a + 1 + b])
    requires DigitRun(s, i + a + b + 2) == c && BoundaryAfter(s, i + a + b + c + 2)
    ensures DateAt(s, i) == Some(a + b + c + 2)
  {
  }

  /** `re.sub` of the date pattern by "", scanning from position `i`. */
  function RemoveDatesFrom(s: string, i: nat): string
    requires i <= |s|
    decreases |s| - i
  {
    if i == |s| then []
    else
      match DateAt(s, i)
      case Some(n) => RemoveDatesFrom(s, i + n)
      case None => [s[i]] + RemoveDatesFrom(s, i + 1)
  }

  function RemoveDates(line: string): string
  {
    RemoveDatesFrom(line, 0)
  }

  /** A date needs two separators, so text with at most one ('.', '/' or '-') keeps all of itself. */
  lemma {:induction false} NoDatesWithOneSeparator(s: string, i: nat, sep: nat)
    requires i <= |s|
    requires forall p | 0 <= p < |s| && IsDateSep(s[p]) :: p == sep
    ensures RemoveDatesFrom(s, i) == s[i..]
    decreases |s| - i
  {
    if i < |s| {
      assert DateAt(s, i) == None;
      NoDatesWithOneSeparator(s, i + 1, sep);
      assert [s[i]] + s[i + 1..] == s[i..];
    }
  }

  // ---------------------------------------------------------------------
  // Numbers: re.findall(r"\d+(?:\.\d+)?", text)
  // ---------------------------------------------------------------------

  /** Decimal text as the number pattern matches it: digits, optionally '.' and digits. */
  predicate IsNumberText(t: string)
  {
    var k := IndexOf(t, '.');
    0 < k && AllDigits(t[..k]) && (k == |t| || (k + 1 < |t| && AllDigits(t[k + 1..])))
  }

  /** Where the number that starts at `i` ends: the digits, then '.' and digits if there are any. */
  function NumberEnd(s: string, i: nat): (e: nat)
    requires i < |s| && IsDigit(s[i])
    ensures i < e <= |s|
    ensures IsNumberText(s[i..e])
    ensures e == |s| || !IsDigit(s[e])
  {
    var a := DigitRun(s, i);
    var e := if i + a < |s| && s[i + a] == '.' && DigitRun(s, i + a + 1) > 0
      then i + a + 1 + DigitRun(s, i + a + 1) else i + a;
    DigitRunIsDigits(s, i);
    assert e > i + a ==> DigitsBetween(s, i + a + 1, e) by {
      if e > i + a {
        DigitRunIsDigits(s, i + a + 1);
      }
    }
    NumberSpan(s, i, a, e);
    e
  }

  /** Digits, then optionally '.' and more digits, is number text. */
  lemma NumberSpan(s: string, i: nat, a: nat, e: nat)
    requires 0 < a && i + a <= e <= |s| && DigitsBetween(s, i, i + a)
    requires e == i + a || (s[i + a] == '.' && i + a + 1 < e && DigitsBetween(s, i + a + 1, e))
    ensures IsNumberText(s[i..e])
  {
    var t := s[i..e];
    assert IndexOf(t, '.') == a by {
      forall k | 0 <= k < a
        ensures t[k] != '.'
      {
        assert t[k] == s[i + k];
      }
      IndexOfAt(t, '.', a);
    }
    assert t[..a] == s[i..i + a];
    assert e > i + a ==> t[a + 1..] == s[i + a + 1..e];
  }

  /** No longer text starting at `i` is number text, so `NumberEnd` is the greedy match. */
  lemma NumberIsLongest(s: string, i: nat, j: nat)
    requires i < |s| && IsDigit(s[i])
    requires NumberEnd(s, i) < j <= |s|
    ensures !IsNumberText(s[i..j])
  {
    var g := i + DigitRun(s, i);
    DigitRunIsDigits(s, i);
    if s[g] != '.' {
      // the digits stopped at a character that is neither a digit nor '.'
      NotNumberAtStop(s, i, j, g);
    } else {
      // the decimal digits, if any, stop before `j`
      DigitRunIsDigits(s, g + 1);
      NotNumberAtPoint(s, i, j, g, DigitRun(s, g + 1));
    }
  }

  /** Number text has nothing but digits before its '.'. */
  lemma NotNumberAtStop(s: string, i: nat, j: nat, m: nat)
    requires i <= m < j <= |s| && !IsDigit(s[m]) && s[m] != '.'
    requires DigitsBetween(s, i, m)
    ensures !IsNumberText(s[i..j])
  {
    var t := s[i..j];
    forall q | 0 <= q < m - i
      ensures t[q] != '.'
    {
      assert t[q] == s[i + q];
    }
    IndexOfPast(t, '.', m - i + 1);
    assert t[m - i] == s[m];
  }

  /** The '.' of number text is followed by digits up to its end. */
  lemma NotNumberAtPoint(s: string, i: nat, j: nat, m: nat, d: nat)
    requires i <= m && m + 1 + d <= j <= |s| && s[m] == '.'
    requires DigitsBetween(s, i, m)
    requires DigitsBetween(s, m + 1, m + 1 + d)
    requires if m + 1 + d == j then d == 0 else !IsDigit(s[m + 1 + d])
    ensures !IsNumberText(s[i..j])
  {
    var t := s[i..j];
    forall q | 0 <= q < m - i
      ensures t[q] != '.'
    {
      assert t[q] == s[i + q];
    }
    IndexOfAt(t, '.', m - i);
    if m + 1 + d < j {
      assert t[m - i + 1..][d] == s[m + 1 + d];
    }
  }

  /** The number tokens of `s[i..]`, left to right, non-overlapping. */
  function NumberTokensFrom(s: string, i: nat): (r: seq<string>)
    requires i <= |s|
    ensures forall t | t in r :: IsNumberText(t)
    decreases |s| - i
  {
    if i == |s| then []
    else if IsDigit(s[i]) then [s[i..NumberEnd(s, i)]] + NumberTokensFrom(s, NumberEnd(s, i))
    else NumberTokensFrom(s, i + 1)
  }

  function NumberTokens(s: string): (r: seq<string>)
    ensures forall t | t in r :: IsNumberText(t)
  {
    NumberTokensFrom(s, 0)
  }

  /** Text without digits yields no token. */
  lemma {:induction false} TokensSkip(s: string, i: nat, j: nat)
    requires i <= j <= |s|
    requires forall k | i <= k < j :: !IsDigit(s[k])
    ensures NumberTokensFrom(s, i) == NumberTokensFrom(s, j)
    decreases j - i
  {
    if i < j {
      TokensSkip(s, i + 1, j);
    }
  }

  /** A digit starts the token `s[i..NumberEnd(s, i)]`, and the scan goes on after it. */
  lemma TokenStep(s: string, i: nat, e: nat)
    requires i < |s| && IsDigit(s[i]) && NumberEnd(s, i) == e
    ensures NumberTokensFrom(s, i) == [s[i..e]] + NumberTokensFrom(s, e)
  {
  }

  /** Digits not followed by '.' and a digit make a token of their own. */
  lemma NumberEndOfInteger(s: string, i: nat, a: nat)
    requires 0 < a && i + a <= |s| && DigitsBetween(s, i, i + a)
    requires i + a == |s| || !IsDigit(s[i + a])
    requires i + a + 1 < |s| && s[i + a] == '.' ==> !IsDigit(s[i + a + 1])
    ensures NumberEnd(s, i) == i + a
  {
    DigitRunExact(s, i, a);
  }

  /** Where a token lies in the text: `s[start..end]`. */
  datatype Span = Span(start: nat, end: nat)

  /** The positions of the tokens of `NumberTokensFrom(s, i)`. */
  function NumberSpansFrom(s: string, i: nat): (r: seq<Span>)
    requires i <= |s|
    ensures forall k | 0 <= k < |r| :: i <= r[k].start < r[k].end <= |s|
    decreases |s| - i
  {
    if i == |s| then []
    else if IsDigit(s[i]) then [Span(i, NumberEnd(s, i))] + NumberSpansFrom(s, NumberEnd(s, i))
    else NumberSpansFrom(s, i + 1)
  }

  /** The token `t` is the text at `x`, the greedy match that starts at a digit. */
  predicate TokenAt(s: string, x: Span, t: string)
  {
    && x.start < x.end <= |s|
    && IsDigit(s[x.start])
    && x.end == NumberEnd(s, x.start)
    && t == s[x.start..x.end]
  }

  /** Each token is the text of its span, and each span is the greedy match that starts at a digit. */
  lemma {:induction false} TokensAtSpans(s: string, i: nat)
    requires i <= |s|
    ensures var r, sp := NumberTokensFrom(s, i), NumberSpansFrom(s, i);
      |r| == |sp| && forall k | 0 <= k < |r| :: TokenAt(s, sp[k], r[k])
    decreases |s| - i
  {
    if i < |s| {
      if IsDigit(s[i]) {
        var e := NumberEnd(s, i);
        TokensAtSpans(s, e);
        TokenAtCons(s, Span(i, e), s[i..e], NumberSpansFrom(s, e), NumberTokensFrom(s, e));
      } else {
        TokensAtSpans(s, i + 1);
      }
    }
  }

  lemma TokenAtCons(s: string, x: Span, t: string, sp: seq<Span>, r: seq<string>)
    requires TokenAt(s, x, t)
    requires |r| == |sp| && forall k | 0 <= k < |r| :: TokenAt(s, sp[k], r[k])
    ensures var r', sp' := [t] + r, [x] + sp;
      |r'| == |sp'| && forall k | 0 <= k < |r'| :: TokenAt(s, sp'[k], r'[k])
  {
    var r', sp' := [t] + r, [x] + sp;
    forall k | 0 <= k < |r'|
      ensures TokenAt(s, sp'[k], r'[k])
    {
      if k > 0 {
        assert sp'[k] == sp[k - 1] && r'[k] == r[k - 1];
      }
    }
  }

  /** Each span ends before the next one starts. */
  predicate Ordered(sp: seq<Span>)
  {
    forall k | 0 <= k < |sp| - 1 :: sp[k].end <= sp[k + 1].start
  }

  lemma OrderedCons(x: Span, rest: seq<Span>)
    requires Ordered(rest) && (rest != [] ==> x.end <= rest[0].start)
    ensures Ordered([x] + rest)
  {
    var sp := [x] + rest;
    forall k | 0 <= k < |sp| - 1
      ensures sp[k].end <= sp[k + 1].start
    {
      if k > 0 {
        assert sp[k] == rest[k - 1] && sp[k + 1] == rest[k];
      }
    }
  }

  /** The tokens come in text order and do not overlap. */
  lemma {:induction false} SpansOrdered(s: string, i: nat)
    requires i <= |s|
    ensures Ordered(NumberSpansFrom(s, i))
    decreases |s| - i
  {
    if i < |s| {
      if IsDigit(s[i]) {
        var e := NumberEnd(s, i);
        SpansOrdered(s, e);
        var rest := NumberSpansFrom(s, e);
        assert rest != [] ==> e <= rest[0].start;
        OrderedCons(Span(i, e), rest);
      } else {
        SpansOrdered(s, i + 1);
      }
    }
  }

  /** Every digit of `s[i..]` lies inside one of the tokens. */
  lemma {:induction false} SpansCoverDigits(s: string, i: nat, p: nat)
    requires i <= p < |s| && IsDigit(s[p])
    ensures exists x | x in NumberSpansFrom(s, i) :: x.start <= p < x.end
    decreases |s| - i
  {
    if IsDigit(s[i]) {
      var e := NumberEnd(s, i);
      var x := Span(i, e);
      var rest := NumberSpansFrom(s, e);
      assert NumberSpansFrom(s, i) == [x] + rest;
      if e <= p {
        SpansCoverDigits(s, e, p);
        var x' :| x' in rest && x'.start <= p < x'.end;
        assert x' in [x] + rest;
      } else {
        assert x in [x] + rest;
      }
    } else {
      SpansCoverDigits(s, i + 1, p);
    }
  }

  /** `float` never fails on a token of the number pattern. */
  lemma NumberTextParses(t: string)
    requires IsNumberText(t)
    ensures ParseDecimal(t).Some?
    ensures '.' !in t ==> ParseDecimal(t).value == DigitsValue(t) as real
  {
    var k := IndexOf(t, '.');
    if '.' !in t {
      assert k == |t|;
      assert t[..k] == t;
    }
  }

  // ---------------------------------------------------------------------
  // The year filter
  // ---------------------------------------------------------------------

  /** A token the filter drops as a likely year: an integer in [1900, 2100] written without '.'. */
  predicate IsBareYear(x: string, val: real)
  {
    1900.0 <= val <= 2100.0 && IsInteger(val) && '.' !in x
  }

  /** The values of the tokens that survive the year filter, in token order. */
  function KeptValues(raw: seq<string>): (r: seq<real>)
    ensures |r| <= |raw|
    ensures forall v | v in r :: v >= 0.0
  {
    if raw == [] then []
    else
      var kept := KeptValues(raw[..|raw| - 1]);
      var x := raw[|raw| - 1];
      match ParseDecimal(x)
      case None => kept
      case Some(val) => if IsBareYear(x, val) then kept else kept + [val]
  }

  /** The filter works token by token: it distributes over concatenation. */
  lemma {:induction false} KeptValuesAppend(a: seq<string>, b: seq<string>)
    ensures KeptValues(a + b) == KeptValues(a) + KeptValues(b)
    decreases |b|
  {
    if b == [] {
      assert a + b == a;
    } else {
      assert (a + b)[..|a + b| - 1] == a + b[..|b| - 1];
      KeptValuesAppend(a, b[..|b| - 1]);
    }
  }

  /** A bare year among the tokens contributes nothing. */
  lemma BareYearDropped(a: seq<string>, x: string, b: seq<string>)
    requires IsNumberText(x) && '.' !in x
    requires 1900 <= DigitsValue(x) <= 2100
    ensures KeptValues(a + [x] + b) == KeptValues(a) + KeptValues(b)
  {
    NumberTextParses(x);
    KeptValuesAppend(a + [x], b);
    KeptValuesAppend(a, [x]);
    assert [x][..0] == [];
  }

  /** Any other token contributes its value, in its place. */
  lemma OtherTokenKept(a: seq<string>, x: string, b: seq<string>)
    requires IsNumberText(x)
    requires '.' in x || DigitsValue(x) < 1900 || DigitsValue(x) > 2100
    ensures KeptValues(a + [x] + b) == KeptValues(a) + [ParseDecimal(x).value] + KeptValues(b)
  {
    NumberTextParses(x);
    KeptValuesAppend(a + [x], b);
    KeptValuesAppend(a, [x]);
    assert [x][..0] == [];
  }

  /** The loop of lines 51-59: `float` each token, skip bare years, collect the rest. */
  method FilterYears(raw: seq<string>) returns (numbers: seq<real>)
    ensures numbers == KeptValues(raw)
  {
    numbers := [];
    for i := 0 to |raw|
      invariant numbers == KeptValues(raw[..i])
    {
      assert raw[..i + 1][..i] == raw[..i];
      var x := raw[i];
      match ParseDecimal(x)
      case None =>
      case Some(val) =>
        if !IsBareYear(x, val) {
          numbers := numbers + [val];
        }
    }
    assert raw[..|raw|] == raw;
  }

  /** The numbers a line offers once its dates are removed. */
  function LineNumbers(line: string): seq<real>
  {
    KeptValues(NumberTokens(RemoveDates(line)))
  }

  // ---------------------------------------------------------------------
  // Quantity, rate and amount
  // ---------------------------------------------------------------------

  /** The tolerance of the product test: one unit or 5% of the amount. */
  function Tolerance(amount: real): real
  {
    Max(1.0, 0.05 * amount)
  }

  /** `abs(x * y - amount) < max(1.0, 0.05 * amount)`. */
  predicate NearProduct(x: real, y: real, amount: real)
  {
    Abs(x * y - amount) < Tolerance(amount)
  }

  /** Which step of the cascade fixed the three values. */
  datatype Rule =
    | SingleNumber      // one number: it is rate and amount
    | QtyRateProduct    // third-last * second-last matches the last
    | RateQtyProduct    // second-last * third-last matches the last
    | SmallQtyOfThree   // no match; the third-last is an integer <= 100
    | SmallQtyOfTwo     // two numbers; the first is an integer <= 50
    | RateEqualsAmount  // two numbers within 0.1 of each other
    | AmountOnly        // nothing else applied: quantity 1, rate = amount

  datatype Resolution = Resolution(quantity: real, rate: real, amount: real, rule: Rule)

  /** The decision table of lines 65-139, in its order. */
  function Resolve(numbers: seq<real>): Resolution
    requires |numbers| >= 1
  {
    var n := |numbers|;
    if n == 1 then Resolution(1.0, numbers[0], numbers[0], SingleNumber)
    else
      var amount, cand2 := numbers[n - 1], numbers[n - 2];
      if n >= 3 && NearProduct(numbers[n - 3], cand2, amount) then
        Resolution(numbers[n - 3], cand2, amount, QtyRateProduct)
      else if n >= 3 && NearProduct(cand2, numbers[n - 3], amount) then
        Resolution(cand2, numbers[n - 3], amount, RateQtyProduct)
      else if n >= 3 then
        var cand3 := numbers[n - 3];
        if cand3 <= 100.0 && IsInteger(cand3) then
          Resolution(cand3, if cand3 > 0.0 then amount / cand3 else amount, amount, SmallQtyOfThree)
        else
          Resolution(1.0, amount, amount, AmountOnly)
      else if cand2 <= 50.0 && IsInteger(cand2) then
        Resolution(cand2, if cand2 > 0.0 then amount / cand2 else amount, amount, SmallQtyOfTwo)
      else if Abs(cand2 - amount) < 0.1 then
        Resolution(1.0, cand2, amount, RateEqualsAmount)
      else
        Resolution(1.0, amount, amount, AmountOnly)
  }

  /** The amount is always the last number, and a single number is rate and amount at quantity 1. */
  lemma AmountIsLastNumber(numbers: seq<real>)
    requires |numbers| >= 1
    ensures Resolve(numbers).amount == numbers[|numbers| - 1]
    ensures |numbers| == 1 ==> Resolve(numbers) == Resolution(1.0, numbers[0], numbers[0], SingleNumber)
  {
  }

  /**
   * The second ordering of lines 95-99 never fires: it tests the same product
   * as the first, so whenever it would match, the first already has.
   */
  lemma SecondOrderingUnreachable(numbers: seq<real>)
    requires |numbers| >= 1
    ensures Resolve(numbers).rule != RateQtyProduct
  {
    var n := |numbers|;
    if n >= 3 {
      assert numbers[n - 2] * numbers[n - 3] == numbers[n - 3] * numbers[n - 2];
    }
  }

  /** With three or more numbers whose last three multiply out, they are quantity, rate and amount. */
  lemma ProductMatchWins(numbers: seq<real>)
    requires |numbers| >= 3
    requires NearProduct(numbers[|numbers| - 3], numbers[|numbers| - 2], numbers[|numbers| - 1])
    ensures Resolve(numbers) ==
      Resolution(numbers[|numbers| - 3], numbers[|numbers| - 2], numbers[|numbers| - 1], QtyRateProduct)
  {
  }

  /** The fallback order of lines 101-139 when no product matches. */
  lemma FallbackOrder(numbers: seq<real>)
    requires |numbers| >= 2
    requires |numbers| >= 3 ==> !NearProduct(numbers[|numbers| - 3], numbers[|numbers| - 2], numbers[|numbers| - 1])
    ensures var n, r := |numbers|, Resolve(numbers);
      var amount, cand2 := numbers[n - 1], numbers[n - 2];
      && r.amount == amount
      && (n >= 3 && numbers[n - 3] <= 100.0 && IsInteger(numbers[n - 3]) ==>
            r.quantity == numbers[n - 3] && r.rule == SmallQtyOfThree)
      && (n >= 3 && !(numbers[n - 3] <= 100.0 && IsInteger(numbers[n - 3])) ==>
            r.quantity == 1.0 && r.rate == amount && r.rule == AmountOnly)
      && (n == 2 && cand2 <= 50.0 && IsInteger(cand2) ==>
            r.quantity == cand2 && r.rule == SmallQtyOfTwo)
      && (n == 2 && !(cand2 <= 50.0 && IsInteger(cand2)) && Abs(cand2 - amount) < 0.1 ==>
            r.quantity == 1.0 && r.rate == cand2 && r.rule == RateEqualsAmount)
      && (n == 2 && !(cand2 <= 50.0 && IsInteger(cand2)) && !(Abs(cand2 - amount) < 0.1) ==>
            r.quantity == 1.0 && r.rate == amount && r.rule == AmountOnly)
  {
    SecondOrderingUnreachable(numbers);
  }

  /** What each rule says about the three values it fixes. */
  predicate RuleHolds(r: Resolution)
  {
    match r.rule
    case SingleNumber => r.quantity == 1.0 && r.rate == r.amount
    case QtyRateProduct => NearProduct(r.quantity, r.rate, r.amount)
    case RateQtyProduct => NearProduct(r.quantity, r.rate, r.amount)
    case SmallQtyOfThree =>
      IsInteger(r.quantity) && r.quantity <= 100.0 &&
      r.rate == if r.quantity > 0.0 then r.amount / r.quantity else r.amount
    case SmallQtyOfTwo =>
      IsInteger(r.quantity) && r.quantity <= 50.0 &&
      r.rate == if r.quantity > 0.0 then r.amount / r.quantity else r.amount
    case RateEqualsAmount => r.quantity == 1.0 && Abs(r.rate - r.amount) < 0.1
    case AmountOnly => r.quantity == 1.0 && r.rate == r.amount
  }

  /** The rule the cascade reports is one whose condition the three values meet. */
  lemma ResolveRuleHolds(numbers: seq<real>)
    requires |numbers| >= 1
    ensures RuleHolds(Resolve(numbers))
  {
  }

  lemma QuotientTimes(a: real, q: real)
    requires q > 0.0
    ensures NearProduct(q, a / q, a)
  {
    assert q * (a / q) == a;
  }

  /** Under every rule, a positive quantity times the rate is the amount within the product tolerance. */
  lemma RuleWithinTolerance(r: Resolution)
    requires RuleHolds(r) && r.quantity > 0.0
    ensures NearProduct(r.quantity, r.rate, r.amount)
  {
    match r.rule
    case SingleNumber => ExactProduct(1.0, r.rate, r.amount);
    case QtyRateProduct =>
    case RateQtyProduct =>
    case SmallQtyOfThree => QuotientTimes(r.amount, r.quantity);
    case SmallQtyOfTwo => QuotientTimes(r.amount, r.quantity);
    case RateEqualsAmount => NearOne(r.rate, r.amount);
    case AmountOnly => ExactProduct(1.0, r.rate, r.amount);
  }

  lemma ExactProduct(q: real, rate: real, amount: real)
    requires q * rate == amount
    ensures NearProduct(q, rate, amount)
  {
  }

  lemma NearOne(rate: real, amount: real)
    requires Abs(rate - amount) < 0.1
    ensures NearProduct(1.0, rate, amount)
  {
    assert 1.0 * rate == rate;
  }

  // ---------------------------------------------------------------------
  // The item name
  // ---------------------------------------------------------------------

  /** The characters of `name.strip(" :-\t|")`. */
  const NameTrim: set<char> := {' ', ':', '-', '\t', '|'}

  /**
   * `re.sub(r"^\d+\s*[\.\-\)]?\s*", "", s)`: a leading serial number, the
   * spaces after it, one '.', '-' or ')' and the spaces after that. Every
   * part after the digits may be empty, so the greedy match is the match.
   */
  function StripSerial(s: string): (r: string)
    ensures |r| <= |s| && r == s[|s| - |r|..]
    ensures s == [] || !IsDigit(s[0]) ==> r == s
  {
    if s == [] || !IsDigit(s[0]) then s
    else
      var i := DigitRun(s, 0);
      var j := i + RunOf(s, i, Whitespace);
      var k := if j < |s| && s[j] in {'.', '-', ')'} then j + 1 else j;
      s[k + RunOf(s, k, Whitespace)..]
  }

  /** Lines 156-163 on the text before the first number. */
  function CleanName(prefix: string): string
  {
    Strip(RemoveAll(RemoveAll(StripSerial(StripChars(prefix, NameTrim)), "$G"), "RR"))
  }

  /**
   * The name as lines 150-163 compute it: the text up to the first digit of
   * the line, cleaned. The serial-number strip comes after the cut, so it
   * never sees a digit.
   */
  function ItemNameAsWritten(line: string): string
  {
    CleanName(line[..FirstDigit(line)])
  }

  /**
   * The name with the serial number stripped before the cut, which is what
   * the serial-number strip is for: a leading serial number no longer ends
   * the name before it starts.
   */
  function ItemName(line: string): string
  {
    var t := StripSerial(TrimLeft(line, NameTrim));
    CleanName(t[..FirstDigit(t)])
  }

  /** Cleaning text that has no digit leaves it without a digit; the serial strip does nothing. */
  lemma CleanNameOfDigitFree(prefix: string)
    requires !HasDigit(prefix)
    ensures StripSerial(StripChars(prefix, NameTrim)) == StripChars(prefix, NameTrim)
    ensures !HasDigit(CleanName(prefix))
  {
    var n1 := StripChars(prefix, NameTrim);
    StripCharsKeeps(prefix, NameTrim);
    assert n1 != [] ==> n1[0] in prefix;
    var n2 := RemoveAll(n1, "$G");
    var n3 := RemoveAll(n2, "RR");
    RemoveAllKeeps(n1, "$G");
    RemoveAllKeeps(n2, "RR");
    var r := Strip(n3);
    StripCharsKeeps(n3, Whitespace);
    forall i | 0 <= i < |r|
      ensures !IsDigit(r[i])
    {
      assert r[i] in n3;
      assert r[i] in n2;
      assert r[i] in prefix;
    }
  }

  /** The text before the first digit has no digit. */
  lemma PrefixBeforeDigitIsDigitFree(s: string)
    ensures !HasDigit(s[..FirstDigit(s)])
  {
  }

  /**
   * As written, the serial-number strip of line 160 never changes the name,
   * and no name holds a digit.
   */
  lemma SerialStripNeverApplies(line: string)
    ensures var prefix := line[..FirstDigit(line)];
      StripSerial(StripChars(prefix, NameTrim)) == StripChars(prefix, NameTrim)
    ensures !HasDigit(ItemNameAsWritten(line))
  {
    PrefixBeforeDigitIsDigitFree(line);
    CleanNameOfDigitFree(line[..FirstDigit(line)]);
  }

  /** The corrected name holds no digit either. */
  lemma ItemNameDigitFree(line: string)
    ensures !HasDigit(ItemName(line))
  {
    var t := StripSerial(TrimLeft(line, NameTrim));
    PrefixBeforeDigitIsDigitFree(t);
    CleanNameOfDigitFree(t[..FirstDigit(t)]);
  }

  /** A bill line that starts with its serial number. */
  const SerialExample := "12. Syringe 3 20 60"

  /** A line that starts with a serial number gets an empty name, so lines 165-166 drop it. */
  lemma LeadingSerialLosesName()
    ensures ItemNameAsWritten(SerialExample) == ""
  {
    assert FirstDigit(SerialExample) == 0;
  }

  lemma PrefixSplit(s: string, n: nat, k: nat)
    requires n + k <= |s|
    ensures s[..n + k] == s[..n] + s[n..][..k]
  {
  }

  lemma NameTrimHasNoDigit(c: char)
    requires c in NameTrim
    ensures !IsDigit(c)
  {
  }

  /** Characters of `cs` in front of `x` make no difference to `lstrip`. */
  lemma {:induction false} TrimLeftSkipsPrefix(p: string, x: string, cs: set<char>)
    requires forall i :: 0 <= i < |p| ==> p[i] in cs
    ensures TrimLeft(p + x, cs) == TrimLeft(x, cs)
  {
    if p == [] {
      assert p + x == x;
    } else {
      assert (p + x)[0] == p[0];
      assert (p + x)[1..] == p[1..] + x;
      TrimLeftSkipsPrefix(p[1..], x, cs);
    }
  }

  /** Skipping digit-free text in front moves the first digit by its length. */
  lemma {:induction false} FirstDigitAfter(s: string, n: nat)
    requires n <= |s|
    requires forall i :: 0 <= i < n ==> !IsDigit(s[i])
    ensures FirstDigit(s) == n + FirstDigit(s[n..])
  {
    if n > 0 {
      FirstDigitAfter(s[1..], n - 1);
      assert s[1..][n - 1..] == s[n..];
    }
  }

  /**
   * The correction changes nothing for a line that does not start with a
   * serial number: there the corrected name is the name the code computes.
   */
  lemma ItemNameAgreesWithoutSerial(line: string)
    requires var t := TrimLeft(line, NameTrim); t == [] || !IsDigit(t[0])
    ensures ItemName(line) == ItemNameAsWritten(line)
  {
    var t := TrimLeft(line, NameTrim);
    var p := TrimmedPrefix(line);
    var y := t[..FirstDigit(t)];
    assert ItemName(line) == CleanName(y) by {
      assert StripSerial(t) == t;
    }
    assert line[..FirstDigit(line)] == p + y by {
      FirstDigitPastTrim(line);
    }
    assert CleanName(p + y) == CleanName(y) by {
      TrimLeftSkipsPrefix(p, y, NameTrim);
    }
  }

  /** What `lstrip(" :-\t|")` removes from the front of `line`. */
  function TrimmedPrefix(line: string): (p: string)
    ensures line == p + TrimLeft(line, NameTrim)
    ensures forall i :: 0 <= i < |p| ==> p[i] in NameTrim
  {
    line[..|line| - |TrimLeft(line, NameTrim)|]
  }

  /** The first digit of a line lies past its leading `" :-\t|"` characters. */
  lemma FirstDigitPastTrim(line: string)
    ensures var t := TrimLeft(line, NameTrim);
      line[..FirstDigit(line)] == TrimmedPrefix(line) + t[..FirstDigit(t)]
  {
    var t := TrimLeft(line, NameTrim);
    var p := TrimmedPrefix(line);
    var n := |p|;
    forall i | 0 <= i < n
      ensures !IsDigit(line[i])
    {
      assert line[i] == p[i];
      NameTrimHasNoDigit(line[i]);
    }
    FirstDigitAfter(line, n);
    assert line[n..] == t;
    PrefixSplit(line, n, FirstDigit(t));
  }

  /**
   * With the correction, a line made of a serial number, one of '.', '-' or
   * ')', a space and the rest gets the name the code gives the rest alone.
   */
  lemma ItemNameSkipsSerial(serial: string, sep: char, rest: string)
    requires serial != [] && AllDigits(serial)
    requires sep in {'.', '-', ')'}
    requires rest == [] || (rest[0] !in Whitespace && !IsDigit(rest[0]))
    ensures ItemName(serial + [sep, ' '] + rest) == ItemNameAsWritten(rest)
  {
    var line := serial + [sep, ' '] + rest;
    var t := TrimLeft(line, NameTrim);
    assert t == line by {
      assert line[0] == serial[0] && IsDigit(serial[0]);
      assert line[0] !in NameTrim;
    }
    assert StripSerial(t) == rest by {
      StripSerialOfSerialLine(serial, sep, rest);
    }
    ItemNameIsWrittenAfterSerial(line);
  }

  /** The corrected name is the name the code gives to the line once its serial is stripped. */
  lemma ItemNameIsWrittenAfterSerial(line: string)
    ensures ItemName(line) == ItemNameAsWritten(StripSerial(TrimLeft(line, NameTrim)))
  {
  }

  lemma SeparatorIsNotSpace(c: char)
    requires c in {'.', '-', ')'}
    ensures c !in Whitespace
  {
  }

  /** The serial-number pattern removes the serial, the separator and the space. */
  lemma StripSerialOfSerialLine(serial: string, sep: char, rest: string)
    requires serial != [] && AllDigits(serial)
    requires sep in {'.', '-', ')'}
    requires rest == [] || (rest[0] !in Whitespace && !IsDigit(rest[0]))
    ensures StripSerial(serial + [sep, ' '] + rest) == rest
  {
    var line := serial + [sep, ' '] + rest;
    var m := |serial|;
    assert DigitsBetween(line, 0, m) && line[m] == sep && line[m + 1] == ' ' by {
      assert forall k | 0 <= k < m :: line[k] == serial[k];
    }
    assert m + 2 == |line| || (line[m + 2] !in Whitespace) by {
      assert m + 2 == |line| || line[m + 2] == rest[0];
    }
    StripSerialAt(line, m);
    assert line[m + 2..] == rest;
  }

  /** The same, on the positions of one line: digits up to `m`, a separator, a space, then no space. */
  lemma StripSerialAt(line: string, m: nat)
    requires 0 < m && m + 2 <= |line|
    requires DigitsBetween(line, 0, m)
    requires line[m] in {'.', '-', ')'} && line[m + 1] == ' '
    requires m + 2 == |line| || line[m + 2] !in Whitespace
    ensures StripSerial(line) == line[m + 2..]
  {
    assert DigitRun(line, 0) == m by {
      DigitRunExact(line, 0, m);
    }
    assert RunOf(line, m, Whitespace) == 0 by {
      SeparatorIsNotSpace(line[m]);
    }
    assert RunOf(line, m + 1, Whitespace) == 1 by {
      assert RunOf(line, m + 2, Whitespace) == 0;
    }
  }

  // ---------------------------------------------------------------------
  // One line
  // ---------------------------------------------------------------------

  /** The filters of lines 24-39: not blank, not a header or total line, a digit, five characters. */
  predicate PassesLineFilters(line: string)
  {
    && line != []
    && Strip(line) != []
    && !IsHeaderOrMeta(line)
    && HasDigit(Strip(line))
    && |Strip(line)| >= 5
  }

  /** The bounds of lines 142-146 and 165-166, which every emitted item meets. */
  predicate SaneItem(item: Item)
  {
    && 0.0 < item.quantity <= 1000.0
    && item.amount > 0.0
    && |item.name| >= 3
  }

  /** The item one OCR line yields, if any: the body of the loop of lines 23-173. */
  function LineItem(line: string): (r: Option<Item>)
    ensures r.Some? ==> PassesLineFilters(line) && SaneItem(r.value)
  {
    if !PassesLineFilters(line) then None else ItemOf(LineNumbers(line), ItemNameAsWritten(line))
  }

  /**
   * The item the line would yield with the serial number stripped before the
   * name is cut (`ItemName`); everything else is as the code has it.
   */
  function LineItemCorrected(line: string): (r: Option<Item>)
    ensures r.Some? ==> PassesLineFilters(line) && SaneItem(r.value) && r.value.name == ItemName(line)
  {
    if !PassesLineFilters(line) then None else ItemOf(LineNumbers(line), ItemName(line))
  }

  /** The correction changes nothing for a line that does not start with a serial number. */
  lemma CorrectionAgreesWithoutSerial(line: string)
    requires var t := TrimLeft(line, NameTrim); t == [] || !IsDigit(t[0])
    ensures LineItemCorrected(line) == LineItem(line)
  {
    ItemNameAgreesWithoutSerial(line);
  }

  /** As written, a line that starts with a serial number yields no item at all. */
  lemma SerialLineDropped()
    ensures LineItem(SerialExample) == None
  {
    LeadingSerialLosesName();
  }

  /** Lines 61-173 once the numbers and the name of a line are known. */
  function ItemOf(numbers: seq<real>, name: string): (r: Option<Item>)
    ensures r.Some? ==> SaneItem(r.value) && r.value.name == name
  {
    if numbers == [] then None
    else
      var res := Resolve(numbers);
      if !(0.0 < res.quantity <= 1000.0) || res.amount <= 0.0 then None
      else if |name| < 3 then None
      else Some(Item(name, res.amount, res.rate, res.quantity))
  }

  /** With the correction, the same line yields its item: three syringes at 20, amount 60. */
  lemma SerialLineKeptWhenCorrected()
    ensures LineItemCorrected(SerialExample) == Some(Item("Syringe", 60.0, 20.0, 3.0))
  {
    SerialExampleLayout();
    SerialExampleFields();
    LayoutKeptWhenCorrected(SerialExample);
  }

  /** The item the correction gives a line of this layout. */
  lemma LayoutKeptWhenCorrected(s: string)
    requires SerialLayout(s)
    requires s[0..2] == "12" && s[12..13] == "3" && s[14..16] == "20" && s[17..19] == "60"
    ensures LineItemCorrected(s) == Some(Item(s[4..11], 60.0, 20.0, 3.0))
  {
    LayoutPasses(s);
    LayoutNumbers(s);
    LayoutName(s);
    ExampleItem(s[4..11]);
    assert LineItemCorrected(s) == ItemOf(LineNumbers(s), ItemName(s));
  }

  /** The cascade on the example's numbers: quantity 3, rate 20, amount 60. */
  lemma ExampleItem(name: string)
    requires |name| >= 3
    ensures ItemOf([12.0, 3.0, 20.0, 60.0], name) == Some(Item(name, 60.0, 20.0, 3.0))
  {
    ProductMatchWins([12.0, 3.0, 20.0, 60.0]);
  }

  /**
   * The layout of `SerialExample`: "dd. ", a seven-letter word, then
   * " d dd dd"; no date separator but the '.', and none of the letters
   * that would make a keyword.
   */
  predicate SerialLayout(s: string)
  {
    && |s| == 19
    && DigitsBetween(s, 0, 2) && s[2] == '.' && s[3] == ' '
    && (forall k | 4 <= k < 11 :: !IsDigit(s[k]) && s[k] !in NameLetterExclusions)
    && s[4] !in NameTrim + Whitespace && s[10] !in NameTrim + Whitespace
    && s[11] == ' ' && IsDigit(s[12]) && s[13] == ' ' && DigitsBetween(s, 14, 16) && s[16] == ' '
    && DigitsBetween(s, 17, 19)
  }

  /** Date separators, the characters the name cleaning deletes, and the letters of `NotHeaderWithoutLetters`. */
  const NameLetterExclusions: set<char> :=
    {'.', '/', '-', '$', 'R', 'o', 'a', 'd', 'm', 'x', 'O', 'A', 'D', 'M', 'X'}

  lemma SerialExampleLayout()
    ensures SerialLayout(SerialExample)
  {
    SerialExampleDigits();
    SerialExampleWord();
  }

  lemma SerialExampleDigits()
    ensures var s := SerialExample;
      && |s| == 19
      && DigitsBetween(s, 0, 2) && s[2] == '.' && s[3] == ' '
      && s[11] == ' ' && IsDigit(s[12]) && s[13] == ' ' && DigitsBetween(s, 14, 16) && s[16] == ' '
      && DigitsBetween(s, 17, 19)
  {
  }

  lemma SerialExampleWord()
    ensures var s := SerialExample;
      && (forall k | 4 <= k < 11 :: !IsDigit(s[k]) && s[k] !in NameLetterExclusions)
      && s[4] !in NameTrim + Whitespace && s[10] !in NameTrim + Whitespace
  {
  }

  /** The word and the numbers of `SerialExample`. */
  lemma SerialExampleFields()
    ensures var s := SerialExample;
      s[4..11] == "Syringe" && s[0..2] == "12" && s[12..13] == "3" && s[14..16] == "20" && s[17..19] == "60"
  {
    var s := SerialExample;
    assert s == "12" + ". " + "Syringe" + " " + "3" + " " + "20" + " " + "60";
  }

  /** A line of this layout passes the filters of lines 24-39. */
  lemma LayoutPasses(s: string)
    requires SerialLayout(s)
    ensures PassesLineFilters(s)
  {
    DigitsAreNotWhitespace(s[0]);
    DigitsAreNotWhitespace(s[18]);
    StripCharsNoop(s, Whitespace);
    assert IsDigit(s[0]);
    forall i | 0 <= i < |Lower(s)|
      ensures Lower(s)[i] !in {'o', 'a', 'd', 'm', 'x'}
    {
      if 4 <= i < 11 {
        assert s[i] !in NameLetterExclusions;
      }
    }
    NotHeaderWithoutLetters(s);
  }

  /** The numbers of a line of this layout: its four digit runs, none a date or a year. */
  lemma LayoutNumbers(s: string)
    requires SerialLayout(s)
    requires s[0..2] == "12" && s[12..13] == "3" && s[14..16] == "20" && s[17..19] == "60"
    ensures LineNumbers(s) == [12.0, 3.0, 20.0, 60.0]
  {
    LayoutNoDates(s);
    LayoutTokens(s);
    ExampleTokensKept();
  }

  /** The only date separator of the layout is the '.' after the serial, so no date is cut. */
  lemma LayoutNoDates(s: string)
    requires SerialLayout(s)
    ensures RemoveDates(s) == s
  {
    assert forall p | 0 <= p < |s| && IsDateSep(s[p]) :: p == 2;
    NoDatesWithOneSeparator(s, 0, 2);
  }

  /** The tokens of the layout are its four digit runs. */
  lemma LayoutTokens(s: string)
    requires SerialLayout(s)
    ensures NumberTokens(s) == [s[0..2], s[12..13], s[14..16], s[17..19]]
  {
    LayoutTailTokens(s);
    IntegerToken(s, 0, 2, 12);
  }

  lemma LayoutTailTokens(s: string)
    requires SerialLayout(s)
    ensures NumberTokensFrom(s, 12) == [s[12..13], s[14..16], s[17..19]]
  {
    IntegerToken(s, 17, 2, 19);
    IntegerToken(s, 14, 2, 17);
    IntegerToken(s, 12, 1, 14);
  }

  lemma ExampleTokensKept()
    ensures KeptValues(["12", "3", "20", "60"]) == [12.0, 3.0, 20.0, 60.0]
  {
    ExampleTokenValues();
    KeptFourIntegers("12", "3", "20", "60");
  }

  lemma KeptFourIntegers(a: string, b: string, c: string, d: string)
    requires a != [] && AllDigits(a) && DigitsValue(a) < 1900
    requires b != [] && AllDigits(b) && DigitsValue(b) < 1900
    requires c != [] && AllDigits(c) && DigitsValue(c) < 1900
    requires d != [] && AllDigits(d) && DigitsValue(d) < 1900
    ensures KeptValues([a, b, c, d]) ==
      [DigitsValue(a) as real, DigitsValue(b) as real, DigitsValue(c) as real, DigitsValue(d) as real]
  {
    KeptSmallIntegers([a, b, c, d]);
  }

  lemma ExampleTokenValues()
    ensures DigitsValue("12") == 12 && DigitsValue("3") == 3 && DigitsValue("20") == 20 && DigitsValue("60") == 60
  {
  }

  /** The corrected name of a line of this layout is its word. */
  lemma LayoutName(s: string)
    requires SerialLayout(s)
    ensures ItemName(s) == s[4..11]
  {
    LayoutSerial(s);
    LayoutWord(s);
  }

  /** The corrected name skips the serial "dd. ". */
  lemma LayoutSerial(s: string)
    requires SerialLayout(s)
    ensures ItemName(s) == ItemNameAsWritten(s[4..])
  {
    var serial, rest := s[0..2], s[4..];
    assert s == serial + ['.', ' '] + rest;
    ItemNameSkipsSerial(serial, '.', rest);
  }

  /** The code's name of the text after the serial is its word. */
  lemma LayoutWord(s: string)
    requires SerialLayout(s)
    ensures ItemNameAsWritten(s[4..]) == s[4..11]
  {
    var rest := s[4..];
    WrittenNameOfWord(rest, 7);
    assert rest[..7] == s[4..11];
  }

  /** Digits, not continued by '.' and a digit, then text without digits up to `j`. */
  lemma IntegerToken(s: string, i: nat, a: nat, j: nat)
    requires 0 < a && i + a <= j <= |s| && DigitsBetween(s, i, i + a)
    requires forall k | i + a <= k < j :: !IsDigit(s[k])
    requires i + a == |s| || !IsDigit(s[i + a])
    requires i + a + 1 < |s| && s[i + a] == '.' ==> !IsDigit(s[i + a + 1])
    ensures NumberTokensFrom(s, i) == [s[i..i + a]] + NumberTokensFrom(s, j)
  {
    NumberEndOfInteger(s, i, a);
    TokenStep(s, i, i + a);
    TokensSkip(s, i + a, j);
  }

  /** Integer tokens below 1900 are all kept, with their values. */
  lemma {:induction false} KeptSmallIntegers(raw: seq<string>)
    requires forall k | 0 <= k < |raw| :: raw[k] != [] && AllDigits(raw[k]) && DigitsValue(raw[k]) < 1900
    ensures |KeptValues(raw)| == |raw|
    ensures forall k | 0 <= k < |raw| :: KeptValues(raw)[k] == DigitsValue(raw[k]) as real
  {
    if raw != [] {
      var x := raw[|raw| - 1];
      KeptSmallIntegers(raw[..|raw| - 1]);
      assert IndexOf(x, '.') == |x| by {
        IndexOfAt(x, '.', |x|);
      }
      assert x[..|x|] == x;
      NumberTextParses(x);
    }
  }

  /**
   * A word with nothing to clean, then a space and a digit: the code's name
   * is the word.
   */
  lemma WrittenNameOfWord(line: string, n: nat)
    requires 0 < n && n + 1 < |line| && line[n] == ' ' && IsDigit(line[n + 1])
    requires forall i | 0 <= i < n :: !IsDigit(line[i]) && line[i] != '$' && line[i] != 'R'
    requires line[0] !in NameTrim + Whitespace && line[n - 1] !in NameTrim + Whitespace
    ensures ItemNameAsWritten(line) == line[..n]
  {
    var w := line[..n];
    var prefix := line[..n + 1];
    assert FirstDigit(line) == n + 1 by {
      FirstDigitAfter(line, n + 1);
    }
    assert StripChars(prefix, NameTrim) == w by {
      assert RunOf(prefix, 0, NameTrim) == 0;
      assert prefix[..n] == w;
      assert TrailingRun(w, NameTrim) == 0;
      assert TrailingRun(prefix, NameTrim) == 1;
    }
    assert StripSerial(w) == w;
    RemoveAllAbsent(w, "$G");
    RemoveAllAbsent(w, "RR");
    StripCharsNoop(w, Whitespace);
  }

  /** Removing surrounding whitespace never removes a digit, so the digit test of line 34 is a test on the line. */
  lemma StripKeepsDigits(line: string)
    ensures HasDigit(Strip(line)) <==> HasDigit(line)
  {
    StripCharsKeeps(line, Whitespace);
    if HasDigit(line) {
      var i :| 0 <= i < |line| && IsDigit(line[i]);
      DigitsAreNotWhitespace(line[i]);
      assert line[i] in Strip(line);
      var j :| 0 <= j < |Strip(line)| && Strip(line)[j] == line[i];
    }
    if HasDigit(Strip(line)) {
      var j :| 0 <= j < |Strip(line)| && IsDigit(Strip(line)[j]);
      assert Strip(line)[j] in line;
    }
  }

  /** Each filter on its own drops the line. */
  lemma RejectedLines(line: string)
    ensures (forall i :: 0 <= i < |line| ==> line[i] in Whitespace) ==> LineItem(line) == None
    ensures IsHeaderOrMeta(line) ==> LineItem(line) == None
    ensures !HasDigit(line) ==> LineItem(line) == None
    ensures |Strip(line)| < 5 ==> LineItem(line) == None
    ensures LineNumbers(line) == [] ==> LineItem(line) == None
  {
    StripEmptyIffBlank(line);
    StripKeepsDigits(line);
  }

  /**
   * An emitted item is the cascade applied to the line's numbers, with the
   * name cut at the line's first digit; its amount is the last number and its
   * name has no digit.
   * By `ResolveRuleHolds` and `RuleWithinTolerance`, its quantity times its
   * rate is then the amount within the tolerance of the product test.
   */
  lemma EmittedItem(line: string)
    requires LineItem(line).Some?
    ensures var item, numbers := LineItem(line).value, LineNumbers(line);
      && numbers != []
      && item.name == ItemNameAsWritten(line)
      && item.amount == numbers[|numbers| - 1]
      && (item.quantity, item.rate) == (Resolve(numbers).quantity, Resolve(numbers).rate)
      && !HasDigit(item.name)
  {
    assert LineItem(line) == ItemOf(LineNumbers(line), ItemNameAsWritten(line));
    ItemOfIsResolved(LineNumbers(line), ItemNameAsWritten(line));
    SerialStripNeverApplies(line);
  }

  /** What `ItemOf` emits: the resolved values, with the last number as amount. */
  lemma ItemOfIsResolved(numbers: seq<real>, name: string)
    requires ItemOf(numbers, name).Some?
    ensures var item, r := ItemOf(numbers, name).value, Resolve(numbers);
      && item == Item(name, r.amount, r.rate, r.quantity)
      && item.amount == numbers[|numbers| - 1]
  {
    AmountIsLastNumber(numbers);
  }

  /** A line that passes every filter and every check is emitted: the converse of `EmittedItem`. */
  lemma AcceptedLine(line: string)
    requires PassesLineFilters(line) && LineNumbers(line) != []
    requires var res := Resolve(LineNumbers(line));
      0.0 < res.quantity <= 1000.0 && res.amount > 0.0
    requires |ItemNameAsWritten(line)| >= 3
    ensures var res := Resolve(LineNumbers(line));
      LineItem(line) == Some(Item(ItemNameAsWritten(line), res.amount, res.rate, res.quantity))
  {
  }

  /**
   * The loop body of lines 24-173 on one line, with the cascade on mutable
   * quantity, rate and amount as the code has it; `None` is a `continue`.
   */
  method ExtractLineItem(line: string) returns (item: Option<Item>)
    ensures item == LineItem(line)
  {
    if line == [] || Strip(line) == [] {
      return None;
    }
    if IsHeaderOrMeta(line) {
      return None;
    }
    var strippedLine := Strip(line);
    if !HasDigit(strippedLine) {
      return None;
    }
    if |strippedLine| < 5 {
      return None;
    }
    assert PassesLineFilters(line);
    var rawNumbers := NumberTokens(RemoveDates(line));
    var numbers := FilterYears(rawNumbers);
    var name := ItemNameAsWritten(line);
    item := ItemFromNumbers(numbers, name);
  }

  /** Lines 61-173: the cascade, the sanity checks and the name check. */
  method ItemFromNumbers(numbers: seq<real>, name: string) returns (item: Option<Item>)
    ensures item == ItemOf(numbers, name)
  {
    if numbers == [] {
      return None;
    }
    var quantity, rate, amount := ResolveNumbers(numbers);
    if !(0.0 < quantity <= 1000.0) {
      return None;
    }
    if amount <= 0.0 {
      return None;
    }
    if |name| < 3 {
      return None;
    }
    return Some(Item(name, amount, rate, quantity));
  }

  /** Lines 65-139: quantity, rate and amount from the numbers of a line. */
  method ResolveNumbers(numbers: seq<real>) returns (quantity: real, rate: real, amount: real)
    requires |numbers| >= 1
    ensures var res := Resolve(numbers); (quantity, rate, amount) == (res.quantity, res.rate, res.amount)
  {
    quantity, rate, amount := 1.0, 0.0, 0.0;
    var n := |numbers|;
    if n == 1 {
      amount := numbers[0];
      rate := amount;
      quantity := 1.0;
    } else {
      var candAmount, cand2 := numbers[n - 1], numbers[n - 2];
      var cand3: Option<real> := if n >= 3 then Some(numbers[n - 3]) else None;
      var matched := false;
      if cand3.Some? {
        if NearProduct(cand3.value, cand2, candAmount) {
          quantity, rate, amount := cand3.value, cand2, candAmount;
          matched := true;
        } else if NearProduct(cand2, cand3.value, candAmount) {
          // The same product as the test above: this ordering never applies.
          assert false;
        }
      }
      if !matched {
        amount := candAmount;
        if cand3.Some? {
          if cand3.value <= 100.0 && IsInteger(cand3.value) {
            quantity := cand3.value;
            rate := if quantity > 0.0 then amount / quantity else amount;
          } else {
            quantity := 1.0;
            rate := amount;
          }
        } else if cand2 <= 50.0 && IsInteger(cand2) {
          quantity := cand2;
          rate := if quantity > 0.0 then amount / quantity else amount;
        } else if Abs(cand2 - candAmount) < 0.1 {
          quantity := 1.0;
          rate := cand2;
        } else {
          quantity := 1.0;
          rate := amount;
        }
      }
    }
  }

  // ---------------------------------------------------------------------
  // Pages
  // ---------------------------------------------------------------------

  /** The items of one page: each line's item, in line order. */
  function PageItems(lines: seq<string>): seq<Item>
  {
    Collect(LineItem, lines)
  }

  /** A line in the middle of a page contributes its own item, or nothing, in its place. */
  lemma PageItemsOfLine(a: seq<string>, line: string, b: seq<string>)
    ensures PageItems(a + [line] + b) ==
      PageItems(a) + (if LineItem(line).Some? then [LineItem(line).value] else []) + PageItems(b)
  {
    CollectOne(LineItem, a, line, b);
  }

  /** Every item of a page is sane and is the item of one of the page's lines. */
  lemma PageItemsFromLines(lines: seq<string>, item: Item)
    requires item in PageItems(lines)
    ensures SaneItem(item)
    ensures exists i | 0 <= i < |lines| :: LineItem(lines[i]) == Some(item)
  {
    CollectFrom(LineItem, lines, item);
  }

  /** Page `p` of the input becomes page number `p + 1`, of type "Bill Detail", as lines 175-179 build it. */
  function Page(p: nat, lines: seq<string>): PageLineItems<Item>
  {
    PageLineItems(NatToString(p + 1), BillDetail, PageItems(lines))
  }

  /** The result of lines 17-181: one page per input page, in input order. */
  function Pagewise(allPagesLines: seq<seq<string>>): seq<PageLineItems<Item>>
  {
    MapIndexed(Page, allPagesLines)
  }

  /** Page `p` of the result is page `p` of the input, numbered `p + 1`. */
  lemma PagewiseAt(allPagesLines: seq<seq<string>>, p: nat)
    requires p < |allPagesLines|
    ensures |Pagewise(allPagesLines)| == |allPagesLines|
    ensures Pagewise(allPagesLines)[p] == Page(p, allPagesLines[p])
  {
    MapIndexedAt(Page, allPagesLines, p);
  }

  /** The items of one page, by the inner loop of lines 23-173. */
  method ExtractPageItems(lines: seq<string>) returns (billItems: seq<Item>)
    ensures billItems == PageItems(lines)
  {
    billItems := [];
    for i := 0 to |lines|
      invariant billItems == PageItems(lines[..i])
    {
      assert lines[..i + 1][..i] == lines[..i];
      var item := ExtractLineItem(lines[i]);
      if item.Some? {
        billItems := billItems + [item.value];
      }
    }
    assert lines[..|lines|] == lines;
  }

  /**
   * `extract_pagewise_line_items`: one page per input page, numbered from
   * "1", of type "Bill Detail", holding the page's items.
   */
  method ExtractPagewiseLineItems(allPagesLines: seq<seq<string>>) returns (pages: seq<PageLineItems<Item>>)
    ensures pages == Pagewise(allPagesLines)
  {
    pages := [];
    for p := 0 to |allPagesLines|
      invariant pages == Pagewise(allPagesLines[..p])
    {
      var billItems := ExtractPageItems(allPagesLines[p]);
      assert allPagesLines[..p + 1][..p] == allPagesLines[..p];
      assert allPagesLines[..p + 1][p] == allPagesLines[p];
      pages := pages + [PageLineItems(NatToString(p + 1), BillDetail, billItems)];
    }
    assert allPagesLines[..|allPagesLines|] == allPagesLines;
  }

  /** Page numbers are "1", "2", ... in input order: page `p` reads back as `p + 1`. */
  lemma PageNumber(p: nat, lines: seq<string>)
    ensures AllDigits(Page(p, lines).pageNo) && DigitsValue(Page(p, lines).pageNo) == p + 1
    ensures Page(p, lines).pageType == BillDetail
  {
    NatToStringRoundTrip(p + 1);
  }
}
