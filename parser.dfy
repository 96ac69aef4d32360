/**
 * The simple positional parser: per-page OCR text lines in, line items out.
 * A line is skipped when it is blank or mentions a total/summary keyword;
 * otherwise its numeric tokens (digits, commas, an optional decimal part) are
 * found left to right, the last one is the amount, the one before it the rate
 * and the one before that, if there is one, the quantity. The text before the
 * quantity token (or before the rate token) is the name.
 */
module Parser {
  import opened Wrappers
  import opened Text
  import opened Schemas

  // ---------------------------------------------------------------------
  // Ignored lines
  // ---------------------------------------------------------------------

  /** `IGNORE_KEYWORDS`: the lines that sum up rather than bill. */
  const IgnoreKeywords: seq<string> :=
    ["total", "grand total", "sub total", "subtotal", "bill summary", "summary", "category total"]

  /** `any(k in raw.lower() for k in IGNORE_KEYWORDS)`. */
  predicate IsIgnored(raw: string)
  {
    exists k | k in IgnoreKeywords :: Contains(Lower(raw), k)
  }

  /**
   * Five of the seven keywords contain "total" or "summary", so the list is
   * equivalent to those two words.
   */
  lemma IgnoreKeywordsReduce(raw: string)
    ensures IsIgnored(raw) <==> Contains(Lower(raw), "total") || Contains(Lower(raw), "summary")
  {
    var lower := Lower(raw);
    assert OccursAt("grand total", "total", 6);
    assert OccursAt("sub total", "total", 4);
    assert OccursAt("subtotal", "total", 3);
    assert OccursAt("bill summary", "summary", 5);
    assert OccursAt("category total", "total", 9);
    if IsIgnored(raw) {
      var k :| k in IgnoreKeywords && Contains(lower, k);
      if k in ["grand total", "sub total", "subtotal", "category total"] {
        ContainsTransitive(lower, k, "total");
      } else if k == "bill summary" {
        ContainsTransitive(lower, k, "summary");
      }
    }
    assert "total" in IgnoreKeywords && "summary" in IgnoreKeywords;
  }

  // ---------------------------------------------------------------------
  // Numeric tokens: re.finditer(r"\d[\d,]*(?:\.\d+)?", raw)
  // ---------------------------------------------------------------------

  const DigitOrComma: set<char> := {'0', '1', '2', '3', '4', '5', '6', '7', '8', '9', ','}

  /** A match object: where the token starts and its text. */
  datatype NumberMatch = NumberMatch(start: nat, text: string)

  /**
   * Text the pattern matches as a whole: a digit, digits and commas, then
   * optionally '.' and at least one digit.
   */
  predicate IsNumericToken(t: string)
  {
    var k := IndexOf(t, '.');
    && 0 < k && IsDigit(t[0])
    && (forall j | 0 <= j < k :: t[j] in DigitOrComma)
    && (k == |t| || (k + 1 < |t| && AllDigits(t[k + 1..])))
  }

  /**
   * Where the match that starts at digit `i` ends. `[\d,]*` takes all it can
   * and the optional group is tried once after it, so the match is the
   * longest one (`MatchIsLongest`).
   */
  function MatchEnd(s: string, i: nat): (e: nat)
    requires i < |s| && IsDigit(s[i])
    ensures i < e <= |s|
  {
    var g := i + 1 + RunOf(s, i + 1, DigitOrComma);
    if g < |s| && s[g] == '.' && DigitRun(s, g + 1) > 0 then g + 1 + DigitRun(s, g + 1) else g
  }

  /** The matches of `s[i..]`, left to right: a match at every digit the previous match did not cover. */
  function MatchesFrom(s: string, i: nat): (r: seq<NumberMatch>)
    requires i <= |s|
    ensures forall k | 0 <= k < |r| :: i <= r[k].start < |s|
    decreases |s| - i
  {
    if i == |s| then []
    else if IsDigit(s[i]) then [NumberMatch(i, s[i..MatchEnd(s, i)])] + MatchesFrom(s, MatchEnd(s, i))
    else MatchesFrom(s, i + 1)
  }

  function NumberMatches(s: string): (r: seq<NumberMatch>)
    ensures forall k | 0 <= k < |r| :: r[k].start < |s|
  {
    MatchesFrom(s, 0)
  }

  lemma DigitInDigitOrComma(c: char)
    requires IsDigit(c)
    ensures c in DigitOrComma
  {
  }

  /** The text a match reports is a numeric token. */
  lemma MatchIsToken(s: string, i: nat)
    requires i < |s| && IsDigit(s[i])
    ensures IsNumericToken(s[i..MatchEnd(s, i)])
  {
    var g := i + 1 + RunOf(s, i + 1, DigitOrComma);
    var e := MatchEnd(s, i);
    assert s[i] in DigitOrComma by {
      DigitInDigitOrComma(s[i]);
    }
    assert forall q | i <= q < g :: s[q] in DigitOrComma;
    if e > g {
      DigitRunIsDigits(s, g + 1);
      assert e == g + 1 + DigitRun(s, g + 1);
    }
    TokenOfRuns(s, i, g, e);
  }

  /** Digits and commas from a digit on, then possibly '.' and digits, make a numeric token. */
  lemma TokenOfRuns(s: string, i: nat, m: nat, e: nat)
    requires i < m <= e <= |s| && IsDigit(s[i])
    requires forall q | i <= q < m :: s[q] in DigitOrComma
    requires e == m || (s[m] == '.' && m + 1 < e && forall q | m + 1 <= q < e :: IsDigit(s[q]))
    ensures IsNumericToken(s[i..e])
  {
    var t := s[i..e];
    forall q | 0 <= q < m - i
      ensures t[q] in DigitOrComma
    {
      assert t[q] == s[i + q];
    }
    IndexOfAt(t, '.', m - i);
    if e > m {
      assert t[m - i + 1..] == s[m + 1..e];
    }
  }

  /** No longer text starting at `i` is a numeric token, so `MatchEnd` is the greedy match. */
  lemma MatchIsLongest(s: string, i: nat, j: nat)
    requires i < |s| && IsDigit(s[i])
    requires MatchEnd(s, i) < j <= |s|
    ensures !IsNumericToken(s[i..j])
  {
    var g := i + 1 + RunOf(s, i + 1, DigitOrComma);
    if s[g] != '.' {
      // `[\d,]*` stopped at a character that is neither a digit, a comma nor '.'
      NotTokenAtStop(s, i, j, g);
    } else {
      // the decimal digits, if any, stop before `j`
      DigitRunIsDigits(s, g + 1);
      NotTokenAtPoint(s, i, j, g, DigitRun(s, g + 1));
    }
  }

  /** A numeric token has no character but digits and commas before its '.'. */
  lemma NotTokenAtStop(s: string, i: nat, j: nat, m: nat)
    requires i <= m < j <= |s| && s[m] !in DigitOrComma && s[m] != '.'
    requires forall q | i <= q < m :: s[q] in DigitOrComma
    ensures !IsNumericToken(s[i..j])
  {
    var t := s[i..j];
    forall q | 0 <= q < m - i
      ensures t[q] != '.'
    {
      assert t[q] == s[i + q];
    }
    IndexOfPast(t, '.', m - i + 1);
    assert t[m - i] == s[m];
  }

  /** A numeric token's '.' is followed by digits up to its end. */
  lemma NotTokenAtPoint(s: string, i: nat, j: nat, m: nat, d: nat)
    requires i <= m && m + 1 + d <= j <= |s| && s[m] == '.'
    requires forall q | i <= q < m :: s[q] in DigitOrComma
    requires forall q | m + 1 <= q < m + 1 + d :: IsDigit(s[q])
    requires if m + 1 + d == j then d == 0 else !IsDigit(s[m + 1 + d])
    ensures !IsNumericToken(s[i..j])
  {
    var t := s[i..j];
    forall q | 0 <= q < m - i
      ensures t[q] != '.'
    {
      assert t[q] == s[i + q];
    }
    IndexOfAt(t, '.', m - i);
    if m + 1 + d < j {
      assert t[m - i + 1..][d] == s[m + 1 + d];
    }
  }

  /**
   * The matches are the tokens of the line: each one's text is a numeric
   * token taken from the line at its start.
   */
  lemma {:induction false} MatchesSound(s: string, i: nat)
    requires i <= |s|
    ensures forall m | m in MatchesFrom(s, i) ::
      m.start + |m.text| <= |s| && s[m.start..m.start + |m.text|] == m.text && IsNumericToken(m.text)
    decreases |s| - i
  {
    if i < |s| {
      if IsDigit(s[i]) {
        var e := MatchEnd(s, i);
        MatchesSound(s, e);
        MatchIsToken(s, i);
      } else {
        MatchesSound(s, i + 1);
      }
    }
  }

  /** Each match ends before the next one starts. */
  predicate Ordered(ms: seq<NumberMatch>)
  {
    forall k | 0 <= k < |ms| - 1 :: ms[k].start + |ms[k].text| <= ms[k + 1].start
  }

  lemma OrderedCons(m: NumberMatch, rest: seq<NumberMatch>)
    requires Ordered(rest) && (rest != [] ==> m.start + |m.text| <= rest[0].start)
    ensures Ordered([m] + rest)
  {
    var ms := [m] + rest;
    forall k | 0 <= k < |ms| - 1
      ensures ms[k].start + |ms[k].text| <= ms[k + 1].start
    {
      if k > 0 {
        assert ms[k] == rest[k - 1] && ms[k + 1] == rest[k];
      }
    }
  }

  /** The matches come in order and do not overlap. */
  lemma {:induction false} MatchesOrdered(s: string, i: nat)
    requires i <= |s|
    ensures Ordered(MatchesFrom(s, i))
    decreases |s| - i
  {
    if i < |s| {
      if IsDigit(s[i]) {
        var e := MatchEnd(s, i);
        MatchesOrdered(s, e);
        var rest := MatchesFrom(s, e);
        assert rest != [] ==> e <= rest[0].start;
        OrderedCons(NumberMatch(i, s[i..e]), rest);
      } else {
        MatchesOrdered(s, i + 1);
      }
    }
  }

  /** Every digit of `s[i..]` lies inside one of the matches. */
  lemma {:induction false} MatchesCoverDigits(s: string, i: nat, p: nat)
    requires i <= p < |s| && IsDigit(s[p])
    ensures exists m | m in MatchesFrom(s, i) :: m.start <= p < m.start + |m.text|
    decreases |s| - i
  {
    if IsDigit(s[i]) {
      var e := MatchEnd(s, i);
      var m := NumberMatch(i, s[i..e]);
      var rest := MatchesFrom(s, e);
      assert MatchesFrom(s, i) == [m] + rest;
      if e <= p {
        MatchesCoverDigits(s, e, p);
        var m' :| m' in rest && m'.start <= p < m'.start + |m'.text|;
        assert m' in [m] + rest;
      } else {
        assert m in [m] + rest && |m.text| == e - i;
      }
    } else {
      MatchesCoverDigits(s, i + 1, p);
    }
  }

  // ---------------------------------------------------------------------
  // to_float: float(num_str.replace(",", ""))
  // ---------------------------------------------------------------------

  /** `to_float`: `None` is the `ValueError` case. */
  function ToFloat(numStr: string): Option<real>
  {
    ParseDecimal(RemoveAll(numStr, ","))
  }

  /** A comma anywhere in the text makes no difference to the value. */
  lemma ToFloatIgnoresComma(a: string, b: string)
    ensures ToFloat(a + "," + b) == ToFloat(a + b)
  {
    assert RemoveAll(a + "," + b, ",") == RemoveAll(a + b, ",") by {
      assert "," == [','];
      RemoveCharAppend(a + ",", b, ',');
      RemoveCharAppend(a, ",", ',');
      RemoveCharAppend(a, b, ',');
      assert RemoveAll(",", ",") == [];
    }
  }

  /** Without commas, `to_float` is `float`. */
  lemma ToFloatWithoutCommas(s: string)
    requires ',' !in s
    ensures ToFloat(s) == ParseDecimal(s)
  {
    RemoveCharAbsent(s, ',');
  }

  /** `to_float("1")`, the quantity when the line has only two tokens. */
  lemma ToFloatOne()
    ensures ToFloat("1") == Some(1.0)
  {
    ToFloatWithoutCommas("1");
    assert IndexOf("1", '.') == 1 by {
      IndexOfAt("1", '.', 1);
    }
    assert "1"[..1] == "1";
    assert DigitsValue("1") == 1 by {
      assert "1"[..0] == [];
    }
  }

  /** Every numeric token converts, so the `except ValueError` branch never runs. */
  lemma TokenConverts(t: string)
    requires IsNumericToken(t)
    ensures ToFloat(t).Some?
  {
    var k := IndexOf(t, '.');
    var intText, rest := t[..k], t[k..];
    assert t == intText + rest;
    assert ',' !in rest by {
      if k < |t| {
        assert rest == ['.'] + t[k + 1..];
      }
    }
    RemoveCharAppend(intText, rest, ',');
    RemoveCharAbsent(rest, ',');
    assert RemoveAll(t, ",") == RemoveAll(intText, ",") + rest;
    DigitsWithoutCommas(intText);
    DecimalParses(RemoveAll(intText, ","), rest);
  }

  /** Digits and commas starting with a digit leave a non-empty run of digits once the commas go. */
  lemma {:induction false} DigitsWithoutCommas(s: string)
    requires forall q | 0 <= q < |s| :: s[q] in DigitOrComma
    ensures AllDigits(RemoveAll(s, ","))
    ensures s != [] && IsDigit(s[0]) ==> RemoveAll(s, ",") != []
    decreases |s|
  {
    if s != [] {
      DigitsWithoutCommas(s[1..]);
      if s[0] != ',' {
        assert s[..1] != ",";
      }
    }
  }

  /** Digits, then nothing or '.' and digits, parse. */
  lemma DecimalParses(digits: string, rest: string)
    requires digits != [] && AllDigits(digits)
    requires rest == [] || (rest[0] == '.' && AllDigits(rest[1..]))
    ensures ParseDecimal(digits + rest).Some?
  {
    var u := digits + rest;
    IndexOfAt(u, '.', |digits|);
    assert u[..|digits|] == digits;
    if rest != [] {
      assert u[|digits| + 1..] == rest[1..];
    }
  }

  // ---------------------------------------------------------------------
  // One line
  // ---------------------------------------------------------------------

  /** The characters of `strip(" -|:,")`. */
  const NameStrip: set<char> := {' ', '-', '|', ':', ','}

  /** Where the name ends: the start of the quantity token, or of the rate token when there are only two. */
  function NameEnd(ms: seq<NumberMatch>): nat
    requires |ms| >= 2
  {
    if |ms| >= 3 then ms[|ms| - 3].start else ms[|ms| - 2].start
  }

  /** The quantity text: the third-to-last token, or "1". */
  function QuantityText(ms: seq<NumberMatch>): string
    requires |ms| >= 2
  {
    if |ms| >= 3 then ms[|ms| - 3].text else "1"
  }

  /** Lines 52-88 on the line's matches: the fields, then the name and amount checks. */
  function ItemOfMatches(raw: string, ms: seq<NumberMatch>): (r: Option<Item>)
    requires |ms| >= 2 && forall k | 0 <= k < |ms| :: ms[k].start <= |raw|
    ensures r.Some? ==> |r.value.name| >= 2 && r.value.amount > 0.0
  {
    var amount := ToFloat(ms[|ms| - 1].text);
    var rate := ToFloat(ms[|ms| - 2].text);
    var quantity := ToFloat(QuantityText(ms));
    if amount.None? || rate.None? || quantity.None? then None
    else
      var name := StripChars(raw[..NameEnd(ms)], NameStrip);
      if |name| < 2 then None
      else if amount.value <= 0.0 then None
      else Some(Item(name, amount.value, rate.value, quantity.value))
  }

  /** The item one raw line contributes, if any (the body of the loop at lines 39-88). */
  function ParseLine(raw: string): (r: Option<Item>)
    ensures r.Some? ==> |r.value.name| >= 2 && r.value.amount > 0.0
  {
    if raw == [] || Strip(raw) == [] then None
    else if IsIgnored(raw) then None
    else
      var ms := NumberMatches(raw);
      if |ms| < 2 then None else ItemOfMatches(raw, ms)
  }

  /** Blank lines, lines with an ignored keyword and lines with fewer than two tokens give nothing. */
  lemma SkippedLines(raw: string)
    ensures Strip(raw) == [] ==> ParseLine(raw) == None
    ensures IsIgnored(raw) ==> ParseLine(raw) == None
    ensures |NumberMatches(raw)| < 2 ==> ParseLine(raw) == None
  {
  }

  /** The fields of an item that is emitted, as lines 53-75 choose them. */
  lemma EmittedItem(raw: string)
    requires ParseLine(raw).Some?
    ensures Strip(raw) != [] && !IsIgnored(raw)
    ensures var ms := NumberMatches(raw); var item := ParseLine(raw).value;
      && |ms| >= 2
      && ToFloat(ms[|ms| - 1].text) == Some(item.amount)
      && ToFloat(ms[|ms| - 2].text) == Some(item.rate)
      && (if |ms| >= 3 then ToFloat(ms[|ms| - 3].text) == Some(item.quantity) else item.quantity == 1.0)
      && item.name == StripChars(raw[..NameEnd(ms)], NameStrip)
      && |item.name| >= 2 && item.amount > 0.0
  {
    var ms := NumberMatches(raw);
    if |ms| < 3 {
      ToFloatOne();
    }
  }

  /**
   * Conversely, a line that passes every check yields an item (whose fields
   * `EmittedItem` gives). The rate and quantity need no check: they are
   * numeric tokens or "1", which always convert.
   */
  lemma AcceptedLine(raw: string)
    requires Strip(raw) != [] && !IsIgnored(raw)
    requires |NumberMatches(raw)| >= 2
    requires var ms := NumberMatches(raw);
      && |StripChars(raw[..NameEnd(ms)], NameStrip)| >= 2
      && ToFloat(ms[|ms| - 1].text).Some? && ToFloat(ms[|ms| - 1].text).value > 0.0
    ensures ParseLine(raw).Some?
  {
    var ms := NumberMatches(raw);
    MatchesConvert(raw);
    if |ms| < 3 {
      ToFloatOne();
    }
    assert ToFloat(QuantityText(ms)).Some?;
    assert ToFloat(ms[|ms| - 2].text).Some?;
  }

  /** Every match of a line converts. */
  lemma MatchesConvert(raw: string)
    ensures forall k | 0 <= k < |NumberMatches(raw)| :: ToFloat(NumberMatches(raw)[k].text).Some?
  {
    var ms := NumberMatches(raw);
    MatchesSound(raw, 0);
    forall k | 0 <= k < |ms|
      ensures ToFloat(ms[k].text).Some?
    {
      assert ms[k] in ms;
      TokenConverts(ms[k].text);
    }
  }

  /** The name never runs into the quantity token: it is text from before that token. */
  lemma NameBeforeQuantity(raw: string)
    requires ParseLine(raw).Some?
    ensures var ms := NumberMatches(raw);
      |ms| >= 2 && forall c | c in ParseLine(raw).value.name :: c in raw[..NameEnd(ms)]
  {
    var ms := NumberMatches(raw);
    EmittedItem(raw);
    StripCharsKeeps(raw[..NameEnd(ms)], NameStrip);
  }

  // ---------------------------------------------------------------------
  // parse_line_items
  // ---------------------------------------------------------------------

  /** The result of `parse_line_items`: the item of each line that has one, in line order. */
  function ParsedItems(lines: seq<string>): seq<Item>
  {
    Collect(ParseLine, lines)
  }

  /** Each line contributes at most one item. */
  lemma AtMostOneItemPerLine(lines: seq<string>)
    ensures |ParsedItems(lines)| <= |lines|
  {
  }

  /** The items keep the order of their lines: a line's item sits between those of the lines around it. */
  lemma ParsedItemsOfLine(a: seq<string>, raw: string, b: seq<string>)
    ensures ParsedItems(a + [raw] + b) ==
      ParsedItems(a) + (if ParseLine(raw).Some? then [ParseLine(raw).value] else []) + ParsedItems(b)
  {
    CollectOne(ParseLine, a, raw, b);
  }

  /** Every item comes from one of the lines and passed its checks. */
  lemma ParsedItemsFromLines(lines: seq<string>, item: Item)
    requires item in ParsedItems(lines)
    ensures |item.name| >= 2 && item.amount > 0.0
    ensures exists i | 0 <= i < |lines| :: ParseLine(lines[i]) == Some(item)
  {
    CollectFrom(ParseLine, lines, item);
  }

  /** The loop body at lines 40-88, with each `continue` as an early return. */
  method ParseRawLine(raw: string) returns (item: Option<Item>)
    ensures item == ParseLine(raw)
  {
    if raw == [] || Strip(raw) == [] {
      return None;
    }
    var lower := Lower(raw);
    if exists k | k in IgnoreKeywords :: Contains(lower, k) {
      return None;
    }
    var numMatches := NumberMatches(raw);
    if |numMatches| < 2 {
      return None;
    }
    item := ItemFromMatches(raw, numMatches);
  }

  /** Lines 53-88 once the line has two or more matches. */
  method ItemFromMatches(raw: string, numMatches: seq<NumberMatch>) returns (item: Option<Item>)
    requires |numMatches| >= 2 && forall k | 0 <= k < |numMatches| :: numMatches[k].start <= |raw|
    ensures item == ItemOfMatches(raw, numMatches)
  {
    var amountStr := numMatches[|numMatches| - 1].text;
    var rateStr := numMatches[|numMatches| - 2].text;
    var qtyStr, nameEndIdx;
    if |numMatches| >= 3 {
      qtyStr, nameEndIdx := numMatches[|numMatches| - 3].text, numMatches[|numMatches| - 3].start;
    } else {
      qtyStr, nameEndIdx := "1", numMatches[|numMatches| - 2].start;
    }
    var amount, rate, quantity := ToFloat(amountStr), ToFloat(rateStr), ToFloat(qtyStr);
    if amount.None? || rate.None? || quantity.None? {
      return None;
    }
    var itemName := StripChars(raw[..nameEndIdx], NameStrip);
    if |itemName| < 2 {
      return None;
    }
    if amount.value <= 0.0 {
      return None;
    }
    item := Some(Item(itemName, amount.value, rate.value, quantity.value));
  }

  /** `parse_line_items`: the loop over the lines, appending each line's item. */
  method ParseLineItems(lines: seq<string>) returns (results: seq<Item>)
    ensures results == ParsedItems(lines)
  {
    results := [];
    for i := 0 to |lines|
      invariant results == ParsedItems(lines[..i])
    {
      assert lines[..i + 1][..i] == lines[..i];
      var item := ParseRawLine(lines[i]);
      if item.Some? {
        results := results + [item.value];
      }
    }
    assert lines[..|lines|] == lines;
  }
}
