# Bill line-item extraction, modelled in Dafny

This project models the line-item logic of a medical-bill extraction service.
The model covers three parts:

- **Heuristic extractor** (`app/line_item_extractor_OLD.py`). It turns OCR text lines into pages of
  `(name, quantity, rate, amount)` items.
- **Positional parser** (`app/parser.py`). It extracts the last three numeric tokens of a line.
- **Vision extractor** (`app/vision_extractor.py`), on the code around the model call:
  - the reply is rebuilt into pages of bill items, with the page number this call assigned;
  - a failed call gives an empty result;
  - the per-page results are aggregated and sorted by page number;
  - an arithmetic repair pass fills one missing amount, rate or quantity in place.

## How the model is built

Each core file becomes one module:

- `LineItemExtractor` and `Parser` are pure functions of the text. Their loops are also written as methods
  (`ExtractPagewiseLineItems`, `ParseLineItems`, `FilterYears`, `ResolveNumbers`, …). Each method is proved equal to
  its function.
- `VisionExtractor` is imperative where the code is:
  - `BillItem` (`Schemas`) is a class whose fields `RepairItem` and `RepairBillItems` assign in place;
  - reconstruction allocates new item objects (`BuildItems`, `BuildPage`, `BuildPages`, `ProcessPageVision`);
  - aggregation is a loop (`GatherPages`, `Aggregate`, `ExtractDataWithLlm`).

  Every method is proved against value functions: `RepairFields`, `RepairPages`, `Reconstruct`, `PageOutcome`,
  `Outcomes`, `ConcatPages`, `TotalCount`, `TotalUsage` and `SortByPageKey`.
- `PageOrder` models the key-function sort at `app/vision_extractor.py:219`. It is an insertion sort, and the module
  proves that it is:
  - sorted;
  - a permutation;
  - stable;
  - the only sorted, stable rearrangement;
  - idempotent.
- `JsonValues` models decoded JSON and two reconstruction steps: `.get` with a default, and iteration over a value
  whose elements must be dictionaries.
- `Text` holds the string and number helpers:
  - character classes, `lower`, `strip`, `replace`;
  - decimal parsing, `str(n)` and `round(x, 2)`.

Field coercion by the validation library is not visible in the source. It enters as a parameter (`Coercion`).
Numbers given as JSON numbers, names given as strings, and missing keys need no coercion, and
`ItemOfPlainEntry` states the result for exactly those inputs.

Two facts of the code shape the vision-extractor model:

- `asyncio.gather` returns its results in task order, and page `k` is processed as page number `k + 1`. So the
  concatenated pages are already in key order, and the sort at `app/vision_extractor.py:219` never reorders them
  (`SortIsNoOp`). The sort is still modelled and proved in general (`PageOrder`).
- The repair pass visits every position of every page (`app/vision_extractor.py:20-43`). An object shared by two
  positions is repaired twice, which `RepairIdempotent` makes harmless: the result equals one repair.

The heuristic extractor is modelled as written, including the order of its name clean-up (see "## Findings"): the
pipeline (`LineItem`, `PageItems`, `Pagewise`, `ExtractPagewiseLineItems`) uses the code's name
`ItemNameAsWritten`. The corrected name `ItemName` and the item it gives, `LineItemCorrected`, are proved beside it.

## Model

| member | source | states |
|---|---|---|
| `Text.NatToStringRoundTrip` | app/vision_extractor.py:158 | `int(str(n)) == n`: the page number written into every page reads back as that number |
| `Text.Round2` | app/vision_extractor.py:29 | `round(x, 2)` is a whole number of hundredths within half a cent of `x`; it is `x` itself when `x` already is one, and it is non-negative for non-negative `x` |
| `Text.StripEmptyIffBlank` | app/parser.py:40 | `s.strip()` is empty exactly when every character of `s` is whitespace |
| `Text.RemoveCharAppend` | app/parser.py:16 | `replace(",", "")` distributes over concatenation |
| `Schemas.BillItem.constructor` | app/schemas.py:4-8 | a new item object holds the four field values it was given |
| `Schemas.ItemCountAppend` | app/vision_extractor.py:213 | the item count of two page lists together is the sum of their counts |
| `Schemas.SnapshotValues` | app/vision_extractor.py:211-212 | reading the objects of a page list now equals reading them from a map of their current values |
| `Schemas.PagesAtAppend` | app/vision_extractor.py:212 | reading two page lists together from a snapshot equals reading each of them |
| `JsonValues.RecordsOfElements` | app/vision_extractor.py:143-145 | iterating an array and calling `.get` on each element succeeds exactly when every element is a dictionary; it then visits their fields in order |
| `LineItemExtractor.HeaderKeywordsReduce` | app/line_item_extractor_OLD.py:5-15 | "sub total", "subtotal" and "grand total" are redundant: a line is a header line exactly when it holds one of the other keywords, and every line with "total" is one |
| `LineItemExtractor.DateAt` | app/line_item_extractor_OLD.py:45-46 | a date match at `i` is at least 6 characters long and lies inside the line |
| `LineItemExtractor.DateAtSound` | app/line_item_extractor_OLD.py:45 | every length `DateAt` reports is a match of `\b\d{1,2}[/.-]\d{1,2}[/.-]\d{2,4}\b`, made of three digit fields and two separators |
| `LineItemExtractor.DateAtComplete` | app/line_item_extractor_OLD.py:45 | every match of the date pattern at a position is the one `DateAt` reports, so the match at a position is unique |
| `LineItemExtractor.NoDatesWithOneSeparator` | app/line_item_extractor_OLD.py:45-46 | a date needs two separators, so a line with at most one '/', '.' or '-' is left whole by the date removal |
| `LineItemExtractor.NumberEnd` | app/line_item_extractor_OLD.py:42 | the number starting at a digit is digit text, optionally followed by '.' and digits, and it stops at a non-digit or the end of the line |
| `LineItemExtractor.NumberIsLongest` | app/line_item_extractor_OLD.py:42 | no longer text from the same start is number text, so the match is greedy |
| `LineItemExtractor.NumberTokens` | app/line_item_extractor_OLD.py:49 | every token `re.findall(r"\d+(?:\.\d+)?")` returns is number text |
| `LineItemExtractor.TokensAtSpans` | app/line_item_extractor_OLD.py:42-49 | each token is the line's text at its span, and each span is the greedy match starting at a digit |
| `LineItemExtractor.SpansOrdered` | app/line_item_extractor_OLD.py:42-49 | the tokens come left to right and do not overlap |
| `LineItemExtractor.SpansCoverDigits` | app/line_item_extractor_OLD.py:42-49 | every digit left after the date removal lies inside some token |
| `LineItemExtractor.NumberTextParses` | app/line_item_extractor_OLD.py:52-53 | `float` never raises on such a token, and a token without '.' has its integer value |
| `LineItemExtractor.KeptValues` | app/line_item_extractor_OLD.py:50-59 | the year filter keeps at most as many values as there are tokens, all of them non-negative |
| `LineItemExtractor.KeptValuesAppend` | app/line_item_extractor_OLD.py:50-59 | the filter works token by token: it distributes over concatenation |
| `LineItemExtractor.BareYearDropped` | app/line_item_extractor_OLD.py:54-56 | an integer token with no '.' from 1900 to 2100 contributes nothing |
| `LineItemExtractor.OtherTokenKept` | app/line_item_extractor_OLD.py:53-57 | every other token contributes its value, in its place |
| `LineItemExtractor.FilterYears` | app/line_item_extractor_OLD.py:50-59 | the loop returns exactly the kept values |
| `LineItemExtractor.AmountIsLastNumber` | app/line_item_extractor_OLD.py:70-78 | the amount is always the last number; a single number is both rate and amount, at quantity 1 |
| `LineItemExtractor.SecondOrderingUnreachable` | app/line_item_extractor_OLD.py:88-99 | the second product test (lines 95-99) never decides the result, because it tests the same product as the first |
| `LineItemExtractor.ProductMatchWins` | app/line_item_extractor_OLD.py:86-93 | when the last three numbers multiply out within `max(1, 5% of amount)`, they are the quantity, the rate and the amount |
| `LineItemExtractor.FallbackOrder` | app/line_item_extractor_OLD.py:101-139 | without a product match, the fallback branches choose quantity and rate exactly as the code orders them |
| `LineItemExtractor.ResolveRuleHolds` | app/line_item_extractor_OLD.py:65-139 | the rule the cascade reports is one whose condition its three values meet |
| `LineItemExtractor.RuleWithinTolerance` | app/line_item_extractor_OLD.py:89 | under every rule, a positive quantity times the rate is the amount within the product tolerance |
| `LineItemExtractor.ResolveNumbers` | app/line_item_extractor_OLD.py:65-139 | the cascade on mutable quantity, rate and amount computes the decision table `Resolve` |
| `LineItemExtractor.StripSerial` | app/line_item_extractor_OLD.py:160 | stripping a leading serial number removes a prefix only; text that does not start with a digit is unchanged |
| `LineItemExtractor.StripSerialOfSerialLine` | app/line_item_extractor_OLD.py:160 | "12. rest" loses exactly the serial, the separator and the space |
| `LineItemExtractor.SerialStripNeverApplies` | app/line_item_extractor_OLD.py:150-160 | as written, the serial strip never changes the name, and no name holds a digit |
| `LineItemExtractor.LeadingSerialLosesName` | app/line_item_extractor_OLD.py:150-160 | as written, "12. Syringe 3 20 60" gets the empty name |
| `LineItemExtractor.SerialLineDropped` | app/line_item_extractor_OLD.py:23-173 | as written, "12. Syringe 3 20 60" yields no item at all |
| `LineItemExtractor.ItemNameDigitFree` | app/line_item_extractor_OLD.py:150-163 | the corrected name holds no digit either |
| `LineItemExtractor.ItemNameAgreesWithoutSerial` | app/line_item_extractor_OLD.py:150-163 | on a line that does not start with a serial number, the corrected name is the name the code computes |
| `LineItemExtractor.ItemNameSkipsSerial` | app/line_item_extractor_OLD.py:150-163 | with the correction, "serial, separator, space, rest" gets the name the code gives to the rest alone |
| `LineItemExtractor.ItemNameIsWrittenAfterSerial` | app/line_item_extractor_OLD.py:150-163 | the corrected name is the code's name for the line once its serial number is stripped |
| `LineItemExtractor.StripKeepsDigits` | app/line_item_extractor_OLD.py:31-35 | stripping whitespace never removes a digit: the digit test on the stripped line is a test on the line |
| `LineItemExtractor.NotHeaderWithoutLetters` | app/line_item_extractor_OLD.py:5-15 | every header keyword holds 'o', 'a', 'd', 'm' or 'x', so a line whose lower case has none of them is no header line |
| `LineItemExtractor.LineItem` | app/line_item_extractor_OLD.py:23-173 | an emitted item comes from a line that passed the filters of lines 24-39, and it meets the bounds of lines 142-146 and 165 |
| `LineItemExtractor.LineItemCorrected` | app/line_item_extractor_OLD.py:150-166 | with the serial number stripped before the name is cut, an emitted item passed the same filters, meets the same bounds and carries the corrected name |
| `LineItemExtractor.CorrectionAgreesWithoutSerial` | app/line_item_extractor_OLD.py:150-166 | on a line that does not start with a serial number, the corrected item is the code's item |
| `LineItemExtractor.SerialLineKeptWhenCorrected` | app/line_item_extractor_OLD.py:23-173 | with the correction, "12. Syringe 3 20 60" yields "Syringe", quantity 3, rate 20, amount 60 |
| `LineItemExtractor.LayoutKeptWhenCorrected` | app/line_item_extractor_OLD.py:23-173 | with the correction, a line laid out as "dd. word d dd dd" with the example's digits yields the word, quantity 3, rate 20, amount 60 |
| `LineItemExtractor.KeptSmallIntegers` | app/line_item_extractor_OLD.py:50-59 | integer tokens below 1900 are all kept, each as its value, in order |
| `LineItemExtractor.ItemOf` | app/line_item_extractor_OLD.py:61-173 | an emitted item meets those bounds and carries the given name |
| `LineItemExtractor.RejectedLines` | app/line_item_extractor_OLD.py:24-62 | a blank line, a header line, a line without a digit, a line under five characters, and a line without numbers each give no item |
| `LineItemExtractor.EmittedItem` | app/line_item_extractor_OLD.py:141-173 | an emitted item is the cascade applied to the line's numbers, with the last number as amount and the code's name: the line cut at its first number, trimmed and cleaned, which holds no digit |
| `LineItemExtractor.ItemOfIsResolved` | app/line_item_extractor_OLD.py:168-173 | the item built is the resolved amount, rate and quantity under the name |
| `LineItemExtractor.AcceptedLine` | app/line_item_extractor_OLD.py:24-173 | conversely, a line that passes every filter and check, with a code's name of at least three characters, is emitted with that name and the resolved values |
| `LineItemExtractor.ExtractLineItem` | app/line_item_extractor_OLD.py:24-173 | the loop body on one line, with the name cut and cleaned in the code's order, computes `LineItem` |
| `LineItemExtractor.ItemFromNumbers` | app/line_item_extractor_OLD.py:61-173 | the cascade, the sanity checks and the name check compute `ItemOf` |
| `LineItemExtractor.PageItemsOfLine` | app/line_item_extractor_OLD.py:21-173 | a line contributes its own item as the code names it, or nothing, in its place on the page |
| `LineItemExtractor.PageItemsFromLines` | app/line_item_extractor_OLD.py:21-173 | every item of a page is sane and is the item, named as the code names it, of one of the page's lines |
| `LineItemExtractor.ExtractPageItems` | app/line_item_extractor_OLD.py:21-173 | the inner loop returns exactly the page's items |
| `LineItemExtractor.PagewiseAt` | app/line_item_extractor_OLD.py:17-181 | there is one result page per input page, and page `p` holds the items of input page `p`, named as the code names them |
| `LineItemExtractor.ExtractPagewiseLineItems` | app/line_item_extractor_OLD.py:17-181 | the outer loop returns exactly `Pagewise` |
| `LineItemExtractor.PageNumber` | app/line_item_extractor_OLD.py:175-179 | page `p` is numbered `str(p + 1)` and typed "Bill Detail" |
| `Parser.IgnoreKeywordsReduce` | app/parser.py:4-12 | the seven ignore keywords amount to "total" or "summary" |
| `Parser.MatchIsToken` | app/parser.py:48 | the text of each match is a numeric token: a digit, digits and commas, then optionally '.' and digits |
| `Parser.MatchIsLongest` | app/parser.py:48 | no longer text from the same start is a numeric token, so the match is greedy |
| `Parser.MatchesSound` | app/parser.py:48 | each match's text is the line's text at its position, and it is a numeric token |
| `Parser.MatchesOrdered` | app/parser.py:48 | the matches come left to right and do not overlap |
| `Parser.MatchesCoverDigits` | app/parser.py:48 | every digit of the line lies inside some match |
| `Parser.ToFloatIgnoresComma` | app/parser.py:15-16 | a comma anywhere in the text does not change the value |
| `Parser.ToFloatWithoutCommas` | app/parser.py:15-16 | on text without commas, `to_float` is `float` |
| `Parser.ToFloatOne` | app/parser.py:63 | the default quantity text "1" converts to 1.0 |
| `Parser.TokenConverts` | app/parser.py:66-71 | every numeric token converts, so the `ValueError` branch never runs |
| `Parser.MatchesConvert` | app/parser.py:66-71 | every match of a line converts |
| `Parser.ItemOfMatches` | app/parser.py:52-88 | an item built from the matches has a name of at least two characters and a positive amount |
| `Parser.ParseLine` | app/parser.py:39-88 | the same bounds hold for the item a raw line yields |
| `Parser.SkippedLines` | app/parser.py:40-50 | blank lines, ignored lines and lines with fewer than two tokens give nothing |
| `Parser.EmittedItem` | app/parser.py:52-79 | an emitted item takes its amount, rate and quantity (or 1) from the last three tokens; its name is the stripped text before the quantity token (or the rate token) |
| `Parser.AcceptedLine` | app/parser.py:66-88 | conversely, a line that passes every check yields an item |
| `Parser.NameBeforeQuantity` | app/parser.py:58-73 | the name is made of text from before the quantity (or rate) token |
| `Parser.AtMostOneItemPerLine` | app/parser.py:39-90 | each line contributes at most one item |
| `Parser.ParsedItemsOfLine` | app/parser.py:39-90 | the items keep the order of their lines |
| `Parser.ParsedItemsFromLines` | app/parser.py:39-90 | every item comes from one of the lines and passed its checks |
| `Parser.ParseRawLine` | app/parser.py:40-88 | the loop body with its `continue`s computes `ParseLine` |
| `Parser.ItemFromMatches` | app/parser.py:52-88 | lines 52-88 compute `ItemOfMatches` |
| `Parser.ParseLineItems` | app/parser.py:19-90 | the loop returns exactly `ParsedItems` |
| `PageOrder.PageKeyOfNumber` | app/vision_extractor.py:219 | the key of a page numbered `str(n)` is `n` |
| `PageOrder.PageKeyOfText` | app/vision_extractor.py:219 | an empty page number, or one with a non-digit character, has key 0 |
| `PageOrder.SortByPageKey` | app/vision_extractor.py:219 | the sorted pages are in non-decreasing key order and are a permutation of the input |
| `PageOrder.SortIsStable` | app/vision_extractor.py:219 | for every key, the pages with that key keep their relative order |
| `PageOrder.SortIsUnique` | app/vision_extractor.py:219 | any list in key order that keeps every key's pages in input order equals the sort |
| `PageOrder.SortedUnchanged` | app/vision_extractor.py:219 | pages already in key order are left as they are |
| `PageOrder.SortIdempotent` | app/vision_extractor.py:219 | sorting twice is sorting once |
| `PageOrder.SortReadsAlike` | app/vision_extractor.py:219 | sorting the page objects and then reading them is the same as reading them and then sorting the values |
| `PageOrder.SortKeepsObjects` | app/vision_extractor.py:219 | the sort keeps the set of item objects |
| `PageOrder.SortKeepsCount` | app/vision_extractor.py:219 | the sort keeps the item count |
| `VisionExtractor.RepairMissingAmount` | app/vision_extractor.py:27-29 | a zero amount with a positive rate and quantity becomes `round(rate * quantity, 2)`; nothing else changes |
| `VisionExtractor.RepairMissingRate` | app/vision_extractor.py:31-33 | a zero rate with a positive amount and quantity becomes `round(amount / quantity, 2)`; nothing else changes |
| `VisionExtractor.RepairMissingQuantity` | app/vision_extractor.py:35-41 | a zero quantity becomes 1 when amount and rate differ by less than 0.1, and `round(amount / rate, 2)` otherwise |
| `VisionExtractor.RepairChangesOneZeroField` | app/vision_extractor.py:26-41 | at most one field changes, only a field that was zero, and the name never changes |
| `VisionExtractor.RepairLeavesOthers` | app/vision_extractor.py:26-41 | an item with two or more zero fields, or with none, is unchanged |
| `VisionExtractor.RepairIdempotent` | app/vision_extractor.py:20-43 | repairing twice equals repairing once |
| `VisionExtractor.RepairItem` | app/vision_extractor.py:26-41 | the fields of the item object, assigned in place, become `RepairFields` of its old fields |
| `VisionExtractor.RepairPage` | app/vision_extractor.py:24-41 | after the loop over one page, every object of the page is repaired, objects repaired before stay repaired, and no object is anything but as it was or repaired |
| `VisionExtractor.RepairBillItems` | app/vision_extractor.py:20-43 | the document is returned as it was; the pages now read as the repaired values of the pages before; names, page numbers, page types, order and count are unchanged |
| `VisionExtractor.RepairPagesCount` | app/vision_extractor.py:20-43 | repair keeps the item count |
| `VisionExtractor.ItemOfPlainEntry` | app/vision_extractor.py:147-152 | an entry with string and number fields has the item of those values, and a missing field gets its default ("Unknown", 0.0) |
| `VisionExtractor.ItemOfRejects` | app/vision_extractor.py:147-152 | a `null`, list or dictionary amount, rate or quantity fails the item, and so the whole page |
| `VisionExtractor.ItemsOfEntries` | app/vision_extractor.py:145-153 | a page's items are built exactly when every entry validates: one item per entry, in order |
| `VisionExtractor.PagesOfEntries` | app/vision_extractor.py:143-164 | the pages are built exactly when every page entry is: one page per entry, in order |
| `VisionExtractor.ReconstructPageNumbers` | app/vision_extractor.py:157-161 | every rebuilt page carries `str(page_num)`, whatever the reply said |
| `VisionExtractor.BuildItems` | app/vision_extractor.py:144-153 | the inner loop returns fresh item objects holding exactly the validated values, or fails exactly when an entry fails |
| `VisionExtractor.BuildPage` | app/vision_extractor.py:143-164 | one page entry becomes a page of fresh objects holding `PageOf`, or fails exactly when `PageOf` does |
| `VisionExtractor.BuildPages` | app/vision_extractor.py:140-164 | the outer loop's pages hold `PagesOf`, and `calculated_count` is their item count |
| `VisionExtractor.ProcessPageVision` | app/vision_extractor.py:140-189 | the page's pages, count and usage are `PageOutcome`: a failed call or a reply that fails to rebuild gives no pages, count 0 and zero usage; otherwise the count is the number of items built and the usage is the reply's metadata, or zero without it |
| `VisionExtractor.OutcomesAt` | app/vision_extractor.py:55-57 | entry `k` of the results is page `k` processed as page number `k + 1` |
| `VisionExtractor.TotalCountOfPages` | app/vision_extractor.py:213 | when each result's count is its pages' item count, the counts add up to the item count of all the pages |
| `VisionExtractor.OutcomeCounts` | app/vision_extractor.py:213 | `final_total` counts exactly the items of the concatenated pages |
| `VisionExtractor.OutcomeKeys` | app/vision_extractor.py:158 | every page of page `n`'s result has key `n` |
| `VisionExtractor.OutcomesSorted` | app/vision_extractor.py:203-212 | the concatenated pages are already in key order, with no key above the page count |
| `VisionExtractor.SortIsNoOp` | app/vision_extractor.py:219 | the sort at line 219 leaves the aggregated pages exactly as they are |
| `VisionExtractor.GatherPages` | app/vision_extractor.py:197-204 | every page is processed as its position plus one, and the results come back in page order, each holding `PageOutcome` |
| `VisionExtractor.AggregateStep` | app/vision_extractor.py:211-216 | one iteration extends the running pages, count and usage by one result |
| `VisionExtractor.Aggregate` | app/vision_extractor.py:207-216 | `final_pagewise` is the concatenation of the results' pages, `final_total` is the sum of their counts, and `final_usage` is the field-wise sum of their usages |
| `VisionExtractor.ExtractDataWithLlm` | app/vision_extractor.py:203-230 | the final pages hold the repaired values of the sorted concatenation; the total is the sum of the page counts and equals the number of final items; the usage is the sum of the page usages |

## Left out

- Network, threads and timing: the model call, the semaphore, the two-second sleeps and `run_in_threadpool`
  (`app/vision_extractor.py:119-128`, `195-204`) are left out. Each page's call is represented by its outcome, an
  `Option<Reply>`. `None` stands for a call that raised, including every rate-limited attempt.
- Retries (lines 115-119 and 179-185) are left out. The reply is that of the last attempt. A reconstruction error
  whose message contains "429" also triggers a retry in the code; the model just takes the final reply.
- Decoding of the reply: the markdown-fence removal and `json.loads` (lines 131-136) are not modelled. A reply is
  already-decoded `Json`, and text that does not decode is the `None` outcome.
- Validation-library coercion (`BaseModel` field validation) is not visible in the source. It is the `Coercion`
  parameter: `float` for non-number values, `text` for non-string page types, and `repr` for `str()` of numbers,
  lists and dictionaries. A decoded JSON number is one exact real (`JNumber`), so JSON `5` and `5.0` are the same
  value; `str()` of a numeric item name, which gives "5" for one and "5.0" for the other, is therefore not modelled
  exactly. The comment at line 146 mentions validators in `schemas.py` that strip '$' and ','; the
  `schemas.py` in the repository has none, so none are modelled.
- `app/vision_extractor.py:11` imports `PageTypeEnum` from `app/schemas.py`, which does not define it, so the import
  would fail at load time. The model treats `page_type` as the plain string field that `schemas.py` declares.
- Floating point: values are exact reals. Binary rounding of products and quotients, and `round` on binary floats,
  are not modelled. `Round2` rounds the exact value half to even.
- `Text.Round2`: states the properties of `round(x, 2)` on exact reals, not Python's correctly rounded result on
  the binary float nearest the decimal.
- Unicode: digits (`\d`, `str.isdigit`), `\w` and `lower()` are ASCII-only. Python's `str.isspace` set is modelled
  exactly. A non-ASCII digit such as '²' would pass `isdigit()` at line 219 and make `int()` raise there; pages
  numbered by `str(page_num)` never contain one.
- `Text.ParseDecimal`: models `float` only on the texts the number patterns produce (digits with at most one '.').
  Signs, exponents, surrounding whitespace, underscores, "inf" and "nan" are not modelled, since no token carries
  them.
- `list.sort` is modelled as a function on the page list (an insertion sort, proved stable and unique), not as an
  in-place sort of a Python list.
- `VisionExtractor.ExtractDataWithLlm`: the token usage is summed as unbounded integers, and the `TokenUsage`
  object updated in place (lines 209-216) is modelled as a value.
- The image handling, the PDF and OCR code, the request handlers and the older LLM text extractor are context and
  are not part of this model.

## Findings

| source | as written | input that shows it | evidently intended | confidence | as-written member | corrected member |
|---|---|---|---|---|---|---|
| app/line_item_extractor_OLD.py:150-160 | the name is cut at the first number of the line before the leading serial number is stripped, so the strip never applies and a line that starts with a serial number gets an empty name and is dropped | "12. Syringe 3 20 60" | strip the serial number, then cut at the first remaining number, giving "Syringe" | not executed | `LineItemExtractor.SerialLineDropped` | `LineItemExtractor.SerialLineKeptWhenCorrected` |

The as-written name is `LineItemExtractor.ItemNameAsWritten`, and the pipeline (`LineItem`, `EmittedItem`,
`PageItems`, `Pagewise`, `ExtractPagewiseLineItems`) uses it, as the code does. `SerialStripNeverApplies` proves
that its serial strip never changes anything, and `SerialLineDropped` that the example line yields no item.
The corrected name is `LineItemExtractor.ItemName`, and `LineItemCorrected` is the item it gives.
`SerialLineKeptWhenCorrected` proves the example line then yields "Syringe" at quantity 3, rate 20 and amount 60;
`ItemNameAgreesWithoutSerial` and `CorrectionAgreesWithoutSerial` prove the correction changes nothing on a line that
does not start with a serial number.
