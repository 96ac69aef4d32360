/**
 * The vision extractor's own logic around the model call: rebuilding one
 * page's response into pages of bill items, aggregating the per-page results
 * into one document sorted by page number, and the arithmetic repair that
 * fills a single missing amount, rate or quantity in place.
 */
module VisionExtractor {
  import opened Wrappers
  import opened Text
  import opened Schemas
  import opened JsonValues
  import opened PageOrder

  // ---------------------------------------------------------------------
  // repair_bill_items
  // ---------------------------------------------------------------------

  /**
   * The repair of one item's fields: the first of the three cases whose
   * condition holds fills the missing field from the other two.
   */
  function RepairFields(it: Item): Item
  {
    if it.amount == 0.0 && it.rate > 0.0 && it.quantity > 0.0 then
      it.(amount := RoundedProduct(it.rate, it.quantity))
    else if it.rate == 0.0 && it.amount > 0.0 && it.quantity > 0.0 then
      it.(rate := Round2(it.amount / it.quantity))
    else if it.quantity == 0.0 && it.amount > 0.0 && it.rate > 0.0 then
      it.(quantity := if Abs(it.amount - it.rate) < 0.1 then 1.0 else Round2(it.amount / it.rate))
    else
      it
  }

  /** `round(rate * quantity, 2)`. */
  function RoundedProduct(rate: real, quantity: real): real
  {
    Round2(rate * quantity)
  }

  /** Case 1: a missing amount becomes rate times quantity, to the cent; nothing else changes. */
  lemma RepairMissingAmount(it: Item)
    requires it.amount == 0.0 && it.rate > 0.0 && it.quantity > 0.0
    ensures RepairFields(it) == it.(amount := Round2(it.rate * it.quantity))
  {
  }

  /** Case 2: a missing rate becomes amount over quantity, to the cent; nothing else changes. */
  lemma RepairMissingRate(it: Item)
    requires it.rate == 0.0 && it.amount > 0.0 && it.quantity > 0.0
    ensures RepairFields(it) == it.(rate := Round2(it.amount / it.quantity))
  {
  }

  /**
   * Case 3: a missing quantity becomes 1 when amount and rate agree within
   * 0.1, and amount over rate, to the cent, otherwise; nothing else changes.
   */
  lemma RepairMissingQuantity(it: Item)
    requires it.quantity == 0.0 && it.amount > 0.0 && it.rate > 0.0
    ensures Abs(it.amount - it.rate) < 0.1 ==> RepairFields(it) == it.(quantity := 1.0)
    ensures Abs(it.amount - it.rate) >= 0.1 ==> RepairFields(it) == it.(quantity := Round2(it.amount / it.rate))
  {
  }

  /**
   * The `elif` chain changes one field at most, and only a field that was
   * zero; the name never changes.
   */
  lemma RepairChangesOneZeroField(it: Item)
    ensures var r := RepairFields(it);
      && r.name == it.name
      && (r.amount != it.amount ==> it.amount == 0.0 && r.rate == it.rate && r.quantity == it.quantity)
      && (r.rate != it.rate ==> it.rate == 0.0 && r.amount == it.amount && r.quantity == it.quantity)
      && (r.quantity != it.quantity ==> it.quantity == 0.0 && r.amount == it.amount && r.rate == it.rate)
  {
  }

  /** An item with two or more zero fields, or with none, is left as it is. */
  lemma RepairLeavesOthers(it: Item)
    requires (it.amount == 0.0 && it.rate == 0.0) || (it.amount == 0.0 && it.quantity == 0.0)
      || (it.rate == 0.0 && it.quantity == 0.0)
      || (it.amount != 0.0 && it.rate != 0.0 && it.quantity != 0.0)
    ensures RepairFields(it) == it
  {
  }

  /**
   * Repairing twice is repairing once. This holds whatever `round` returns:
   * a filled field that rounds to zero is filled again with the same value.
   */
  lemma RepairIdempotent(it: Item)
    ensures RepairFields(RepairFields(it)) == RepairFields(it)
  {
  }

  /** Lines 27-41 on one item, assigning its fields in place. */
  method RepairItem(item: BillItem)
    modifies item
    ensures item.Fields() == RepairFields(old(item.Fields()))
  {
    var it := item.Fields();
    if it.amount == 0.0 && it.rate > 0.0 && it.quantity > 0.0 {
      RepairMissingAmount(it);
      item.amount := RoundedProduct(it.rate, it.quantity);
    } else if it.rate == 0.0 && it.amount > 0.0 && it.quantity > 0.0 {
      RepairMissingRate(it);
      item.rate := Round2(it.amount / it.quantity);
    } else if it.quantity == 0.0 && it.amount > 0.0 && it.rate > 0.0 {
      RepairMissingQuantity(it);
      if Abs(it.amount - it.rate) < 0.1 {
        item.quantity := 1.0;
      } else {
        item.quantity := Round2(it.amount / it.rate);
      }
    }
  }

  /** Every item of every page repaired, in the page structure the items had. */
  function RepairPages(pages: seq<PageLineItems<Item>>): (r: seq<PageLineItems<Item>>)
    ensures |r| == |pages|
  {
    if pages == [] then []
    else
      var p := pages[|pages| - 1];
      RepairPages(pages[..|pages| - 1]) + [p.(billItems := RepairItems(p.billItems))]
  }

  /** Repair changes values, never the number of items. */
  lemma {:induction false} RepairPagesCount(pages: seq<PageLineItems<Item>>)
    ensures ItemCount(RepairPages(pages)) == ItemCount(pages)
    decreases |pages|
  {
    if pages != [] {
      RepairPagesCount(pages[..|pages| - 1]);
    }
  }

  function RepairItems(items: seq<Item>): (r: seq<Item>)
    ensures |r| == |items|
  {
    if items == [] then [] else RepairItems(items[..|items| - 1]) + [RepairFields(items[|items| - 1])]
  }

  /**
   * `repair_bill_items`: every item object reachable from the document is
   * repaired once, even an object that appears at several places (it is then
   * repaired again, which changes nothing). The document itself, its page
   * list and its count are returned as they were.
   */
  method RepairBillItems(billData: BillData) returns (result: BillData)
    modifies Objects(billData.pagewiseLineItems)
    ensures result == billData
    ensures PagesFields(result.pagewiseLineItems) == RepairPages(old(PagesFields(billData.pagewiseLineItems)))
  {
    var pages := billData.pagewiseLineItems;
    ghost var before := Snapshot(pages);
    SnapshotValues(pages);
    ghost var done: set<BillItem> := {};
    for p := 0 to |pages|
      invariant done == Objects(pages[..p]) && done <= Objects(pages)
      invariant forall o | o in Objects(pages) :: o.Fields() == before[o] || o.Fields() == RepairFields(before[o])
      invariant forall o | o in done :: o.Fields() == RepairFields(before[o])
    {
      ObjectsPrefix(pages, p);
      RepairPage(pages[p].billItems, Objects(pages), done, before);
      done := done + ObjectsIn(pages[p].billItems);
    }
    assert pages[..|pages|] == pages;
    ghost var after := map o | o in Objects(pages) :: RepairFields(before[o]);
    SnapshotValuesSub(after, pages);
    RepairedSnapshot(before, after, pages);
    result := billData;
  }

  /**
   * The loop over one page's items (lines 26-41): each object of the page is
   * repaired, objects repaired before stay repaired, and every object is
   * either as it was or repaired.
   */
  method RepairPage(items: seq<BillItem>, ghost objs: set<BillItem>, ghost done: set<BillItem>,
                    ghost before: map<BillItem, Item>)
    requires ObjectsIn(items) <= objs && done <= objs && objs <= before.Keys
    requires forall o | o in objs :: o.Fields() == before[o] || o.Fields() == RepairFields(before[o])
    requires forall o | o in done :: o.Fields() == RepairFields(before[o])
    modifies objs
    ensures forall o | o in objs :: o.Fields() == before[o] || o.Fields() == RepairFields(before[o])
    ensures forall o | o in done + ObjectsIn(items) :: o.Fields() == RepairFields(before[o])
  {
    for j := 0 to |items|
      invariant forall o | o in objs :: o.Fields() == before[o] || o.Fields() == RepairFields(before[o])
      invariant forall o | o in done + ObjectsIn(items[..j]) :: o.Fields() == RepairFields(before[o])
    {
      var item := items[j];
      assert item in ObjectsIn(items);
      assert ObjectsIn(items[..j + 1]) == ObjectsIn(items[..j]) + {item} by {
        assert items[..j + 1] == items[..j] + [item];
      }
      RepairIdempotent(before[item]);
      RepairItem(item);
    }
    assert items[..|items|] == items;
  }

  /** Repairing every object of a snapshot repairs every page value read from it. */
  lemma {:induction false} RepairedSnapshot(m: map<BillItem, Item>, m': map<BillItem, Item>, pages: seq<PageLineItems<BillItem>>)
    requires Objects(pages) <= m.Keys && Objects(pages) <= m'.Keys
    requires forall o | o in Objects(pages) :: m'[o] == RepairFields(m[o])
    ensures PagesAt(m', pages) == RepairPages(PagesAt(m, pages))
    decreases |pages|
  {
    if pages != [] {
      var init, p := pages[..|pages| - 1], pages[|pages| - 1];
      ObjectsSplit(pages);
      RepairedSnapshot(m, m', init);
      RepairedItems(m, m', p.billItems);
    }
  }

  lemma {:induction false} RepairedItems(m: map<BillItem, Item>, m': map<BillItem, Item>, items: seq<BillItem>)
    requires forall o | o in items :: o in m && o in m' && m'[o] == RepairFields(m[o])
    ensures ItemsAt(m', items) == RepairItems(ItemsAt(m, items))
    decreases |items|
  {
    if items != [] {
      RepairedItems(m, m', items[..|items| - 1]);
    }
  }

  /** The objects of the first `p + 1` pages are those of the first `p` and those of page `p`. */
  lemma ObjectsPrefix(pages: seq<PageLineItems<BillItem>>, p: nat)
    requires p < |pages|
    ensures Objects(pages[..p + 1]) == Objects(pages[..p]) + ObjectsIn(pages[p].billItems)
    ensures Objects(pages[..p + 1]) <= Objects(pages)
  {
    ObjectsSplit(pages[..p + 1]);
    assert pages[..p + 1][..p] == pages[..p];
    AllItemsAppend(pages[..p + 1], pages[p + 1..]);
    assert pages == pages[..p + 1] + pages[p + 1..];
  }

  // ---------------------------------------------------------------------
  // Reconstruction of one page's reply (process_page_vision)
  // ---------------------------------------------------------------------

  /**
   * What the data-model classes and `str` do with a value that is not already
   * of the field's type: `float` converts a string or a boolean to a number
   * or rejects it, `text` converts a non-string to a page type or rejects it,
   * and `repr` is `str(value)` for a number, a list or a dictionary. Their
   * rules are those of the validation library and of Python's `str`.
   */
  datatype Coercion = Coercion(float: Json -> Option<real>, text: Json -> Option<string>, repr: Json -> string)

  /** A value given to a `float` field: numbers are taken as they are, `None`, lists and dictionaries are rejected. */
  function FloatField(c: Coercion, v: Json): Option<real>
  {
    match v
    case JNumber(x) => Some(x)
    case JNull => None
    case JArray(_) => None
    case JObject(_) => None
    case _ => c.float(v)
  }

  /** A value given to a `str` field: strings are taken as they are, `None` is rejected. */
  function TextField(c: Coercion, v: Json): Option<string>
  {
    match v
    case JString(s) => Some(s)
    case JNull => None
    case _ => c.text(v)
  }

  /** `str(value)`. */
  function NameText(c: Coercion, v: Json): string
  {
    match v
    case JString(s) => s
    case JNull => "None"
    case JBool(b) => if b then "True" else "False"
    case _ => c.repr(v)
  }

  /** One `BillItem(...)` built from an entry of `bill_items` (lines 147-152), or None when validation fails. */
  function ItemOf(c: Coercion, m: map<string, Json>): Option<Item>
  {
    var amount := FloatField(c, Get(m, "item_amount", JNumber(0.0)));
    var rate := FloatField(c, Get(m, "item_rate", JNumber(0.0)));
    var quantity := FloatField(c, Get(m, "item_quantity", JNumber(0.0)));
    if amount.Some? && rate.Some? && quantity.Some? then
      Some(Item(NameText(c, Get(m, "item_name", JString("Unknown"))), amount.value, rate.value, quantity.value))
    else
      None
  }

  /** The items of one page, or None when one of them fails. */
  function ItemsOf(c: Coercion, ms: seq<map<string, Json>>): Option<seq<Item>>
  {
    if ms == [] then Some([])
    else
      match ItemsOf(c, ms[..|ms| - 1]) {
        case None => None
        case Some(init) =>
          match ItemOf(c, ms[|ms| - 1]) {
            case None => None
            case Some(it) => Some(init + [it])
          }
      }
  }

  /** One page entry (lines 144-164): its items, the assigned page number and its page type. */
  function PageOf(c: Coercion, pageNum: nat, m: map<string, Json>): Option<PageLineItems<Item>>
  {
    match Records(Get(m, "bill_items", JArray([]))) {
      case None => None
      case Some(ms) =>
        match ItemsOf(c, ms) {
          case None => None
          case Some(items) =>
            match TextField(c, Get(m, "page_type", JString(BillDetail))) {
              case None => None
              case Some(pageType) => Some(PageLineItems(NatToString(pageNum), pageType, items))
            }
        }
    }
  }

  function PagesOf(c: Coercion, pageNum: nat, ms: seq<map<string, Json>>): Option<seq<PageLineItems<Item>>>
  {
    if ms == [] then Some([])
    else
      match PagesOf(c, pageNum, ms[..|ms| - 1]) {
        case None => None
        case Some(init) =>
          match PageOf(c, pageNum, ms[|ms| - 1]) {
            case None => None
            case Some(page) => Some(init + [page])
          }
      }
  }

  /** Lines 140-164 on the decoded reply: None when any step raises. */
  function Reconstruct(c: Coercion, pageNum: nat, data: Json): Option<seq<PageLineItems<Item>>>
  {
    if !data.JObject? then None
    else
      match Records(Get(data.fields, "pagewise_line_items", JArray([]))) {
        case None => None
        case Some(ms) => PagesOf(c, pageNum, ms)
      }
  }

  /** The items of a page are built exactly when every entry validates, one item per entry, in order. */
  lemma {:induction false} ItemsOfEntries(c: Coercion, ms: seq<map<string, Json>>)
    ensures ItemsOf(c, ms).Some? <==> forall k | 0 <= k < |ms| :: ItemOf(c, ms[k]).Some?
    ensures ItemsOf(c, ms).Some? ==>
      |ItemsOf(c, ms).value| == |ms| && forall k | 0 <= k < |ms| :: ItemsOf(c, ms).value[k] == ItemOf(c, ms[k]).value
    decreases |ms|
  {
    if ms != [] {
      var init := ms[..|ms| - 1];
      ItemsOfEntries(c, init);
      assert forall k | 0 <= k < |init| :: init[k] == ms[k];
    }
  }

  /** The pages are built exactly when every page entry is, one page per entry, in order. */
  lemma {:induction false} PagesOfEntries(c: Coercion, pageNum: nat, ms: seq<map<string, Json>>)
    ensures PagesOf(c, pageNum, ms).Some? <==> forall k | 0 <= k < |ms| :: PageOf(c, pageNum, ms[k]).Some?
    ensures PagesOf(c, pageNum, ms).Some? ==>
      |PagesOf(c, pageNum, ms).value| == |ms|
      && forall k | 0 <= k < |ms| :: PagesOf(c, pageNum, ms).value[k] == PageOf(c, pageNum, ms[k]).value
    decreases |ms|
  {
    if ms != [] {
      var init := ms[..|ms| - 1];
      PagesOfEntries(c, pageNum, init);
      assert forall k | 0 <= k < |init| :: init[k] == ms[k];
    }
  }

  /** Every rebuilt page carries `str(page_num)`, whatever page number the reply gave. */
  lemma ReconstructPageNumbers(c: Coercion, pageNum: nat, data: Json)
    requires Reconstruct(c, pageNum, data).Some?
    ensures forall k | 0 <= k < |Reconstruct(c, pageNum, data).value| ::
      Reconstruct(c, pageNum, data).value[k].pageNo == NatToString(pageNum)
  {
    var ms := Records(Get(data.fields, "pagewise_line_items", JArray([]))).value;
    PagesOfEntries(c, pageNum, ms);
  }

  /**
   * An entry whose fields are strings and numbers, or absent, is built
   * without any coercion: the name (default "Unknown") and the amount, rate
   * and quantity (default 0) as given.
   */
  lemma ItemOfPlainEntry(c: Coercion, m: map<string, Json>)
    requires forall k | k in m && k in {"item_amount", "item_rate", "item_quantity"} :: m[k].JNumber?
    requires "item_name" in m ==> m["item_name"].JString?
    ensures ItemOf(c, m) == Some(Item(
      if "item_name" in m then m["item_name"].s else "Unknown",
      if "item_amount" in m then m["item_amount"].x else 0.0,
      if "item_rate" in m then m["item_rate"].x else 0.0,
      if "item_quantity" in m then m["item_quantity"].x else 0.0))
  {
  }

  /** An amount, rate or quantity that is `null`, a list or a dictionary fails the whole item. */
  lemma ItemOfRejects(c: Coercion, m: map<string, Json>, key: string)
    requires key == "item_amount" || key == "item_rate" || key == "item_quantity"
    requires key in m && (m[key].JNull? || m[key].JArray? || m[key].JObject?)
    ensures ItemOf(c, m).None?
  {
  }

  /** Token counts of one call or of several. */
  datatype TokenUsage = TokenUsage(total: int, input: int, output: int)

  const NoUsage := TokenUsage(0, 0, 0)

  /** The token counts of two calls added field by field. */
  function AddUsage(u: TokenUsage, v: TokenUsage): TokenUsage
  {
    TokenUsage(u.total + v.total, u.input + v.input, u.output + v.output)
  }

  /**
   * A model call that returned: the decoded reply and the usage metadata, if
   * any. A call that raised, timed out, hit the rate limit on its last
   * attempt or returned text that does not decode is `None`.
   */
  datatype Reply = Reply(data: Json, usage: Option<TokenUsage>)

  /** The value `process_page_vision` returns: its pages, its count and its usage. */
  datatype PageResult = PageResult(pages: seq<PageLineItems<Item>>, count: int, usage: TokenUsage)

  /** Lines 140-189: the pages rebuilt from a reply, or the empty result of the failure path. */
  function PageOutcome(c: Coercion, pageNum: nat, reply: Option<Reply>): PageResult
  {
    match reply
    case None => PageResult([], 0, NoUsage)
    case Some(r) =>
      match Reconstruct(c, pageNum, r.data) {
        case None => PageResult([], 0, NoUsage)
        case Some(pages) => PageResult(pages, ItemCount(pages), if r.usage.Some? then r.usage.value else NoUsage)
      }
  }

  /** The inner loop of lines 145-153: one new object per entry, or None at the first entry that fails. */
  method BuildItems(c: Coercion, ms: seq<map<string, Json>>) returns (items: Option<seq<BillItem>>)
    ensures items.Some? <==> ItemsOf(c, ms).Some?
    ensures items.Some? ==> FieldsOf(items.value) == ItemsOf(c, ms).value
    ensures items.Some? ==> forall o | o in items.value :: fresh(o)
  {
    var acc: seq<BillItem> := [];
    for j := 0 to |ms|
      invariant ItemsOf(c, ms[..j]) == Some(FieldsOf(acc))
      invariant forall o | o in acc :: fresh(o)
    {
      var value := ItemOf(c, ms[j]);
      if value.None? {
        ItemsOfFail(c, ms, j + 1);
        return None;
      }
      var item := new BillItem(value.value.name, value.value.amount, value.value.rate, value.value.quantity);
      FieldsOfSnoc(acc, item);
      ItemsOfSnoc(c, ms, j, FieldsOf(acc), value.value);
      acc := acc + [item];
    }
    assert ms[..|ms|] == ms;
    return Some(acc);
  }

  lemma ItemsOfSnoc(c: Coercion, ms: seq<map<string, Json>>, j: nat, init: seq<Item>, it: Item)
    requires j < |ms| && ItemsOf(c, ms[..j]) == Some(init) && ItemOf(c, ms[j]) == Some(it)
    ensures ItemsOf(c, ms[..j + 1]) == Some(init + [it])
  {
    assert ms[..j + 1][..j] == ms[..j];
  }

  lemma PagesOfSnoc(c: Coercion, pageNum: nat, ms: seq<map<string, Json>>, j: nat,
                    init: seq<PageLineItems<Item>>, page: PageLineItems<Item>)
    requires j < |ms| && PagesOf(c, pageNum, ms[..j]) == Some(init) && PageOf(c, pageNum, ms[j]) == Some(page)
    ensures PagesOf(c, pageNum, ms[..j + 1]) == Some(init + [page])
  {
    assert ms[..j + 1][..j] == ms[..j];
  }

  /** A prefix that fails makes the whole list fail. */
  lemma {:induction false} ItemsOfFail(c: Coercion, ms: seq<map<string, Json>>, j: nat)
    requires j <= |ms| && ItemsOf(c, ms[..j]).None?
    ensures ItemsOf(c, ms).None?
    decreases |ms| - j
  {
    if j < |ms| {
      assert ms[..j + 1][..j] == ms[..j];
      ItemsOfFail(c, ms, j + 1);
    } else {
      assert ms[..j] == ms;
    }
  }

  /** A prefix that fails makes the whole list fail. */
  lemma {:induction false} PagesOfFail(c: Coercion, pageNum: nat, ms: seq<map<string, Json>>, j: nat)
    requires j <= |ms| && PagesOf(c, pageNum, ms[..j]).None?
    ensures PagesOf(c, pageNum, ms).None?
    decreases |ms| - j
  {
    if j < |ms| {
      assert ms[..j + 1][..j] == ms[..j];
      PagesOfFail(c, pageNum, ms, j + 1);
    } else {
      assert ms[..j] == ms;
    }
  }

  /** One page of lines 144-164, built as new objects, or None when the page fails. */
  method BuildPage(c: Coercion, pageNum: nat, m: map<string, Json>) returns (page: Option<PageLineItems<BillItem>>)
    ensures page.Some? <==> PageOf(c, pageNum, m).Some?
    ensures page.Some? ==> PageFields(page.value) == PageOf(c, pageNum, m).value
    ensures page.Some? ==> forall o | o in page.value.billItems :: fresh(o)
  {
    var entries := Records(Get(m, "bill_items", JArray([])));
    if entries.None? {
      return None;
    }
    var items := BuildItems(c, entries.value);
    if items.None? {
      return None;
    }
    var pNo := NatToString(pageNum);
    var pageType := TextField(c, Get(m, "page_type", JString(BillDetail)));
    if pageType.None? {
      return None;
    }
    return Some(PageLineItems(pNo, pageType.value, items.value));
  }

  /**
   * The outer loop of lines 143-164: one page per entry, counting the items
   * as it goes; `ok` is false when an entry fails.
   */
  method BuildPages(c: Coercion, pageNum: nat, ms: seq<map<string, Json>>)
    returns (pagewise: seq<PageLineItems<BillItem>>, calculatedCount: int, ok: bool)
    ensures ok <==> PagesOf(c, pageNum, ms).Some?
    ensures ok ==> PagesFields(pagewise) == PagesOf(c, pageNum, ms).value
    ensures ok ==> calculatedCount == ItemCount(pagewise)
    ensures forall o | o in Objects(pagewise) :: fresh(o) && allocated(o)
  {
    pagewise, calculatedCount := [], 0;
    for p := 0 to |ms|
      invariant PagesOf(c, pageNum, ms[..p]) == Some(PagesFields(pagewise))
      invariant calculatedCount == ItemCount(pagewise)
      invariant forall o | o in Objects(pagewise) :: fresh(o) && allocated(o)
    {
      ghost var built := PagesFields(pagewise);
      var page := BuildPage(c, pageNum, ms[p]);
      assert PagesFields(pagewise) == built;
      if page.None? {
        PagesOfFail(c, pageNum, ms, p + 1);
        return [], 0, false;
      }
      PagesSnoc(pagewise, page.value);
      PagesOfSnoc(c, pageNum, ms, p, PagesFields(pagewise), PageFields(page.value));
      calculatedCount := calculatedCount + |page.value.billItems|;
      pagewise := pagewise + [page.value];
    }
    assert ms[..|ms|] == ms;
    ok := true;
  }

  /**
   * `process_page_vision` after the call: the failure path returns no pages
   * and count 0; otherwise the pages hold the rebuilt values, the count is
   * the number of items they hold, and the usage is the reply's metadata.
   */
  method ProcessPageVision(c: Coercion, pageNum: nat, reply: Option<Reply>) returns (bd: BillData, usage: TokenUsage)
    ensures PagesFields(bd.pagewiseLineItems) == PageOutcome(c, pageNum, reply).pages
    ensures bd.totalItemCount == PageOutcome(c, pageNum, reply).count && usage == PageOutcome(c, pageNum, reply).usage
    ensures bd.totalItemCount == ItemCount(bd.pagewiseLineItems)
    ensures forall o | o in Objects(bd.pagewiseLineItems) :: fresh(o) && allocated(o)
  {
    var failed := BillData([], 0);
    if reply.None? || !reply.value.data.JObject? {
      return failed, NoUsage;
    }
    var data := reply.value.data;
    var entries := Records(Get(data.fields, "pagewise_line_items", JArray([])));
    if entries.None? {
      return failed, NoUsage;
    }
    var pagewise, calculatedCount, ok := BuildPages(c, pageNum, entries.value);
    if !ok {
      return failed, NoUsage;
    }
    PagesFieldsCount(pagewise);
    bd := BillData(pagewise, calculatedCount);
    usage := if reply.value.usage.Some? then reply.value.usage.value else NoUsage;
  }

  // ---------------------------------------------------------------------
  // Aggregation (extract_data_with_llm)
  // ---------------------------------------------------------------------

  /** The results of all pages, page `k` (from 0) being processed as page `k + 1`. */
  function Outcomes(c: Coercion, replies: seq<Option<Reply>>): (r: seq<PageResult>)
    ensures |r| == |replies|
  {
    if replies == [] then []
    else Outcomes(c, replies[..|replies| - 1]) + [PageOutcome(c, |replies|, replies[|replies| - 1])]
  }

  lemma {:induction false} OutcomesAt(c: Coercion, replies: seq<Option<Reply>>, k: nat)
    requires k < |replies|
    ensures Outcomes(c, replies)[k] == PageOutcome(c, k + 1, replies[k])
    decreases |replies|
  {
    if k < |replies| - 1 {
      var init := replies[..|replies| - 1];
      OutcomesAt(c, init, k);
    }
  }

  /** `final_pagewise.extend(...)` over all results. */
  function ConcatPages(rs: seq<PageResult>): seq<PageLineItems<Item>>
  {
    if rs == [] then [] else ConcatPages(rs[..|rs| - 1]) + rs[|rs| - 1].pages
  }

  /** `final_total += bill_data.total_item_count` over all results. */
  function TotalCount(rs: seq<PageResult>): int
  {
    if rs == [] then 0 else TotalCount(rs[..|rs| - 1]) + rs[|rs| - 1].count
  }

  /** The token counts of all results, field by field. */
  function TotalUsage(rs: seq<PageResult>): TokenUsage
  {
    if rs == [] then NoUsage
    else
      AddUsage(TotalUsage(rs[..|rs| - 1]), rs[|rs| - 1].usage)
  }

  /** Per-page counts that are the pages' item counts add up to the item count of all pages. */
  lemma {:induction false} TotalCountOfPages(rs: seq<PageResult>)
    requires forall k | 0 <= k < |rs| :: rs[k].count == ItemCount(rs[k].pages)
    ensures TotalCount(rs) == ItemCount(ConcatPages(rs))
    decreases |rs|
  {
    if rs != [] {
      var init := rs[..|rs| - 1];
      assert forall k | 0 <= k < |init| :: init[k] == rs[k];
      TotalCountOfPages(init);
      ItemCountAppend(ConcatPages(init), rs[|rs| - 1].pages);
    }
  }

  /** Every result's count is its pages' item count: `final_total` counts the final items. */
  lemma OutcomeCounts(c: Coercion, replies: seq<Option<Reply>>)
    ensures TotalCount(Outcomes(c, replies)) == ItemCount(ConcatPages(Outcomes(c, replies)))
  {
    var rs := Outcomes(c, replies);
    forall k | 0 <= k < |rs|
      ensures rs[k].count == ItemCount(rs[k].pages)
    {
      OutcomesAt(c, replies, k);
    }
    TotalCountOfPages(rs);
  }

  /** Every page of page `n`'s result is numbered `n`. */
  lemma OutcomeKeys(c: Coercion, n: nat, reply: Option<Reply>)
    ensures forall i | 0 <= i < |PageOutcome(c, n, reply).pages| :: Key(PageOutcome(c, n, reply).pages[i]) == n
  {
    if reply.Some? && Reconstruct(c, n, reply.value.data).Some? {
      ReconstructPageNumbers(c, n, reply.value.data);
      PageKeyOfNumber(n);
    }
  }

  /**
   * The pages arrive in page order: page `k`'s pages all carry `k`, so the
   * concatenation is already sorted, with no key above the number of pages.
   */
  lemma {:induction false} OutcomesSorted(c: Coercion, replies: seq<Option<Reply>>)
    ensures Sorted(ConcatPages(Outcomes(c, replies)))
    ensures AllAtMost(|replies|, ConcatPages(Outcomes(c, replies)))
    decreases |replies|
  {
    if replies != [] {
      var n := |replies|;
      var init := replies[..n - 1];
      var rs := Outcomes(c, replies);
      assert rs[..n - 1] == Outcomes(c, init);
      OutcomesSorted(c, init);
      var a, b := ConcatPages(Outcomes(c, init)), PageOutcome(c, n, replies[n - 1]).pages;
      OutcomeKeys(c, n, replies[n - 1]);
      SortedAppend(a, b, n);
    }
  }

  predicate AllAtMost<T>(n: nat, pages: seq<PageLineItems<T>>)
  {
    forall i | 0 <= i < |pages| :: Key(pages[i]) <= n
  }

  lemma SortedAppend<T>(a: seq<PageLineItems<T>>, b: seq<PageLineItems<T>>, n: nat)
    requires n >= 1 && Sorted(a) && AllAtMost(n - 1, a)
    requires forall i | 0 <= i < |b| :: Key(b[i]) == n
    ensures Sorted(a + b) && AllAtMost(n, a + b)
  {
    var r := a + b;
    forall i, j | 0 <= i < j < |r|
      ensures Key(r[i]) <= Key(r[j])
    {
      if j < |a| {
        assert r[i] == a[i] && r[j] == a[j];
      } else if i < |a| {
        assert r[i] == a[i] && r[j] == b[j - |a|];
      } else {
        assert r[i] == b[i - |a|] && r[j] == b[j - |a|];
      }
    }
  }

  /** The sort at line 219 leaves the aggregated pages exactly as they are. */
  lemma SortIsNoOp(c: Coercion, replies: seq<Option<Reply>>)
    ensures SortByPageKey(ConcatPages(Outcomes(c, replies))) == ConcatPages(Outcomes(c, replies))
  {
    OutcomesSorted(c, replies);
    SortedUnchanged(ConcatPages(Outcomes(c, replies)));
  }

  lemma ConcatSnoc(rs: seq<PageResult>, i: nat)
    requires i < |rs|
    ensures ConcatPages(rs[..i + 1]) == ConcatPages(rs[..i]) + rs[i].pages
    ensures TotalCount(rs[..i + 1]) == TotalCount(rs[..i]) + rs[i].count
    ensures TotalUsage(rs[..i + 1]) == AddUsage(TotalUsage(rs[..i]), rs[i].usage)
  {
    assert rs[..i + 1][..i] == rs[..i];
  }

  /**
   * Lines 197-204: every page processed as its position plus one; the results
   * come back in page order. `m` holds the current values of all the new
   * item objects.
   */
  method GatherPages(c: Coercion, replies: seq<Option<Reply>>)
    returns (results: seq<(BillData, TokenUsage)>, ghost m: map<BillItem, Item>)
    ensures |results| == |replies|
    ensures forall k | 0 <= k < |results| :: Gathered(m, results[k], Outcomes(c, replies)[k])
    ensures forall o | o in m :: fresh(o) && allocated(o) && o.Fields() == m[o]
  {
    ghost var outs := Outcomes(c, replies);
    results, m := [], map[];
    for i := 0 to |replies|
      invariant |results| == i
      invariant forall k | 0 <= k < i :: Gathered(m, results[k], outs[k])
      invariant forall o | o in m :: fresh(o) && allocated(o) && o.Fields() == m[o]
    {
      var bd, usage := ProcessPageVision(c, i + 1, replies[i]);
      OutcomesAt(c, replies, i);
      ghost var now := Snapshot(bd.pagewiseLineItems);
      SnapshotValues(bd.pagewiseLineItems);
      forall o | o in m
        ensures o !in now && o.Fields() == m[o]
      {
      }
      GatheredStep(m, now, results, outs, (bd, usage), i);
      ghost var m' := m + now;
      forall o | o in m'
        ensures fresh(o) && allocated(o) && o.Fields() == m'[o]
      {
      }
      results, m := results + [(bd, usage)], m';
    }
  }

  /** Adding the values of a new result's objects, none of them seen before, keeps the earlier results gathered. */
  lemma GatheredStep(m: map<BillItem, Item>, now: map<BillItem, Item>, results: seq<(BillData, TokenUsage)>,
                     outs: seq<PageResult>, result: (BillData, TokenUsage), i: nat)
    requires |results| == i < |outs|
    requires forall k | 0 <= k < i :: Gathered(m, results[k], outs[k])
    requires now.Keys == Objects(result.0.pagewiseLineItems) && forall o | o in m :: o !in now
    requires PagesAt(now, result.0.pagewiseLineItems) == outs[i].pages
    requires result.0.totalItemCount == outs[i].count && result.1 == outs[i].usage
    ensures forall k | 0 <= k < i + 1 :: Gathered(m + now, (results + [result])[k], outs[k])
  {
    var m' := m + now;
    forall k | 0 <= k < i + 1
      ensures Gathered(m', (results + [result])[k], outs[k])
    {
      if k < i {
        assert (results + [result])[k] == results[k];
        PagesAtAgree(m, m', results[k].0.pagewiseLineItems);
      } else {
        PagesAtAgree(now, m', result.0.pagewiseLineItems);
      }
    }
  }

  /** A gathered result whose objects, read from `m`, hold the expected page result. */
  predicate Gathered(m: map<BillItem, Item>, result: (BillData, TokenUsage), expected: PageResult)
  {
    && Objects(result.0.pagewiseLineItems) <= m.Keys
    && PagesAt(m, result.0.pagewiseLineItems) == expected.pages
    && result.0.totalItemCount == expected.count
    && result.1 == expected.usage
  }

  /**
   * The running values of lines 207-216 after the results `rs`: the pages
   * read from `m` are theirs in order, with their counts and usages summed.
   */
  predicate Aggregated(m: map<BillItem, Item>, rs: seq<PageResult>,
                       pages: seq<PageLineItems<BillItem>>, total: int, usage: TokenUsage)
  {
    && Objects(pages) <= m.Keys
    && PagesAt(m, pages) == ConcatPages(rs)
    && total == TotalCount(rs)
    && usage == TotalUsage(rs)
  }

  /** One more iteration of lines 212-216 extends the running values by one result. */
  lemma AggregateStep(m: map<BillItem, Item>, expected: seq<PageResult>, i: nat,
                      pages: seq<PageLineItems<BillItem>>, total: int, usage: TokenUsage, result: (BillData, TokenUsage))
    requires i < |expected|
    requires Aggregated(m, expected[..i], pages, total, usage)
    requires Gathered(m, result, expected[i])
    ensures Aggregated(m, expected[..i + 1], pages + result.0.pagewiseLineItems,
      total + result.0.totalItemCount, AddUsage(usage, result.1))
  {
    PagesAtAppend(m, pages, result.0.pagewiseLineItems);
    ConcatSnoc(expected, i);
  }

  /**
   * Lines 207-216: the pages of all results in order, their counts summed
   * and their token counts summed field by field.
   */
  method Aggregate(results: seq<(BillData, TokenUsage)>, ghost m: map<BillItem, Item>, ghost expected: seq<PageResult>)
    returns (finalPagewise: seq<PageLineItems<BillItem>>, finalTotal: int, finalUsage: TokenUsage)
    requires |results| == |expected|
    requires forall k | 0 <= k < |results| :: Gathered(m, results[k], expected[k])
    ensures Objects(finalPagewise) <= m.Keys
    ensures PagesAt(m, finalPagewise) == ConcatPages(expected)
    ensures finalTotal == TotalCount(expected)
    ensures finalUsage == TotalUsage(expected)
  {
    finalPagewise, finalTotal, finalUsage := [], 0, NoUsage;
    assert expected[..0] == [];
    for i := 0 to |results|
      invariant Aggregated(m, expected[..i], finalPagewise, finalTotal, finalUsage)
    {
      var bd, usage := results[i].0, results[i].1;
      AggregateStep(m, expected, i, finalPagewise, finalTotal, finalUsage, results[i]);
      finalPagewise := finalPagewise + bd.pagewiseLineItems;
      finalTotal := finalTotal + bd.totalItemCount;
      finalUsage := AddUsage(finalUsage, usage);
    }
    assert expected[..|results|] == expected;
  }

  /**
   * `extract_data_with_llm` after the calls: every page is processed as its
   * position plus one, the results are concatenated in order with their
   * counts and usages summed, the pages are sorted by page number and every
   * item is then repaired in place.
   */
  method ExtractDataWithLlm(c: Coercion, replies: seq<Option<Reply>>) returns (finalData: BillData, finalUsage: TokenUsage)
    ensures PagesFields(finalData.pagewiseLineItems) == RepairPages(SortByPageKey(ConcatPages(Outcomes(c, replies))))
    ensures finalData.totalItemCount == TotalCount(Outcomes(c, replies))
    ensures finalData.totalItemCount == ItemCount(finalData.pagewiseLineItems)
    ensures finalUsage == TotalUsage(Outcomes(c, replies))
    ensures forall o | o in Objects(finalData.pagewiseLineItems) :: fresh(o)
  {
    var results;
    ghost var m;
    results, m := GatherPages(c, replies);
    var finalPagewise, finalTotal, usageSum := Aggregate(results, m, Outcomes(c, replies));
    SnapshotValuesSub(m, finalPagewise);
    SortReadsAlike(finalPagewise);
    SortKeepsObjects(finalPagewise);
    finalPagewise := SortByPageKey(finalPagewise);
    var rawData := BillData(finalPagewise, finalTotal);
    finalData := RepairBillItems(rawData);
    finalUsage := usageSum;
    ghost var all := ConcatPages(Outcomes(c, replies));
    OutcomeCounts(c, replies);
    SortKeepsCount(all);
    RepairPagesCount(SortByPageKey(all));
    PagesFieldsCount(finalData.pagewiseLineItems);
  }
}
