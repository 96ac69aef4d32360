/**
 * The records every extractor produces: a bill line item, a page of items and
 * the document-level result with its item count.
 */
module Schemas {
  import opened Wrappers

  /** One billed entry as a value: its name, total amount, unit rate and quantity. */
  datatype Item = Item(name: string, amount: real, rate: real, quantity: real)

  /**
   * One page's extraction result. The heuristic extractor fills it with `Item`
   * values; the vision path with `BillItem` objects, which the repair pass
   * updates in place.
   */
  datatype PageLineItems<T> = PageLineItems(pageNo: string, pageType: string, billItems: seq<T>)

  /** The page type every page gets unless something else is said. */
  const BillDetail: string := "Bill Detail"

  /** A line item whose numeric fields can be changed after it was built. */
  class BillItem {
    var name: string
    var amount: real
    var rate: real
    var quantity: real

    constructor (name: string, amount: real, rate: real, quantity: real)
      ensures Fields() == Item(name, amount, rate, quantity)
    {
      this.name := name;
      this.amount := amount;
      this.rate := rate;
      this.quantity := quantity;
    }

    /** The current field values. */
    function Fields(): Item
      reads this
    {
      Item(name, amount, rate, quantity)
    }
  }

  /** The document: its pages and the number of items they hold. */
  datatype BillData = BillData(pagewiseLineItems: seq<PageLineItems<BillItem>>, totalItemCount: int)

  /** The number of items on the given pages together. */
  function ItemCount<T>(pages: seq<PageLineItems<T>>): nat
  {
    if pages == [] then 0 else ItemCount(pages[..|pages| - 1]) + |pages[|pages| - 1].billItems|
  }

  /** Counting items distributes over concatenation of page lists. */
  lemma {:induction false} ItemCountAppend<T>(a: seq<PageLineItems<T>>, b: seq<PageLineItems<T>>)
    ensures ItemCount(a + b) == ItemCount(a) + ItemCount(b)
    decreases |b|
  {
    if b == [] {
      assert a + b == a;
    } else {
      assert (a + b)[..|a + b| - 1] == a + b[..|b| - 1];
      ItemCountAppend(a, b[..|b| - 1]);
    }
  }
  /** All items of the given pages, page by page, in order. */
  function AllItems<T>(pages: seq<PageLineItems<T>>): (r: seq<T>)
    ensures |r| == ItemCount(pages)
  {
    if pages == [] then [] else AllItems(pages[..|pages| - 1]) + pages[|pages| - 1].billItems
  }

  /** Listing items distributes over concatenation of page lists. */
  lemma {:induction false} AllItemsAppend<T>(a: seq<PageLineItems<T>>, b: seq<PageLineItems<T>>)
    ensures AllItems(a + b) == AllItems(a) + AllItems(b)
    decreases |b|
  {
    if b == [] {
      assert a + b == a;
    } else {
      assert (a + b)[..|a + b| - 1] == a + b[..|b| - 1];
      AllItemsAppend(a, b[..|b| - 1]);
    }
  }

  /** The item objects the pages refer to. */
  function Objects(pages: seq<PageLineItems<BillItem>>): set<BillItem>
  {
    set o | o in AllItems(pages)
  }

  /** The current field values of a list of item objects. */
  function FieldsOf(items: seq<BillItem>): (r: seq<Item>)
    reads set o | o in items
    ensures |r| == |items|
  {
    if items == [] then [] else FieldsOf(items[..|items| - 1]) + [items[|items| - 1].Fields()]
  }

  /** The `k`-th value is the `k`-th object's fields. */
  lemma {:induction false} FieldsOfAt(items: seq<BillItem>, k: nat)
    requires k < |items|
    ensures FieldsOf(items)[k] == items[k].Fields()
    decreases |items|
  {
    if k < |items| - 1 {
      FieldsOfAt(items[..|items| - 1], k);
    }
  }

  /** The current value of one page: its number and type with its items' field values. */
  function PageFields(page: PageLineItems<BillItem>): PageLineItems<Item>
    reads set o | o in page.billItems
  {
    PageLineItems(page.pageNo, page.pageType, FieldsOf(page.billItems))
  }

  /** The current value of a page list: every page with its items' field values. */
  function PagesFields(pages: seq<PageLineItems<BillItem>>): (r: seq<PageLineItems<Item>>)
    reads Objects(pages)
    ensures |r| == |pages|
  {
    if pages == [] then []
    else
      var p := pages[|pages| - 1];
      PagesFields(pages[..|pages| - 1]) + [PageLineItems(p.pageNo, p.pageType, FieldsOf(p.billItems))]
  }

  /** Reading one more object. */
  lemma FieldsOfSnoc(items: seq<BillItem>, item: BillItem)
    ensures FieldsOf(items + [item]) == FieldsOf(items) + [item.Fields()]
  {
    assert (items + [item])[..|items|] == items;
  }

  /** Adding one page: its value, its objects and its items are added. */
  lemma PagesSnoc(pages: seq<PageLineItems<BillItem>>, page: PageLineItems<BillItem>)
    ensures PagesFields(pages + [page]) == PagesFields(pages) + [PageFields(page)]
    ensures Objects(pages + [page]) == Objects(pages) + ObjectsIn(page.billItems)
    ensures ItemCount(pages + [page]) == ItemCount(pages) + |page.billItems|
  {
    assert (pages + [page])[..|pages|] == pages;
  }

  /** The objects of two page lists together. */
  lemma ObjectsAppend(a: seq<PageLineItems<BillItem>>, b: seq<PageLineItems<BillItem>>)
    ensures Objects(a + b) == Objects(a) + Objects(b)
  {
    AllItemsAppend(a, b);
  }

  /** Reading two page lists together is reading each of them. */
  lemma {:induction false} PagesFieldsAppend(a: seq<PageLineItems<BillItem>>, b: seq<PageLineItems<BillItem>>)
    ensures PagesFields(a + b) == PagesFields(a) + PagesFields(b)
    decreases |b|
  {
    if b == [] {
      assert a + b == a;
    } else {
      assert (a + b)[..|a + b| - 1] == a + b[..|b| - 1];
      PagesFieldsAppend(a, b[..|b| - 1]);
    }
  }

  /** Page `k` of the value is page `k` read: same number, same type, its items' values. */
  lemma {:induction false} PagesFieldsAt(pages: seq<PageLineItems<BillItem>>, k: nat)
    requires k < |pages|
    ensures PagesFields(pages)[k] == PageFields(pages[k])
    decreases |pages|
  {
    if k < |pages| - 1 {
      PagesFieldsAt(pages[..|pages| - 1], k);
    }
  }

  /** Reading the objects keeps the number of items of every page. */
  lemma {:induction false} PagesFieldsCount(pages: seq<PageLineItems<BillItem>>)
    ensures ItemCount(PagesFields(pages)) == ItemCount(pages)
    decreases |pages|
  {
    if pages != [] {
      PagesFieldsCount(pages[..|pages| - 1]);
    }
  }

  /** The objects of a list of items. */
  function ObjectsIn(items: seq<BillItem>): set<BillItem>
  {
    set o | o in items
  }

  /** The objects of all but the last page, and those of the last page, are the pages' objects. */
  lemma ObjectsSplit(pages: seq<PageLineItems<BillItem>>)
    requires pages != []
    ensures Objects(pages) == Objects(pages[..|pages| - 1]) + ObjectsIn(pages[|pages| - 1].billItems)
  {
  }

  /** The field values of every object of the pages, taken at one moment. */
  function Snapshot(pages: seq<PageLineItems<BillItem>>): (m: map<BillItem, Item>)
    reads Objects(pages)
    ensures m.Keys == Objects(pages)
    ensures forall o | o in m :: m[o] == o.Fields()
  {
    map o | o in Objects(pages) :: o.Fields()
  }

  /** The values of a list of objects, read from a snapshot. */
  function ItemsAt(m: map<BillItem, Item>, items: seq<BillItem>): (r: seq<Item>)
    requires forall o | o in items :: o in m
    ensures |r| == |items|
  {
    if items == [] then [] else ItemsAt(m, items[..|items| - 1]) + [m[items[|items| - 1]]]
  }

  /** The value of a page list, read from a snapshot. */
  function PagesAt(m: map<BillItem, Item>, pages: seq<PageLineItems<BillItem>>): (r: seq<PageLineItems<Item>>)
    requires Objects(pages) <= m.Keys
    ensures |r| == |pages|
  {
    if pages == [] then []
    else
      var p := pages[|pages| - 1];
      ObjectsSplit(pages);
      PagesAt(m, pages[..|pages| - 1]) + [PageLineItems(p.pageNo, p.pageType, ItemsAt(m, p.billItems))]
  }

  /** Reading the pages now is reading them from a snapshot taken now. */
  lemma {:induction false} SnapshotValues(pages: seq<PageLineItems<BillItem>>)
    ensures PagesFields(pages) == PagesAt(Snapshot(pages), pages)
    decreases |pages|
  {
    if pages != [] {
      var init, p := pages[..|pages| - 1], pages[|pages| - 1];
      ObjectsSplit(pages);
      SnapshotValuesSub(Snapshot(pages), init);
      SnapshotItems(Snapshot(pages), p.billItems);
    }
  }

  /** A snapshot of more objects reads the same values for fewer pages. */
  lemma {:induction false} SnapshotValuesSub(m: map<BillItem, Item>, pages: seq<PageLineItems<BillItem>>)
    requires Objects(pages) <= m.Keys && forall o | o in Objects(pages) :: m[o] == o.Fields()
    ensures PagesFields(pages) == PagesAt(m, pages)
    decreases |pages|
  {
    if pages != [] {
      ObjectsSplit(pages);
      SnapshotValuesSub(m, pages[..|pages| - 1]);
      SnapshotItems(m, pages[|pages| - 1].billItems);
    }
  }

  lemma {:induction false} SnapshotItems(m: map<BillItem, Item>, items: seq<BillItem>)
    requires forall o | o in items :: o in m && m[o] == o.Fields()
    ensures FieldsOf(items) == ItemsAt(m, items)
    decreases |items|
  {
    if items != [] {
      SnapshotItems(m, items[..|items| - 1]);
    }
  }

  /** Two snapshots that agree on the pages' objects read the same values. */
  lemma {:induction false} PagesAtAgree(m: map<BillItem, Item>, m': map<BillItem, Item>, pages: seq<PageLineItems<BillItem>>)
    requires Objects(pages) <= m.Keys && Objects(pages) <= m'.Keys
    requires forall o | o in Objects(pages) :: m[o] == m'[o]
    ensures PagesAt(m, pages) == PagesAt(m', pages)
    decreases |pages|
  {
    if pages != [] {
      ObjectsSplit(pages);
      PagesAtAgree(m, m', pages[..|pages| - 1]);
      ItemsAtAgree(m, m', pages[|pages| - 1].billItems);
    }
  }

  lemma {:induction false} ItemsAtAgree(m: map<BillItem, Item>, m': map<BillItem, Item>, items: seq<BillItem>)
    requires forall o | o in items :: o in m && o in m' && m[o] == m'[o]
    ensures ItemsAt(m, items) == ItemsAt(m', items)
    decreases |items|
  {
    if items != [] {
      ItemsAtAgree(m, m', items[..|items| - 1]);
    }
  }

  /** Reading two page lists together from a snapshot is reading each of them. */
  lemma {:induction false} PagesAtAppend(m: map<BillItem, Item>, a: seq<PageLineItems<BillItem>>, b: seq<PageLineItems<BillItem>>)
    requires Objects(a) <= m.Keys && Objects(b) <= m.Keys
    ensures Objects(a + b) <= m.Keys
    ensures PagesAt(m, a + b) == PagesAt(m, a) + PagesAt(m, b)
    decreases |b|
  {
    ObjectsAppend(a, b);
    if b == [] {
      assert a + b == a;
    } else {
      var init, p := b[..|b| - 1], b[|b| - 1];
      AppendInit(a, b);
      ObjectsSplit(b);
      PagesAtAppend(m, a, init);
      var last := [PageLineItems(p.pageNo, p.pageType, ItemsAt(m, p.billItems))];
      AppendAssoc(PagesAt(m, a), PagesAt(m, init), last);
    }
  }
}
