/**
 * The order of the final page list: pages are sorted by their page number
 * read as an integer, a page number that is not all digits counting as 0,
 * and the sort is stable, so pages with the same key keep their order.
 */
module PageOrder {
  import opened Wrappers
  import opened Text
  import opened Schemas

  /** `int(page_no) if page_no.isdigit() else 0`. */
  function PageKey(pageNo: string): nat
  {
    if pageNo != [] && AllDigits(pageNo) then DigitsValue(pageNo) else 0
  }

  function Key<T>(page: PageLineItems<T>): nat
  {
    PageKey(page.pageNo)
  }

  /** The page number the extractor writes, `str(n)`, sorts as `n`. */
  lemma PageKeyOfNumber(n: nat)
    ensures PageKey(NatToString(n)) == n
  {
    NatToStringRoundTrip(n);
  }

  /** A page number with a character that is not a digit, or no character at all, sorts as 0. */
  lemma PageKeyOfText(pageNo: string, i: nat)
    requires pageNo == [] || (i < |pageNo| && !IsDigit(pageNo[i]))
    ensures PageKey(pageNo) == 0
  {
  }

  predicate Sorted<T>(pages: seq<PageLineItems<T>>)
  {
    forall i, j | 0 <= i < j < |pages| :: Key(pages[i]) <= Key(pages[j])
  }

  /**
   * Puts `x` before the first page whose key is at least its own: every page
   * passed over has a smaller key.
   */
  function Insert<T>(x: PageLineItems<T>, pages: seq<PageLineItems<T>>): (r: seq<PageLineItems<T>>)
    ensures |r| == |pages| + 1
    ensures multiset(r) == multiset(pages) + multiset{x}
  {
    if pages == [] || Key(x) <= Key(pages[0]) then
      [x] + pages
    else
      assert pages == [pages[0]] + pages[1..];
      [pages[0]] + Insert(x, pages[1..])
  }

  predicate AllAtLeast<T>(b: nat, pages: seq<PageLineItems<T>>)
  {
    forall i | 0 <= i < |pages| :: b <= Key(pages[i])
  }

  /** A bound below `x` and below every page is a bound below the result. */
  lemma {:induction false} InsertBound<T>(b: nat, x: PageLineItems<T>, pages: seq<PageLineItems<T>>)
    requires b <= Key(x) && AllAtLeast(b, pages)
    ensures AllAtLeast(b, Insert(x, pages))
    decreases |pages|
  {
    if pages != [] && Key(x) > Key(pages[0]) {
      InsertBound(b, x, pages[1..]);
    }
  }

  lemma SortedCons<T>(x: PageLineItems<T>, pages: seq<PageLineItems<T>>)
    requires AllAtLeast(Key(x), pages) && Sorted(pages)
    ensures Sorted([x] + pages)
  {
    var r := [x] + pages;
    forall i, j | 0 <= i < j < |r|
      ensures Key(r[i]) <= Key(r[j])
    {
      assert r[j] == pages[j - 1];
      if i > 0 {
        assert r[i] == pages[i - 1];
      }
    }
  }

  /** Inserting into a sorted list keeps it sorted. */
  lemma {:induction false} InsertSorted<T>(x: PageLineItems<T>, pages: seq<PageLineItems<T>>)
    requires Sorted(pages)
    ensures Sorted(Insert(x, pages))
    decreases |pages|
  {
    if pages == [] || Key(x) <= Key(pages[0]) {
      assert AllAtLeast(Key(x), pages) by {
        forall i | 0 <= i < |pages|
          ensures Key(x) <= Key(pages[i])
        {
          assert Key(pages[0]) <= Key(pages[i]);
        }
      }
      SortedCons(x, pages);
    } else {
      var p, tail := pages[0], pages[1..];
      SortedTail(pages);
      InsertSorted(x, tail);
      assert AllAtLeast(Key(p), tail) by {
        forall i | 0 <= i < |tail|
          ensures Key(p) <= Key(tail[i])
        {
          assert tail[i] == pages[i + 1];
        }
      }
      InsertBound(Key(p), x, tail);
      SortedCons(p, Insert(x, tail));
    }
  }

  /** `list.sort(key=...)`: a stable sort by page key, built by insertion. */
  function SortByPageKey<T>(pages: seq<PageLineItems<T>>): (r: seq<PageLineItems<T>>)
    ensures Sorted(r)
    ensures multiset(r) == multiset(pages)
    ensures |r| == |pages|
  {
    if pages == [] then []
    else
      assert pages == [pages[0]] + pages[1..];
      var rest := SortByPageKey(pages[1..]);
      InsertSorted(pages[0], rest);
      Insert(pages[0], rest)
  }

  /** The pages with key `k`, in their order. */
  function WithKey<T>(k: nat, pages: seq<PageLineItems<T>>): seq<PageLineItems<T>>
  {
    if pages == [] then []
    else (if Key(pages[0]) == k then [pages[0]] else []) + WithKey(k, pages[1..])
  }

  /** Inserting adds `x` at the front of its own key's pages and leaves the other keys alone. */
  lemma {:induction false} InsertWithKey<T>(k: nat, x: PageLineItems<T>, pages: seq<PageLineItems<T>>)
    ensures WithKey(k, Insert(x, pages)) == (if Key(x) == k then [x] else []) + WithKey(k, pages)
    decreases |pages|
  {
    if pages == [] || Key(x) <= Key(pages[0]) {
      assert ([x] + pages)[1..] == pages;
    } else {
      var rest := Insert(x, pages[1..]);
      InsertWithKey(k, x, pages[1..]);
      assert ([pages[0]] + rest)[1..] == rest;
    }
  }

  /** The sort is stable: for every key, the pages with that key keep their relative order. */
  lemma {:induction false} SortIsStable<T>(k: nat, pages: seq<PageLineItems<T>>)
    ensures WithKey(k, SortByPageKey(pages)) == WithKey(k, pages)
    decreases |pages|
  {
    if pages != [] {
      SortIsStable(k, pages[1..]);
      InsertWithKey(k, pages[0], SortByPageKey(pages[1..]));
    }
  }

  /** Pages already in key order are left exactly as they are. */
  lemma {:induction false} SortedUnchanged<T>(pages: seq<PageLineItems<T>>)
    requires Sorted(pages)
    ensures SortByPageKey(pages) == pages
    decreases |pages|
  {
    if pages != [] {
      SortedUnchanged(pages[1..]);
      assert pages == [pages[0]] + pages[1..];
    }
  }

  /** Sorting twice is sorting once. */
  lemma SortIdempotent<T>(pages: seq<PageLineItems<T>>)
    ensures SortByPageKey(SortByPageKey(pages)) == SortByPageKey(pages)
  {
    SortedUnchanged(SortByPageKey(pages));
  }

  /**
   * Sortedness and stability determine the result: any page list in key
   * order that keeps every key's pages in their original order is the sort.
   */
  lemma SortIsUnique<T>(r: seq<PageLineItems<T>>, pages: seq<PageLineItems<T>>)
    requires Sorted(r)
    requires forall k :: WithKey(k, r) == WithKey(k, pages)
    ensures r == SortByPageKey(pages)
  {
    forall k
      ensures WithKey(k, r) == WithKey(k, SortByPageKey(pages))
    {
      SortIsStable(k, pages);
    }
    SameKeysEqual(r, SortByPageKey(pages));
  }

  /** Two sorted page lists with the same pages under every key are equal. */
  lemma {:induction false} SameKeysEqual<T>(a: seq<PageLineItems<T>>, b: seq<PageLineItems<T>>)
    requires Sorted(a) && Sorted(b)
    requires forall k :: WithKey(k, a) == WithKey(k, b)
    ensures a == b
    decreases |a| + |b|
  {
    if a == [] || b == [] {
      FirstKeyPresent(a);
      FirstKeyPresent(b);
    } else {
      var ka, kb := Key(a[0]), Key(b[0]);
      WithKeyFrom(ka, b);
      WithKeyFrom(kb, a);
      assert ka == kb;
      assert a[0] == WithKey(ka, a)[0] == WithKey(ka, b)[0] == b[0];
      forall k
        ensures WithKey(k, a[1..]) == WithKey(k, b[1..])
      {
        var wa, wb := WithKey(k, a[1..]), WithKey(k, b[1..]);
        assert WithKey(k, a) == WithKey(k, b);
        assert WithKey(k, a) == (if ka == k then [a[0]] else []) + wa;
        assert WithKey(k, b) == (if ka == k then [a[0]] else []) + wb;
        if ka != k {
          assert wa == WithKey(k, a);
        }
        if ka == k {
          assert wa == ([a[0]] + wa)[1..] == ([a[0]] + wb)[1..] == wb;
        }
      }
      SortedTail(a);
      SortedTail(b);
      SameKeysEqual(a[1..], b[1..]);
      assert a == [a[0]] + a[1..] && b == [b[0]] + b[1..];
    }
  }

  lemma FirstKeyPresent<T>(pages: seq<PageLineItems<T>>)
    ensures pages != [] ==> WithKey(Key(pages[0]), pages) != []
  {
  }

  /** In a sorted list, a key that has pages is at least the first page's key. */
  lemma {:induction false} WithKeyFrom<T>(k: nat, pages: seq<PageLineItems<T>>)
    requires Sorted(pages) && pages != [] && WithKey(k, pages) != []
    ensures Key(pages[0]) <= k
  {
    var i := WithKeyIndex(k, pages);
    assert Key(pages[0]) <= Key(pages[i]) || i == 0;
  }

  /** The position of the first page with key `k`, when there is one. */
  function WithKeyIndex<T>(k: nat, pages: seq<PageLineItems<T>>): (i: nat)
    requires WithKey(k, pages) != []
    ensures i < |pages| && Key(pages[i]) == k
  {
    if Key(pages[0]) == k then 0 else 1 + WithKeyIndex(k, pages[1..])
  }

  lemma SortedTail<T>(pages: seq<PageLineItems<T>>)
    requires Sorted(pages) && pages != []
    ensures Sorted(pages[1..])
  {
    var tail := pages[1..];
    forall i, j | 0 <= i < j < |tail|
      ensures Key(tail[i]) <= Key(tail[j])
    {
      assert tail[i] == pages[i + 1] && tail[j] == pages[j + 1];
    }
  }

  /**
   * The key is read from the page number alone, so sorting the page objects
   * and then reading their items is reading them and then sorting.
   */
  lemma {:induction false} SortReadsAlike(pages: seq<PageLineItems<BillItem>>)
    ensures PagesFields(SortByPageKey(pages)) == SortByPageKey(PagesFields(pages))
    decreases |pages|
  {
    if pages != [] {
      var x, tail := pages[0], pages[1..];
      SortReadsAlike(tail);
      InsertReadsAlike(x, SortByPageKey(tail));
      SplitFirst(pages);
      PagesFieldsCons(x, tail);
      ConsParts(PageFields(x), PagesFields(tail));
    }
  }

  lemma {:induction false} InsertReadsAlike(x: PageLineItems<BillItem>, pages: seq<PageLineItems<BillItem>>)
    ensures PagesFields(Insert(x, pages)) == Insert(PageFields(x), PagesFields(pages))
    decreases |pages|
  {
    if pages == [] || Key(x) <= Key(pages[0]) {
      PagesFieldsCons(x, pages);
      if pages != [] {
        PagesFieldsAt(pages, 0);
      }
    } else {
      InsertReadsAlike(x, pages[1..]);
      InsertPastFirst(x, pages);
    }
  }

  /** The step of `InsertReadsAlike` where `x` goes past the first page. */
  lemma InsertPastFirst(x: PageLineItems<BillItem>, pages: seq<PageLineItems<BillItem>>)
    requires pages != [] && Key(x) > Key(pages[0])
    requires PagesFields(Insert(x, pages[1..])) == Insert(PageFields(x), PagesFields(pages[1..]))
    ensures PagesFields(Insert(x, pages)) == Insert(PageFields(x), PagesFields(pages))
  {
    var p, tail := pages[0], pages[1..];
    var fs := PagesFields(pages);
    InsertPast(x, pages);
    PagesFieldsCons(p, Insert(x, tail));
    SplitFirst(pages);
    PagesFieldsCons(p, tail);
    InsertPast(PageFields(x), fs);
    ConsParts(PageFields(p), PagesFields(tail));
  }

  /** Inserting past the first page keeps that page first. */
  lemma InsertPast<T>(x: PageLineItems<T>, pages: seq<PageLineItems<T>>)
    requires pages != [] && Key(x) > Key(pages[0])
    ensures Insert(x, pages) == [pages[0]] + Insert(x, pages[1..])
  {
  }

  lemma PagesFieldsCons(x: PageLineItems<BillItem>, pages: seq<PageLineItems<BillItem>>)
    ensures PagesFields([x] + pages) == [PageFields(x)] + PagesFields(pages)
  {
    PagesFieldsAppend([x], pages);
    assert [x][..0] == [];
  }

  /** Sorting moves pages, not the item objects on them. */
  lemma {:induction false} SortKeepsObjects(pages: seq<PageLineItems<BillItem>>)
    ensures Objects(SortByPageKey(pages)) == Objects(pages)
    decreases |pages|
  {
    if pages != [] {
      SortKeepsObjects(pages[1..]);
      InsertKeepsObjects(pages[0], SortByPageKey(pages[1..]));
      ObjectsCons(pages[0], pages[1..]);
      assert pages == [pages[0]] + pages[1..];
    }
  }

  lemma {:induction false} InsertKeepsObjects(x: PageLineItems<BillItem>, pages: seq<PageLineItems<BillItem>>)
    ensures Objects(Insert(x, pages)) == ObjectsIn(x.billItems) + Objects(pages)
    decreases |pages|
  {
    if pages == [] || Key(x) <= Key(pages[0]) {
      ObjectsCons(x, pages);
    } else {
      InsertKeepsObjects(x, pages[1..]);
      InsertPast(x, pages);
      ObjectsCons(pages[0], Insert(x, pages[1..]));
      ObjectsCons(pages[0], pages[1..]);
      assert pages == [pages[0]] + pages[1..];
    }
  }

  lemma ObjectsCons(x: PageLineItems<BillItem>, pages: seq<PageLineItems<BillItem>>)
    ensures Objects([x] + pages) == ObjectsIn(x.billItems) + Objects(pages)
  {
    ObjectsAppend([x], pages);
    assert [x][..0] == [];
  }

  /** Sorting moves pages, never items: the item count is the same. */
  lemma {:induction false} SortKeepsCount<T>(pages: seq<PageLineItems<T>>)
    ensures ItemCount(SortByPageKey(pages)) == ItemCount(pages)
    decreases |pages|
  {
    if pages != [] {
      SortKeepsCount(pages[1..]);
      InsertKeepsCount(pages[0], SortByPageKey(pages[1..]));
      ConsCount(pages[0], pages[1..]);
      assert pages == [pages[0]] + pages[1..];
    }
  }

  lemma {:induction false} InsertKeepsCount<T>(x: PageLineItems<T>, pages: seq<PageLineItems<T>>)
    ensures ItemCount(Insert(x, pages)) == ItemCount(pages) + |x.billItems|
    decreases |pages|
  {
    if pages == [] || Key(x) <= Key(pages[0]) {
      ConsCount(x, pages);
    } else {
      InsertKeepsCount(x, pages[1..]);
      ConsCount(pages[0], Insert(x, pages[1..]));
      ConsCount(pages[0], pages[1..]);
      assert pages == [pages[0]] + pages[1..];
    }
  }

  lemma ConsCount<T>(x: PageLineItems<T>, pages: seq<PageLineItems<T>>)
    ensures ItemCount([x] + pages) == |x.billItems| + ItemCount(pages)
  {
    ItemCountAppend([x], pages);
    assert [x][..0] == [];
  }
}
