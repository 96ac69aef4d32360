/**
 * The optional value used for "no item" and for failed conversions, and the
 * two list comprehensions the extractors' loops amount to: the present
 * results of a function over a list, and a function of each element and its
 * index.
 */
module Wrappers {
  datatype Option<+T> = None | Some(value: T)

  /** The present results of `f` on `xs`, in order. */
  function Collect<A, B>(f: A -> Option<B>, xs: seq<A>): (r: seq<B>)
    ensures |r| <= |xs|
  {
    if xs == [] then []
    else
      var init := Collect(f, xs[..|xs| - 1]);
      match f(xs[|xs| - 1])
      case Some(y) => init + [y]
      case None => init
  }

  /** The result on a concatenation is the concatenation of the results. */
  lemma {:induction false} CollectAppend<A, B>(f: A -> Option<B>, a: seq<A>, b: seq<A>)
    ensures Collect(f, a + b) == Collect(f, a) + Collect(f, b)
    decreases |b|
  {
    if b == [] {
      assert a + b == a;
    } else {
      assert (a + b)[..|a + b| - 1] == a + b[..|b| - 1];
      CollectAppend(f, a, b[..|b| - 1]);
    }
  }

  /** An element in the middle contributes its own result, or nothing, in its place. */
  lemma CollectOne<A, B>(f: A -> Option<B>, a: seq<A>, x: A, b: seq<A>)
    ensures Collect(f, a + [x] + b) ==
      Collect(f, a) + (if f(x).Some? then [f(x).value] else []) + Collect(f, b)
  {
    CollectAppend(f, a + [x], b);
    CollectAppend(f, a, [x]);
    assert [x][..0] == [];
  }

  /** Every result is the result of some element. */
  lemma {:induction false} CollectFrom<A, B>(f: A -> Option<B>, xs: seq<A>, y: B)
    requires y in Collect(f, xs)
    ensures exists i | 0 <= i < |xs| :: f(xs[i]) == Some(y)
  {
    var init := xs[..|xs| - 1];
    if y in Collect(f, init) {
      CollectFrom(f, init, y);
      var i :| 0 <= i < |init| && f(init[i]) == Some(y);
      assert xs[i] == init[i];
    } else {
      assert f(xs[|xs| - 1]) == Some(y);
    }
  }

  /** `[f(i, x) for i, x in enumerate(xs)]`. */
  function MapIndexed<A, B>(f: (nat, A) -> B, xs: seq<A>): (r: seq<B>)
    ensures |r| == |xs|
  {
    if xs == [] then [] else MapIndexed(f, xs[..|xs| - 1]) + [f(|xs| - 1, xs[|xs| - 1])]
  }

  /** Element `i` of the result is `f` at `i`. */
  lemma {:induction false} MapIndexedAt<A, B>(f: (nat, A) -> B, xs: seq<A>, i: nat)
    requires i < |xs|
    ensures MapIndexed(f, xs)[i] == f(i, xs[i])
  {
    var init := xs[..|xs| - 1];
    if i < |init| {
      MapIndexedAt(f, init, i);
      assert init[i] == xs[i];
    }
  }

  /** A non-empty sequence is its first element followed by the rest. */
  lemma SplitFirst<T>(s: seq<T>)
    requires s != []
    ensures s == [s[0]] + s[1..]
  {
  }

  /** The first element and the rest of `[x] + s`. */
  lemma ConsParts<T>(x: T, s: seq<T>)
    ensures ([x] + s)[0] == x && ([x] + s)[1..] == s
  {
  }

  /** Concatenation is associative. */
  lemma AppendAssoc<T>(x: seq<T>, y: seq<T>, z: seq<T>)
    ensures (x + y) + z == x + (y + z)
  {
  }

  /** All but the last element, and the last element, of `a + b` when `b` is not empty. */
  lemma AppendInit<T>(a: seq<T>, b: seq<T>)
    requires b != []
    ensures (a + b)[..|a + b| - 1] == a + b[..|b| - 1]
    ensures (a + b)[|a + b| - 1] == b[|b| - 1]
  {
  }
}
