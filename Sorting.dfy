/** Python's `sorted(items, key=..., reverse=True)`: a stable sort into
    non-increasing key order. The key order is given as `geq(a, b)`, "a's key is
    at least b's key", which must be a total preorder on the items sorted.
    Stability means that items with equal keys keep their input order. */
module Sorting {

  /** `geq` is a total preorder on the items of `s`. */
  ghost predicate TotalPreorderOn<T>(s: seq<T>, geq: (T, T) -> bool)
  {
    && (forall a, b :: a in s && b in s ==> geq(a, b) || geq(b, a))
    && (forall a, b, c :: a in s && b in s && c in s && geq(a, b) && geq(b, c) ==> geq(a, c))
  }

  lemma PreorderOnSub<T>(s: seq<T>, t: seq<T>, geq: (T, T) -> bool)
    requires TotalPreorderOn(s, geq)
    requires forall a :: a in t ==> a in s
    ensures TotalPreorderOn(t, geq)
  {
  }

  /** Every item ranks at least as high as every later item. */
  ghost predicate SortedDesc<T>(s: seq<T>, geq: (T, T) -> bool)
  {
    forall i, j :: 0 <= i < j < |s| ==> geq(s[i], s[j])
  }

  /** The items whose key equals that of `p`, in order. */
  function SameKey<T>(s: seq<T>, p: T, geq: (T, T) -> bool): seq<T>
  {
    if s == [] then []
    else if geq(s[0], p) && geq(p, s[0]) then [s[0]] + SameKey(s[1..], p, geq)
    else SameKey(s[1..], p, geq)
  }

  /** Inserts `x` before the first item whose key is not above `x`'s. */
  function Insert<T>(x: T, s: seq<T>, geq: (T, T) -> bool): (r: seq<T>)
    ensures multiset(r) == multiset(s) + multiset{x}
    ensures |r| == |s| + 1
  {
    if s == [] then [x]
    else if geq(x, s[0]) then [x] + s
    else
      assert s == [s[0]] + s[1..];
      [s[0]] + Insert(x, s[1..], geq)
  }

  /** The stable descending sort, by insertion from the back. */
  function SortDesc<T>(s: seq<T>, geq: (T, T) -> bool): (r: seq<T>)
    ensures multiset(r) == multiset(s)
    ensures |r| == |s|
  {
    if s == [] then []
    else
      assert s == [s[0]] + s[1..];
      Insert(s[0], SortDesc(s[1..], geq), geq)
  }

  lemma {:induction false} InsertSorted<T>(x: T, s: seq<T>, geq: (T, T) -> bool)
    requires TotalPreorderOn([x] + s, geq)
    requires SortedDesc(s, geq)
    ensures SortedDesc(Insert(x, s, geq), geq)
  {
    if s != [] && !geq(x, s[0]) {
      assert x in [x] + s && s[0] in [x] + s;
      PreorderOnSub([x] + s, [x] + s[1..], geq);
      InsertSorted(x, s[1..], geq);
      var r := Insert(x, s[1..], geq);
      assert geq(s[0], x);
      forall k | 0 <= k < |r| ensures geq(s[0], r[k]) {
        assert r[k] in multiset(r);
        assert r[k] in multiset(s[1..]) + multiset{x};
        if r[k] != x {
          assert r[k] in s[1..];
        }
      }
    }
  }

  /** The result is sorted into non-increasing key order. */
  lemma {:induction false} SortDescSorted<T>(s: seq<T>, geq: (T, T) -> bool)
    requires TotalPreorderOn(s, geq)
    ensures SortedDesc(SortDesc(s, geq), geq)
  {
    if s != [] {
      PreorderOnSub(s, s[1..], geq);
      SortDescSorted(s[1..], geq);
      var r := SortDesc(s[1..], geq);
      forall a | a in [s[0]] + r ensures a in s {
        if a != s[0] {
          assert a in multiset(r);
        }
      }
      PreorderOnSub(s, [s[0]] + r, geq);
      InsertSorted(s[0], r, geq);
    }
  }

  lemma {:induction false} SameKeyInsert<T>(x: T, s: seq<T>, p: T, geq: (T, T) -> bool)
    requires TotalPreorderOn([x, p] + s, geq)
    ensures SameKey(Insert(x, s, geq), p, geq) ==
            (if geq(x, p) && geq(p, x) then [x] + SameKey(s, p, geq) else SameKey(s, p, geq))
  {
    if s != [] && !geq(x, s[0]) {
      PreorderOnSub([x, p] + s, [x, p] + s[1..], geq);
      SameKeyInsert(x, s[1..], p, geq);
      assert [s[0]] + Insert(x, s[1..], geq) == Insert(x, s, geq);
      // s[0] ranks strictly above x, so it cannot share x's key
      assert x in [x, p] + s && p in [x, p] + s && s[0] in [x, p] + s;
      assert (geq(x, p) && geq(p, x)) ==> !(geq(s[0], p) && geq(p, s[0]));
    }
  }

  /** Stability: the items of any one key appear in their input order. */
  lemma {:induction false} SortDescStable<T>(s: seq<T>, p: T, geq: (T, T) -> bool)
    requires TotalPreorderOn([p] + s, geq)
    ensures SameKey(SortDesc(s, geq), p, geq) == SameKey(s, p, geq)
  {
    if s != [] {
      PreorderOnSub([p] + s, [p] + s[1..], geq);
      SortDescStable(s[1..], p, geq);
      var r := SortDesc(s[1..], geq);
      forall a | a in [s[0], p] + r ensures a in [p] + s {
        if a != s[0] && a != p {
          assert a in multiset(r);
        }
      }
      PreorderOnSub([p] + s, [s[0], p] + r, geq);
      SameKeyInsert(s[0], r, p, geq);
    }
  }
}
