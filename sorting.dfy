/**
 * Python's `sorted(xs, key=...)` and `sorted(xs, reverse=True)`.
 *
 * `SortBy` is an insertion sort over a "strictly less" relation. It is
 * proved to return a permutation of its input (`SortByPermutes`) that is in
 * order (`SortBySorted`) and keeps tied elements in their input order, as
 * Python's stable sort does (`SortByStable`). A descending sort
 * (`key=lambda x: -x[0]` or `reverse=True`) is `SortBy` with the relation
 * turned around.
 */
module Sorting {

  /** Asymmetric, and "not less than" is transitive: what a sort key gives. */
  ghost predicate StrictWeakOrder<T(!new)>(lt: (T, T) -> bool) {
    && (forall a, b :: lt(a, b) ==> !lt(b, a))
    && (forall a, b, c :: !lt(a, b) && !lt(b, c) ==> !lt(a, c))
  }

  /** No element is strictly less than an element before it. */
  ghost predicate SortedBy<T>(s: seq<T>, lt: (T, T) -> bool) {
    forall i, j :: 0 <= i < j < |s| ==> !lt(s[j], s[i])
  }

  /** Puts `x` after the elements strictly less than it, before all others. */
  function InsertBy<T>(x: T, s: seq<T>, lt: (T, T) -> bool): (r: seq<T>)
    ensures |r| == |s| + 1
  {
    if s == [] || !lt(s[0], x) then [x] + s
    else [s[0]] + InsertBy(x, s[1..], lt)
  }

  function SortBy<T>(s: seq<T>, lt: (T, T) -> bool): (r: seq<T>)
    ensures |r| == |s|
  {
    if s == [] then [] else InsertBy(s[0], SortBy(s[1..], lt), lt)
  }

  /** Inserting adds exactly the one element. */
  lemma {:induction false} InsertByPermutes<T>(x: T, s: seq<T>, lt: (T, T) -> bool)
    ensures multiset(InsertBy(x, s, lt)) == multiset(s) + multiset{x}
  {
    if s != [] && lt(s[0], x) {
      InsertByPermutes(x, s[1..], lt);
      assert s == [s[0]] + s[1..];
    }
  }

  /** The sort is a permutation of its input. */
  lemma {:induction false} SortByPermutes<T>(s: seq<T>, lt: (T, T) -> bool)
    ensures multiset(SortBy(s, lt)) == multiset(s)
  {
    if s != [] {
      SortByPermutes(s[1..], lt);
      InsertByPermutes(s[0], SortBy(s[1..], lt), lt);
      assert s == [s[0]] + s[1..];
    }
  }

  lemma {:induction false} InsertBySorted<T(!new)>(x: T, s: seq<T>, lt: (T, T) -> bool)
    requires StrictWeakOrder(lt) && SortedBy(s, lt)
    ensures SortedBy(InsertBy(x, s, lt), lt)
  {
    if s == [] || !lt(s[0], x) {
      var r := [x] + s;
      forall i, j | 0 <= i < j < |r| ensures !lt(r[j], r[i]) {
        if i == 0 && j > 1 {
          assert !lt(s[j - 1], s[0]);
        }
      }
    } else {
      var tail := InsertBy(x, s[1..], lt);
      var r := [s[0]] + tail;
      assert SortedBy(tail, lt) by {
        InsertBySorted(x, s[1..], lt);
      }
      assert forall j :: 0 <= j < |tail| ==> !lt(tail[j], s[0]) by {
        InsertedNotBelowHead(x, s, lt);
      }
      forall i, j | 0 <= i < j < |r| ensures !lt(r[j], r[i]) {
        if i > 0 {
          assert r[i] == tail[i - 1] && r[j] == tail[j - 1];
        } else {
          assert r[j] == tail[j - 1];
        }
      }
    }
  }

  /** Inserting past the head of a sorted list puts nothing below that head. */
  lemma InsertedNotBelowHead<T(!new)>(x: T, s: seq<T>, lt: (T, T) -> bool)
    requires StrictWeakOrder(lt) && SortedBy(s, lt)
    requires s != [] && lt(s[0], x)
    ensures forall j :: 0 <= j < |InsertBy(x, s[1..], lt)| ==> !lt(InsertBy(x, s[1..], lt)[j], s[0])
  {
    var tail := InsertBy(x, s[1..], lt);
    InsertByPermutes(x, s[1..], lt);
    forall j | 0 <= j < |tail| ensures !lt(tail[j], s[0]) {
      assert tail[j] in multiset(tail);
      if tail[j] != x {
        assert tail[j] in multiset(s[1..]);
        var k :| 0 <= k < |s[1..]| && s[1..][k] == tail[j];
        assert s[k + 1] == tail[j];
      }
    }
  }

  /** The sort puts its result in order. */
  lemma {:induction false} SortBySorted<T(!new)>(s: seq<T>, lt: (T, T) -> bool)
    requires StrictWeakOrder(lt)
    ensures SortedBy(SortBy(s, lt), lt)
  {
    if s != [] {
      SortBySorted(s[1..], lt);
      InsertBySorted(s[0], SortBy(s[1..], lt), lt);
    }
  }

  /** Sorting what is already in order changes nothing (stability). */
  lemma {:induction false} SortBySortedIsIdentity<T>(s: seq<T>, lt: (T, T) -> bool)
    requires SortedBy(s, lt)
    ensures SortBy(s, lt) == s
  {
    if s != [] {
      assert SortedBy(s[1..], lt) by {
        forall i, j | 0 <= i < j < |s[1..]| ensures !lt(s[1..][j], s[1..][i]) {
          assert s[1..][j] == s[j + 1] && s[1..][i] == s[i + 1];
        }
      }
      SortBySortedIsIdentity(s[1..], lt);
      if |s| > 1 {
        assert !lt(s[1], s[0]);
      }
      assert s == [s[0]] + s[1..];
    }
  }

  /** The elements of `s` that `lt` ranks neither above nor below `k`, in order. */
  function Equivalents<T>(s: seq<T>, lt: (T, T) -> bool, k: T): seq<T> {
    if s == [] then []
    else (if Ties(lt, s[0], k) then [s[0]] else []) + Equivalents(s[1..], lt, k)
  }

  /** Whether `lt` ranks `a` neither above nor below `k`. */
  predicate Ties<T>(lt: (T, T) -> bool, a: T, k: T) {
    !lt(a, k) && !lt(k, a)
  }

  /** Inserting puts `x` ahead of every element it ties with. */
  lemma {:induction false} InsertByStable<T(!new)>(x: T, s: seq<T>, lt: (T, T) -> bool, k: T)
    requires StrictWeakOrder(lt)
    ensures Equivalents(InsertBy(x, s, lt), lt, k)
         == (if Ties(lt, x, k) then [x] else []) + Equivalents(s, lt, k)
  {
    var r := InsertBy(x, s, lt);
    var hx: seq<T> := if Ties(lt, x, k) then [x] else [];
    if s == [] || !lt(s[0], x) {
      assert r == [x] + s;
      assert r[1..] == s;
    } else {
      var h0: seq<T> := if Ties(lt, s[0], k) then [s[0]] else [];
      var rest := Equivalents(s[1..], lt, k);
      assert r[0] == s[0] && r[1..] == InsertBy(x, s[1..], lt);
      assert Equivalents(r[1..], lt, k) == hx + rest by {
        InsertByStable(x, s[1..], lt, k);
      }
      assert Equivalents(r, lt, k) == h0 + (hx + rest);
      assert Equivalents(s, lt, k) == h0 + rest;
      if Ties(lt, x, k) {
        assert h0 == [] by {
          BelowATieIsBelow(lt, s[0], x, k);
        }
      }
    }
  }

  /** Below an element that ties with `k` is below `k`. */
  lemma BelowATieIsBelow<T(!new)>(lt: (T, T) -> bool, a: T, x: T, k: T)
    requires StrictWeakOrder(lt)
    requires lt(a, x) && Ties(lt, x, k)
    ensures lt(a, k)
  {
  }

  /** The sort is stable: elements that tie keep their input order. */
  lemma {:induction false} SortByStable<T(!new)>(s: seq<T>, lt: (T, T) -> bool, k: T)
    requires StrictWeakOrder(lt)
    ensures Equivalents(SortBy(s, lt), lt, k) == Equivalents(s, lt, k)
  {
    if s != [] {
      SortByStable(s[1..], lt, k);
      InsertByStable(s[0], SortBy(s[1..], lt), lt, k);
    }
  }

  /** Python's string comparison: lexicographic by code point, a proper prefix first. */
  predicate StringLt(a: string, b: string) {
    if a == [] then b != []
    else if b == [] then false
    else if a[0] != b[0] then a[0] < b[0]
    else StringLt(a[1..], b[1..])
  }

  lemma {:induction false} StringLtTotal(a: string, b: string)
    ensures StringLt(a, b) ==> !StringLt(b, a)
    ensures !StringLt(a, b) ==> a == b || StringLt(b, a)
  {
    if a != [] && b != [] && a[0] == b[0] {
      StringLtTotal(a[1..], b[1..]);
      if a[1..] == b[1..] {
        assert a == [a[0]] + a[1..] && b == [b[0]] + b[1..];
      }
    }
  }

  lemma {:induction false} StringLtTransitive(a: string, b: string, c: string)
    requires StringLt(a, b) && StringLt(b, c)
    ensures StringLt(a, c)
  {
    if a != [] && a[0] == b[0] && b[0] == c[0] {
      StringLtTransitive(a[1..], b[1..], c[1..]);
    }
  }

  lemma StringLtIsStrictWeakOrder()
    ensures StrictWeakOrder(StringLt)
  {
    forall a, b | StringLt(a, b) ensures !StringLt(b, a) {
      StringLtTotal(a, b);
    }
    forall a, b, c | !StringLt(a, b) && !StringLt(b, c) ensures !StringLt(a, c) {
      StringLtTotal(a, b);
      StringLtTotal(b, c);
      StringLtTotal(a, c);
      if StringLt(c, b) && StringLt(b, a) {
        StringLtTransitive(c, b, a);
      }
    }
  }
}
