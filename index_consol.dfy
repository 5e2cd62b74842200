/**
 * `_consol` (crypto/brti_aws_setup/brti_mimick_new.py lines 141-149): the
 * venues' levels are summed per price into one book, bids highest price
 * first and asks lowest price first.
 */
module IndexConsolidation {
  import opened Optional
  import opened Dicts
  import opened Sorting
  import opened IndexBook

  datatype Side = BidSide | AskSide

  function SideLevels(b: Book, side: Side): seq<Level> {
    if side == BidSide then b.bids else b.asks
  }

  /** The levels of one side of every venue, venue by venue, as the loop visits them. */
  function AllLevels(vs: seq<Venue>, side: Side): seq<Level> {
    if vs == [] then [] else AllLevels(vs[..|vs| - 1], side) + SideLevels(vs[|vs| - 1].1, side)
  }

  /** The size quoted at price `p` in a list of levels, summed. */
  function SizeAt(ls: seq<Level>, p: real): real {
    if ls == [] then 0.0
    else SizeAt(ls[..|ls| - 1], p) + (if ls[|ls| - 1].0 == p then ls[|ls| - 1].1 else 0.0)
  }

  /** The size every venue quotes at `p` on `side`, venue by venue. */
  function TotalSize(vs: seq<Venue>, side: Side, p: real): real {
    if vs == [] then 0.0 else TotalSize(vs[..|vs| - 1], side, p) + SizeAt(SideLevels(vs[|vs| - 1].1, side), p)
  }

  /**
   * `m[p] += s` on a `defaultdict(float)`: an existing price keeps its place
   * and gains the size, a new price is appended with it.
   */
  function AddLevel(m: Dict<real, real>, l: Level): Dict<real, real> {
    if m == [] then [l]
    else if m[0].0 == l.0 then [(l.0, m[0].1 + l.1)] + m[1..]
    else [m[0]] + AddLevel(m[1..], l)
  }

  /** `AddLevel` is the dict update `m[p] = m.get(p, 0.0) + s`. */
  lemma {:induction false} AddLevelIsSet(m: Dict<real, real>, l: Level)
    ensures AddLevel(m, l) == Set(m, l.0, GetOr(m, l.0, 0.0) + l.1)
  {
    if m != [] && m[0].0 != l.0 {
      var v := GetOr(m, l.0, 0.0) + l.1;
      assert GetOr(m, l.0, 0.0) == GetOr(m[1..], l.0, 0.0);
      AddLevelIsSet(m[1..], l);
    }
  }

  /** The accumulated `defaultdict` after adding `ls` in order. */
  function Merge(ls: seq<Level>): Dict<real, real>
  {
    if ls == [] then [] else AddLevel(Merge(ls[..|ls| - 1]), ls[|ls| - 1])
  }

  /** `-x[0]` as a sort key, and `x[0]`. */
  predicate PriceDesc(a: Level, b: Level) {
    a.0 > b.0
  }

  predicate PriceAsc(a: Level, b: Level) {
    a.0 < b.0
  }

  function Order(side: Side): (Level, Level) -> bool {
    if side == BidSide then PriceDesc else PriceAsc
  }

  /** `p` comes strictly before `q` in the consolidated side. */
  predicate Before(side: Side, p: real, q: real) {
    if side == BidSide then p > q else p < q
  }

  ghost predicate Strict(side: Side, ls: seq<Level>) {
    forall i, j :: 0 <= i < j < |ls| ==> Before(side, ls[i].0, ls[j].0)
  }

  /** One side of `_consol`'s result. */
  function Consolidated(vs: seq<Venue>, side: Side): seq<Level> {
    SortBy(Merge(AllLevels(vs, side)), Order(side))
  }

  /**
   * `_consol`: the loop over the venues fills the two dicts, then each is
   * sorted by price.
   */
  method Consolidate(vs: seq<Venue>) returns (bids: seq<Level>, asks: seq<Level>)
    ensures bids == Consolidated(vs, BidSide)
    ensures asks == Consolidated(vs, AskSide)
  {
    var bmap: Dict<real, real> := [];
    var amap: Dict<real, real> := [];
    for v := 0 to |vs|
      invariant bmap == Merge(AllLevels(vs[..v], BidSide))
      invariant amap == Merge(AllLevels(vs[..v], AskSide))
    {
      assert vs[..v + 1][..v] == vs[..v];
      bmap := AddLevels(bmap, AllLevels(vs[..v], BidSide), vs[v].1.bids);
      amap := AddLevels(amap, AllLevels(vs[..v], AskSide), vs[v].1.asks);
    }
    assert vs[..|vs|] == vs;
    bids := SortBy(bmap, PriceDesc);
    asks := SortBy(amap, PriceAsc);
  }

  /** `for p, s in levels: m[p] += s`, on a dict that already holds `before`. */
  method AddLevels(m: Dict<real, real>, before: seq<Level>, levels: seq<Level>) returns (r: Dict<real, real>)
    requires m == Merge(before)
    ensures r == Merge(before + levels)
  {
    r := m;
    assert before + levels[..0] == before;
    for i := 0 to |levels|
      invariant r == Merge(before + levels[..i])
    {
      ghost var done := before + levels[..i];
      var x := levels[i];
      assert before + levels[..i + 1] == done + [x];
      MergeSnoc(done, x);
      r := AddLevel(r, x);
    }
    assert levels[..|levels|] == levels;
  }

  lemma MergeSnoc(ls: seq<Level>, x: Level)
    ensures Merge(ls + [x]) == AddLevel(Merge(ls), x)
  {
    assert (ls + [x])[..|ls|] == ls;
  }

  lemma KeysSnoc(ls: seq<Level>)
    requires ls != []
    ensures Keys(ls) == Keys(ls[..|ls| - 1]) + {ls[|ls| - 1].0}
  {
    var init := ls[..|ls| - 1];
    forall x | x in Keys(ls) ensures x in Keys(init) + {ls[|ls| - 1].0} {
      var i :| 0 <= i < |ls| && ls[i].0 == x;
      if i < |init| { assert init[i].0 == x; }
    }
    forall x | x in Keys(init) ensures x in Keys(ls) {
      var i :| 0 <= i < |init| && init[i].0 == x;
      assert ls[i].0 == x;
    }
  }

  /** The dict holds each quoted price once, with the sum of its sizes. */
  lemma {:induction false} MergeSums(ls: seq<Level>)
    ensures UniqueKeys(Merge(ls))
    ensures Keys(Merge(ls)) == Keys(ls)
    ensures forall p :: GetOr(Merge(ls), p, 0.0) == SizeAt(ls, p)
  {
    MergeKeys(ls);
    MergeSizes(ls);
  }

  lemma {:induction false} MergeKeys(ls: seq<Level>)
    ensures UniqueKeys(Merge(ls))
    ensures Keys(Merge(ls)) == Keys(ls)
  {
    if ls != [] {
      var init := ls[..|ls| - 1];
      MergeKeys(init);
      KeysSnoc(ls);
      var x := ls[|ls| - 1];
      var before := Merge(init);
      AddLevelIsSet(before, x);
      SetKeys(before, x.0, GetOr(before, x.0, 0.0) + x.1);
    }
  }

  lemma {:induction false} MergeSizes(ls: seq<Level>)
    ensures forall p :: GetOr(Merge(ls), p, 0.0) == SizeAt(ls, p)
  {
    if ls != [] {
      var init := ls[..|ls| - 1];
      MergeSizes(init);
      var x := ls[|ls| - 1];
      var before := Merge(init);
      var v := GetOr(before, x.0, 0.0) + x.1;
      AddLevelIsSet(before, x);
      SetGet(before, x.0, v);
      forall p ensures GetOr(Merge(ls), p, 0.0) == SizeAt(ls, p) {
        if p == x.0 {
          assert Get(Merge(ls), p) == Some(v);
        } else {
          assert Get(Merge(ls), p) == Get(before, p);
        }
      }
    }
  }

  lemma {:induction false} SizeAtAppend(a: seq<Level>, b: seq<Level>, p: real)
    ensures SizeAt(a + b, p) == SizeAt(a, p) + SizeAt(b, p)
  {
    if b == [] {
      assert a + b == a;
    } else {
      assert (a + b)[..|a + b| - 1] == a + b[..|b| - 1];
      SizeAtAppend(a, b[..|b| - 1], p);
    }
  }

  /** Summing the concatenated levels is summing venue by venue. */
  lemma {:induction false} AllLevelsSize(vs: seq<Venue>, side: Side, p: real)
    ensures SizeAt(AllLevels(vs, side), p) == TotalSize(vs, side, p)
  {
    if vs != [] {
      AllLevelsSize(vs[..|vs| - 1], side, p);
      SizeAtAppend(AllLevels(vs[..|vs| - 1], side), SideLevels(vs[|vs| - 1].1, side), p);
    }
  }

  /** Inserting a new price into a strictly ordered side keeps it strict. */
  lemma {:induction false} InsertStrict(x: Level, s: seq<Level>, side: Side)
    requires Strict(side, s) && x.0 !in Keys(s)
    ensures Strict(side, InsertBy(x, s, Order(side)))
    ensures Keys(InsertBy(x, s, Order(side))) == Keys(s) + {x.0}
  {
    var lt := Order(side);
    InsertKeys(x, s, lt);
    if s == [] || !lt(s[0], x) {
      PrependStrict(x, s, side);
    } else {
      KeysCons(s);
      assert Strict(side, s[1..]) by {
        forall i, j | 0 <= i < j < |s[1..]| ensures Before(side, s[1..][i].0, s[1..][j].0) {
          assert s[1..][i] == s[i + 1] && s[1..][j] == s[j + 1];
        }
      }
      var tail := InsertBy(x, s[1..], lt);
      InsertStrict(x, s[1..], side);
      var r := [s[0]] + tail;
      forall k | 0 <= k < |tail| ensures Before(side, s[0].0, tail[k].0) {
        assert tail[k].0 in Keys(tail);
        if tail[k].0 != x.0 {
          var m :| 0 <= m < |s[1..]| && s[1..][m].0 == tail[k].0;
          assert s[m + 1].0 == tail[k].0;
        }
      }
      forall i, j | 0 <= i < j < |r| ensures Before(side, r[i].0, r[j].0) {
        if i > 0 { assert r[i] == tail[i - 1] && r[j] == tail[j - 1]; }
        else { assert r[j] == tail[j - 1]; }
      }
    }
  }

  /** A price ahead of a strict side's first price, and new to it, can go first. */
  lemma PrependStrict(x: Level, s: seq<Level>, side: Side)
    requires Strict(side, s) && x.0 !in Keys(s)
    requires s != [] ==> !Order(side)(s[0], x)
    ensures Strict(side, [x] + s)
  {
    var r := [x] + s;
    forall k | 0 <= k < |s| ensures Before(side, x.0, s[k].0) {
      assert s[k].0 in Keys(s);
      if k > 0 {
        assert Before(side, s[0].0, s[k].0);
      }
    }
    forall i, j | 0 <= i < j < |r| ensures Before(side, r[i].0, r[j].0) {
      if i > 0 { assert r[i] == s[i - 1] && r[j] == s[j - 1]; }
      else { assert r[j] == s[j - 1]; }
    }
  }

  /** Inserting a level adds its price to the prices. */
  lemma {:induction false} InsertKeys(x: Level, s: seq<Level>, lt: (Level, Level) -> bool)
    ensures Keys(InsertBy(x, s, lt)) == Keys(s) + {x.0}
  {
    var r := InsertBy(x, s, lt);
    KeysCons(r);
    if s == [] || !lt(s[0], x) {
      assert r[1..] == s;
    } else {
      KeysCons(s);
      InsertKeys(x, s[1..], lt);
      assert r[1..] == InsertBy(x, s[1..], lt);
    }
  }

  /** Sorting a dict by price gives a strictly ordered side with the same prices. */
  lemma {:induction false} SortStrict(d: Dict<real, real>, side: Side)
    requires UniqueKeys(d)
    ensures Strict(side, SortBy(d, Order(side)))
    ensures Keys(SortBy(d, Order(side))) == Keys(d)
  {
    if d != [] {
      KeysCons(d);
      SortStrict(d[1..], side);
      InsertStrict(d[0], SortBy(d[1..], Order(side)), side);
    }
  }

  lemma StrictUnique(side: Side, ls: seq<Level>)
    requires Strict(side, ls)
    ensures UniqueKeys(ls)
  {
  }

  lemma GetMember(d: Dict<real, real>, p: real, v: real)
    requires UniqueKeys(d) && (p, v) in d
    ensures Get(d, p) == Some(v)
  {
    var i :| 0 <= i < |d| && d[i] == (p, v);
    GetStored(d, i);
  }

  /**
   * What `_consol` promises: each side lists every price any venue quotes
   * on it exactly once, strictly from the best price outwards, with the sum
   * over the venues of the size quoted there; and it is empty only when no
   * venue quotes that side.
   */
  lemma ConsolidatedProperties(vs: seq<Venue>, side: Side)
    ensures Strict(side, Consolidated(vs, side))
    ensures Keys(Consolidated(vs, side)) == Keys(AllLevels(vs, side))
    ensures forall i :: 0 <= i < |Consolidated(vs, side)| ==>
      Consolidated(vs, side)[i].1 == TotalSize(vs, side, Consolidated(vs, side)[i].0)
    ensures Consolidated(vs, side) == [] <==> AllLevels(vs, side) == []
  {
    var ls := AllLevels(vs, side);
    var m := Merge(ls);
    var c := Consolidated(vs, side);
    MergeSums(ls);
    SortStrict(m, side);
    SortByPermutes(m, Order(side));
    StrictUnique(side, c);
    forall i | 0 <= i < |c| ensures c[i].1 == TotalSize(vs, side, c[i].0) {
      assert c[i] in multiset(m);
      GetMember(m, c[i].0, c[i].1);
      AllLevelsSize(vs, side, c[i].0);
    }
    if ls != [] {
      assert ls[0].0 in Keys(ls);
    }
  }
}
