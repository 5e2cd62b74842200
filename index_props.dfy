/**
 * What `calc` promises about its result
 * (crypto/brti_aws_setup/brti_mimick_new.py lines 169-195).
 */
module IndexProperties {
  import opened Optional
  import opened Dicts
  import opened Sorting
  import opened IndexBook
  import opened IndexFilters
  import opened IndexConsolidation
  import opened IndexCap
  import opened IndexCurve
  import opened IndexCalc

  /** Every level of every venue has a positive size, as `BuildBook` ensures. */
  ghost predicate PositiveSizes(vs: seq<Venue>) {
    forall v, l :: v in vs && (l in v.1.bids || l in v.1.asks) ==> l.1 > 0.0
  }

  /** Every level of every venue is priced within [lo, hi]. */
  ghost predicate PricesWithin(vs: seq<Venue>, lo: real, hi: real) {
    forall v, l :: v in vs && (l in v.1.bids || l in v.1.asks) ==> lo <= l.0 <= hi
  }

  lemma {:induction false} AllLevelsFrom(vs: seq<Venue>, side: Side, l: Level)
    requires l in AllLevels(vs, side)
    ensures exists v :: v in vs && l in SideLevels(v.1, side)
  {
    var init := vs[..|vs| - 1];
    var last := vs[|vs| - 1];
    if l in AllLevels(init, side) {
      AllLevelsFrom(init, side, l);
      var v :| v in init && l in SideLevels(v.1, side);
      assert v in vs;
    } else {
      assert l in SideLevels(last.1, side);
    }
  }

  lemma {:induction false} AllLevelsCovers(vs: seq<Venue>, side: Side, i: nat)
    requires i < |vs|
    ensures |AllLevels(vs, side)| >= |SideLevels(vs[i].1, side)|
  {
    if i < |vs| - 1 {
      AllLevelsCovers(vs[..|vs| - 1], side, i);
    }
  }

  /** A venue that passes both filters comes from `vs`. */
  lemma OkVenuesFromBooks(vs: seq<Venue>, now: int)
    ensures forall v :: v in OkVenues(vs, now) ==> v in vs && Usable(v.1, now)
    ensures FreshVenues(vs, now) != [] ==>
      forall v :: v in OkVenues(vs, now) <==>
        v in vs && Usable(v.1, now) && InBand(Mid(v.1), Median(Mids(FreshVenues(vs, now))))
  {
  }

  /** A venue with levels on both sides makes both consolidated sides non-empty. */
  lemma ConsolidatedNonEmpty(ok: seq<Venue>)
    requires ok != [] && TwoSided(ok[0].1)
    ensures |Consolidated(ok, BidSide)| > 0 && |Consolidated(ok, AskSide)| > 0
  {
    AllLevelsCovers(ok, BidSide, 0);
    AllLevelsCovers(ok, AskSide, 0);
    ConsolidatedProperties(ok, BidSide);
    ConsolidatedProperties(ok, AskSide);
  }

  /** Clipped non-empty sides give non-empty cumulative curves. */
  lemma ClippedNeverRaises(cb: seq<Level>, ca: seq<Level>, ok: seq<Venue>, exp: real -> real)
    requires |cb| > 0 && |ca| > 0
    ensures ClippedIndex(cb, ca, ok, exp) != Raised
  {
  }

  /** The cap is defined for any accepted venues: the sample has a bid and an ask. */
  lemma CapDefinedOnAccepted(ok: seq<Venue>, sqrt: real -> real)
    requires ok != [] && TwoSided(ok[0].1)
    ensures CapOf(Consolidated(ok, BidSide), Consolidated(ok, AskSide), sqrt).Some?
  {
    ConsolidatedNonEmpty(ok);
    CapRaisesOnlyOnOneSize(Consolidated(ok, BidSide), Consolidated(ok, AskSide), sqrt);
  }

  lemma IndexOfClipped(ok: seq<Venue>, num: Numerics, cap: real)
    requires CapOf(Consolidated(ok, BidSide), Consolidated(ok, AskSide), num.sqrt) == Some(cap) && cap != 0.0
    ensures IndexOf(ok, num) == ClippedIndex(Clip(Consolidated(ok, BidSide), cap), Clip(Consolidated(ok, AskSide), cap), ok, num.exp)
  {
  }

  /** Past the filters nothing raises: an accepted venue has both sides. */
  lemma IndexOfNeverRaises(ok: seq<Venue>, num: Numerics)
    requires ok != [] && TwoSided(ok[0].1)
    ensures IndexOf(ok, num) != Raised
  {
    CapDefinedOnAccepted(ok, num.sqrt);
    var cap := CapOf(Consolidated(ok, BidSide), Consolidated(ok, AskSide), num.sqrt).value;
    if cap != 0.0 {
      IndexOfClipped(ok, num, cap);
      ConsolidatedNonEmpty(ok);
      ClippedNeverRaises(Clip(Consolidated(ok, BidSide), cap), Clip(Consolidated(ok, AskSide), cap), ok, num.exp);
    }
  }

  lemma OkVenuesInBooks(vs: seq<Venue>, now: int)
    ensures forall i :: 0 <= i < |OkVenues(vs, now)| ==> OkVenues(vs, now)[i] in vs
  {
    var ok := OkVenues(vs, now);
    forall i | 0 <= i < |ok| ensures ok[i] in vs {
      assert ok[i] in ok;
      OkVenuesFromBooks(vs, now);
    }
  }

  /**
   * `calc` raises exactly when a fresh book has an empty side: a venue that
   * passes the filters has levels on both sides, so the sample has at least
   * two sizes and neither cumulative curve is empty.
   */
  lemma CalcRaisesOnlyOnOneSidedBook(vs: seq<Venue>, now: int, num: Numerics)
    ensures CalcOf(vs, now, num) == Raised <==> FreshFilterFaults(vs, now)
  {
    if !FreshFilterFaults(vs, now) {
      var ok := OkVenues(vs, now);
      if ok != [] {
        IndexOfNeverRaises(ok, num);
      }
    }
  }

  /**
   * The venues reported with an index are the ids of the venues that passed
   * both filters, sorted as Python sorts strings.
   */
  lemma CalcReportsSortedVenues(vs: seq<Venue>, now: int, num: Numerics)
    requires CalcOf(vs, now, num).Index?
    ensures SortedBy(CalcOf(vs, now, num).venues, StringLt)
    ensures multiset(CalcOf(vs, now, num).venues) == multiset(Firsts(OkVenues(vs, now)))
  {
    var ids := Firsts(OkVenues(vs, now));
    CalcVenues(vs, now, num);
    StringLtIsStrictWeakOrder();
    SortBySorted(ids, StringLt);
    SortByPermutes(ids, StringLt);
  }

  lemma CalcVenues(vs: seq<Venue>, now: int, num: Numerics)
    requires CalcOf(vs, now, num).Index?
    ensures CalcOf(vs, now, num).venues == SortBy(Firsts(OkVenues(vs, now)), StringLt)
  {
    var ok := OkVenues(vs, now);
    assert CalcOf(vs, now, num) == IndexOf(ok, num);
  }

  lemma {:induction false} SizeAtPositive(ls: seq<Level>, p: real)
    requires forall l :: l in ls ==> l.1 > 0.0
    ensures SizeAt(ls, p) >= 0.0
    ensures p in Keys(ls) ==> SizeAt(ls, p) > 0.0
  {
    if ls != [] {
      var init := ls[..|ls| - 1];
      assert forall l :: l in init ==> l in ls;
      SizeAtPositive(init, p);
      KeysSnoc(ls);
    }
  }

  lemma AllLevelsPositive(vs: seq<Venue>, side: Side, ok: seq<Venue>)
    requires PositiveSizes(vs)
    requires forall v :: v in ok ==> v in vs
    ensures forall l :: l in AllLevels(ok, side) ==> l.1 > 0.0
  {
    forall l | l in AllLevels(ok, side) ensures l.1 > 0.0 {
      AllLevelsFrom(ok, side, l);
    }
  }

  /** Summed sizes of positive levels are positive. */
  lemma ConsolidatedPositive(vs: seq<Venue>, ok: seq<Venue>, side: Side)
    requires PositiveSizes(vs)
    requires forall v :: v in ok ==> v in vs
    ensures forall i :: 0 <= i < |Consolidated(ok, side)| ==> Consolidated(ok, side)[i].1 > 0.0
  {
    var c := Consolidated(ok, side);
    var ls := AllLevels(ok, side);
    ConsolidatedProperties(ok, side);
    AllLevelsPositive(vs, side, ok);
    forall i | 0 <= i < |c| ensures c[i].1 > 0.0 {
      assert c[i].0 in Keys(c);
      AllLevelsSize(ok, side, c[i].0);
      SizeAtPositive(ls, c[i].0);
    }
  }

  /**
   * With positive sizes and a non-negative square root the cap is positive
   * whenever some venue passes the filters: `cap == 0` never withholds the
   * index then.
   */
  lemma CapNeverWithholds(vs: seq<Venue>, ok: seq<Venue>, num: Numerics)
    requires PositiveSizes(vs)
    requires forall x :: num.sqrt(x) >= 0.0
    requires ok != [] && forall i :: 0 <= i < |ok| ==> TwoSided(ok[i].1) && ok[i] in vs
    ensures CapOf(Consolidated(ok, BidSide), Consolidated(ok, AskSide), num.sqrt).Some?
    ensures CapOf(Consolidated(ok, BidSide), Consolidated(ok, AskSide), num.sqrt).value > 0.0
  {
    assert forall v :: v in ok ==> v in vs;
    ConsolidatedPositive(vs, ok, BidSide);
    ConsolidatedPositive(vs, ok, AskSide);
    var bids := Consolidated(ok, BidSide);
    var asks := Consolidated(ok, AskSide);
    assert |Sample(bids, asks)| >= 2 by {
      ConsolidatedNonEmpty(ok);
    }
    CapPositive(bids, asks, num.sqrt);
  }

  /** Consolidated prices are prices some accepted venue quotes. */
  lemma ConsolidatedPricesWithin(vs: seq<Venue>, ok: seq<Venue>, side: Side, lo: real, hi: real)
    requires PricesWithin(vs, lo, hi)
    requires forall v :: v in ok ==> v in vs
    ensures forall i :: 0 <= i < |Consolidated(ok, side)| ==> lo <= Consolidated(ok, side)[i].0 <= hi
  {
    var c := Consolidated(ok, side);
    ConsolidatedProperties(ok, side);
    forall i | 0 <= i < |c| ensures lo <= c[i].0 <= hi {
      assert c[i].0 in Keys(c);
      var ls := AllLevels(ok, side);
      var k :| 0 <= k < |ls| && ls[k].0 == c[i].0;
      AllLevelsFrom(ok, side, ls[k]);
    }
  }

  /** Every point of the mid curve lies within [lo, hi] when the prices do. */
  lemma DepthWeightedWithin(cb: seq<Level>, ca: seq<Level>, bv: seq<real>, av: seq<real>, tot: real, exp: real -> real, lo: real, hi: real)
    requires |bv| == |cb| > 0 && |av| == |ca| > 0 && tot >= SPACING_VOL
    requires forall x :: exp(x) > 0.0
    requires forall i :: 0 <= i < |cb| ==> lo <= cb[i].0 <= hi
    requires forall i :: 0 <= i < |ca| ==> lo <= ca[i].0 <= hi
    ensures lo <= DepthWeighted(cb, ca, bv, av, tot, exp) <= hi
  {
    var grid := Grid(tot);
    GridCoversVolume(tot);
    var bc := Curve(bv, Firsts(cb), grid);
    var ac := Curve(av, Firsts(ca), grid);
    var mc := MidCurve(bc, ac);
    forall j | 0 <= j < |mc| ensures lo <= mc[j] <= hi {
      var bi :| 0 <= bi < |cb| && Firsts(cb)[bi] == bc[j];
      var ai :| 0 <= ai < |ca| && Firsts(ca)[ai] == ac[j];
    }
    var depth := Depth(grid, ac, mc);
    DepthAtLeastSpacing(grid, ac, mc);
    var used := Used(grid, mc, depth);
    UsedKeepsPoints(grid, mc, depth);
    assert (grid[0], mc[0]) in used;
    forall j | 0 <= j < |used| ensures lo <= used[j].1 <= hi {
      assert used[j] in used;
    }
    WeightedMidWithinMids(used, depth, exp, lo, hi);
  }

  /** The index computed from accepted venues lies within the prices they quote. */
  lemma IndexOfWithinPrices(vs: seq<Venue>, ok: seq<Venue>, num: Numerics, lo: real, hi: real)
    requires PricesWithin(vs, lo, hi)
    requires forall v :: v in ok ==> v in vs
    requires forall x :: num.exp(x) > 0.0
    requires IndexOf(ok, num).Index?
    ensures lo <= IndexOf(ok, num).value <= hi
  {
    var bids := Consolidated(ok, BidSide);
    var asks := Consolidated(ok, AskSide);
    ConsolidatedPricesWithin(vs, ok, BidSide, lo, hi);
    ConsolidatedPricesWithin(vs, ok, AskSide, lo, hi);
    var cap := CapOf(bids, asks, num.sqrt).value;
    IndexOfClipped(ok, num, cap);
    ClippedIndexWithin(Clip(bids, cap), Clip(asks, cap), ok, num.exp, lo, hi);
  }

  lemma ClippedIndexWithin(cb: seq<Level>, ca: seq<Level>, ok: seq<Venue>, exp: real -> real, lo: real, hi: real)
    requires forall x :: exp(x) > 0.0
    requires forall i :: 0 <= i < |cb| ==> lo <= cb[i].0 <= hi
    requires forall i :: 0 <= i < |ca| ==> lo <= ca[i].0 <= hi
    requires ClippedIndex(cb, ca, ok, exp).Index?
    ensures lo <= ClippedIndex(cb, ca, ok, exp).value <= hi
  {
    var bv := PrefixSums(Seconds(cb));
    var av := PrefixSums(Seconds(ca));
    var tot := Min(Last(bv), Last(av));
    DepthWeightedWithin(cb, ca, bv, av, tot, exp, lo, hi);
  }

  /**
   * The index is a weighted mean of prices the accepted venues quote: when
   * every quoted price is within [lo, hi], so is the index.
   */
  lemma IndexWithinQuotedPrices(vs: seq<Venue>, now: int, num: Numerics, lo: real, hi: real)
    requires PricesWithin(vs, lo, hi)
    requires forall x :: num.exp(x) > 0.0
    requires CalcOf(vs, now, num).Index?
    ensures lo <= CalcOf(vs, now, num).value <= hi
  {
    OkVenuesFromBooks(vs, now);
    IndexOfWithinPrices(vs, OkVenues(vs, now), num, lo, hi);
  }
}
