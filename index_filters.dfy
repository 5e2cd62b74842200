/**
 * The two venue filters of `calc` (crypto/brti_aws_setup/brti_mimick_new.py
 * lines 170-175): a venue is used when its book is fresh and uncrossed, and
 * when its mid is within ERR_BAND of the median mid of those venues.
 */
module IndexFilters {
  import opened IndexBook
  import opened Sorting

  /** The book was stamped no more than STALE_S seconds before `now`. */
  predicate IsFresh(b: Book, now: int) {
    now - b.ts <= STALE_S * 1000
  }

  /**
   * The first filter reads `bids[0]` and `asks[0]` of every fresh book, so a
   * fresh book with an empty side makes `calc` raise IndexError.
   */
  predicate FreshFilterFaults(vs: seq<Venue>, now: int) {
    exists i :: 0 <= i < |vs| && IsFresh(vs[i].1, now) && !TwoSided(vs[i].1)
  }

  /** The first filter's test on one book (short-circuit: staleness first). */
  predicate Usable(b: Book, now: int) {
    IsFresh(b, now) && TwoSided(b) && !Crossing(b)
  }

  /** `fresh`: the usable venues, in the books' order. */
  function FreshVenues(vs: seq<Venue>, now: int): (r: seq<Venue>)
    ensures forall v :: v in r <==> v in vs && Usable(v.1, now)
    ensures forall i :: 0 <= i < |r| ==> Usable(r[i].1, now)
    ensures |r| <= |vs|
  {
    if vs == [] then []
    else
      var init := FreshVenues(vs[..|vs| - 1], now);
      var last := vs[|vs| - 1];
      assert forall v :: v in vs <==> v in vs[..|vs| - 1] || v == last;
      if Usable(last.1, now) then init + [last] else init
  }

  lemma {:induction false} DistinctPrefix(vs: seq<Venue>)
    requires DistinctIds(vs) && vs != []
    ensures DistinctIds(vs[..|vs| - 1])
    ensures forall v :: v in vs[..|vs| - 1] ==> v.0 != vs[|vs| - 1].0
  {
    forall v | v in vs[..|vs| - 1] ensures v.0 != vs[|vs| - 1].0 {
      var k :| 0 <= k < |vs| - 1 && vs[..|vs| - 1][k] == v;
      assert vs[k] == v;
    }
  }

  /** Filtering keeps the venues' relative order, so the ids stay distinct. */
  lemma {:induction false} FreshVenuesDistinct(vs: seq<Venue>, now: int)
    requires DistinctIds(vs)
    ensures DistinctIds(FreshVenues(vs, now))
  {
    if vs != [] {
      DistinctPrefix(vs);
      FreshVenuesDistinct(vs[..|vs| - 1], now);
      var init := FreshVenues(vs[..|vs| - 1], now);
      forall k | 0 <= k < |init| ensures init[k].0 != vs[|vs| - 1].0 {
        assert init[k] in init;
      }
    }
  }

  /** The mids of the given (two-sided) venues, in order. */
  function Mids(vs: seq<Venue>): seq<real>
    requires forall i :: 0 <= i < |vs| ==> TwoSided(vs[i].1)
  {
    seq(|vs|, i requires 0 <= i < |vs| && TwoSided(vs[i].1) => Mid(vs[i].1))
  }

  predicate RealLt(a: real, b: real) {
    a < b
  }

  lemma RealLtIsStrictWeakOrder()
    ensures StrictWeakOrder(RealLt)
  {
  }

  /**
   * `np.median`: the middle value of the sorted values, or the mean of the
   * two middle values when there is an even number of them.
   */
  function Median(xs: seq<real>): real
    requires |xs| > 0
  {
    var s := SortBy(xs, RealLt);
    var n := |s|;
    if n % 2 == 1 then s[n / 2] else (s[n / 2 - 1] + s[n / 2]) / 2.0
  }

  /**
   * The median lies between two of the values (it is one of them when there
   * is an odd number), and it is the value itself for a single venue.
   */
  lemma MedianWithinValues(xs: seq<real>)
    requires |xs| > 0
    ensures exists i :: 0 <= i < |xs| && xs[i] <= Median(xs)
    ensures exists j :: 0 <= j < |xs| && Median(xs) <= xs[j]
    ensures |xs| % 2 == 1 ==> Median(xs) in xs
    ensures |xs| == 1 ==> Median(xs) == xs[0]
  {
    var s := SortBy(xs, RealLt);
    var n := |s|;
    RealLtIsStrictWeakOrder();
    SortBySorted(xs, RealLt);
    SortByPermutes(xs, RealLt);
    var lo, hi := if n % 2 == 1 then n / 2 else n / 2 - 1, n / 2;
    assert s[lo] <= Median(xs) <= s[hi];
    assert s[lo] in multiset(xs) && s[hi] in multiset(xs);
    var i :| 0 <= i < |xs| && xs[i] == s[lo];
    var j :| 0 <= j < |xs| && xs[j] == s[hi];
    if n == 1 {
      assert xs == [xs[0]];
    }
  }

  function Abs(x: real): real {
    if x < 0.0 then -x else x
  }

  /**
   * `abs(mid / med - 1) <= ERR_BAND`.  A zero median divides to inf or nan
   * under numpy, and neither compares below the band, so nothing passes.
   */
  predicate InBand(m: real, med: real) {
    med != 0.0 && Abs(m / med - 1.0) <= ERR_BAND
  }

  /** A positive median accepts exactly the mids within 5% of it. */
  lemma InBandRange(m: real, med: real)
    requires med > 0.0
    ensures InBand(m, med) <==> med * (1.0 - ERR_BAND) <= m <= med * (1.0 + ERR_BAND)
  {
    var q := m / med;
    assert q * med == m;
    assert InBand(m, med) <==> 1.0 - ERR_BAND <= q <= 1.0 + ERR_BAND;
    assert 1.0 - ERR_BAND <= q <==> (1.0 - ERR_BAND) * med <= q * med;
    assert q <= 1.0 + ERR_BAND <==> q * med <= (1.0 + ERR_BAND) * med;
  }

  /** `ok`: the fresh venues whose mid is in the band around `med`. */
  function InBandVenues(vs: seq<Venue>, med: real): (r: seq<Venue>)
    requires forall i :: 0 <= i < |vs| ==> TwoSided(vs[i].1)
    ensures forall v :: v in r <==> v in vs && InBand(Mid(v.1), med)
    ensures forall i :: 0 <= i < |r| ==> TwoSided(r[i].1)
    ensures |r| <= |vs|
  {
    if vs == [] then []
    else
      var init := InBandVenues(vs[..|vs| - 1], med);
      var last := vs[|vs| - 1];
      assert forall v :: v in vs <==> v in vs[..|vs| - 1] || v == last;
      if InBand(Mid(last.1), med) then init + [last] else init
  }

  lemma {:induction false} InBandVenuesDistinct(vs: seq<Venue>, med: real)
    requires forall i :: 0 <= i < |vs| ==> TwoSided(vs[i].1)
    requires DistinctIds(vs)
    ensures DistinctIds(InBandVenues(vs, med))
  {
    if vs != [] {
      DistinctPrefix(vs);
      InBandVenuesDistinct(vs[..|vs| - 1], med);
      var init := InBandVenues(vs[..|vs| - 1], med);
      forall k | 0 <= k < |init| ensures init[k].0 != vs[|vs| - 1].0 {
        assert init[k] in init;
      }
    }
  }
}
