/**
 * `_cap` and the clipping step of `calc`
 * (crypto/brti_aws_setup/brti_mimick_new.py lines 151-157 and 178-179): the
 * sizes of the first MAX_SAMPLE levels of each side are sorted and
 * winsorised, and the cap is their mean plus five sample standard
 * deviations.  The square root is a parameter: floating point is not
 * modelled.
 */
module IndexCap {
  import opened Optional
  import opened Sorting
  import opened IndexBook
  import opened IndexFilters

  /** `bids[:MAX_SAMPLE]`, which also accepts a shorter list. */
  function Head(ls: seq<Level>): seq<Level> {
    if |ls| <= MAX_SAMPLE then ls else ls[..MAX_SAMPLE]
  }

  /** `samp`: the sizes of the best MAX_SAMPLE bids, then of the best MAX_SAMPLE asks. */
  function Sample(bids: seq<Level>, asks: seq<Level>): seq<real> {
    Seconds(Head(bids)) + Seconds(Head(asks))
  }

  /** `k = max(1, int(.01 * len(samp)))` */
  function TrimCount(n: nat): nat {
    if n / 100 > 1 then n / 100 else 1
  }

  /** A sample holds at most 2 * MAX_SAMPLE sizes, so one value is trimmed at each end. */
  lemma SampleTrimsOne(bids: seq<Level>, asks: seq<Level>)
    ensures |Sample(bids, asks)| <= 2 * MAX_SAMPLE
    ensures TrimCount(|Sample(bids, asks)|) == 1
  {
  }

  /** `_cap` raises only on a sample of exactly one size. */
  lemma CapRaisesOnlyOnOneSize(bids: seq<Level>, asks: seq<Level>, sqrt: real -> real)
    ensures CapOf(bids, asks, sqrt).None? <==> |Sample(bids, asks)| == 1
  {
    SampleTrimsOne(bids, asks);
  }

  /** `wins[:k] = wins[k]` */
  function RaiseLow(s: seq<real>, k: nat): (r: seq<real>)
    requires k < |s|
  {
    seq(|s|, i requires 0 <= i < |s| => if i < k then s[k] else s[i])
  }

  /** `wins[-k:] = wins[-k - 1]`, applied after `RaiseLow`. */
  function LowerHigh(s: seq<real>, k: nat): (r: seq<real>)
    requires k < |s|
  {
    seq(|s|, i requires 0 <= i < |s| => if i >= |s| - k then s[|s| - k - 1] else s[i])
  }

  function Winsorised(s: seq<real>, k: nat): (r: seq<real>)
    requires k < |s|
    ensures |r| == |s|
  {
    LowerHigh(RaiseLow(s, k), k)
  }

  function Clamp(x: real, lo: real, hi: real): real {
    if x < lo then lo else if x > hi then hi else x
  }

  /**
   * On a sorted sample the two writes clamp every value into the range from
   * the k-th smallest to the k-th largest value (a single value when fewer
   * than 2k + 1 values remain), which keeps the sample sorted.
   */
  lemma WinsorisedClamps(s: seq<real>, k: nat)
    requires SortedBy(s, RealLt) && k < |s|
    ensures var n := |s|;
      var lo := s[k];
      var hi := if n - k - 1 >= k then s[n - k - 1] else s[k];
      && |Winsorised(s, k)| == n
      && (forall i :: 0 <= i < n ==> Winsorised(s, k)[i] == Clamp(s[i], lo, hi))
      && SortedBy(Winsorised(s, k), RealLt)
  {
  }

  function Sum(xs: seq<real>): real {
    if xs == [] then 0.0 else Sum(xs[..|xs| - 1]) + xs[|xs| - 1]
  }

  function Mean(xs: seq<real>): real
    requires |xs| > 0
  {
    Sum(xs) / (|xs| as real)
  }

  function SquaredDeviations(xs: seq<real>, m: real): seq<real> {
    seq(|xs|, i requires 0 <= i < |xs| => (xs[i] - m) * (xs[i] - m))
  }

  /** `wins.std(ddof=1)` squared. */
  function SampleVariance(xs: seq<real>): real
    requires |xs| >= 2
  {
    Sum(SquaredDeviations(xs, Mean(xs))) / ((|xs| - 1) as real)
  }

  /** `wins.mean() + 5 * wins.std(ddof=1)` */
  function CapValue(wins: seq<real>, sqrt: real -> real): real
    requires |wins| >= 2
  {
    Mean(wins) + 5.0 * sqrt(SampleVariance(wins))
  }

  /**
   * `_cap(bids, asks)`: 0 for an empty sample; `None` where `wins[k]` is
   * out of range (a one-value sample), which raises IndexError.
   */
  function CapOf(bids: seq<Level>, asks: seq<Level>, sqrt: real -> real): Option<real> {
    var samp := Sample(bids, asks);
    if |samp| == 0 then Some(0.0)
    else
      var s := SortBy(samp, RealLt);
      var k := TrimCount(|s|);
      if |s| <= k then None else Some(CapValue(Winsorised(s, k), sqrt))
  }

  /** `_cap`, with `wins` the array the writes go to. */
  method Cap(bids: seq<Level>, asks: seq<Level>, sqrt: real -> real) returns (cap: Option<real>)
    ensures cap == CapOf(bids, asks, sqrt)
  {
    var samp := Sample(bids, asks);
    if |samp| == 0 {
      return Some(0.0);
    }
    var sorted := SortBy(samp, RealLt);
    var n := |sorted|;
    var k := TrimCount(n);
    if n <= k {
      return None;
    }
    var wins := new real[n];
    for i := 0 to n
      invariant forall j :: 0 <= j < i ==> wins[j] == sorted[j]
    {
      wins[i] := sorted[i];
    }
    assert wins[..] == sorted;
    WinsoriseInPlace(wins, k);
    cap := Some(CapValue(wins[..], sqrt));
  }

  /** `wins[:k] = wins[k]; wins[-k:] = wins[-k - 1]`, in this order. */
  method WinsoriseInPlace(wins: array<real>, k: nat)
    requires k < wins.Length
    modifies wins
    ensures wins[..] == Winsorised(old(wins[..]), k)
  {
    var n := wins.Length;
    ghost var orig := wins[..];
    var low := wins[k];
    for i := 0 to k
      invariant forall j :: 0 <= j < n ==> wins[j] == if j < i then low else orig[j]
    {
      wins[i] := low;
    }
    ghost var raised := wins[..];
    assert raised == RaiseLow(orig, k);
    var high := wins[n - k - 1];
    for i := n - k to n
      invariant forall j :: 0 <= j < n ==> wins[j] == if n - k <= j < i then high else raised[j]
    {
      wins[i] := high;
    }
  }

  lemma {:induction false} SumPositive(xs: seq<real>)
    requires |xs| > 0 && forall i :: 0 <= i < |xs| ==> xs[i] > 0.0
    ensures Sum(xs) > 0.0
  {
    if |xs| > 1 {
      SumPositive(xs[..|xs| - 1]);
    }
  }

  lemma {:induction false} SumNonNegative(xs: seq<real>)
    requires forall i :: 0 <= i < |xs| ==> xs[i] >= 0.0
    ensures Sum(xs) >= 0.0
  {
    if xs != [] {
      SumNonNegative(xs[..|xs| - 1]);
    }
  }

  /**
   * With positive sizes (as every built book has) and a non-negative square
   * root, the cap is positive for any sample of two or more sizes, and it is
   * never below the winsorised mean; a one-size sample raises.  So `calc`
   * withholds on `cap == 0` only when both sides are empty.
   */
  lemma WinsorisedPositive(s: seq<real>, k: nat)
    requires SortedBy(s, RealLt) && k < |s|
    requires forall i :: 0 <= i < |s| ==> s[i] > 0.0
    ensures forall i :: 0 <= i < |s| ==> Winsorised(s, k)[i] > 0.0
  {
    WinsorisedClamps(s, k);
  }

  lemma SortedPositive(samp: seq<real>)
    requires forall i :: 0 <= i < |samp| ==> samp[i] > 0.0
    ensures SortedBy(SortBy(samp, RealLt), RealLt)
    ensures forall i :: 0 <= i < |samp| ==> SortBy(samp, RealLt)[i] > 0.0
  {
    var s := SortBy(samp, RealLt);
    RealLtIsStrictWeakOrder();
    SortBySorted(samp, RealLt);
    SortByPermutes(samp, RealLt);
    forall i | 0 <= i < |s| ensures s[i] > 0.0 {
      assert s[i] in multiset(samp);
    }
  }

  /** The cap is at least the winsorised mean, which is positive for positive sizes. */
  lemma CapValueAboveMean(w: seq<real>, sqrt: real -> real)
    requires |w| >= 2 && forall i :: 0 <= i < |w| ==> w[i] > 0.0
    requires sqrt(SampleVariance(w)) >= 0.0
    ensures CapValue(w, sqrt) >= Mean(w) > 0.0
  {
    SumPositive(w);
  }

  /**
   * With positive sizes (as every built book has) and a non-negative square
   * root, the cap is positive for any sample of two or more sizes; a one-size
   * sample raises.  So `calc` withholds on `cap == 0` only when both sides
   * are empty.
   */
  lemma CapPositive(bids: seq<Level>, asks: seq<Level>, sqrt: real -> real)
    requires forall i :: 0 <= i < |bids| ==> bids[i].1 > 0.0
    requires forall i :: 0 <= i < |asks| ==> asks[i].1 > 0.0
    requires forall x :: sqrt(x) >= 0.0
    ensures |Sample(bids, asks)| == 0 ==> CapOf(bids, asks, sqrt) == Some(0.0)
    ensures |Sample(bids, asks)| == 1 ==> CapOf(bids, asks, sqrt) == None
    ensures |Sample(bids, asks)| >= 2 ==> CapOf(bids, asks, sqrt).Some? && CapOf(bids, asks, sqrt).value > 0.0
  {
    var samp := Sample(bids, asks);
    SampleTrimsOne(bids, asks);
    if |samp| >= 2 {
      assert forall i :: 0 <= i < |samp| ==> samp[i] > 0.0;
      SortedPositive(samp);
      var s := SortBy(samp, RealLt);
      WinsorisedPositive(s, 1);
      CapValueAboveMean(Winsorised(s, 1), sqrt);
    }
  }

  /**
   * Clipping every size at the cap: the prices and their order stay, and
   * each size becomes the smaller of itself and the cap.
   */
  function Clip(levels: seq<Level>, cap: real): (r: seq<Level>)
    ensures |r| == |levels|
    ensures forall i :: 0 <= i < |r| ==>
      && r[i].0 == levels[i].0
      && r[i].1 <= cap && r[i].1 <= levels[i].1
      && (r[i].1 == cap || r[i].1 == levels[i].1)
  {
    seq(|levels|, i requires 0 <= i < |levels| => (levels[i].0, if levels[i].1 < cap then levels[i].1 else cap))
  }
}
