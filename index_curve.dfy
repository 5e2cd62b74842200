/**
 * The depth-weighted price of `calc`
 * (crypto/brti_aws_setup/brti_mimick_new.py lines 159-167 and 180-194):
 * cumulative volume curves, the price at each volume of a grid, the depth
 * up to which the spread stays within DEV_MID, and an exponentially
 * weighted mean of the mid curve up to that depth.  `exp` is a parameter.
 */
module IndexCurve {
  import opened Optional
  import opened Sorting
  import opened IndexBook
  import opened IndexFilters
  import opened IndexCap

  /** The running totals of `xs`. */
  function PrefixSums(xs: seq<real>): (r: seq<real>)
    ensures |r| == |xs|
  {
    seq(|xs|, i requires 0 <= i < |xs| => Sum(xs[..i + 1]))
  }

  /** `_cum(levels)`: cumulative volumes and the matching prices. */
  method Cumulate(levels: seq<Level>) returns (v: seq<real>, p: seq<real>)
    ensures v == PrefixSums(Seconds(levels))
    ensures p == Firsts(levels)
  {
    ghost var sizes := Seconds(levels);
    var tot := 0.0;
    v, p := [], [];
    for i := 0 to |levels|
      invariant tot == Sum(sizes[..i])
      invariant |v| == i && forall j :: 0 <= j < i ==> v[j] == Sum(sizes[..j + 1])
      invariant p == Firsts(levels[..i])
    {
      assert sizes[..i + 1][..i] == sizes[..i];
      tot := tot + levels[i].1;
      v := v + [tot];
      p := p + [levels[i].0];
    }
    assert levels[..|levels|] == levels;
  }

  /** Positive sizes give strictly increasing cumulative volumes, ending at the total. */
  lemma {:induction false} PrefixSumsIncrease(xs: seq<real>)
    requires forall i :: 0 <= i < |xs| ==> xs[i] > 0.0
    ensures forall i, j :: 0 <= i < j < |xs| ==> PrefixSums(xs)[i] < PrefixSums(xs)[j]
    ensures |xs| > 0 ==> PrefixSums(xs)[|xs| - 1] == Sum(xs)
  {
    var r := PrefixSums(xs);
    forall j | 0 < j < |xs| ensures r[j - 1] < r[j] {
      assert xs[..j + 1][..j] == xs[..j];
    }
    forall i, j | 0 <= i < j < |xs| ensures r[i] < r[j] {
      PrefixSumsStep(r, i, j);
    }
    if |xs| > 0 {
      assert xs[..|xs|] == xs;
    }
  }

  lemma {:induction false} PrefixSumsStep(r: seq<real>, i: nat, j: nat)
    requires i < j < |r|
    requires forall k :: 0 < k < |r| ==> r[k - 1] < r[k]
    ensures r[i] < r[j]
    decreases j - i
  {
    if i + 1 < j {
      PrefixSumsStep(r, i + 1, j);
    }
  }

  /** `bisect.bisect_left(a, x, lo, hi)`, the library's binary search. */
  function Bisect(a: seq<real>, x: real, lo: nat, hi: nat): (r: nat)
    requires lo <= hi <= |a|
    ensures lo <= r <= hi
    decreases hi - lo
  {
    if lo < hi then
      var mid := (lo + hi) / 2;
      if a[mid] < x then Bisect(a, x, mid + 1, hi) else Bisect(a, x, lo, mid)
    else lo
  }

  function BisectLeft(a: seq<real>, x: real): (r: nat)
    ensures r <= |a|
  {
    Bisect(a, x, 0, |a|)
  }

  /** The reference definition: the number of leading values below `x`. */
  function FirstAtLeast(a: seq<real>, x: real): (r: nat)
    ensures r <= |a|
    ensures forall i :: 0 <= i < r ==> a[i] < x
    ensures r < |a| ==> a[r] >= x
  {
    if a == [] || a[0] >= x then 0 else 1 + FirstAtLeast(a[1..], x)
  }

  lemma {:induction false} BisectSplits(a: seq<real>, x: real, lo: nat, hi: nat)
    requires lo <= hi <= |a| && SortedBy(a, RealLt)
    requires forall i :: 0 <= i < lo ==> a[i] < x
    requires forall i :: hi <= i < |a| ==> a[i] >= x
    ensures forall i :: 0 <= i < Bisect(a, x, lo, hi) ==> a[i] < x
    ensures forall i :: Bisect(a, x, lo, hi) <= i < |a| ==> a[i] >= x
    decreases hi - lo
  {
    if lo < hi {
      var mid := (lo + hi) / 2;
      if a[mid] < x {
        BisectSplits(a, x, mid + 1, hi);
      } else {
        BisectSplits(a, x, lo, mid);
      }
    }
  }

  /**
   * On sorted values the binary search returns the first index whose value
   * is at least `x`, the same answer as the linear scan.
   */
  lemma BisectLeftMatchesScan(a: seq<real>, x: real)
    requires SortedBy(a, RealLt)
    ensures BisectLeft(a, x) == FirstAtLeast(a, x)
    ensures forall i :: 0 <= i < BisectLeft(a, x) ==> a[i] < x
    ensures forall i :: BisectLeft(a, x) <= i < |a| ==> a[i] >= x
  {
    BisectSplits(a, x, 0, |a|);
    ScanFindsSplit(a, x, BisectLeft(a, x));
  }

  /** Where every value before `b` is below `x` and none after is, the scan stops at `b`. */
  lemma {:induction false} ScanFindsSplit(a: seq<real>, x: real, b: nat)
    requires b <= |a|
    requires forall i :: 0 <= i < b ==> a[i] < x
    requires forall i :: b <= i < |a| ==> a[i] >= x
    ensures FirstAtLeast(a, x) == b
  {
    if a != [] && b > 0 {
      ScanFindsSplit(a[1..], x, b - 1);
    }
  }

  /** `_curve`: the price at which each grid volume is reached (the last price past the book's depth). */
  function Curve(vols: seq<real>, prices: seq<real>, grid: seq<real>): (r: seq<real>)
    requires |vols| == |prices| > 0
    ensures |r| == |grid|
    ensures forall j :: 0 <= j < |r| ==> r[j] in prices
  {
    seq(|grid|, j requires 0 <= j < |grid| =>
      var i := BisectLeft(vols, grid[j]);
      prices[if i < |prices| - 1 then i else |prices| - 1])
  }

  /**
   * With strictly increasing volumes, each curve point is the price of the
   * first level whose cumulative volume reaches the grid volume, or the
   * deepest level's price when no level does.
   */
  lemma CurveReachesVolume(vols: seq<real>, prices: seq<real>, grid: seq<real>, j: nat)
    requires |vols| == |prices| > 0 && SortedBy(vols, RealLt) && j < |grid|
    ensures var i := FirstAtLeast(vols, grid[j]);
      Curve(vols, prices, grid)[j] == if i < |vols| then prices[i] else prices[|vols| - 1]
  {
    BisectLeftMatchesScan(vols, grid[j]);
  }

  /** `math.ceil` */
  function Ceil(x: real): int {
    -((-x).Floor)
  }

  /** `np.arange(SPACING_VOL, tot + SPACING_VOL, SPACING_VOL)` */
  function Grid(tot: real): (r: seq<real>)
  {
    var n := Ceil(tot / SPACING_VOL);
    seq(if n < 0 then 0 else n, i => (i + 1) as real * SPACING_VOL)
  }

  /**
   * The grid steps by SPACING_VOL from SPACING_VOL up to the first multiple
   * at or beyond `tot`, so its last point is within one step above `tot`.
   */
  lemma GridCoversVolume(tot: real)
    requires tot >= SPACING_VOL
    ensures |Grid(tot)| >= 1 && Grid(tot)[0] == SPACING_VOL
    ensures forall i :: 0 <= i < |Grid(tot)| ==> Grid(tot)[i] == (i + 1) as real * SPACING_VOL
    ensures tot <= Grid(tot)[|Grid(tot)| - 1] < tot + SPACING_VOL
    ensures SortedBy(Grid(tot), RealLt)
  {
  }

  /** `mc`: the mean of the bid and ask curves. */
  function MidCurve(bc: seq<real>, ac: seq<real>): (r: seq<real>)
    requires |bc| == |ac|
    ensures |r| == |bc|
  {
    seq(|bc|, j requires 0 <= j < |bc| => (bc[j] + ac[j]) / 2.0)
  }

  /**
   * `ac / mc - 1 <= DEV_MID`.  Dividing by a zero mid gives inf, -inf or nan
   * under numpy; only -inf passes, that is when the ask price is negative.
   */
  predicate SpreadOk(a: real, m: real) {
    if m == 0.0 then a < 0.0 else a / m - 1.0 <= DEV_MID
  }

  /** The last grid index below `n` whose spread passes, if any. */
  function LastMasked(ac: seq<real>, mc: seq<real>, n: nat): (r: Option<nat>)
    requires n <= |ac| == |mc|
    ensures r.Some? ==> r.value < n && SpreadOk(ac[r.value], mc[r.value])
    ensures r.Some? ==> forall i :: r.value < i < n ==> !SpreadOk(ac[i], mc[i])
    ensures r.None? ==> forall i :: 0 <= i < n ==> !SpreadOk(ac[i], mc[i])
  {
    if n == 0 then None
    else if SpreadOk(ac[n - 1], mc[n - 1]) then Some(n - 1)
    else LastMasked(ac, mc, n - 1)
  }

  /** `depth = grid[mask].max() if mask.any() else SPACING_VOL` */
  function Depth(grid: seq<real>, ac: seq<real>, mc: seq<real>): real
    requires |grid| == |ac| == |mc|
    requires SortedBy(grid, RealLt)
  {
    match LastMasked(ac, mc, |grid|)
    case Some(j) => grid[j]
    case None => SPACING_VOL
  }

  /**
   * The depth is the largest grid volume whose spread is within DEV_MID, or
   * SPACING_VOL when there is none.
   */
  lemma DepthIsLargestMasked(grid: seq<real>, ac: seq<real>, mc: seq<real>)
    requires |grid| == |ac| == |mc|
    requires SortedBy(grid, RealLt)
    ensures forall i :: 0 <= i < |grid| && SpreadOk(ac[i], mc[i]) ==> grid[i] <= Depth(grid, ac, mc)
    ensures (exists i :: 0 <= i < |grid| && SpreadOk(ac[i], mc[i]) && grid[i] == Depth(grid, ac, mc))
      || ((forall i :: 0 <= i < |grid| ==> !SpreadOk(ac[i], mc[i])) && Depth(grid, ac, mc) == SPACING_VOL)
  {
  }

  /** The depth is never below SPACING_VOL, the first grid volume. */
  lemma DepthAtLeastSpacing(grid: seq<real>, ac: seq<real>, mc: seq<real>)
    requires |grid| == |ac| == |mc| > 0
    requires SortedBy(grid, RealLt) && grid[0] == SPACING_VOL
    ensures Depth(grid, ac, mc) >= SPACING_VOL
  {
    DepthIsLargestMasked(grid, ac, mc);
  }

  /** `(gu, mu)`: the grid volumes up to the depth with their mid prices. */
  function Used(grid: seq<real>, mc: seq<real>, depth: real): (r: seq<(real, real)>)
    requires |grid| == |mc|
    ensures forall p :: p in r ==> p.0 <= depth
    ensures |r| <= |grid|
  {
    if grid == [] then []
    else
      var rest := Used(grid[1..], mc[1..], depth);
      if grid[0] <= depth then [(grid[0], mc[0])] + rest else rest
  }

  /** Every grid volume up to the depth is used, with its own mid price, in grid order. */
  lemma {:induction false} UsedKeepsPoints(grid: seq<real>, mc: seq<real>, depth: real)
    requires |grid| == |mc|
    ensures forall i :: 0 <= i < |grid| && grid[i] <= depth ==> (grid[i], mc[i]) in Used(grid, mc, depth)
    ensures forall p :: p in Used(grid, mc, depth) ==> exists i :: 0 <= i < |grid| && p == (grid[i], mc[i])
  {
    if grid != [] {
      UsedKeepsPoints(grid[1..], mc[1..], depth);
      forall i | 1 <= i < |grid| ensures grid[1..][i - 1] == grid[i] && mc[1..][i - 1] == mc[i] {
      }
    }
  }

  /** `lam * np.exp(-lam * gu)` */
  function Weights(used: seq<(real, real)>, lam: real, exp: real -> real): (r: seq<real>)
    ensures |r| == |used|
  {
    seq(|used|, j requires 0 <= j < |used| => lam * exp(-lam * used[j].0))
  }

  /** `w /= w.sum()` */
  function Normalise(w: seq<real>): (r: seq<real>)
    ensures |r| == |w|
  {
    var total := Sum(w);
    seq(|w|, j requires 0 <= j < |w| => if total == 0.0 then 0.0 else w[j] / total)
  }

  /** `(mu * w).sum()` */
  function Dot(ms: seq<real>, ws: seq<real>): real
    requires |ms| == |ws|
  {
    if ms == [] then 0.0 else Dot(ms[..|ms| - 1], ws[..|ws| - 1]) + ms[|ms| - 1] * ws[|ws| - 1]
  }

  function Mids2(used: seq<(real, real)>): (r: seq<real>)
    ensures |r| == |used|
  {
    seq(|used|, j requires 0 <= j < |used| => used[j].1)
  }

  /** The index: the mid prices up to `depth`, weighted by `exp(-v / (0.3 * depth))`. */
  function WeightedMid(used: seq<(real, real)>, depth: real, exp: real -> real): real
    requires depth != 0.0
  {
    var lam := 1.0 / (0.3 * depth);
    Dot(Mids2(used), Normalise(Weights(used, lam, exp)))
  }

  function Scale(w: seq<real>, t: real): (r: seq<real>)
    requires t != 0.0
    ensures |r| == |w|
  {
    seq(|w|, j requires 0 <= j < |w| => w[j] / t)
  }

  lemma {:induction false} SumScale(w: seq<real>, t: real)
    requires t != 0.0
    ensures Sum(Scale(w, t)) == Sum(w) / t
  {
    if w != [] {
      var n := |w|;
      assert Scale(w, t)[..n - 1] == Scale(w[..n - 1], t);
      SumScale(w[..n - 1], t);
      assert Sum(w) / t == Sum(w[..n - 1]) / t + w[n - 1] / t;
    }
  }

  /** Normalised weights sum to one. */
  lemma NormaliseSumsToOne(w: seq<real>)
    requires Sum(w) != 0.0
    ensures Sum(Normalise(w)) == 1.0
  {
    var t := Sum(w);
    assert Normalise(w) == Scale(w, t);
    SumScale(w, t);
    assert t / t == 1.0;
  }

  lemma MulMonotone(a: real, b: real, c: real)
    requires a <= b && c >= 0.0
    ensures a * c <= b * c
  {
    assert b * c - a * c == (b - a) * c;
  }

  lemma {:induction false} DotBounds(ms: seq<real>, cs: seq<real>, lo: real, hi: real)
    requires |ms| == |cs|
    requires forall j :: 0 <= j < |ms| ==> lo <= ms[j] <= hi && cs[j] >= 0.0
    ensures lo * Sum(cs) <= Dot(ms, cs) <= hi * Sum(cs)
  {
    if ms != [] {
      var n := |ms|;
      var init := cs[..n - 1];
      var s0, d0 := Sum(init), Dot(ms[..n - 1], init);
      assert lo * s0 <= d0 <= hi * s0 by {
        DotBounds(ms[..n - 1], init, lo, hi);
      }
      var m, c := ms[n - 1], cs[n - 1];
      assert Sum(cs) == s0 + c;
      assert Dot(ms, cs) == d0 + m * c;
      DotStep(lo, hi, m, c, s0, d0);
    }
  }

  /** One more weighted value in [lo, hi] keeps the bounds. */
  lemma DotStep(lo: real, hi: real, m: real, c: real, s0: real, d0: real)
    requires lo * s0 <= d0 <= hi * s0
    requires lo <= m <= hi && c >= 0.0
    ensures lo * (s0 + c) <= d0 + m * c <= hi * (s0 + c)
  {
    MulMonotone(lo, m, c);
    MulMonotone(m, hi, c);
    assert lo * (s0 + c) == lo * s0 + lo * c;
    assert hi * (s0 + c) == hi * s0 + hi * c;
  }

  /**
   * The index is a weighted mean of the mid curve up to the depth: with a
   * positive `exp` it lies between the lowest and the highest mid used.
   */
  lemma WeightedMidWithinMids(used: seq<(real, real)>, depth: real, exp: real -> real, lo: real, hi: real)
    requires depth > 0.0 && used != []
    requires forall x :: exp(x) > 0.0
    requires forall j :: 0 <= j < |used| ==> lo <= used[j].1 <= hi
    ensures lo <= WeightedMid(used, depth, exp) <= hi
  {
    var lam := 1.0 / (0.3 * depth);
    var w := Weights(used, lam, exp);
    forall j | 0 <= j < |w| ensures w[j] > 0.0 {
      assert exp(-lam * used[j].0) > 0.0;
    }
    SumPositive(w);
    var c := Normalise(w);
    forall j | 0 <= j < |c| ensures c[j] >= 0.0 {
      assert c[j] == w[j] / Sum(w);
    }
    NormaliseSumsToOne(w);
    DotBounds(Mids2(used), c, lo, hi);
  }
}
