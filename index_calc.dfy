/**
 * `calc` (crypto/brti_aws_setup/brti_mimick_new.py lines 169-195, the same
 * as crypto/websockets/brti.py lines 139-157): the consolidated index from
 * the venues' books.  The current time is a parameter, read once, and the
 * square root and exponential are parameters too.
 */
module IndexCalc {
  import opened Optional
  import opened Sorting
  import opened IndexBook
  import opened IndexFilters
  import opened IndexConsolidation
  import opened IndexCap
  import opened IndexCurve

  /** The floating-point functions the engine calls. */
  datatype Numerics = Numerics(sqrt: real -> real, exp: real -> real)

  /**
   * `calc()`'s result: `(value, sorted venue ids)`, `(None, [])` when the
   * index is withheld, or the IndexError a fresh one-sided book raises.
   */
  datatype Outcome = Raised | Withheld | Index(value: real, venues: seq<string>)

  function Last(xs: seq<real>): real
    requires xs != []
  {
    xs[|xs| - 1]
  }

  function Min(a: real, b: real): real {
    if a <= b then a else b
  }

  /** The stages after `tot`: grid, curves, depth and the weighted mid. */
  function DepthWeighted(cb: seq<Level>, ca: seq<Level>, bv: seq<real>, av: seq<real>, tot: real, exp: real -> real): real
    requires |bv| == |cb| > 0 && |av| == |ca| > 0 && tot >= SPACING_VOL
  {
    var grid := Grid(tot);
    GridCoversVolume(tot);
    var mc := MidCurve(Curve(bv, Firsts(cb), grid), Curve(av, Firsts(ca), grid));
    var ac := Curve(av, Firsts(ca), grid);
    var depth := Depth(grid, ac, mc);
    DepthAtLeastSpacing(grid, ac, mc);
    WeightedMid(Used(grid, mc, depth), depth, exp)
  }

  /** The venues that pass both filters. */
  function OkVenues(vs: seq<Venue>, now: int): (r: seq<Venue>)
    ensures forall i :: 0 <= i < |r| ==> TwoSided(r[i].1)
  {
    var live := FreshVenues(vs, now);
    if live == [] then [] else InBandVenues(live, Median(Mids(live)))
  }

  /** What `calc()` returns for the books `vs` at time `now`. */
  function CalcOf(vs: seq<Venue>, now: int, num: Numerics): Outcome {
    if FreshFilterFaults(vs, now) then Raised
    else
      var ok := OkVenues(vs, now);
      if ok == [] then Withheld else IndexOf(ok, num)
  }

  /** The stages of `calc` after the venue filters, on the accepted venues. */
  function IndexOf(ok: seq<Venue>, num: Numerics): Outcome {
    var bids := Consolidated(ok, BidSide);
    var asks := Consolidated(ok, AskSide);
    match CapOf(bids, asks, num.sqrt)
    case None => Raised
    case Some(cap) =>
      if cap == 0.0 then Withheld else ClippedIndex(Clip(bids, cap), Clip(asks, cap), ok, num.exp)
  }

  /** The stages of `calc` after clipping the consolidated book at the cap. */
  function ClippedIndex(cb: seq<Level>, ca: seq<Level>, ok: seq<Venue>, exp: real -> real): Outcome {
    var bv := PrefixSums(Seconds(cb));
    var av := PrefixSums(Seconds(ca));
    if bv == [] || av == [] then Raised
    else
      var tot := Min(Last(bv), Last(av));
      if tot < SPACING_VOL then Withheld
      else Index(DepthWeighted(cb, ca, bv, av, tot, exp), SortBy(Firsts(ok), StringLt))
  }

  /** `calc`, stage by stage. */
  method Calc(vs: seq<Venue>, now: int, num: Numerics) returns (r: Outcome)
    ensures r == CalcOf(vs, now, num)
  {
    var live, faulted := SelectFresh(vs, now);
    if faulted {
      return Raised;
    }
    if live == [] {
      return Withheld;
    }
    var med := Median(Mids(live));
    var ok := SelectInBand(live, med);
    if ok == [] {
      return Withheld;
    }
    r := IndexFrom(ok, num);
  }

  /** The `fresh` comprehension; `faulted` when it raises IndexError. */
  method SelectFresh(vs: seq<Venue>, now: int) returns (live: seq<Venue>, faulted: bool)
    ensures faulted == FreshFilterFaults(vs, now)
    ensures !faulted ==> live == FreshVenues(vs, now)
  {
    live := [];
    for i := 0 to |vs|
      invariant live == FreshVenues(vs[..i], now)
      invariant !FreshFilterFaults(vs[..i], now)
    {
      FreshStep(vs, i, now);
      var b := vs[i].1;
      if IsFresh(b, now) {
        if !TwoSided(b) {
          return live, true;
        }
        if !Crossing(b) {
          live := live + [vs[i]];
        }
      }
    }
    assert vs[..|vs|] == vs;
    faulted := false;
  }

  /** One more venue through the `fresh` comprehension. */
  lemma FreshStep(vs: seq<Venue>, i: nat, now: int)
    requires i < |vs| && !FreshFilterFaults(vs[..i], now)
    ensures FreshVenues(vs[..i + 1], now) ==
      if Usable(vs[i].1, now) then FreshVenues(vs[..i], now) + [vs[i]] else FreshVenues(vs[..i], now)
    ensures FreshFilterFaults(vs[..i + 1], now) <==> IsFresh(vs[i].1, now) && !TwoSided(vs[i].1)
    ensures FreshFilterFaults(vs[..i + 1], now) ==> FreshFilterFaults(vs, now)
  {
    assert vs[..i + 1][..i] == vs[..i];
    FaultStep(vs, i, now);
  }

  lemma FaultStep(vs: seq<Venue>, i: nat, now: int)
    requires i < |vs| && !FreshFilterFaults(vs[..i], now)
    ensures FreshFilterFaults(vs[..i + 1], now) <==> IsFresh(vs[i].1, now) && !TwoSided(vs[i].1)
    ensures FreshFilterFaults(vs[..i + 1], now) ==> FreshFilterFaults(vs, now)
  {
    var pre := vs[..i + 1];
    assert pre[i] == vs[i];
    if FreshFilterFaults(pre, now) {
      var j :| 0 <= j < i + 1 && IsFresh(pre[j].1, now) && !TwoSided(pre[j].1);
      assert pre[j] == vs[j];
    }
  }

  /** The `ok` comprehension. */
  method SelectInBand(live: seq<Venue>, med: real) returns (ok: seq<Venue>)
    requires forall i :: 0 <= i < |live| ==> TwoSided(live[i].1)
    ensures ok == InBandVenues(live, med)
  {
    ok := [];
    for i := 0 to |live|
      invariant ok == InBandVenues(live[..i], med)
    {
      assert live[..i + 1][..i] == live[..i];
      if InBand(Mid(live[i].1), med) {
        ok := ok + [live[i]];
      }
    }
    assert live[..|live|] == live;
  }

  /** The rest of `calc`, from `_consol` on. */
  method IndexFrom(ok: seq<Venue>, num: Numerics) returns (r: Outcome)
    ensures r == IndexOf(ok, num)
  {
    var bids, asks := Consolidate(ok);
    var capped := Cap(bids, asks, num.sqrt);
    if capped.None? {
      return Raised;
    }
    var cap := capped.value;
    if cap == 0.0 {
      return Withheld;
    }
    var cb := Clip(bids, cap);
    var ca := Clip(asks, cap);
    var bv, bp := Cumulate(cb);
    var av, ap := Cumulate(ca);
    if bv == [] || av == [] {
      return Raised;
    }
    var tot := Min(Last(bv), Last(av));
    if tot < SPACING_VOL {
      return Withheld;
    }
    r := Index(DepthWeighted(cb, ca, bv, av, tot, num.exp), SortBy(Firsts(ok), StringLt));
  }
}
