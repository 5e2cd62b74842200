/**
 * The position arithmetic of one simulated fill in the paper-trading client
 * (crypto/mm_range/mm_websockets/test_trading.py lines 172-243, and the same
 * code in test_trading_with_sockets.py lines 101-172).  A fill first closes
 * whatever opposite position the ticker holds, realising PnL against the
 * average entry price, and opens the remainder at a weighted-average entry.
 * Prices are whole cents; the average and the PnL are Python floats, modelled
 * as exact reals.
 */
module SimFills {
  /** `SIZING`: the most contracts one trade can fill. */
  const SIZING: int := 10

  datatype Side = Buy | Sell

  /**
   * What a fill leaves behind: the new position and average entry price,
   * the PnL realised by closing, and the number of contracts filled.
   */
  datatype Fill = Fill(pos: int, avg: real, pnl: real, size: int)

  function Min(a: int, b: int): int {
    if a <= b then a else b
  }

  /**
   * The entry price after adding `qty` contracts at `price` (negative `qty`
   * for a sale) to `pos` contracts entered at `avg`; zero when the result
   * `newQty` is flat.
   */
  function Blend(avg: real, pos: int, price: int, qty: int, newQty: int): real {
    if newQty != 0 then (avg * pos as real + price as real * qty as real) / newQty as real else 0.0
  }

  /** A bought fill of `count` contracts at our bid `bid`, from position `pos` at average `avg`. */
  function BuyFill(pos: int, avg: real, bid: int, count: int): Fill {
    var closing := if pos < 0 then Min(count, -pos) else 0;
    var pos1 := pos + closing;
    var avg1 := if pos < 0 && pos1 == 0 then 0.0 else avg;
    var pnl := if pos < 0 then (avg - bid as real) * closing as real else 0.0;
    var rest := count - closing;
    if rest > 0 then
      var q := pos1 + rest;
      Fill(q, Blend(avg1, pos1, bid, rest, q), pnl, closing + rest)
    else
      Fill(pos1, avg1, pnl, closing)
  }

  /** A sold fill of `count` contracts at our ask `ask`. */
  function SellFill(pos: int, avg: real, ask: int, count: int): Fill {
    var closing := if pos > 0 then Min(count, pos) else 0;
    var pos1 := pos - closing;
    var avg1 := if pos > 0 && pos1 == 0 then 0.0 else avg;
    var pnl := if pos > 0 then (ask as real - avg) * closing as real else 0.0;
    var rest := count - closing;
    if rest > 0 then
      var q := pos1 - rest;
      Fill(q, Blend(avg1, pos1, ask, -rest, q), pnl, closing + rest)
    else
      Fill(pos1, avg1, pnl, closing)
  }

  /** The fill on `side`: a buy at `bid` or a sell at `ask`. */
  function FillOn(side: Side, pos: int, avg: real, bid: int, ask: int, count: int): Fill {
    if side == Buy then BuyFill(pos, avg, bid, count) else SellFill(pos, avg, ask, count)
  }

  /** A buy moves the position up by exactly the contracts filled, which is the whole count when positive. */
  lemma BuyMovesPosition(pos: int, avg: real, bid: int, count: int)
    ensures BuyFill(pos, avg, bid, count).pos == pos + BuyFill(pos, avg, bid, count).size
    ensures BuyFill(pos, avg, bid, count).size == if count > 0 || pos < 0 then count else 0
  {
  }

  /** A sell moves the position down by exactly the contracts filled. */
  lemma SellMovesPosition(pos: int, avg: real, ask: int, count: int)
    ensures SellFill(pos, avg, ask, count).pos == pos - SellFill(pos, avg, ask, count).size
    ensures SellFill(pos, avg, ask, count).size == if count > 0 || pos > 0 then count else 0
  {
  }

  /**
   * PnL is realised only by closing an opposite position: the fill price's
   * edge over the entry, once per contract by which that position shrank.
   */
  lemma FillRealisesOnClose(pos: int, avg: real, bid: int, ask: int, count: int)
    requires count > 0
    ensures var r := BuyFill(pos, avg, bid, count);
      && (pos >= 0 ==> r.pnl == 0.0)
      && (pos < 0 ==> r.pnl == (avg - bid as real) * (Abs(pos) - Abs(Min(r.pos, 0))) as real)
    ensures var r := SellFill(pos, avg, ask, count);
      && (pos <= 0 ==> r.pnl == 0.0)
      && (pos > 0 ==> r.pnl == (ask as real - avg) * (pos - Max(r.pos, 0)) as real)
  {
  }

  function Abs(x: int): nat {
    if x < 0 then -x else x
  }

  function Max(a: int, b: int): int {
    if a >= b then a else b
  }

  /** A flat position carries no average entry price, and every fill keeps it that way. */
  predicate FlatHasNoAvg(pos: int, avg: real) {
    pos == 0 ==> avg == 0.0
  }

  lemma FillKeepsFlatNoAvg(side: Side, pos: int, avg: real, bid: int, ask: int, count: int)
    requires FlatHasNoAvg(pos, avg)
    ensures FlatHasNoAvg(FillOn(side, pos, avg, bid, ask, count).pos, FillOn(side, pos, avg, bid, ask, count).avg)
  {
  }

  /**
   * The average entry is a weighted average: extending a long adds the fill's
   * cost to the position's cost basis; covering part of a short keeps its
   * entry; flipping through flat enters the remainder at the fill price.
   */
  lemma {:induction false} BuyAverages(pos: int, avg: real, bid: int, count: int)
    requires count > 0
    ensures var r := BuyFill(pos, avg, bid, count);
      && (pos >= 0 ==> r.avg * r.pos as real == avg * pos as real + bid as real * count as real)
      && (pos < 0 && count < -pos ==> r.avg == avg)
      && (pos < 0 && count == -pos ==> r.avg == 0.0)
      && (pos < 0 && count > -pos ==> r.avg == bid as real)
  {
    var r := BuyFill(pos, avg, bid, count);
    if pos >= 0 {
      var q := (pos + count) as real;
      assert r.avg == (avg * pos as real + bid as real * count as real) / q;
      assert r.avg * q == avg * pos as real + bid as real * count as real;
    } else if count > -pos {
      var rest := (count + pos) as real;
      assert r.avg == (0.0 * 0.0 + bid as real * rest) / rest;
    }
  }

  /** Sells mirror buys: a short's entry is the weighted average of the prices sold at. */
  lemma {:induction false} SellAverages(pos: int, avg: real, ask: int, count: int)
    requires count > 0
    ensures var r := SellFill(pos, avg, ask, count);
      && (pos <= 0 ==> r.avg * (-r.pos) as real == avg * (-pos) as real + ask as real * count as real)
      && (pos > 0 && count < pos ==> r.avg == avg)
      && (pos > 0 && count == pos ==> r.avg == 0.0)
      && (pos > 0 && count > pos ==> r.avg == ask as real)
  {
    var r := SellFill(pos, avg, ask, count);
    if pos <= 0 {
      var q := (pos - count) as real;
      assert r.avg == (avg * pos as real - ask as real * count as real) / q;
      assert r.avg * q == avg * pos as real - ask as real * count as real;
    } else if count > pos {
      var rest := (count - pos) as real;
      assert r.avg == (0.0 * 0.0 - ask as real * rest) / (-rest);
    }
  }

  /** A sell is a buy of the mirrored position: same size and entry, negated position and PnL. */
  lemma {:induction false} SellMirrorsBuy(pos: int, avg: real, price: int, count: int)
    ensures var s := SellFill(pos, avg, price, count);
      var b := BuyFill(-pos, avg, price, count);
      s == Fill(-b.pos, b.avg, -b.pnl, b.size)
  {
    var s := SellFill(pos, avg, price, count);
    var b := BuyFill(-pos, avg, price, count);
    var closing := if pos > 0 then Min(count, pos) else 0;
    var rest := count - closing;
    if rest > 0 {
      var pos1 := pos - closing;
      var avg1 := if pos > 0 && pos1 == 0 then 0.0 else avg;
      var q := pos1 - rest;
      if q != 0 {
        assert s.avg == (avg1 * pos1 as real + price as real * (-rest) as real) / q as real;
        assert b.avg == (avg1 * (-pos1) as real + price as real * rest as real) / (-q) as real;
        assert (avg1 * (-pos1) as real + price as real * rest as real)
          == -(avg1 * pos1 as real + price as real * (-rest) as real);
      }
    }
  }

  /**
   * While every fill price lies in [lo, hi], so does the average entry of
   * any open position.
   */
  lemma {:induction false} FillKeepsAvgInRange(side: Side, pos: int, avg: real, bid: int, ask: int, count: int, lo: real, hi: real)
    requires count > 0
    requires lo <= bid as real <= hi && lo <= ask as real <= hi
    requires pos != 0 ==> lo <= avg <= hi
    ensures var r := FillOn(side, pos, avg, bid, ask, count);
      r.pos != 0 ==> lo <= r.avg <= hi
  {
    var r := FillOn(side, pos, avg, bid, ask, count);
    if side == Buy && pos >= 0 {
      BuyAverages(pos, avg, bid, count);
      WeightedWithin(avg, pos as real, bid as real, count as real, lo, hi, r.avg);
    } else if side == Buy {
      BuyAverages(pos, avg, bid, count);
    } else if pos <= 0 {
      SellAverages(pos, avg, ask, count);
      WeightedWithin(avg, (-pos) as real, ask as real, count as real, lo, hi, r.avg);
    } else {
      SellAverages(pos, avg, ask, count);
    }
  }

  lemma MulMono(a: real, b: real, c: real)
    requires a <= b && c >= 0.0
    ensures a * c <= b * c
  {
  }
  lemma MulStrict(a: real, b: real, c: real)
    requires a < b && c > 0.0
    ensures a * c < b * c
  {
  }
  lemma Distributes(a: real, b: real, c: real)
    ensures a * (b + c) == a * b + a * c
  {
  }
  /** The linear core of the upper bound, over the products as plain numbers. */
  lemma AtMost(xw: real, pn: real, hw: real, hn: real, W: real, hi: real, a: real)
    requires W > 0.0
    requires xw <= hw && pn <= hn
    requires a * W == xw + pn
    requires hi * W == hw + hn
    ensures a <= hi
  {
    if a > hi {
      MulStrict(hi, a, W);
    }
  }
  /** The linear core of the lower bound. */
  lemma AtLeast(xw: real, pn: real, lw: real, ln: real, W: real, lo: real, a: real)
    requires W > 0.0
    requires lw <= xw && ln <= pn
    requires a * W == xw + pn
    requires lo * W == lw + ln
    ensures lo <= a
  {
    if a < lo {
      MulStrict(a, lo, W);
    }
  }
  /** `a` with `a * (w + n) == x * w + p * n` lies between the bounds of `x` and `p`. */
  lemma {:induction false} WeightedWithin(x: real, w: real, p: real, n: real, lo: real, hi: real, a: real)
    requires w >= 0.0 && n > 0.0
    requires lo <= p <= hi
    requires w != 0.0 ==> lo <= x <= hi
    requires a * (w + n) == x * w + p * n
    ensures lo <= a <= hi
  {
    if w != 0.0 {
      MulMono(x, hi, w);
      MulMono(lo, x, w);
    } else {
      MulMono(x, x, w);
      MulMono(hi, hi, w);
      MulMono(lo, lo, w);
    }
    MulMono(p, hi, n);
    MulMono(lo, p, n);
    Distributes(hi, w, n);
    Distributes(lo, w, n);
    AtMost(x * w, p * n, hi * w, hi * n, w + n, hi, a);
    AtLeast(x * w, p * n, lo * w, lo * n, w + n, lo, a);
  }

  /**
   * A round trip from flat: buying `n` at `b` and selling them at `a`
   * (or selling first and buying back) ends flat, with no entry price and
   * `(a - b) * n` realised.
   */
  lemma {:induction false} RoundTrip(b: int, a: int, n: int)
    requires n > 0
    ensures var x := BuyFill(0, 0.0, b, n);
      var y := SellFill(x.pos, x.avg, a, n);
      y.pos == 0 && y.avg == 0.0 && y.pnl == (a - b) as real * n as real && x.size == y.size == n
    ensures var x := SellFill(0, 0.0, a, n);
      var y := BuyFill(x.pos, x.avg, b, n);
      y.pos == 0 && y.avg == 0.0 && y.pnl == (a - b) as real * n as real && x.size == y.size == n
  {
    BuyAverages(0, 0.0, b, n);
    var x := BuyFill(0, 0.0, b, n);
    assert x.pos == n;
    assert x.avg == b as real by {
      MulStrict(0.0, n as real, 1.0);
      assert x.avg * n as real == b as real * n as real;
      CancelFactor(x.avg, b as real, n as real);
    }
    SellAverages(0, 0.0, a, n);
    var u := SellFill(0, 0.0, a, n);
    assert u.pos == -n;
    assert u.avg == a as real by {
      assert u.avg * n as real == a as real * n as real;
      CancelFactor(u.avg, a as real, n as real);
    }
  }

  lemma CancelFactor(x: real, y: real, c: real)
    requires c != 0.0 && x * c == y * c
    ensures x == y
  {
    assert x == (x * c) / c;
  }
}
