/**
 * The paper-trading client's `handle_update`
 * (crypto/mm_range/mm_websockets/test_trading.py lines 78-315) and its older
 * variant (crypto/mm_range/mm_websockets/test_trading_with_sockets.py lines
 * 35-219).  Each update lists contracts; for each contract the client
 * registers or filters the contract's recent trades by id, fills the new ones
 * that trade through last round's quote, and proposes the next quote one
 * tick inside the market maker's levels.
 *
 * The spec functions below fold one trade, one contract and one update over
 * a `Sim` value; the class `SimTrader` does the same in place, and each of its
 * methods is proved equal to the matching function.
 */
module SimTrader {
  import opened Optional
  import opened SimFills

  /** Which of the two client files: they differ in three places, noted where they arise. */
  datatype Variant = TestTrading | WithSockets

  /** `{'bid': ..., 'ask': ...}` */
  datatype Quote = Quote(bid: Option<int>, ask: Option<int>)

  const NoQuote: Quote := Quote(None, None)

  /** One entry of a contract's `trades` list. */
  datatype Trade = Trade(tradeId: string, yesPrice: int, count: int, takerSide: string)

  /** One entry of the update's `contracts` list; `None` is a missing key. */
  datatype Contract = Contract(
    ticker: Option<string>,
    mmBid: int,
    mmAsk: int,
    bestBid: Option<int>,
    bestAsk: Option<int>,
    spread: real,
    midPrice: real,
    trades: seq<Trade>,
    tradeMarket: Option<bool>,
    strike: Option<string>,
    timeLeftSec: Option<int>)

  /** `contract.get('ticker', 'N/A')` */
  function TickerOf(c: Contract): string {
    if c.ticker.Some? then c.ticker.value else "N/A"
  }

  /** `contract.get('best_bid', mm_bid)` */
  function BestBidOf(c: Contract): int {
    if c.bestBid.Some? then c.bestBid.value else c.mmBid
  }

  /** `contract.get('best_ask', mm_ask)` */
  function BestAskOf(c: Contract): int {
    if c.bestAsk.Some? then c.bestAsk.value else c.mmAsk
  }

  /** `contract.get('trade_market', False)` */
  function GateOf(c: Contract): bool {
    c.tradeMarket.Some? && c.tradeMarket.value
  }

  /** `contract.get('strike', 'N/A')` */
  function StrikeOf(c: Contract): string {
    if c.strike.Some? then c.strike.value else "N/A"
  }

  /** One `trade_log` record. */
  datatype LogEntry = LogEntry(
    tradeId: string,
    ticker: string,
    side: Side,
    price: int,
    size: int,
    realizedPnl: real,
    positionAfter: int,
    avgEntryPriceAfter: real)

  /** The client's module-level state. */
  datatype Sim = Sim(
    ourQuotes: map<string, Quote>,
    newQuotes: map<string, Quote>,
    midPrices: map<string, real>,
    strikes: map<string, string>,
    seenTrades: map<string, set<string>>,
    positions: map<string, int>,
    avgPrices: map<string, real>,
    realizedPnl: map<string, real>,
    expectedSpreadPnl: map<string, real>,
    totalExpectedSpreadPnl: real,
    totalTrades: int,
    tradeLog: seq<LogEntry>)

  /** The state at import time. */
  const Start: Sim := Sim(map[], map[], map[], map[], map[], map[], map[], map[], map[], 0.0, 0, [])

  /** Reading a `defaultdict(int)`. */
  function IntAt(m: map<string, int>, k: string): int {
    if k in m then m[k] else 0
  }

  /** Reading a `defaultdict(float)`. */
  function RealAt(m: map<string, real>, k: string): real {
    if k in m then m[k] else 0.0
  }

  function SeenAt(m: map<string, set<string>>, k: string): set<string> {
    if k in m then m[k] else {}
  }

  /** `d[k] += x` on a `defaultdict(float)`. */
  function AddAt(m: map<string, real>, k: string, x: real): map<string, real> {
    m[k := RealAt(m, k) + x]
  }

  /** Reading `d[k]` on a `defaultdict(int)`, which creates the entry. */
  function TouchInt(m: map<string, int>, k: string): map<string, int> {
    m[k := IntAt(m, k)]
  }

  /** Reading `d[k]` on a `defaultdict(float)`, which creates the entry. */
  function TouchReal(m: map<string, real>, k: string): map<string, real> {
    m[k := RealAt(m, k)]
  }

  /** `seen_trades[k].add(id)`: `seen_trades` is a plain dict, and `k` was registered on its first sighting. */
  function Mark(m: map<string, set<string>>, k: string, id: string): map<string, set<string>> {
    m[k := SeenAt(m, k) + {id}]
  }

  /** The ids of a list of trades. */
  function Ids(trs: seq<Trade>): set<string> {
    set x | x in trs :: x.tradeId
  }

  /** `[t for t in trades if t['trade_id'] not in seen]` */
  function NewTrades(trs: seq<Trade>, seen: set<string>): (r: seq<Trade>)
    ensures forall x :: x in r <==> x in trs && x.tradeId !in seen
  {
    if trs == [] then []
    else (if trs[0].tradeId in seen then [] else [trs[0]]) + NewTrades(trs[1..], seen)
  }

  /** `int(x)` on a float: truncation toward zero. */
  function Trunc(x: real): (r: int)
    ensures 0.0 <= x ==> r as real <= x < r as real + 1.0
    ensures x < 0.0 ==> r as real - 1.0 < x <= r as real
  {
    if x >= 0.0 then x.Floor else -((-x).Floor)
  }

  /**
   * The next quote (test_trading.py lines 268-273): none when the spread
   * truncates to two cents or less, otherwise one tick inside the market
   * maker's levels on each side that does not touch the visible book.
   */
  function NextQuote(spread: real, mmBid: int, mmAsk: int, bestBid: int, bestAsk: int): Quote {
    if Trunc(spread) <= 2 then NoQuote
    else Quote(
      if mmBid + 1 < bestAsk then Some(mmBid + 1) else None,
      if mmAsk - 1 > bestBid then Some(mmAsk - 1) else None)
  }

  /** Last round's quote for `t` exists and has both sides. */
  predicate Quoted(quotes: map<string, Quote>, t: string) {
    t in quotes && quotes[t].bid.Some? && quotes[t].ask.Some?
  }

  /** The taker buying YES trades through our ask; a taker on NO trades through our bid. */
  function SideOf(takerSide: string): Side {
    if takerSide == "yes" then Sell else Buy
  }

  predicate Fills(side: Side, price: int, bid: int, ask: int) {
    if side == Sell then price > ask else price < bid
  }

  /** The price a fill trades at: our bid when we buy, our ask when we sell. */
  function FillPrice(side: Side, bid: int, ask: int): int {
    if side == Buy then bid else ask
  }

  /** Expected edge of a fill: half our quote's width, in dollars, per contract. */
  function SpreadEdge(bid: int, ask: int, size: int): real {
    ((ask - bid) as real / 100.0) / 2.0 * size as real
  }

  /** The position update of one fill; `closed` is whether it closed an opposite position first. */
  function Book(s: Sim, t: string, f: Fill, closed: bool): Sim {
    s.(
      positions := s.positions[t := f.pos],
      avgPrices := s.avgPrices[t := f.avg],
      realizedPnl := if closed then AddAt(s.realizedPnl, t, f.pnl) else s.realizedPnl)
  }

  /** The tallies and the `trade_log` record of a fill of `size` contracts, read after the position update. */
  function Tally(s: Sim, t: string, id: string, side: Side, bid: int, ask: int, size: int, realized: real): Sim {
    var edge := SpreadEdge(bid, ask, size);
    s.(
      expectedSpreadPnl := AddAt(s.expectedSpreadPnl, t, edge),
      totalExpectedSpreadPnl := s.totalExpectedSpreadPnl + edge,
      totalTrades := s.totalTrades + size,
      tradeLog := s.tradeLog + [LogEntry(id, t, side, FillPrice(side, bid, ask), size, realized, IntAt(s.positions, t), RealAt(s.avgPrices, t))])
  }

  /** One fill: the position update, then its tallies and log record. */
  function Record(s: Sim, t: string, id: string, side: Side, bid: int, ask: int, f: Fill, closed: bool): Sim {
    Tally(Book(s, t, f, closed), t, id, side, bid, ask, f.size, f.pnl)
  }

  /** The state and the handler's local `spread` between trades. */
  datatype Pass = Pass(sim: Sim, spread: real)

  /**
   * One pass of the per-trade loop.  In test_trading.py a trade of a market
   * whose `trade_market` flag is off is skipped before it is marked seen
   * (lines 138-143); the older variant has no such gate.  A buy fill
   * overwrites the local `spread` with our quote's width in both files
   * (line 200); a sell fill does so only in the older variant (its line 175).
   */
  function TradeStep(v: Variant, s: Sim, t: string, gate: bool, tr: Trade, spread: real): Pass {
    if v == TestTrading && !gate then Pass(s, spread)
    else
      var s1 := s.(seenTrades := Mark(s.seenTrades, t, tr.tradeId));
      if !Quoted(s.ourQuotes, t) then Pass(s1, spread)
      else
        var bid, ask := s.ourQuotes[t].bid.value, s.ourQuotes[t].ask.value;
        var side := SideOf(tr.takerSide);
        var pos, avg := IntAt(s.positions, t), RealAt(s.avgPrices, t);
        var s2 := s1.(positions := TouchInt(s1.positions, t), avgPrices := TouchReal(s1.avgPrices, t));
        if !Fills(side, tr.yesPrice, bid, ask) then Pass(s2, spread)
        else
          var f := FillOn(side, pos, avg, bid, ask, Min(tr.count, SIZING));
          var closed := if side == Buy then pos < 0 else pos > 0;
          Pass(Record(s2, t, tr.tradeId, side, bid, ask, f, closed),
               if side == Buy || v == WithSockets then (ask - bid) as real else spread)
  }

  /** The per-trade loop over `trs`, in order, from `p`. */
  function TradesOf(v: Variant, p: Pass, t: string, gate: bool, trs: seq<Trade>): Pass
    decreases |trs|
  {
    if trs == [] then p
    else TradesOf(v, TradeStep(v, p.sim, t, gate, trs[0], p.spread), t, gate, trs[1..])
  }

  /** One more pass of the per-trade loop. */
  lemma TradesNext(v: Variant, p: Pass, t: string, gate: bool, trs: seq<Trade>, i: nat)
    requires i < |trs|
    ensures TradesOf(v, p, t, gate, trs[i..]) == TradesOf(v, TradeStep(v, p.sim, t, gate, trs[i], p.spread), t, gate, trs[i + 1..])
  {
    assert trs[i..][1..] == trs[i + 1..];
  }

  /** The state after some contracts, whether `time_left` is bound yet, and whether the handler raised. */
  datatype Step = Step(sim: Sim, timeBound: bool, raised: bool)

  /** Creating the `defaultdict` entries that lines 293-298 read. */
  function Touch(s: Sim, t: string): Sim {
    s.(
      positions := TouchInt(s.positions, t),
      avgPrices := TouchReal(s.avgPrices, t),
      realizedPnl := TouchReal(s.realizedPnl, t))
  }

  /** Lines 101-103 of test_trading.py: the strike and mid price are recorded; the older variant has no such lines. */
  function Note(v: Variant, s: Sim, c: Contract): Sim {
    if v == TestTrading then s.(strikes := s.strikes[TickerOf(c) := StrikeOf(c)], midPrices := s.midPrices[TickerOf(c) := c.midPrice])
    else s
  }

  /** The first sighting of `t` registers every listed trade as seen (lines 130-133). */
  function Register(s: Sim, t: string, c: Contract): Sim {
    if t !in s.seenTrades then s.(seenTrades := s.seenTrades[t := Ids(c.trades)]) else s
  }

  /** The trades the per-trade loop visits: none at a first sighting, else the unseen ones in list order (line 135). */
  function Pending(s: Sim, t: string, c: Contract): seq<Trade> {
    if t !in s.seenTrades then [] else NewTrades(c.trades, s.seenTrades[t])
  }

  /** Storing the next quote (lines 275-283; the older variant has no `new_quotes`) and the `defaultdict` reads of lines 293-298. */
  function Propose(v: Variant, s: Sim, t: string, q: Quote): Sim {
    Touch(s.(
      ourQuotes := s.ourQuotes[t := q],
      newQuotes := if v == TestTrading then s.newQuotes[t := q] else s.newQuotes), t)
  }

  /**
   * One pass of the per-contract loop.  Only test_trading.py reads
   * `time_left`, which stays unbound (an `UnboundLocalError` at line 124)
   * until some contract of the update carries `time_left_sec`.
   */
  function ContractStep(v: Variant, s: Sim, timeBound: bool, c: Contract): Step {
    var t := TickerOf(c);
    var s0 := Note(v, s, c);
    var bound := timeBound || c.timeLeftSec.Some?;
    if v == TestTrading && !bound then Step(s0, bound, true)
    else
      var p := TradesOf(v, Pass(Register(s0, t, c), c.spread), t, GateOf(c), Pending(s0, t, c));
      Step(Propose(v, p.sim, t, NextQuote(p.spread, c.mmBid, c.mmAsk, BestBidOf(c), BestAskOf(c))), bound, false)
  }

  /** The per-contract loop over `cs` from `p`, stopping at the first contract that raises. */
  function ContractsOf(v: Variant, p: Step, cs: seq<Contract>): Step
    decreases |cs|
  {
    if cs == [] || p.raised then p
    else ContractsOf(v, ContractStep(v, p.sim, p.timeBound, cs[0]), cs[1..])
  }

  /** The state after an update and whether the handler raised. */
  datatype Handled = Handled(sim: Sim, raised: bool)

  /**
   * `handle_update(data)`.  Only test_trading.py replaces `our_quotes` by
   * this round's `new_quotes` at the end (lines 314-315); when it raises,
   * neither line runs.
   */
  function UpdateOf(v: Variant, s: Sim, cs: seq<Contract>): Handled {
    var p := ContractsOf(v, Step(s, false, false), cs);
    if p.raised then Handled(p.sim, true)
    else if v == TestTrading then Handled(p.sim.(ourQuotes := p.sim.newQuotes, newQuotes := map[]), false)
    else Handled(p.sim, false)
  }

  /** The client, whose handler updates module-level maps, sets and counters in place. */
  class SimTrader {
    var ourQuotes: map<string, Quote>
    var newQuotes: map<string, Quote>
    var midPrices: map<string, real>
    var strikes: map<string, string>
    var seenTrades: map<string, set<string>>
    var positions: map<string, int>
    var avgPrices: map<string, real>
    var realizedPnl: map<string, real>
    var expectedSpreadPnl: map<string, real>
    var totalExpectedSpreadPnl: real
    var totalTrades: int
    var tradeLog: seq<LogEntry>

    function State(): Sim
      reads this
    {
      Sim(ourQuotes, newQuotes, midPrices, strikes, seenTrades, positions, avgPrices, realizedPnl,
        expectedSpreadPnl, totalExpectedSpreadPnl, totalTrades, tradeLog)
    }

    constructor()
      ensures State() == Start
    {
      ourQuotes, newQuotes, midPrices, strikes := map[], map[], map[], map[];
      seenTrades, positions, avgPrices, realizedPnl := map[], map[], map[], map[];
      expectedSpreadPnl, totalExpectedSpreadPnl, totalTrades, tradeLog := map[], 0.0, 0, [];
    }

    /** The buy branch: cover a short first, then open or extend the long at a weighted average. */
    method FillBuy(t: string, bid: int, count0: int) returns (realized: real, filled: int)
      requires t in positions && t in avgPrices
      modifies this`positions, this`avgPrices, this`realizedPnl
      ensures var f := BuyFill(old(positions[t]), old(avgPrices[t]), bid, count0);
        && positions == old(positions)[t := f.pos] && avgPrices == old(avgPrices)[t := f.avg]
        && realizedPnl == (if old(positions[t]) < 0 then AddAt(old(realizedPnl), t, f.pnl) else old(realizedPnl))
        && realized == f.pnl && filled == f.size
    {
      var count := count0;
      var currentPos, currentAvg := positions[t], avgPrices[t];
      ghost var f := BuyFill(currentPos, currentAvg, bid, count0);
      realized, filled := 0.0, 0;
      if currentPos < 0 {
        var closing := Min(count, -currentPos);
        var pnl := (currentAvg - bid as real) * closing as real;
        assert pnl == f.pnl;
        realizedPnl := AddAt(realizedPnl, t, pnl);
        realized := realized + pnl;
        positions := positions[t := positions[t] + closing];
        count := count - closing;
        filled := filled + closing;
        if positions[t] == 0 {
          avgPrices := avgPrices[t := 0.0];
          currentAvg := 0.0;
        }
      }
      if count > 0 {
        var newQty := positions[t] + count;
        var newAvg := Blend(currentAvg, positions[t], bid, count, newQty);
        assert newQty == f.pos && newAvg == f.avg;
        positions := positions[t := newQty];
        avgPrices := avgPrices[t := newAvg];
        filled := filled + count;
      } else {
        assert positions[t] == f.pos && avgPrices[t] == f.avg;
      }
    }

    /** The sell branch: close a long first, then open or extend the short. */
    method FillSell(t: string, ask: int, count0: int) returns (realized: real, filled: int)
      requires t in positions && t in avgPrices
      modifies this`positions, this`avgPrices, this`realizedPnl
      ensures var f := SellFill(old(positions[t]), old(avgPrices[t]), ask, count0);
        && positions == old(positions)[t := f.pos] && avgPrices == old(avgPrices)[t := f.avg]
        && realizedPnl == (if old(positions[t]) > 0 then AddAt(old(realizedPnl), t, f.pnl) else old(realizedPnl))
        && realized == f.pnl && filled == f.size
    {
      var count := count0;
      var currentPos, currentAvg := positions[t], avgPrices[t];
      ghost var f := SellFill(currentPos, currentAvg, ask, count0);
      realized, filled := 0.0, 0;
      if currentPos > 0 {
        var closing := Min(count, currentPos);
        var pnl := (ask as real - currentAvg) * closing as real;
        assert pnl == f.pnl;
        realizedPnl := AddAt(realizedPnl, t, pnl);
        realized := realized + pnl;
        positions := positions[t := positions[t] - closing];
        count := count - closing;
        filled := filled + closing;
        if positions[t] == 0 {
          avgPrices := avgPrices[t := 0.0];
          currentAvg := 0.0;
        }
      }
      if count > 0 {
        var newQty := positions[t] - count;
        var newAvg := Blend(currentAvg, positions[t], ask, -count, newQty);
        assert newQty == f.pos && newAvg == f.avg;
        positions := positions[t := newQty];
        avgPrices := avgPrices[t := newAvg];
        filled := filled + count;
      } else {
        assert positions[t] == f.pos && avgPrices[t] == f.avg;
      }
    }

    /** A fill and its bookkeeping: the position update, then the tallies and the `trade_log` record. */
    method ApplyFill(t: string, id: string, side: Side, bid: int, ask: int, count: int)
      requires t in positions && t in avgPrices
      modifies this
      ensures State() == Record(old(State()), t, id, side, bid, ask,
        FillOn(side, old(positions[t]), old(avgPrices[t]), bid, ask, count),
        if side == Buy then old(positions[t]) < 0 else old(positions[t]) > 0)
    {
      var realized, filled;
      if side == Buy {
        realized, filled := FillBuy(t, bid, count);
      } else {
        realized, filled := FillSell(t, ask, count);
      }
      RecordFill(t, id, side, bid, ask, filled, realized);
    }

    /** The tallies and the `trade_log` record of a fill. */
    method RecordFill(t: string, id: string, side: Side, bid: int, ask: int, filled: int, realized: real)
      modifies this
      ensures State() == Tally(old(State()), t, id, side, bid, ask, filled, realized)
    {
      var spreadEdge := SpreadEdge(bid, ask, filled);
      totalTrades := totalTrades + filled;
      expectedSpreadPnl := AddAt(expectedSpreadPnl, t, spreadEdge);
      totalExpectedSpreadPnl := totalExpectedSpreadPnl + spreadEdge;
      tradeLog := tradeLog + [LogEntry(id, t, side, FillPrice(side, bid, ask), filled, realized, IntAt(positions, t), RealAt(avgPrices, t))];
    }

    /** One pass of the per-trade loop; returns the handler's `spread` afterwards. */
    method HandleTrade(v: Variant, t: string, gate: bool, tr: Trade, spread: real) returns (spreadAfter: real)
      modifies this
      ensures Pass(State(), spreadAfter) == TradeStep(v, old(State()), t, gate, tr, spread)
    {
      spreadAfter := spread;
      if v == TestTrading && !gate {
        return;
      }
      seenTrades := Mark(seenTrades, t, tr.tradeId);
      var count := Min(tr.count, SIZING);
      if !Quoted(ourQuotes, t) {
        return;
      }
      var ourBid, ourAsk := ourQuotes[t].bid.value, ourQuotes[t].ask.value;
      var side := SideOf(tr.takerSide);
      var filled := Fills(side, tr.yesPrice, ourBid, ourAsk);
      positions := TouchInt(positions, t);
      avgPrices := TouchReal(avgPrices, t);
      if filled {
        ApplyFill(t, tr.tradeId, side, ourBid, ourAsk, count);
        if side == Buy || v == WithSockets {
          spreadAfter := (ourAsk - ourBid) as real;
        }
      }
    }

    /** One pass of the per-contract loop. */
    method HandleContract(v: Variant, c: Contract, timeBound: bool) returns (bound: bool, raised: bool)
      modifies this
      ensures Step(State(), bound, raised) == ContractStep(v, old(State()), timeBound, c)
    {
      var t := TickerOf(c);
      NoteContract(v, c);
      bound := timeBound || c.timeLeftSec.Some?;
      if v == TestTrading && !bound {
        raised := true;
        return;
      }
      raised := false;
      var newTrades := RegisterTrades(t, c);
      var spread := HandleTrades(v, t, GateOf(c), newTrades, c.spread);
      var q := NextQuote(spread, c.mmBid, c.mmAsk, BestBidOf(c), BestAskOf(c));
      ProposeQuote(v, t, q);
    }

    /** Lines 101-103 of test_trading.py. */
    method NoteContract(v: Variant, c: Contract)
      modifies this
      ensures State() == Note(v, old(State()), c)
    {
      if v == TestTrading {
        strikes := strikes[TickerOf(c) := StrikeOf(c)];
        midPrices := midPrices[TickerOf(c) := c.midPrice];
      }
    }

    /** The first sighting of a ticker and the filter of its unseen trades. */
    method RegisterTrades(t: string, c: Contract) returns (newTrades: seq<Trade>)
      modifies this
      ensures State() == Register(old(State()), t, c)
      ensures newTrades == Pending(old(State()), t, c)
    {
      var trades := c.trades;
      if t !in seenTrades {
        seenTrades := seenTrades[t := Ids(c.trades)];
        trades := [];
      }
      newTrades := NewTrades(trades, seenTrades[t]);
    }

    /** The per-trade loop. */
    method HandleTrades(v: Variant, t: string, gate: bool, trades: seq<Trade>, spread0: real) returns (spread: real)
      modifies this
      ensures Pass(State(), spread) == TradesOf(v, Pass(old(State()), spread0), t, gate, trades)
    {
      ghost var s0 := State();
      spread := spread0;
      var i := 0;
      while i < |trades|
        invariant 0 <= i <= |trades|
        invariant TradesOf(v, Pass(State(), spread), t, gate, trades[i..]) == TradesOf(v, Pass(s0, spread0), t, gate, trades)
      {
        ghost var before := Pass(State(), spread);
        spread := HandleTrade(v, t, gate, trades[i], spread);
        TradesNext(v, before, t, gate, trades, i);
        i := i + 1;
      }
    }

    /** Storing the next quote and reading the ticker's `defaultdict` entries. */
    method ProposeQuote(v: Variant, t: string, q: Quote)
      modifies this
      ensures State() == Propose(v, old(State()), t, q)
    {
      ourQuotes := ourQuotes[t := q];
      if v == TestTrading {
        newQuotes := newQuotes[t := q];
      }
      TouchBooks(t);
    }

    /** Lines 293-298 of test_trading.py read the ticker's position, average and realized P&L, creating them. */
    method TouchBooks(t: string)
      modifies this
      ensures State() == Touch(old(State()), t)
    {
      positions := TouchInt(positions, t);
      avgPrices := TouchReal(avgPrices, t);
      realizedPnl := TouchReal(realizedPnl, t);
    }

    /** The per-contract loop, which stops at the first contract that raises. */
    method HandleContracts(v: Variant, contracts: seq<Contract>) returns (bound: bool, raised: bool)
      modifies this
      ensures Step(State(), bound, raised) == ContractsOf(v, Step(old(State()), false, false), contracts)
    {
      ghost var s0 := State();
      ghost var p := Step(s0, false, false);
      bound, raised := false, false;
      var i := 0;
      while i < |contracts| && !raised
        invariant 0 <= i <= |contracts|
        invariant p == Step(State(), bound, raised)
        invariant ContractsOf(v, p, contracts[i..]) == ContractsOf(v, Step(s0, false, false), contracts)
      {
        assert contracts[i..][1..] == contracts[i + 1..];
        bound, raised := HandleContract(v, contracts[i], bound);
        p := ContractStep(v, p.sim, p.timeBound, contracts[i]);
        i := i + 1;
      }
    }

    /** Lines 314-315 of test_trading.py: this round's quotes become the ones to fill against. */
    method RollQuotes()
      modifies this
      ensures State() == old(State()).(ourQuotes := old(newQuotes), newQuotes := map[])
    {
      ourQuotes := newQuotes;
      newQuotes := map[];
    }

    /** `handle_update(data)`; `completed` is false where it raises. */
    method HandleUpdate(v: Variant, contracts: seq<Contract>) returns (completed: bool)
      modifies this
      ensures Handled(State(), !completed) == UpdateOf(v, old(State()), contracts)
    {
      var bound, raised := HandleContracts(v, contracts);
      if !raised && v == TestTrading {
        RollQuotes();
      }
      completed := !raised;
    }
  }
}
