/**
 * What the paper-trading client's handler promises, proved about the
 * functions of `SimTrader`: the quoting rule, the trade-through fill rule,
 * the dedupe of trades by id, the ledger that positions, realized P&L and
 * volume are sums over `trade_log`, and which quotes the next round fills
 * against.
 */
module SimTraderProps {
  import opened Optional
  import opened SimFills
  import opened SimTrader

  // ---------------------------------------------------------------- quoting

  /** `int(spread) <= 2` is exactly "the spread is under three cents". */
  lemma TruncAboveTwo(x: real)
    ensures Trunc(x) > 2 <==> x >= 3.0
  {
    if x >= 3.0 {
      assert Trunc(x) as real > x - 1.0;
    } else if x >= 0.0 {
      assert Trunc(x) as real <= x;
    }
  }

  /**
   * The next quote: a side is quoted exactly when the spread is at least
   * three cents and one tick inside the market maker's level does not touch
   * the other side of the visible book, and then it is that level.
   */
  lemma QuoteRule(spread: real, mmBid: int, mmAsk: int, bestBid: int, bestAsk: int)
    ensures var q := NextQuote(spread, mmBid, mmAsk, bestBid, bestAsk);
      && (q.bid.Some? <==> spread >= 3.0 && mmBid + 1 < bestAsk)
      && (q.ask.Some? <==> spread >= 3.0 && mmAsk - 1 > bestBid)
      && (q.bid.Some? ==> q.bid.value == mmBid + 1 && q.bid.value < bestAsk)
      && (q.ask.Some? ==> q.ask.value == mmAsk - 1 && q.ask.value > bestBid)
  {
    TruncAboveTwo(spread);
  }

  /** Quoting on the market maker's own spread never crosses: a two-sided quote has its bid below its ask. */
  lemma QuoteNotCrossed(mmBid: int, mmAsk: int, bestBid: int, bestAsk: int)
    ensures var q := NextQuote((mmAsk - mmBid) as real, mmBid, mmAsk, bestBid, bestAsk);
      q.bid.Some? && q.ask.Some? ==> q.bid.value < q.ask.value
  {
    QuoteRule((mmAsk - mmBid) as real, mmBid, mmAsk, bestBid, bestAsk);
  }

  // ------------------------------------------------------------ one trade

  /** Whether the handler looks at trade `tr` at all: the older variant always does, test_trading.py only for an open market. */
  predicate Visits(v: Variant, gate: bool) {
    v == WithSockets || gate
  }

  /** Whether `tr` trades through last round's two-sided quote for `t`. */
  predicate TradesThrough(s: Sim, t: string, tr: Trade) {
    Quoted(s.ourQuotes, t)
    && Fills(SideOf(tr.takerSide), tr.yesPrice, s.ourQuotes[t].bid.value, s.ourQuotes[t].ask.value)
  }

  /**
   * The fill rule of one trade: a `trade_log` record is appended exactly
   * when the trade is visited and trades through our quote; it records the
   * trade, our side, our price and the capped size, and the expected spread
   * P&L grows by half our quote's width per contract.  A buy fill then
   * replaces the handler's `spread` by our quote's width in both files
   * (test_trading.py line 200); a sell fill does so only in the older
   * variant, test_trading.py keeping a sell's width in `our_spread`
   * (line 246).
   */
  lemma FillRule(v: Variant, s: Sim, t: string, gate: bool, tr: Trade, spread: real)
    ensures var r := TradeStep(v, s, t, gate, tr, spread).sim;
      var fill := Visits(v, gate) && TradesThrough(s, t, tr);
      && |r.tradeLog| == |s.tradeLog| + (if fill then 1 else 0)
      && r.tradeLog[..|s.tradeLog|] == s.tradeLog
      && (!fill ==> r.totalTrades == s.totalTrades && r.totalExpectedSpreadPnl == s.totalExpectedSpreadPnl)
      && (fill ==>
            var bid, ask := s.ourQuotes[t].bid.value, s.ourQuotes[t].ask.value;
            var e := r.tradeLog[|s.tradeLog|];
            && e.tradeId == tr.tradeId && e.ticker == t && e.side == SideOf(tr.takerSide)
            && e.price == FillPrice(e.side, bid, ask)
            && (tr.count > 0 ==> e.size == Min(tr.count, SIZING))
            && r.totalTrades == s.totalTrades + e.size
            && r.totalExpectedSpreadPnl == s.totalExpectedSpreadPnl + SpreadEdge(bid, ask, e.size))
      && TradeStep(v, s, t, gate, tr, spread).spread ==
           if fill && (SideOf(tr.takerSide) == Buy || v == WithSockets)
           then (s.ourQuotes[t].ask.value - s.ourQuotes[t].bid.value) as real
           else spread
  {
    if Visits(v, gate) && TradesThrough(s, t, tr) {
      var side := SideOf(tr.takerSide);
      var pos, avg := IntAt(s.positions, t), RealAt(s.avgPrices, t);
      var bid, ask := s.ourQuotes[t].bid.value, s.ourQuotes[t].ask.value;
      var count := Min(tr.count, SIZING);
      BuyMovesPosition(pos, avg, bid, count);
      SellMovesPosition(pos, avg, ask, count);
    }
  }

  /**
   * A visited trade is marked seen under its ticker, whether or not it
   * fills; nothing else is added to any ticker's seen set.
   */
  lemma MarksSeen(v: Variant, s: Sim, t: string, gate: bool, tr: Trade, spread: real, u: string)
    ensures var r := TradeStep(v, s, t, gate, tr, spread).sim;
      SeenAt(r.seenTrades, u) == if u == t && Visits(v, gate) then SeenAt(s.seenTrades, u) + {tr.tradeId} else SeenAt(s.seenTrades, u)
  {
  }

  /** In test_trading.py a market whose `trade_market` flag is off has all its trades skipped: nothing changes. */
  lemma {:induction false} GateClosedSkipsTrades(p: Pass, t: string, trs: seq<Trade>)
    ensures TradesOf(TestTrading, p, t, false, trs) == p
    decreases |trs|
  {
    if trs != [] {
      assert TradeStep(TestTrading, p.sim, t, false, trs[0], p.spread) == p;
      GateClosedSkipsTrades(p, t, trs[1..]);
    }
  }

  // ------------------------------------------------------------ the ledger

  /** A record's signed size: buys add to the position, sells take from it. */
  function Signed(e: LogEntry): int {
    if e.side == Buy then e.size else -e.size
  }

  /** The net size `trade_log` records for ticker `u`. */
  function Net(log: seq<LogEntry>, u: string): int {
    if log == [] then 0
    else Net(log[..|log| - 1], u) + (if log[|log| - 1].ticker == u then Signed(log[|log| - 1]) else 0)
  }

  /** The realized P&L `trade_log` records for ticker `u`. */
  function Realized(log: seq<LogEntry>, u: string): real {
    if log == [] then 0.0
    else Realized(log[..|log| - 1], u) + (if log[|log| - 1].ticker == u then log[|log| - 1].realizedPnl else 0.0)
  }

  /** The number of contracts `trade_log` records. */
  function Volume(log: seq<LogEntry>): int {
    if log == [] then 0 else Volume(log[..|log| - 1]) + log[|log| - 1].size
  }

  /**
   * The bookkeeping agrees with the log: each ticker's position and
   * realized P&L are the sums of its records, a flat position has no
   * average, `total_trades` is the logged volume, and each record's
   * `position_after` is the net size logged up to and including it.
   */
  ghost predicate Ledger(s: Sim) {
    Books(s.positions, s.avgPrices, s.realizedPnl, s.totalTrades, s.tradeLog)
  }

  ghost predicate Books(positions: map<string, int>, avgPrices: map<string, real>, realizedPnl: map<string, real>, totalTrades: int, log: seq<LogEntry>) {
    && (forall u :: IntAt(positions, u) == Net(log, u))
    && (forall u :: RealAt(realizedPnl, u) == Realized(log, u))
    && (forall u :: FlatHasNoAvg(IntAt(positions, u), RealAt(avgPrices, u)))
    && totalTrades == Volume(log)
    && (forall k :: 0 <= k < |log| ==> log[k].positionAfter == Net(log[..k + 1], log[k].ticker))
  }

  /** Two states whose books read the same through the `defaultdict`s. */
  ghost predicate SameBooks(s: Sim, s': Sim) {
    && (forall u :: IntAt(s'.positions, u) == IntAt(s.positions, u))
    && (forall u :: RealAt(s'.avgPrices, u) == RealAt(s.avgPrices, u))
    && (forall u :: RealAt(s'.realizedPnl, u) == RealAt(s.realizedPnl, u))
    && s'.totalTrades == s.totalTrades
    && s'.tradeLog == s.tradeLog
  }

  lemma SameBooksKeepLedger(s: Sim, s': Sim)
    requires Ledger(s) && SameBooks(s, s')
    ensures Ledger(s')
  {
  }

  /** Reading a `defaultdict` entry changes nothing a reader sees. */
  lemma TouchKeepsBooks(s: Sim, t: string)
    ensures SameBooks(s, Touch(s, t))
  {
  }

  /** Appending one record adds it to its ticker's sums and to the volume. */
  lemma {:induction false} LogSnoc(log: seq<LogEntry>, e: LogEntry)
    ensures forall u :: Net(log + [e], u) == Net(log, u) + (if e.ticker == u then Signed(e) else 0)
    ensures forall u :: Realized(log + [e], u) == Realized(log, u) + (if e.ticker == u then e.realizedPnl else 0.0)
    ensures Volume(log + [e]) == Volume(log) + e.size
  {
    assert (log + [e])[..|log|] == log;
  }

  /** Booking any fill that moves the position by its size, realizes P&L only when it closes, and leaves no average when flat keeps the books. */
  lemma BookingKeepsBooks(positions: map<string, int>, avgPrices: map<string, real>, realizedPnl: map<string, real>, totalTrades: int,
                          log: seq<LogEntry>, t: string, e: LogEntry, closed: bool)
    requires Books(positions, avgPrices, realizedPnl, totalTrades, log)
    requires e.ticker == t && e.positionAfter == IntAt(positions, t) + Signed(e)
    requires !closed ==> e.realizedPnl == 0.0
    requires FlatHasNoAvg(e.positionAfter, e.avgEntryPriceAfter)
    ensures Books(positions[t := e.positionAfter], avgPrices[t := e.avgEntryPriceAfter],
                  if closed then AddAt(realizedPnl, t, e.realizedPnl) else realizedPnl,
                  totalTrades + e.size, log + [e])
  {
    var log' := log + [e];
    var P := positions[t := e.positionAfter];
    var A := avgPrices[t := e.avgEntryPriceAfter];
    var R := if closed then AddAt(realizedPnl, t, e.realizedPnl) else realizedPnl;
    LogSnoc(log, e);
    forall u
      ensures IntAt(P, u) == Net(log', u)
      ensures RealAt(R, u) == Realized(log', u)
      ensures FlatHasNoAvg(IntAt(P, u), RealAt(A, u))
    {
    }
    forall k | 0 <= k < |log'|
      ensures log'[k].positionAfter == Net(log'[..k + 1], log'[k].ticker)
    {
      if k < |log| {
        assert log'[..k + 1] == log[..k + 1];
      } else {
        assert log'[..k + 1] == log';
      }
    }
    assert totalTrades + e.size == Volume(log');
    assert Books(P, A, R, totalTrades + e.size, log');
  }

  /** The fields a fill's bookkeeping changes. */
  lemma RecordFields(s: Sim, t: string, id: string, side: Side, bid: int, ask: int, f: Fill, closed: bool)
    ensures var r := Record(s, t, id, side, bid, ask, f, closed);
      && r.positions == s.positions[t := f.pos]
      && r.avgPrices == s.avgPrices[t := f.avg]
      && r.realizedPnl == (if closed then AddAt(s.realizedPnl, t, f.pnl) else s.realizedPnl)
      && r.totalTrades == s.totalTrades + f.size
      && r.tradeLog == s.tradeLog + [LogEntry(id, t, side, FillPrice(side, bid, ask), f.size, f.pnl, f.pos, f.avg)]
  {
  }

  /** Booking a fill that moves the position by its size, realizes P&L only when it closes and leaves no average when flat keeps the ledger. */
  lemma BookingKeepsLedger(s: Sim, t: string, id: string, side: Side, bid: int, ask: int, f: Fill, closed: bool)
    requires Ledger(s)
    requires f.pos == IntAt(s.positions, t) + (if side == Buy then f.size else -f.size)
    requires !closed ==> f.pnl == 0.0
    requires FlatHasNoAvg(f.pos, f.avg)
    ensures Ledger(Record(s, t, id, side, bid, ask, f, closed))
  {
    RecordFields(s, t, id, side, bid, ask, f, closed);
    var e := LogEntry(id, t, side, FillPrice(side, bid, ask), f.size, f.pnl, f.pos, f.avg);
    BookingKeepsBooks(s.positions, s.avgPrices, s.realizedPnl, s.totalTrades, s.tradeLog, t, e, closed);
  }

  /** One fill keeps the ledger. */
  lemma RecordKeepsLedger(s: Sim, t: string, id: string, side: Side, bid: int, ask: int, count: int)
    requires Ledger(s)
    ensures var pos, avg := IntAt(s.positions, t), RealAt(s.avgPrices, t);
      Ledger(Record(s, t, id, side, bid, ask, FillOn(side, pos, avg, bid, ask, count), if side == Buy then pos < 0 else pos > 0))
  {
    var pos, avg := IntAt(s.positions, t), RealAt(s.avgPrices, t);
    BuyMovesPosition(pos, avg, bid, count);
    SellMovesPosition(pos, avg, ask, count);
    FillKeepsFlatNoAvg(side, pos, avg, bid, ask, count);
    assert FlatHasNoAvg(pos, avg);
    BookingKeepsLedger(s, t, id, side, bid, ask, FillOn(side, pos, avg, bid, ask, count), if side == Buy then pos < 0 else pos > 0);
  }

  /** One pass of the per-trade loop keeps the ledger. */
  lemma TradeStepKeepsLedger(v: Variant, s: Sim, t: string, gate: bool, tr: Trade, spread: real)
    requires Ledger(s)
    ensures Ledger(TradeStep(v, s, t, gate, tr, spread).sim)
  {
    if v == WithSockets || gate {
      var s1 := s.(seenTrades := Mark(s.seenTrades, t, tr.tradeId));
      if Quoted(s.ourQuotes, t) {
        var bid, ask := s.ourQuotes[t].bid.value, s.ourQuotes[t].ask.value;
        var side := SideOf(tr.takerSide);
        var s2 := s1.(positions := TouchInt(s1.positions, t), avgPrices := TouchReal(s1.avgPrices, t));
        assert SameBooks(s, s2);
        SameBooksKeepLedger(s, s2);
        if Fills(side, tr.yesPrice, bid, ask) {
          assert IntAt(s2.positions, t) == IntAt(s.positions, t);
          assert RealAt(s2.avgPrices, t) == RealAt(s.avgPrices, t);
          RecordKeepsLedger(s2, t, tr.tradeId, side, bid, ask, Min(tr.count, SIZING));
        } else {
          assert TradeStep(v, s, t, gate, tr, spread).sim == s2;
        }
      } else {
        assert SameBooks(s, s1);
        SameBooksKeepLedger(s, s1);
        assert TradeStep(v, s, t, gate, tr, spread).sim == s1;
      }
    }
  }

  /** The per-trade loop keeps the ledger. */
  lemma {:induction false} TradesKeepLedger(v: Variant, p: Pass, t: string, gate: bool, trs: seq<Trade>)
    requires Ledger(p.sim)
    ensures Ledger(TradesOf(v, p, t, gate, trs).sim)
    decreases |trs|
  {
    if trs != [] {
      TradeStepKeepsLedger(v, p.sim, t, gate, trs[0], p.spread);
      TradesKeepLedger(v, TradeStep(v, p.sim, t, gate, trs[0], p.spread), t, gate, trs[1..]);
    }
  }

  /** Recording a strike and a mid price leaves the books alone. */
  lemma NoteKeepsLedger(v: Variant, s: Sim, c: Contract)
    requires Ledger(s)
    ensures Ledger(Note(v, s, c))
  {
    assert SameBooks(s, Note(v, s, c));
    SameBooksKeepLedger(s, Note(v, s, c));
  }

  /** Registering a first sighting's trades as seen leaves the books alone. */
  lemma RegisterKeepsLedger(s: Sim, t: string, c: Contract)
    requires Ledger(s)
    ensures Ledger(Register(s, t, c))
  {
    assert SameBooks(s, Register(s, t, c));
    SameBooksKeepLedger(s, Register(s, t, c));
  }

  /** Storing the next quote and reading the `defaultdict` entries leaves the books alone. */
  lemma ProposeKeepsLedger(v: Variant, s: Sim, t: string, q: Quote)
    requires Ledger(s)
    ensures Ledger(Propose(v, s, t, q))
  {
    var s1 := s.(ourQuotes := s.ourQuotes[t := q], newQuotes := if v == TestTrading then s.newQuotes[t := q] else s.newQuotes);
    assert SameBooks(s, s1);
    TouchKeepsBooks(s1, t);
    SameBooksKeepLedger(s, s1);
    SameBooksKeepLedger(s1, Touch(s1, t));
  }

  /** One pass of the per-contract loop keeps the ledger. */
  lemma ContractStepKeepsLedger(v: Variant, s: Sim, timeBound: bool, c: Contract)
    requires Ledger(s)
    ensures Ledger(ContractStep(v, s, timeBound, c).sim)
  {
    var t := TickerOf(c);
    var s0 := Note(v, s, c);
    NoteKeepsLedger(v, s, c);
    RegisterKeepsLedger(s0, t, c);
    var p := TradesOf(v, Pass(Register(s0, t, c), c.spread), t, GateOf(c), Pending(s0, t, c));
    TradesKeepLedger(v, Pass(Register(s0, t, c), c.spread), t, GateOf(c), Pending(s0, t, c));
    ProposeKeepsLedger(v, p.sim, t, NextQuote(p.spread, c.mmBid, c.mmAsk, BestBidOf(c), BestAskOf(c)));
  }

  /** The per-contract loop keeps the ledger. */
  lemma {:induction false} ContractsKeepLedger(v: Variant, p: Step, cs: seq<Contract>)
    requires Ledger(p.sim)
    ensures Ledger(ContractsOf(v, p, cs).sim)
    decreases |cs|
  {
    if cs != [] && !p.raised {
      ContractStepKeepsLedger(v, p.sim, p.timeBound, cs[0]);
      ContractsKeepLedger(v, ContractStep(v, p.sim, p.timeBound, cs[0]), cs[1..]);
    }
  }

  /**
   * Whatever the handler does with an update, raising or not, every
   * position, realized P&L and the trade count stay the sums over
   * `trade_log`, from the empty state at import on.
   */
  lemma UpdateKeepsLedger(v: Variant, s: Sim, cs: seq<Contract>)
    requires Ledger(s)
    ensures Ledger(UpdateOf(v, s, cs).sim)
  {
    ContractsKeepLedger(v, Step(s, false, false), cs);
    var p := ContractsOf(v, Step(s, false, false), cs);
    assert SameBooks(p.sim, p.sim.(ourQuotes := p.sim.newQuotes, newQuotes := map[]));
    SameBooksKeepLedger(p.sim, p.sim.(ourQuotes := p.sim.newQuotes, newQuotes := map[]));
  }

  /** The state at import time has balanced books. */
  lemma StartLedger()
    ensures Ledger(Start)
  {
    assert forall u :: IntAt(Start.positions, u) == 0;
  }

  // -------------------------------------------------------- the dedupe by id

  /** No two trades of a list share an id. */
  predicate DistinctIds(trs: seq<Trade>) {
    forall i, j :: 0 <= i < j < |trs| ==> trs[i].tradeId != trs[j].tradeId
  }

  /**
   * Every logged fill's trade is in its ticker's seen set, and no trade is
   * logged twice under the same ticker.
   */
  ghost predicate LoggedOnce(s: Sim) {
    && (forall k :: 0 <= k < |s.tradeLog| ==> s.tradeLog[k].tradeId in SeenAt(s.seenTrades, s.tradeLog[k].ticker))
    && (forall j, k :: 0 <= j < k < |s.tradeLog| ==>
          s.tradeLog[j].ticker != s.tradeLog[k].ticker || s.tradeLog[j].tradeId != s.tradeLog[k].tradeId)
  }

  /** Filtering out the seen trades keeps the ids distinct. */
  lemma {:induction false} NewTradesDistinct(trs: seq<Trade>, seen: set<string>)
    requires DistinctIds(trs)
    ensures DistinctIds(NewTrades(trs, seen))
    decreases |trs|
  {
    if trs != [] {
      var rest := NewTrades(trs[1..], seen);
      NewTradesDistinct(trs[1..], seen);
      forall x | x in rest
        ensures x.tradeId != trs[0].tradeId
      {
        var m :| 0 <= m < |trs[1..]| && trs[1..][m] == x;
        assert trs[m + 1] == x;
      }
    }
  }

  /** One trade not yet seen under `t` keeps every fill logged once and only adds to the seen sets. */
  lemma TradeStepLogsOnce(v: Variant, s: Sim, t: string, gate: bool, tr: Trade, spread: real)
    requires LoggedOnce(s)
    requires tr.tradeId !in SeenAt(s.seenTrades, t)
    ensures LoggedOnce(TradeStep(v, s, t, gate, tr, spread).sim)
  {
    var r := TradeStep(v, s, t, gate, tr, spread).sim;
    var n := |s.tradeLog|;
    FillRule(v, s, t, gate, tr, spread);
    forall u
      ensures SeenAt(s.seenTrades, u) <= SeenAt(r.seenTrades, u)
      ensures u == t && Visits(v, gate) ==> tr.tradeId in SeenAt(r.seenTrades, u)
    {
      MarksSeen(v, s, t, gate, tr, spread, u);
    }
    forall k | 0 <= k < n
      ensures r.tradeLog[k] == s.tradeLog[k]
    {
      assert r.tradeLog[k] == r.tradeLog[..n][k];
    }
  }

  /** The per-trade loop over distinct trades none of which was seen under `t` logs each fill once. */
  lemma {:induction false} TradesLogOnce(v: Variant, p: Pass, t: string, gate: bool, trs: seq<Trade>)
    requires LoggedOnce(p.sim) && DistinctIds(trs)
    requires forall i :: 0 <= i < |trs| ==> trs[i].tradeId !in SeenAt(p.sim.seenTrades, t)
    ensures LoggedOnce(TradesOf(v, p, t, gate, trs).sim)
    decreases |trs|
  {
    if trs != [] {
      var q := TradeStep(v, p.sim, t, gate, trs[0], p.spread);
      TradeStepLogsOnce(v, p.sim, t, gate, trs[0], p.spread);
      MarksSeen(v, p.sim, t, gate, trs[0], p.spread, t);
      forall i | 0 <= i < |trs[1..]|
        ensures trs[1..][i].tradeId !in SeenAt(q.sim.seenTrades, t)
      {
        assert trs[1..][i] == trs[i + 1];
      }
      TradesLogOnce(v, q, t, gate, trs[1..]);
    }
  }

  /**
   * Registering a contract's trades: a first sighting only marks them seen
   * (no fill of that ticker was logged before), and otherwise the trades
   * left to visit are distinct and unseen.
   */
  lemma RegisterLogsOnce(s: Sim, t: string, c: Contract)
    requires LoggedOnce(s) && DistinctIds(c.trades)
    ensures LoggedOnce(Register(s, t, c))
    ensures DistinctIds(Pending(s, t, c))
    ensures forall i :: 0 <= i < |Pending(s, t, c)| ==> Pending(s, t, c)[i].tradeId !in SeenAt(Register(s, t, c).seenTrades, t)
  {
    var r := Register(s, t, c);
    if t !in s.seenTrades {
      forall k | 0 <= k < |s.tradeLog|
        ensures s.tradeLog[k].ticker != t
      {
        assert s.tradeLog[k].tradeId in SeenAt(s.seenTrades, s.tradeLog[k].ticker);
      }
      assert forall u :: u != t ==> SeenAt(r.seenTrades, u) == SeenAt(s.seenTrades, u);
    } else {
      NewTradesDistinct(c.trades, s.seenTrades[t]);
      var pending := Pending(s, t, c);
      forall i | 0 <= i < |pending|
        ensures pending[i].tradeId !in SeenAt(r.seenTrades, t)
      {
        assert pending[i] in pending;
      }
    }
  }

  /** One contract whose trade list has distinct ids keeps every fill logged once. */
  lemma ContractStepLogsOnce(v: Variant, s: Sim, timeBound: bool, c: Contract)
    requires LoggedOnce(s) && DistinctIds(c.trades)
    ensures LoggedOnce(ContractStep(v, s, timeBound, c).sim)
  {
    var t := TickerOf(c);
    var s0 := Note(v, s, c);
    assert LoggedOnce(s0);
    RegisterLogsOnce(s0, t, c);
    var p := TradesOf(v, Pass(Register(s0, t, c), c.spread), t, GateOf(c), Pending(s0, t, c));
    TradesLogOnce(v, Pass(Register(s0, t, c), c.spread), t, GateOf(c), Pending(s0, t, c));
    var q := NextQuote(p.spread, c.mmBid, c.mmAsk, BestBidOf(c), BestAskOf(c));
    assert Propose(v, p.sim, t, q).tradeLog == p.sim.tradeLog;
    assert Propose(v, p.sim, t, q).seenTrades == p.sim.seenTrades;
  }

  /** The per-contract loop over contracts whose trade lists have distinct ids keeps every fill logged once. */
  lemma {:induction false} ContractsLogOnce(v: Variant, p: Step, cs: seq<Contract>)
    requires LoggedOnce(p.sim)
    requires forall i :: 0 <= i < |cs| ==> DistinctIds(cs[i].trades)
    ensures LoggedOnce(ContractsOf(v, p, cs).sim)
    decreases |cs|
  {
    if cs != [] && !p.raised {
      ContractStepLogsOnce(v, p.sim, p.timeBound, cs[0]);
      assert forall i :: 0 <= i < |cs[1..]| ==> cs[1..][i] == cs[i + 1];
      ContractsLogOnce(v, ContractStep(v, p.sim, p.timeBound, cs[0]), cs[1..]);
    }
  }

  /**
   * No trade is ever filled twice: when the exchange lists each trade of a
   * market once per update, every `trade_log` record is a distinct
   * (ticker, trade id) pair already in `seen_trades`, update after update.
   */
  lemma UpdateLogsOnce(v: Variant, s: Sim, cs: seq<Contract>)
    requires LoggedOnce(s)
    requires forall i :: 0 <= i < |cs| ==> DistinctIds(cs[i].trades)
    ensures LoggedOnce(UpdateOf(v, s, cs).sim)
  {
    ContractsLogOnce(v, Step(s, false, false), cs);
  }

  /** A contract seen for the first time fills nothing: its listed trades are history. */
  lemma FirstSightingFillsNothing(v: Variant, s: Sim, timeBound: bool, c: Contract)
    requires TickerOf(c) !in s.seenTrades
    ensures ContractStep(v, s, timeBound, c).sim.tradeLog == s.tradeLog
    ensures !ContractStep(v, s, timeBound, c).raised ==>
      SeenAt(ContractStep(v, s, timeBound, c).sim.seenTrades, TickerOf(c)) == Ids(c.trades)
  {
    var t := TickerOf(c);
    var s0 := Note(v, s, c);
    var r := Register(s0, t, c);
    assert Pending(s0, t, c) == [];
    assert TradesOf(v, Pass(r, c.spread), t, GateOf(c), []) == Pass(r, c.spread);
    var q := NextQuote(c.spread, c.mmBid, c.mmAsk, BestBidOf(c), BestAskOf(c));
    assert Propose(v, r, t, q).tradeLog == s.tradeLog;
    assert Propose(v, r, t, q).seenTrades == r.seenTrades;
  }

  // ------------------------------------------------------ quotes and rounds

  /** The tickers of a list of contracts. */
  function Tickers(cs: seq<Contract>): set<string> {
    set c | c in cs :: TickerOf(c)
  }

  /** `after` holds a quote for every ticker of `before` and of `ts`, and no other, and keeps the quotes of tickers outside `ts`. */
  ghost predicate Requoted(before: map<string, Quote>, after: map<string, Quote>, ts: set<string>) {
    && (forall u :: u in after <==> u in before || u in ts)
    && (forall u :: u in before && u !in ts ==> after[u] == before[u])
  }

  lemma RequotedChain(a: map<string, Quote>, b: map<string, Quote>, c: map<string, Quote>, ts: set<string>, ts': set<string>)
    requires Requoted(a, b, ts) && Requoted(b, c, ts')
    ensures Requoted(a, c, ts + ts')
  {
  }

  /** One pass of the per-trade loop never touches the quotes. */
  lemma TradeStepKeepsQuotes(v: Variant, s: Sim, t: string, gate: bool, tr: Trade, spread: real)
    ensures TradeStep(v, s, t, gate, tr, spread).sim.ourQuotes == s.ourQuotes
    ensures TradeStep(v, s, t, gate, tr, spread).sim.newQuotes == s.newQuotes
  {
  }

  /** The per-trade loop never touches the quotes. */
  lemma {:induction false} TradesKeepQuotes(v: Variant, p: Pass, t: string, gate: bool, trs: seq<Trade>)
    ensures TradesOf(v, p, t, gate, trs).sim.ourQuotes == p.sim.ourQuotes
    ensures TradesOf(v, p, t, gate, trs).sim.newQuotes == p.sim.newQuotes
    decreases |trs|
  {
    if trs != [] {
      TradeStepKeepsQuotes(v, p.sim, t, gate, trs[0], p.spread);
      TradesKeepQuotes(v, TradeStep(v, p.sim, t, gate, trs[0], p.spread), t, gate, trs[1..]);
    }
  }

  /** Storing a quote for `t`: in `our_quotes` and, in test_trading.py, in `new_quotes`. */
  lemma ProposeQuotes(v: Variant, x: Sim, t: string, q: Quote)
    ensures var r := Propose(v, x, t, q);
      && Requoted(x.ourQuotes, r.ourQuotes, {t}) && r.ourQuotes[t] == q
      && (v == TestTrading ==> Requoted(x.newQuotes, r.newQuotes, {t}) && r.newQuotes[t] == q)
      && (v == WithSockets ==> r.newQuotes == x.newQuotes)
  {
  }

  /**
   * A contract that does not raise stores a quote for its ticker, in
   * `our_quotes` and, in test_trading.py, the same quote in `new_quotes`;
   * every other ticker's quotes are kept.
   */
  lemma ContractStepQuotes(v: Variant, s: Sim, timeBound: bool, c: Contract)
    requires !ContractStep(v, s, timeBound, c).raised
    ensures var r := ContractStep(v, s, timeBound, c).sim;
      && Requoted(s.ourQuotes, r.ourQuotes, {TickerOf(c)})
      && (v == TestTrading ==> Requoted(s.newQuotes, r.newQuotes, {TickerOf(c)}) && r.newQuotes[TickerOf(c)] == r.ourQuotes[TickerOf(c)])
      && (v == WithSockets ==> r.newQuotes == s.newQuotes)
  {
    var t := TickerOf(c);
    var s0 := Note(v, s, c);
    var p := TradesOf(v, Pass(Register(s0, t, c), c.spread), t, GateOf(c), Pending(s0, t, c));
    TradesKeepQuotes(v, Pass(Register(s0, t, c), c.spread), t, GateOf(c), Pending(s0, t, c));
    assert p.sim.ourQuotes == s.ourQuotes && p.sim.newQuotes == s.newQuotes;
    ProposeQuotes(v, p.sim, t, NextQuote(p.spread, c.mmBid, c.mmAsk, BestBidOf(c), BestAskOf(c)));
  }

  /** The per-contract loop, when nothing raises, quotes every ticker it visits and keeps the others' quotes. */
  lemma {:induction false} ContractsQuotes(v: Variant, p: Step, cs: seq<Contract>)
    requires !ContractsOf(v, p, cs).raised
    ensures var r := ContractsOf(v, p, cs).sim;
      && Requoted(p.sim.ourQuotes, r.ourQuotes, Tickers(cs))
      && (v == TestTrading ==> Requoted(p.sim.newQuotes, r.newQuotes, Tickers(cs)))
      && (v == WithSockets ==> r.newQuotes == p.sim.newQuotes)
    decreases |cs|
  {
    if cs != [] {
      var q := ContractStep(v, p.sim, p.timeBound, cs[0]);
      if q.raised {
        assert false;
      } else {
        var r := ContractsOf(v, q, cs[1..]).sim;
        ContractStepQuotes(v, p.sim, p.timeBound, cs[0]);
        ContractsQuotes(v, q, cs[1..]);
        assert Tickers(cs) == {TickerOf(cs[0])} + Tickers(cs[1..]) by {
          assert forall c :: c in cs <==> c == cs[0] || c in cs[1..];
        }
        RequotedChain(p.sim.ourQuotes, q.sim.ourQuotes, r.ourQuotes, {TickerOf(cs[0])}, Tickers(cs[1..]));
        if v == TestTrading {
          RequotedChain(p.sim.newQuotes, q.sim.newQuotes, r.newQuotes, {TickerOf(cs[0])}, Tickers(cs[1..]));
        }
      }
    }
  }

  /** Once `time_left` is bound the per-contract loop cannot raise. */
  lemma {:induction false} BoundNeverRaises(v: Variant, p: Step, cs: seq<Contract>)
    requires p.timeBound && !p.raised
    ensures !ContractsOf(v, p, cs).raised
    decreases |cs|
  {
    if cs != [] {
      BoundNeverRaises(v, ContractStep(v, p.sim, p.timeBound, cs[0]), cs[1..]);
    }
  }

  /** The older variant never reads `time_left` and so never raises. */
  lemma {:induction false} SocketsNeverRaise(p: Step, cs: seq<Contract>)
    requires !p.raised
    ensures !ContractsOf(WithSockets, p, cs).raised
    decreases |cs|
  {
    if cs != [] {
      SocketsNeverRaise(ContractStep(WithSockets, p.sim, p.timeBound, cs[0]), cs[1..]);
    }
  }

  /**
   * test_trading.py raises on an update exactly when its first contract has
   * no `time_left_sec`: a later contract without one reads the value the
   * first one bound.  The older variant never raises.
   */
  lemma RaisesOnFirstOnly(v: Variant, s: Sim, cs: seq<Contract>)
    ensures UpdateOf(v, s, cs).raised <==> v == TestTrading && |cs| > 0 && cs[0].timeLeftSec.None?
  {
    if v == WithSockets {
      SocketsNeverRaise(Step(s, false, false), cs);
    } else if cs != [] {
      var q := ContractStep(v, s, false, cs[0]);
      assert ContractsOf(v, Step(s, false, false), cs) == ContractsOf(v, q, cs[1..]);
      if cs[0].timeLeftSec.Some? {
        assert q.timeBound && !q.raised;
        BoundNeverRaises(v, q, cs[1..]);
      } else {
        assert q.raised;
      }
    }
  }

  /**
   * The quotes the next update fills against.  After an update that does
   * not raise, test_trading.py holds exactly this round's quotes (its
   * `new_quotes`, plus any left from a round that raised) and starts a
   * fresh `new_quotes`; the older variant adds or replaces the quotes of
   * the tickers it saw and keeps the rest.
   */
  lemma RoundQuotes(v: Variant, s: Sim, cs: seq<Contract>)
    requires !UpdateOf(v, s, cs).raised
    ensures var r := UpdateOf(v, s, cs).sim;
      && (v == TestTrading ==>
Requoted(s.newQuotes, r.ourQuotes, Tickers(cs)) && r.newQuotes == map[])
      && (v == WithSockets ==> Requoted(s.ourQuotes, r.ourQuotes, Tickers(cs)))
  {
    ContractsQuotes(v, Step(s, false, false), cs);
  }
}
