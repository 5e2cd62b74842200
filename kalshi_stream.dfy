/**
 * The message loop of `kalshi_ws_stream`
 * (crypto/testing_market_sockets/market_sockets.py lines 28-133): per-market
 * YES/NO books at raw prices, trade and fill logs, and one last seq per
 * channel.  The websocket itself is left out: each decoded message is an
 * input, and the exception a handler raises (which makes the caller
 * reconnect) is an `Outcome`.
 */
module KalshiStream {
  import opened Optional
  import opened Dicts
  import opened KalshiFeed

  /** The state the loop keeps between messages. */
  datatype StreamState = StreamState(
    orderbooks: map<string, Books>,
    trades: map<string, seq<Body>>,
    fills: map<string, seq<Body>>,
    lastSeq: SeqTable)

  /** Every table covers the same markets, books have one entry per price, every channel has a last seq. */
  predicate Valid(s: StreamState) {
    && s.trades.Keys == s.orderbooks.Keys
    && s.fills.Keys == s.orderbooks.Keys
    && (forall t :: t in s.orderbooks ==> WellFormed(s.orderbooks[t]))
    && Complete(s.lastSeq)
  }

  /** The state before the first message. */
  function Init(tickers: seq<string>): (r: StreamState)
    ensures Valid(r)
    ensures forall t :: t in tickers <==> t in r.orderbooks
  {
    InitialSeqsComplete();
    StreamState(
      map t | t in tickers :: EmptyBooks,
      map t | t in tickers :: [],
      map t | t in tickers :: [],
      InitialSeqs)
  }

  /** `d[ticker]` succeeds: the ticker is not None and is a key. */
  predicate Tracked<V>(d: map<string, V>, ticker: Option<string>) {
    ticker.Some? && ticker.value in d
  }

  /** The effect of one message, and how its handling ends. */
  function StepOf(s: StreamState, e: Envelope): (StreamState, Outcome)
    requires Complete(s.lastSeq)
  {
    if e.msgType == Some("subscribed") then
      (s, if "channel" in e.msg.keys && "sid" in e.msg.keys then Skipped else Faulted)
    else match ChannelOf(e.msgType)
      case None => (s, Skipped)
      case Some(ch) =>
        match GateOf(s.lastSeq, ch, e.msg.marketTicker, e.seqNum)
        case Gap => (s, SequenceGap)
        case Fault => (s, Faulted)
        case Pass(last) => Dispatch(s.(lastSeq := last), e.msgType.value, e.msg)
  }

  /** The handler for each type that has a channel. */
  function Dispatch(s: StreamState, msgType: string, msg: Body): (StreamState, Outcome) {
    if msgType == "orderbook_snapshot" then SnapshotOf(s, msg)
    else if msgType == "orderbook_delta" then DeltaOf(s, msg)
    else if msgType == "trade" then TradeOf(s, msg)
    else FillOf(s, msg)
  }

  /**
   * Both maps replaced by the message's levels at raw prices; the YES map is
   * already replaced when a null NO side raises.
   */
  function SnapshotOf(s: StreamState, msg: Body): (StreamState, Outcome) {
    var ticker := msg.marketTicker;
    match LevelsOrEmpty(msg.yes)
    case None => (s, Faulted)
    case Some(ys) =>
      if !Tracked(s.orderbooks, ticker) then (s, Faulted)
      else
        var t := ticker.value;
        var s1 := s.(orderbooks := s.orderbooks[t := s.orderbooks[t].(yes := FromPairs(ys))]);
        match LevelsOrEmpty(msg.no)
        case None => (s1, Faulted)
        case Some(ns) => (s1.(orderbooks := s1.orderbooks[t := s1.orderbooks[t].(no := FromPairs(ns))]), Handled)
  }

  /** `msg["side"]`, `msg["price"]`, `msg["delta"]` and `orderbooks[ticker][side]` all exist. */
  predicate DeltaApplies(s: StreamState, msg: Body) {
    && "side" in msg.keys && "price" in msg.keys && "delta" in msg.keys
    && Tracked(s.orderbooks, msg.marketTicker) && IsSide(msg.side)
  }

  function DeltaOf(s: StreamState, msg: Body): (StreamState, Outcome) {
    if !DeltaApplies(s, msg) then (s, Faulted)
    else
      var t := msg.marketTicker.value;
      var b := s.orderbooks[t];
      var nb := WithSide(b, msg.side, ApplyDelta(SideBook(b, msg.side), msg.price, msg.delta));
      (s.(orderbooks := s.orderbooks[t := nb]), Handled)
  }

  /** The trade is logged first; the printout then reads these keys. */
  function TradeOf(s: StreamState, msg: Body): (StreamState, Outcome) {
    if !Tracked(s.trades, msg.marketTicker) then (s, Faulted)
    else
      var t := msg.marketTicker.value;
      var s1 := s.(trades := s.trades[t := s.trades[t] + [msg]]);
      (s1, if {"taker_side", "count", "yes_price", "ts"} <= msg.keys then Handled else Faulted)
  }

  function FillOf(s: StreamState, msg: Body): (StreamState, Outcome) {
    if !Tracked(s.fills, msg.marketTicker) then (s, Faulted)
    else
      var t := msg.marketTicker.value;
      var s1 := s.(fills := s.fills[t := s.fills[t] + [msg]]);
      (s1, if {"count", "yes_price", "side", "action", "ts"} <= msg.keys then Handled else Faulted)
  }

  /** Every message keeps the state valid. */
  lemma StepKeepsValid(s: StreamState, e: Envelope)
    requires Valid(s)
    ensures Valid(StepOf(s, e).0)
  {
    var ch := ChannelOf(e.msgType);
    if e.msgType != Some("subscribed") && ch.Some? {
      var g := GateOf(s.lastSeq, ch.value, e.msg.marketTicker, e.seqNum);
      if g.Pass? {
        GateKeepsOtherChannels(s.lastSeq, ch.value, e.msg.marketTicker, e.seqNum);
        var s1 := s.(lastSeq := g.last);
        assert StepOf(s, e) == Dispatch(s1, e.msgType.value, e.msg);
        DispatchKeepsValid(s1, e.msgType.value, e.msg);
      }
    }
  }

  lemma DispatchKeepsValid(s: StreamState, msgType: string, msg: Body)
    requires Valid(s)
    ensures Valid(Dispatch(s, msgType, msg).0)
  {
    if msgType == "orderbook_delta" && DeltaApplies(s, msg) {
      var b := s.orderbooks[msg.marketTicker.value];
      DeltaSpec(SideBook(b, msg.side), msg.price, msg.delta);
    }
  }

  /** `subscribed` and types without a channel change no state. */
  lemma SkippedTypesChangeNothing(s: StreamState, e: Envelope)
    requires Complete(s.lastSeq)
    requires e.msgType == Some("subscribed") || ChannelOf(e.msgType).None?
    ensures StepOf(s, e).0 == s
    ensures StepOf(s, e).1 == Skipped || StepOf(s, e).1 == Faulted
  {
  }

  /**
   * A message changes the books, trades and fills of the market it names and
   * of no other, and never adds or removes a market.
   */
  lemma OnlyAddressedMarketChanges(s: StreamState, e: Envelope, t: string)
    requires Complete(s.lastSeq)
    requires e.msg.marketTicker != Some(t)
    ensures var r := StepOf(s, e).0;
      && r.orderbooks.Keys == s.orderbooks.Keys && r.trades.Keys == s.trades.Keys && r.fills.Keys == s.fills.Keys
      && (t in s.orderbooks ==> r.orderbooks[t] == s.orderbooks[t])
      && (t in s.trades ==> r.trades[t] == s.trades[t])
      && (t in s.fills ==> r.fills[t] == s.fills[t])
  {
    var ch := ChannelOf(e.msgType);
    if e.msgType != Some("subscribed") && ch.Some? {
      var g := GateOf(s.lastSeq, ch.value, e.msg.marketTicker, e.seqNum);
      if g.Pass? {
        var s1 := s.(lastSeq := g.last);
        assert StepOf(s, e) == Dispatch(s1, e.msgType.value, e.msg);
        DispatchOnlyAddressed(s1, e.msgType.value, e.msg, t);
      }
    }
  }

  lemma DispatchOnlyAddressed(s: StreamState, msgType: string, msg: Body, t: string)
    requires msg.marketTicker != Some(t)
    ensures Untouched(Dispatch(s, msgType, msg).0, s, t)
  {
    if msgType == "orderbook_snapshot" {
      SnapshotOnlyAddressed(s, msg, t);
    } else if msgType == "orderbook_delta" {
      DeltaOnlyAddressed(s, msg, t);
    } else if msgType == "trade" {
      assert TradeOf(s, msg).0.orderbooks == s.orderbooks;
    } else {
      assert FillOf(s, msg).0.orderbooks == s.orderbooks;
    }
  }

  lemma SnapshotOnlyAddressed(s: StreamState, msg: Body, t: string)
    requires msg.marketTicker != Some(t)
    ensures Untouched(SnapshotOf(s, msg).0, s, t)
  {
    var r := SnapshotOf(s, msg).0;
    assert r.trades == s.trades && r.fills == s.fills;
  }

  lemma DeltaOnlyAddressed(s: StreamState, msg: Body, t: string)
    requires msg.marketTicker != Some(t)
    ensures Untouched(DeltaOf(s, msg).0, s, t)
  {
    var r := DeltaOf(s, msg).0;
    assert r.trades == s.trades && r.fills == s.fills;
  }

  /** Market `t` and the set of markets are as they were. */
  predicate Untouched(r: StreamState, s: StreamState, t: string) {
    && r.orderbooks.Keys == s.orderbooks.Keys && r.trades.Keys == s.trades.Keys && r.fills.Keys == s.fills.Keys
    && (t in s.orderbooks ==> r.orderbooks[t] == s.orderbooks[t])
    && (t in s.trades ==> r.trades[t] == s.trades[t])
    && (t in s.fills ==> r.fills[t] == s.fills[t])
  }

  /**
   * The gap rule per channel: a message with a ticker goes on only if the
   * channel's last seq is 0 or its seq follows it, and its seq is recorded;
   * otherwise the loop raises and nothing changes.
   */
  lemma GapRule(s: StreamState, e: Envelope, p: int)
    requires Complete(s.lastSeq) && e.msgType != Some("subscribed")
    requires ChannelOf(e.msgType).Some? && Truthy(e.msg.marketTicker)
    requires s.lastSeq[ChannelOf(e.msgType).value] == Some(p)
    ensures var ch := ChannelOf(e.msgType).value;
      && (StepOf(s, e).1 == SequenceGap <==> p != 0 && e.seqNum != Some(p + 1))
      && (StepOf(s, e).1 == SequenceGap ==> StepOf(s, e).0 == s)
      && (StepOf(s, e).1 != SequenceGap ==> StepOf(s, e).0.lastSeq == s.lastSeq[ch := e.seqNum])
  {
    var ch := ChannelOf(e.msgType).value;
    SequenceRule(s.lastSeq, ch, e.msg.marketTicker.value, p, e.seqNum);
    var g := GateOf(s.lastSeq, ch, e.msg.marketTicker, e.seqNum);
    if g.Pass? {
      assert StepOf(s, e) == Dispatch(s.(lastSeq := g.last), e.msgType.value, e.msg);
    }
  }

  /** A handled snapshot makes each map the message's levels, later duplicates winning, at raw prices. */
  lemma SnapshotReplacesBooks(s: StreamState, e: Envelope)
    requires Complete(s.lastSeq) && e.msgType == Some("orderbook_snapshot")
    requires StepOf(s, e).1 == Handled
    ensures var t := e.msg.marketTicker.value;
      var b := StepOf(s, e).0.orderbooks[t];
      && t in s.orderbooks
      && e.msg.yes != Null && e.msg.no != Null
      && WellFormed(b)
      && (forall p :: Get(b.yes, p) == LastValue(LevelsOrEmpty(e.msg.yes).value, p))
      && (forall p :: Get(b.no, p) == LastValue(LevelsOrEmpty(e.msg.no).value, p))
  {
    var ys := LevelsOrEmpty(e.msg.yes).value;
    var ns := LevelsOrEmpty(e.msg.no).value;
    FromPairsSpec(ys);
    FromPairsSpec(ns);
  }

  /**
   * A handled delta adds to the quantity at its price (0 when absent),
   * removes the level once the sum is not positive, and leaves every other
   * price and the other side as they were.
   */
  lemma DeltaUpdatesOneLevel(s: StreamState, e: Envelope)
    requires Valid(s) && e.msgType == Some("orderbook_delta")
    requires StepOf(s, e).1 == Handled
    ensures var t := e.msg.marketTicker.value;
      var side := e.msg.side;
      var price := e.msg.price;
      && t in s.orderbooks && IsSide(side)
      && var before := SideBook(s.orderbooks[t], side);
      && var after := SideBook(StepOf(s, e).0.orderbooks[t], side);
      && var qty := GetOr(before, price, 0) + e.msg.delta;
      && Get(after, price) == (if qty <= 0 then None else Some(qty))
      && (forall p :: p != price ==> Get(after, p) == Get(before, p))
      && (side == "yes" ==> StepOf(s, e).0.orderbooks[t].no == s.orderbooks[t].no)
      && (side == "no" ==> StepOf(s, e).0.orderbooks[t].yes == s.orderbooks[t].yes)
  {
    var ch := ChannelOf(e.msgType).value;
    var g := GateOf(s.lastSeq, ch, e.msg.marketTicker, e.seqNum);
    assert g.Pass?;
    var t := e.msg.marketTicker.value;
    DeltaSpec(SideBook(s.orderbooks[t], e.msg.side), e.msg.price, e.msg.delta);
  }

  /**
   * Once past the gap check, trades and fills are appended to their market's
   * list in arrival order, even when the printout then raises.
   */
  lemma LogsAppend(s: StreamState, e: Envelope)
    requires Complete(s.lastSeq)
    requires e.msgType == Some("trade") || e.msgType == Some("fill")
    requires GateOf(s.lastSeq, ChannelOf(e.msgType).value, e.msg.marketTicker, e.seqNum).Pass?
    requires Tracked(s.trades, e.msg.marketTicker) && Tracked(s.fills, e.msg.marketTicker)
    ensures var t := e.msg.marketTicker.value;
      var r := StepOf(s, e).0;
      && (e.msgType == Some("trade") ==> r.trades[t] == s.trades[t] + [e.msg] && r.fills == s.fills)
      && (e.msgType == Some("fill") ==> r.fills[t] == s.fills[t] + [e.msg] && r.trades == s.trades)
  {
    var ch := ChannelOf(e.msgType).value;
    var g := GateOf(s.lastSeq, ch, e.msg.marketTicker, e.seqNum);
    assert StepOf(s, e) == Dispatch(s.(lastSeq := g.last), e.msgType.value, e.msg);
  }

  /** `kalshi_ws_stream`'s locals, updated in place message by message. */
  class MarketStream {
    var orderbooks: map<string, Books>
    var trades: map<string, seq<Body>>
    var fills: map<string, seq<Body>>
    var lastSeq: SeqTable

    function State(): StreamState
      reads this
    {
      StreamState(orderbooks, trades, fills, lastSeq)
    }

    constructor(tickers: seq<string>)
      ensures State() == Init(tickers)
    {
      orderbooks := map t | t in tickers :: EmptyBooks;
      trades := map t | t in tickers :: [];
      fills := map t | t in tickers :: [];
      lastSeq := InitialSeqs;
    }

    /** One pass of the `async for message in ws` loop body. */
    method OnMessage(e: Envelope) returns (r: Outcome)
      requires Complete(lastSeq)
      modifies this
      ensures (State(), r) == StepOf(old(State()), e)
    {
      var msg := e.msg;
      if e.msgType == Some("subscribed") {
        return if "channel" in msg.keys && "sid" in msg.keys then Skipped else Faulted;
      }
      var ch := ChannelOf(e.msgType);
      if ch.None? {
        return Skipped;
      }
      var ticker := msg.marketTicker;
      if Truthy(ticker) {
        var verdict := CheckSeq(lastSeq[ch.value], e.seqNum);
        if verdict == OutOfOrder {
          return SequenceGap;
        } else if verdict == SeqFault {
          return Faulted;
        }
        lastSeq := lastSeq[ch.value := e.seqNum];
      }
      var msgType := e.msgType.value;
      if msgType == "orderbook_snapshot" {
        var ys := LevelsOrEmpty(msg.yes);
        if ys.None? || !Tracked(orderbooks, ticker) {
          return Faulted;
        }
        var t := ticker.value;
        orderbooks := orderbooks[t := orderbooks[t].(yes := FromPairs(ys.value))];
        var ns := LevelsOrEmpty(msg.no);
        if ns.None? {
          return Faulted;
        }
        orderbooks := orderbooks[t := orderbooks[t].(no := FromPairs(ns.value))];
      } else if msgType == "orderbook_delta" {
        if !DeltaApplies(State(), msg) {
          return Faulted;
        }
        var t := ticker.value;
        var book := SideBook(orderbooks[t], msg.side);
        var updated := ApplyDelta(book, msg.price, msg.delta);
        orderbooks := orderbooks[t := WithSide(orderbooks[t], msg.side, updated)];
      } else if msgType == "trade" {
        if !Tracked(trades, ticker) {
          return Faulted;
        }
        trades := trades[ticker.value := trades[ticker.value] + [msg]];
        if !({"taker_side", "count", "yes_price", "ts"} <= msg.keys) {
          return Faulted;
        }
      } else {
        if !Tracked(fills, ticker) {
          return Faulted;
        }
        fills := fills[ticker.value := fills[ticker.value] + [msg]];
        if !({"count", "yes_price", "side", "action", "ts"} <= msg.keys) {
          return Faulted;
        }
      }
      r := Handled;
    }
  }
}
