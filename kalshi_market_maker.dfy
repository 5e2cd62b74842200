/**
 * The simulated Kalshi market maker
 * (crypto/testing_market_sockets/direct_market_sockets_test.py lines 21-139)
 * and the message loop that drives it (lines 159-224).  Each market keeps a
 * YES book of bids and a NO book; the maker looks for resting orders of at
 * least MM_SIZE contracts on each side and quotes one tick inside them.
 */
module KalshiMarketMaker {
  import opened Optional
  import opened Dicts
  import opened Sorting
  import opened KalshiFeed

  /** `mm_threshold`: stored by the constructor, read nowhere. */
  const MM_THRESHOLD: int := 1000
  /** `mm_min_spread` */
  const MM_MIN_SPREAD: int := 5
  /** `mm_size` */
  const MM_SIZE: int := 10

  /** `{'bid': ..., 'ask': ...}` */
  datatype Quote = Quote(bid: Option<int>, ask: Option<int>)

  const NoQuote: Quote := Quote(None, None)

  /** The fields of a `MarketMaker`. */
  datatype Maker = Maker(
    tickers: seq<string>,
    orderbooks: map<string, Books>,
    ourQuotes: map<string, Quote>,
    positions: map<string, int>,
    avgPrices: map<string, real>,
    realizedPnl: map<string, real>,
    unrealizedPnl: map<string, real>,
    tradeLog: map<string, seq<Body>>,
    totalTrades: int)

  /** Books, quotes and logs cover the same markets; books have one entry per price. */
  predicate Valid(m: Maker) {
    && m.ourQuotes.Keys == m.orderbooks.Keys
    && m.tradeLog.Keys == m.orderbooks.Keys
    && forall t :: t in m.orderbooks ==> WellFormed(m.orderbooks[t])
  }

  /** `MarketMaker(tickers)` */
  function InitMaker(tickers: seq<string>): (r: Maker)
    ensures Valid(r) && r.totalTrades == 0
    ensures forall t :: t in r.orderbooks <==> t in tickers
    ensures r.positions.Keys == r.avgPrices.Keys == r.realizedPnl.Keys == r.unrealizedPnl.Keys == r.orderbooks.Keys
    ensures forall t :: t in tickers ==>
      && r.orderbooks[t] == EmptyBooks && r.ourQuotes[t] == NoQuote && r.tradeLog[t] == []
      && r.positions[t] == 0 && r.avgPrices[t] == 0.0 && r.realizedPnl[t] == 0.0 && r.unrealizedPnl[t] == 0.0
  {
    Maker(
      tickers,
      map t | t in tickers :: EmptyBooks,
      map t | t in tickers :: NoQuote,
      map t | t in tickers :: 0,
      map t | t in tickers :: 0.0,
      map t | t in tickers :: 0.0,
      map t | t in tickers :: 0.0,
      map t | t in tickers :: [],
      0)
  }

  /** The price of the first item with at least MM_SIZE contracts, else `default`. */
  function FirstSized(items: seq<(int, int)>, default: int): int {
    if items == [] then default
    else if items[0].1 >= MM_SIZE then items[0].0
    else FirstSized(items[1..], default)
  }

  /** Some item rests at least MM_SIZE contracts. */
  predicate HasSized(items: seq<(int, int)>) {
    exists x :: x in items && x.1 >= MM_SIZE
  }

  /** The item a first-sized scan stops at has a price, and sits in the list. */
  lemma {:induction false} FirstSizedFound(s: seq<(int, int)>, default: int)
    ensures HasSized(s) ==> exists q :: (FirstSized(s, default), q) in s && q >= MM_SIZE
    ensures !HasSized(s) ==> FirstSized(s, default) == default
  {
    if s != [] {
      FirstSizedFound(s[1..], default);
      if s[0].1 < MM_SIZE && HasSized(s) {
        var x :| x in s && x.1 >= MM_SIZE;
        assert x in s[1..];
        var q :| (FirstSized(s[1..], default), q) in s[1..] && q >= MM_SIZE;
        assert (FirstSized(s, default), q) in s;
      }
      if s[0].1 >= MM_SIZE {
        assert (FirstSized(s, default), s[0].1) == s[0];
      }
    }
  }

  /** In a list sorted high to low, no sized item is priced above the first sized one. */
  lemma {:induction false} FirstSizedDescending(s: seq<(int, int)>, default: int)
    requires SortedBy(s, PairGt)
    ensures forall x :: x in s && x.1 >= MM_SIZE ==> x.0 <= FirstSized(s, default)
  {
    if s != [] && s[0].1 < MM_SIZE {
      var tail := s[1..];
      assert SortedBy(tail, PairGt) by {
        forall i, j | 0 <= i < j < |tail| ensures !PairGt(tail[j], tail[i]) {
          assert tail[j] == s[j + 1] && tail[i] == s[i + 1];
        }
      }
      FirstSizedDescending(tail, default);
      forall x | x in s && x.1 >= MM_SIZE ensures x in tail {
        assert x != s[0];
      }
    } else if s != [] {
      forall x | x in s ensures x.0 <= s[0].0 {
        var i :| 0 <= i < |s| && s[i] == x;
        if i > 0 {
          assert !PairGt(s[i], s[0]);
        }
      }
    }
  }

  /** In a list sorted low to high, no sized item is priced below the first sized one. */
  lemma {:induction false} FirstSizedAscending(s: seq<(int, int)>, default: int)
    requires SortedBy(s, PairLt)
    ensures forall x :: x in s && x.1 >= MM_SIZE ==> FirstSized(s, default) <= x.0
  {
    if s != [] && s[0].1 < MM_SIZE {
      var tail := s[1..];
      assert SortedBy(tail, PairLt) by {
        forall i, j | 0 <= i < j < |tail| ensures !PairLt(tail[j], tail[i]) {
          assert tail[j] == s[j + 1] && tail[i] == s[i + 1];
        }
      }
      FirstSizedAscending(tail, default);
      forall x | x in s && x.1 >= MM_SIZE ensures x in tail {
        assert x != s[0];
      }
    } else if s != [] {
      forall x | x in s ensures s[0].0 <= x.0 {
        var i :| 0 <= i < |s| && s[i] == x;
        if i > 0 {
          assert !PairLt(s[i], s[0]);
        }
      }
    }
  }

  /** `mm_bid`: the first sized level of `sorted(yes.items(), reverse=True)`, else 0. */
  function MarketMakerBid(yes: Dict<int, int>): int {
    FirstSized(SortBy(yes, PairGt), 0)
  }

  /** `mm_ask`: the first sized level of `sorted(no.items())`, else 100. */
  function MarketMakerAsk(no: Dict<int, int>): int {
    FirstSized(SortBy(no, PairLt), 100)
  }

  /** Sorting keeps the items. */
  lemma SortKeepsItems(d: Dict<int, int>, lt: ((int, int), (int, int)) -> bool)
    ensures forall x :: x in SortBy(d, lt) <==> x in d
    ensures HasSized(SortBy(d, lt)) <==> HasSized(d)
  {
    var s := SortBy(d, lt);
    SortByPermutes(d, lt);
    forall x ensures x in s <==> x in d {
      assert x in s <==> x in multiset(s);
      assert x in d <==> x in multiset(d);
    }
  }

  /** `mm_bid` is the highest YES price resting at least MM_SIZE contracts, 0 when there is none. */
  lemma MarketMakerBidIsBest(yes: Dict<int, int>)
    ensures HasSized(yes) ==> exists q :: (MarketMakerBid(yes), q) in yes && q >= MM_SIZE
    ensures forall x :: x in yes && x.1 >= MM_SIZE ==> x.0 <= MarketMakerBid(yes)
    ensures !HasSized(yes) ==> MarketMakerBid(yes) == 0
  {
    var s := SortBy(yes, PairGt);
    PairOrders();
    SortBySorted(yes, PairGt);
    SortKeepsItems(yes, PairGt);
    FirstSizedDescending(s, 0);
    FirstSizedFound(s, 0);
    if HasSized(yes) {
      var q :| (FirstSized(s, 0), q) in s && q >= MM_SIZE;
      assert (MarketMakerBid(yes), q) in yes;
    }
  }

  /** `mm_ask` is the lowest NO-book price resting at least MM_SIZE contracts, 100 when there is none. */
  lemma MarketMakerAskIsBest(no: Dict<int, int>)
    ensures HasSized(no) ==> exists q :: (MarketMakerAsk(no), q) in no && q >= MM_SIZE
    ensures forall x :: x in no && x.1 >= MM_SIZE ==> MarketMakerAsk(no) <= x.0
    ensures !HasSized(no) ==> MarketMakerAsk(no) == 100
  {
    var s := SortBy(no, PairLt);
    PairOrders();
    SortBySorted(no, PairLt);
    SortKeepsItems(no, PairLt);
    FirstSizedAscending(s, 100);
    FirstSizedFound(s, 100);
    if HasSized(no) {
      var q :| (FirstSized(s, 100), q) in s && q >= MM_SIZE;
      assert (MarketMakerAsk(no), q) in no;
    }
  }

  function Abs(x: int): int {
    if x < 0 then -x else x
  }

  /** The quote `update_quote` stores for the two market-maker prices. */
  function QuoteFor(mmBid: int, mmAsk: int): Quote {
    if mmBid > 0 && mmAsk < 100 && Abs(mmAsk - mmBid) >= MM_MIN_SPREAD
    then Quote(Some(mmBid + 1), Some(mmAsk - 1))
    else NoQuote
  }

  /**
   * Both sides are quoted, one tick inside the market makers, exactly when
   * both exist and are at least MM_MIN_SPREAD apart; otherwise neither is.
   * The distance is absolute, so crossed market makers give a crossed quote.
   */
  lemma QuoteRule(mmBid: int, mmAsk: int)
    ensures QuoteFor(mmBid, mmAsk).bid.Some? <==> QuoteFor(mmBid, mmAsk).ask.Some?
    ensures QuoteFor(mmBid, mmAsk).bid.Some? <==>
      mmBid > 0 && mmAsk < 100 && (mmAsk - mmBid >= MM_MIN_SPREAD || mmBid - mmAsk >= MM_MIN_SPREAD)
    ensures QuoteFor(mmBid, mmAsk).bid.Some? ==>
      QuoteFor(mmBid, mmAsk) == Quote(Some(mmBid + 1), Some(mmAsk - 1))
    ensures QuoteFor(mmBid, mmAsk).bid.Some? && mmBid < mmAsk ==>
      mmBid < QuoteFor(mmBid, mmAsk).bid.value < QuoteFor(mmBid, mmAsk).ask.value < mmAsk
    ensures QuoteFor(mmBid, mmAsk).bid.Some? && mmBid > mmAsk ==>
      QuoteFor(mmBid, mmAsk).bid.value > QuoteFor(mmBid, mmAsk).ask.value
  {
  }

  /** The quote for a market's current books. */
  function QuoteOf(b: Books): Quote {
    QuoteFor(MarketMakerBid(b.yes), MarketMakerAsk(b.no))
  }

  /** Each market's quote is the one its current books call for. */
  predicate QuotesCurrent(m: Maker) {
    forall t :: t in m.orderbooks && t in m.ourQuotes ==> m.ourQuotes[t] == QuoteOf(m.orderbooks[t])
  }

  /** `update_quote(t)` */
  function Requote(m: Maker, t: string): Maker
    requires t in m.orderbooks
  {
    m.(ourQuotes := m.ourQuotes[t := QuoteOf(m.orderbooks[t])])
  }

  /**
   * The price a delta addresses as written: only the side spelled "NO" is
   * flipped, while messages and books spell it "no".
   */
  function DeltaKeyAsWritten(side: string, price: int): int {
    if side == "NO" then 100 - price else price
  }

  /** The price a delta addresses: a NO price `p` lives at `100 - p`, where a snapshot puts it. */
  function DeltaKey(side: string, price: int): int {
    if side == "no" then 100 - price else price
  }

  /**
   * `update_orderbook_delta(ticker, msg)` once the price it addresses is
   * known: the new state and whether it returned normally.
   */
  function DeltaHandler(m: Maker, ticker: Option<string>, msg: Body, key: int): (Maker, bool) {
    if !("side" in msg.keys && "price" in msg.keys && "delta" in msg.keys) then (m, false)
    else if !Tracked(m.orderbooks, ticker) || !IsSide(msg.side) then (m, false)
    else
      var t := ticker.value;
      var b := m.orderbooks[t];
      var nb := WithSide(b, msg.side, ApplyDelta(SideBook(b, msg.side), key, msg.delta));
      (Requote(m.(orderbooks := m.orderbooks[t := nb]), t), true)
  }

  /** The delta handler as written. */
  function DeltaOfAsWritten(m: Maker, ticker: Option<string>, msg: Body): (Maker, bool) {
    DeltaHandler(m, ticker, msg, DeltaKeyAsWritten(msg.side, msg.price))
  }

  /**
   * The delta handler with the NO price flipped as the snapshot handler
   * flips it: the evidently intended behaviour, which the class does not have.
   */
  function DeltaOf(m: Maker, ticker: Option<string>, msg: Body): (Maker, bool) {
    DeltaHandler(m, ticker, msg, DeltaKey(msg.side, msg.price))
  }

  /** `d[ticker]` succeeds. */
  predicate Tracked<V>(d: map<string, V>, ticker: Option<string>) {
    ticker.Some? && ticker.value in d
  }

  /** `update_orderbook_snapshot(ticker, msg)`: YES levels as they are, NO levels at `100 - p`. */
  function SnapshotOf(m: Maker, ticker: Option<string>, msg: Body): (Maker, bool) {
    match LevelsOrEmpty(msg.yes)
    case None => (m, false)
    case Some(ys) =>
      if !Tracked(m.orderbooks, ticker) then (m, false)
      else
        var t := ticker.value;
        var m1 := m.(orderbooks := m.orderbooks[t := m.orderbooks[t].(yes := FromPairs(ys))]);
        match LevelsOrEmpty(msg.no)
        case None => (m1, false)
        case Some(ns) =>
          (Requote(m1.(orderbooks := m1.orderbooks[t := m1.orderbooks[t].(no := FromPairs(Flip(ns)))]), t), true)
  }

  function Min(a: int, b: int): int {
    if a <= b then a else b
  }

  /**
   * `process_trade(ticker, msg)`: the message is logged first; with both
   * quotes set, `|min(count, MM_SIZE)|` is added to `total_trades`.  A buy
   * without a `yes_price` raises on the comparison that follows.
   */
  function TradeOf(m: Maker, ticker: Option<string>, msg: Body): (Maker, bool) {
    if !Tracked(m.tradeLog, ticker) then (m, false)
    else
      var t := ticker.value;
      var m1 := m.(tradeLog := m.tradeLog[t := m.tradeLog[t] + [msg]]);
      if msg.count.None? || "taker_side" !in msg.keys || t !in m1.ourQuotes then (m1, false)
      else
        var q := m1.ourQuotes[t];
        if q.bid.None? || q.ask.None? then (m1, true)
        else
          var m2 := m1.(totalTrades := m1.totalTrades + Abs(Min(msg.count.value, MM_SIZE)));
          (m2, msg.takerSide == "yes" || msg.yesPrice.Some?)
  }

  /** Requoting touches only the quote of its market. */
  lemma RequoteKeepsValid(m: Maker, t: string)
    requires Valid(m) && t in m.orderbooks
    ensures Valid(Requote(m, t))
    ensures Requote(m, t).orderbooks == m.orderbooks
  {
  }

  /** Whatever price it addresses, the delta handler keeps the maker valid. */
  lemma DeltaKeepsValid(m: Maker, ticker: Option<string>, msg: Body, key: int)
    requires Valid(m)
    ensures Valid(DeltaHandler(m, ticker, msg, key).0)
  {
    if DeltaHandler(m, ticker, msg, key).1 {
      var t := ticker.value;
      var b := m.orderbooks[t];
      var nb := WithSide(b, msg.side, ApplyDelta(SideBook(b, msg.side), key, msg.delta));
      DeltaSpec(SideBook(b, msg.side), key, msg.delta);
      var m1 := m.(orderbooks := m.orderbooks[t := nb]);
      assert Valid(m1);
      RequoteKeepsValid(m1, t);
      assert DeltaHandler(m, ticker, msg, key).0 == Requote(m1, t);
    }
  }

  lemma SnapshotKeepsValid(m: Maker, ticker: Option<string>, msg: Body)
    requires Valid(m)
    ensures Valid(SnapshotOf(m, ticker, msg).0)
  {
    var ys := LevelsOrEmpty(msg.yes);
    if ys.Some? && Tracked(m.orderbooks, ticker) {
      var t := ticker.value;
      var m1 := m.(orderbooks := m.orderbooks[t := m.orderbooks[t].(yes := FromPairs(ys.value))]);
      assert Valid(m1);
      var ns := LevelsOrEmpty(msg.no);
      if ns.Some? {
        var m2 := m1.(orderbooks := m1.orderbooks[t := m1.orderbooks[t].(no := FromPairs(Flip(ns.value)))]);
        assert Valid(m2);
        RequoteKeepsValid(m2, t);
        assert SnapshotOf(m, ticker, msg).0 == Requote(m2, t);
      } else {
        assert SnapshotOf(m, ticker, msg).0 == m1;
      }
    }
  }

  lemma TradeKeepsValid(m: Maker, ticker: Option<string>, msg: Body)
    requires Valid(m)
    ensures Valid(TradeOf(m, ticker, msg).0)
  {
    TradeOnlyTallies(m, ticker, msg);
  }

  /**
   * A delta that returns normally changes one level of one side of its
   * market by the additive rule, the level at the price it addresses; the
   * other side stays.  One that raises changes nothing.
   */
  lemma DeltaUpdatesOneLevel(m: Maker, ticker: Option<string>, msg: Body, key: int)
    requires Valid(m)
    ensures !DeltaHandler(m, ticker, msg, key).1 ==> DeltaHandler(m, ticker, msg, key).0 == m
    ensures DeltaHandler(m, ticker, msg, key).1 ==>
      var t := ticker.value;
      var r := DeltaHandler(m, ticker, msg, key).0;
      var side := msg.side;
      && t in m.orderbooks && IsSide(side)
      && var before := SideBook(m.orderbooks[t], side);
      && var after := SideBook(r.orderbooks[t], side);
      && var qty := GetOr(before, key, 0) + msg.delta;
      && Get(after, key) == (if qty <= 0 then None else Some(qty))
      && (forall p :: p != key ==> Get(after, p) == Get(before, p))
      && (side == "yes" ==> r.orderbooks[t].no == m.orderbooks[t].no)
      && (side == "no" ==> r.orderbooks[t].yes == m.orderbooks[t].yes)
  {
    if DeltaHandler(m, ticker, msg, key).1 {
      DeltaStores(m, ticker, msg, key);
      var t := ticker.value;
      var b := m.orderbooks[t];
      var nb := WithSide(b, msg.side, ApplyDelta(SideBook(b, msg.side), key, msg.delta));
      assert DeltaHandler(m, ticker, msg, key).0.orderbooks[t] == nb;
      DeltaSpec(SideBook(b, msg.side), key, msg.delta);
    }
  }

  /** A delta that returns normally requotes its market and leaves every other market alone. */
  lemma DeltaRequotesItsMarket(m: Maker, ticker: Option<string>, msg: Body, key: int)
    ensures DeltaHandler(m, ticker, msg, key).1 ==>
      var t := ticker.value;
      var r := DeltaHandler(m, ticker, msg, key).0;
      && t in m.orderbooks && t in r.orderbooks
      && r.ourQuotes[t] == QuoteOf(r.orderbooks[t])
      && (forall u :: u != t && u in m.orderbooks ==> r.orderbooks[u] == m.orderbooks[u])
      && (forall u :: u != t && u in m.ourQuotes ==> r.ourQuotes[u] == m.ourQuotes[u])
  {
    if DeltaHandler(m, ticker, msg, key).1 {
      DeltaStores(m, ticker, msg, key);
    }
  }

  /** A delta that returns normally stores the updated side of its market, then requotes it. */
  lemma DeltaStores(m: Maker, ticker: Option<string>, msg: Body, key: int)
    requires DeltaHandler(m, ticker, msg, key).1
    ensures Tracked(m.orderbooks, ticker) && IsSide(msg.side)
    ensures var t := ticker.value;
      var b := m.orderbooks[t];
      var nb := WithSide(b, msg.side, ApplyDelta(SideBook(b, msg.side), key, msg.delta));
      DeltaHandler(m, ticker, msg, key).0 == Requote(m.(orderbooks := m.orderbooks[t := nb]), t)
  {
  }

  /**
   * As written the flip to `100 - price` never takes effect: a delta whose
   * side is "NO" raises KeyError at `orderbooks[ticker]["NO"]`, so every
   * applied delta addresses its raw price, also on the NO side.
   */
  lemma AsWrittenNeverFlips(m: Maker, ticker: Option<string>, msg: Body)
    ensures msg.side == "NO" ==> DeltaOfAsWritten(m, ticker, msg) == (m, false)
    ensures DeltaOfAsWritten(m, ticker, msg).1 ==> DeltaOfAsWritten(m, ticker, msg) == DeltaHandler(m, ticker, msg, msg.price)
  {
  }

  /** A market whose NO book a snapshot filled with one level: 5 contracts at NO price 30. */
  function OneNoLevel(): Maker {
    InitMaker(["T"]).(orderbooks := map["T" := SnapshotBooks([], [(30, 5)])])
  }

  /** A delta of one more contract at NO price 30. */
  function OneMoreAtNo30(): Body {
    Body({"side", "price", "delta"}, Some("T"), "no", 30, 1, Missing, Missing, None, None, "")
  }

  /**
   * As written, a NO delta misses the level the snapshot stored: the 5
   * contracts at NO price 30 sit at 70, the delta opens a new level at 30,
   * and the level at 70 still says 5.  With the flip the level at 70 says 6.
   */
  lemma NoDeltaMissesSnapshotLevel()
    ensures var r := DeltaOfAsWritten(OneNoLevel(), Some("T"), OneMoreAtNo30());
      r.1 && Get(r.0.orderbooks["T"].no, 70) == Some(5) && Get(r.0.orderbooks["T"].no, 30) == Some(1)
    ensures var r := DeltaOf(OneNoLevel(), Some("T"), OneMoreAtNo30());
      r.1 && Get(r.0.orderbooks["T"].no, 70) == Some(6) && Get(r.0.orderbooks["T"].no, 30) == None
  {
    var b := SnapshotBooks([], [(30, 5)]);
    FlippedLevels([(30, 5)]);
    assert LastValue([(30, 5)], 30) == Some(5);
    DeltaSpec(b.no, 30, 1);
    DeltaSpec(b.no, 70, 1);
  }

  /**
   * With the flip, a NO delta at price `p` adjusts exactly the quantity the
   * last snapshot recorded for NO price `p`: it becomes that quantity (0
   * when none) plus the delta, and the level goes once that is not positive.
   */
  lemma NoDeltaFindsSnapshotLevel(m: Maker, ticker: Option<string>, msg: Body, ys: seq<(int, int)>, ns: seq<(int, int)>)
    requires Valid(m) && Tracked(m.orderbooks, ticker) && m.orderbooks[ticker.value] == SnapshotBooks(ys, ns)
    requires msg.side == "no" && DeltaOf(m, ticker, msg).1
    ensures Get(DeltaOf(m, ticker, msg).0.orderbooks[ticker.value].no, 100 - msg.price)
         == Adjusted(LastValue(ns, msg.price), msg.delta)
  {
    var t := ticker.value;
    var key := DeltaKey(msg.side, msg.price);
    DeltaStores(m, ticker, msg, key);
    assert DeltaOf(m, ticker, msg).0.orderbooks[t].no == ApplyDelta(FromPairs(Flip(ns)), 100 - msg.price, msg.delta);
    FlippedDeltaAdjusts(ns, msg.price, msg.delta);
  }

  /** On a NO book a snapshot built, a delta at `100 - p` adjusts what the snapshot recorded for `p`. */
  lemma {:induction false} FlippedDeltaAdjusts(ns: seq<(int, int)>, p: int, delta: int)
    ensures Get(ApplyDelta(FromPairs(Flip(ns)), 100 - p, delta), 100 - p) == Adjusted(LastValue(ns, p), delta)
  {
    var book := FromPairs(Flip(ns));
    assert Get(book, 100 - p) == LastValue(ns, p) by {
      RecordedAtFlippedPrice(ns, p);
    }
    assert Get(ApplyDelta(book, 100 - p, delta), 100 - p) == Adjusted(Get(book, 100 - p), delta) by {
      DeltaAdjusts(book, 100 - p, delta);
    }
  }

  /** A delta adjusts the quantity its book held at its price. */
  lemma {:induction false} DeltaAdjusts(book: Dict<int, int>, k: int, delta: int)
    requires UniqueKeys(book)
    ensures Get(ApplyDelta(book, k, delta), k) == Adjusted(Get(book, k), delta)
  {
    DeltaSpec(book, k, delta);
  }

  /** A quantity (0 when there is none) plus a delta, as a level that goes once it is not positive. */
  function Adjusted(recorded: Option<int>, delta: int): Option<int> {
    var qty := (if recorded.Some? then recorded.value else 0) + delta;
    if qty <= 0 then None else Some(qty)
  }

  /** The NO book a snapshot builds keeps NO price `p` at `100 - p`. */
  lemma RecordedAtFlippedPrice(ns: seq<(int, int)>, p: int)
    ensures Get(FromPairs(Flip(ns)), 100 - p) == LastValue(ns, p)
  {
    FlippedLevels(ns);
    assert 100 - (100 - p) == p;
  }

  /** The books a snapshot that returns normally leaves in its market, before requoting. */
  function SnapshotBooks(ys: seq<(int, int)>, ns: seq<(int, int)>): Books {
    Books(FromPairs(ys), FromPairs(Flip(ns)))
  }

  lemma SnapshotStores(m: Maker, ticker: Option<string>, msg: Body)
    requires SnapshotOf(m, ticker, msg).1
    ensures Tracked(m.orderbooks, ticker) && msg.yes != Null && msg.no != Null
    ensures var t := ticker.value;
      var m2 := m.(orderbooks := m.orderbooks[t := SnapshotBooks(LevelsOrEmpty(msg.yes).value, LevelsOrEmpty(msg.no).value)]);
      SnapshotOf(m, ticker, msg).0 == Requote(m2, t)
  {
    var t := ticker.value;
    var ys := LevelsOrEmpty(msg.yes).value;
    var ns := LevelsOrEmpty(msg.no).value;
    var m1 := m.(orderbooks := m.orderbooks[t := m.orderbooks[t].(yes := FromPairs(ys))]);
    var m2 := m1.(orderbooks := m1.orderbooks[t := m1.orderbooks[t].(no := FromPairs(Flip(ns)))]);
    assert m2.orderbooks == m.orderbooks[t := SnapshotBooks(ys, ns)];
  }

  /**
   * A snapshot that returns normally replaces both books of its market:
   * each YES price maps to its last quantity in the message, and each NO
   * level `(p, q)` is stored at `100 - p`; the market is then requoted, and
   * no other market changes.
   */
  lemma SnapshotReplacesBooks(m: Maker, ticker: Option<string>, msg: Body)
    ensures SnapshotOf(m, ticker, msg).1 ==>
      var t := ticker.value;
      var r := SnapshotOf(m, ticker, msg).0;
      var ys := LevelsOrEmpty(msg.yes).value;
      var ns := LevelsOrEmpty(msg.no).value;
      && t in m.orderbooks && msg.yes != Null && msg.no != Null
      && (forall p :: Get(r.orderbooks[t].yes, p) == LastValue(ys, p))
      && (forall p :: Get(r.orderbooks[t].no, p) == LastValue(ns, 100 - p))
      && r.ourQuotes[t] == QuoteOf(r.orderbooks[t])
      && (forall u :: u != t && u in m.orderbooks ==> r.orderbooks[u] == m.orderbooks[u])
      && (forall u :: u != t && u in m.ourQuotes ==> r.ourQuotes[u] == m.ourQuotes[u])
  {
    if SnapshotOf(m, ticker, msg).1 {
      SnapshotStores(m, ticker, msg);
      var ys := LevelsOrEmpty(msg.yes).value;
      var ns := LevelsOrEmpty(msg.no).value;
      SnapshotBooksLevels(ys, ns);
    }
  }

  /** YES levels as they are, NO levels at `100 - p`, later duplicates winning. */
  lemma SnapshotBooksLevels(ys: seq<(int, int)>, ns: seq<(int, int)>)
    ensures forall p :: Get(SnapshotBooks(ys, ns).yes, p) == LastValue(ys, p)
    ensures forall p :: Get(SnapshotBooks(ys, ns).no, p) == LastValue(ns, 100 - p)
  {
    FromPairsSpec(ys);
    FlippedLevels(ns);
  }

  lemma FlippedLevels(ns: seq<(int, int)>)
    ensures forall p :: Get(FromPairs(Flip(ns)), p) == LastValue(ns, 100 - p)
  {
    forall p ensures Get(FromPairs(Flip(ns)), p) == LastValue(ns, 100 - p) {
      FromPairsAt(Flip(ns), p);
      FlipLastValue(ns, p);
    }
  }

  /** The fields a trade leaves alone. */
  predicate SameBooksAndAccounts(r: Maker, m: Maker) {
    && r.tickers == m.tickers
    && r.orderbooks == m.orderbooks && r.ourQuotes == m.ourQuotes
    && r.positions == m.positions && r.avgPrices == m.avgPrices
    && r.realizedPnl == m.realizedPnl && r.unrealizedPnl == m.unrealizedPnl
  }

  /**
   * A trade never touches books, quotes, positions, average prices or PnL;
   * once its market is known it is logged, and `total_trades` grows by
   * `|min(count, MM_SIZE)|` exactly when both quotes are set.
   */
  lemma TradeOnlyTallies(m: Maker, ticker: Option<string>, msg: Body)
    ensures SameBooksAndAccounts(TradeOf(m, ticker, msg).0, m)
    ensures !Tracked(m.tradeLog, ticker) ==> TradeOf(m, ticker, msg).0 == m
    ensures Tracked(m.tradeLog, ticker) ==>
      var t := ticker.value;
      var r := TradeOf(m, ticker, msg).0;
      && r.tradeLog == m.tradeLog[t := m.tradeLog[t] + [msg]]
      && r.totalTrades == m.totalTrades +
           (if msg.count.Some? && "taker_side" in msg.keys && t in m.ourQuotes
               && m.ourQuotes[t].bid.Some? && m.ourQuotes[t].ask.Some?
            then Abs(Min(msg.count.value, MM_SIZE)) else 0)
  {
    if Tracked(m.tradeLog, ticker) {
      var t := ticker.value;
      var m1 := m.(tradeLog := m.tradeLog[t := m.tradeLog[t] + [msg]]);
      if msg.count.None? || "taker_side" !in msg.keys || t !in m1.ourQuotes {
        assert TradeOf(m, ticker, msg).0 == m1;
      } else if m1.ourQuotes[t].bid.None? || m1.ourQuotes[t].ask.None? {
        assert TradeOf(m, ticker, msg).0 == m1;
      } else {
        assert TradeOf(m, ticker, msg).0 == m1.(totalTrades := m1.totalTrades + Abs(Min(msg.count.value, MM_SIZE)));
      }
    }
  }

  /** Requoting one market keeps every quote current, given the others were. */
  lemma RequoteKeepsQuotesCurrent(m: Maker, t: string)
    requires t in m.orderbooks
    requires forall u :: u != t && u in m.orderbooks && u in m.ourQuotes ==> m.ourQuotes[u] == QuoteOf(m.orderbooks[u])
    ensures QuotesCurrent(Requote(m, t))
  {
  }

  /**
   * Requoting after every change keeps each market's quote the one its
   * books call for, as long as the handlers return normally (a snapshot with
   * a null NO side raises after replacing the YES book, before requoting).
   */
  lemma DeltaKeepsQuotesCurrent(m: Maker, ticker: Option<string>, msg: Body, key: int)
    requires QuotesCurrent(m)
    ensures QuotesCurrent(DeltaHandler(m, ticker, msg, key).0)
  {
    if DeltaHandler(m, ticker, msg, key).1 {
      var t := ticker.value;
      var b := m.orderbooks[t];
      var nb := WithSide(b, msg.side, ApplyDelta(SideBook(b, msg.side), key, msg.delta));
      var m1 := m.(orderbooks := m.orderbooks[t := nb]);
      assert DeltaHandler(m, ticker, msg, key).0 == Requote(m1, t);
      RequoteKeepsQuotesCurrent(m1, t);
    }
  }

  lemma SnapshotKeepsQuotesCurrent(m: Maker, ticker: Option<string>, msg: Body)
    requires QuotesCurrent(m)
    ensures SnapshotOf(m, ticker, msg).1 ==> QuotesCurrent(SnapshotOf(m, ticker, msg).0)
  {
    if SnapshotOf(m, ticker, msg).1 {
      var t := ticker.value;
      var ys := LevelsOrEmpty(msg.yes).value;
      var ns := LevelsOrEmpty(msg.no).value;
      var m1 := m.(orderbooks := m.orderbooks[t := m.orderbooks[t].(yes := FromPairs(ys))]);
      var m2 := m1.(orderbooks := m1.orderbooks[t := m1.orderbooks[t].(no := FromPairs(Flip(ns)))]);
      assert SnapshotOf(m, ticker, msg).0 == Requote(m2, t);
      RequoteKeepsQuotesCurrent(m2, t);
    }
  }

  lemma TradeKeepsQuotesCurrent(m: Maker, ticker: Option<string>, msg: Body)
    requires QuotesCurrent(m)
    ensures QuotesCurrent(TradeOf(m, ticker, msg).0)
  {
    TradeOnlyTallies(m, ticker, msg);
  }

  /** A new maker quotes nothing, which is what its empty books call for. */
  lemma InitQuotesCurrent(tickers: seq<string>)
    ensures QuotesCurrent(InitMaker(tickers))
  {
    assert SortBy<(int, int)>([], PairGt) == [];
    assert SortBy<(int, int)>([], PairLt) == [];
  }

  /** `MarketMaker`, whose handlers update its fields in place. */
  class MarketMaker {
    var tickers: seq<string>
    var orderbooks: map<string, Books>
    var ourQuotes: map<string, Quote>
    var positions: map<string, int>
    var avgPrices: map<string, real>
    var realizedPnl: map<string, real>
    var unrealizedPnl: map<string, real>
    var tradeLog: map<string, seq<Body>>
    var totalTrades: int

    function State(): Maker
      reads this
    {
      Maker(tickers, orderbooks, ourQuotes, positions, avgPrices, realizedPnl, unrealizedPnl, tradeLog, totalTrades)
    }

    constructor(tickers: seq<string>)
      ensures State() == InitMaker(tickers)
    {
      this.tickers := tickers;
      orderbooks := map t | t in tickers :: EmptyBooks;
      ourQuotes := map t | t in tickers :: NoQuote;
      positions := map t | t in tickers :: 0;
      avgPrices := map t | t in tickers :: 0.0;
      realizedPnl := map t | t in tickers :: 0.0;
      unrealizedPnl := map t | t in tickers :: 0.0;
      tradeLog := map t | t in tickers :: [];
      totalTrades := 0;
    }

    /** `update_quote(ticker)`: two scans of the sorted books, each stopping at the first sized level. */
    method UpdateQuote(ticker: string)
      requires ticker in orderbooks
      modifies this
      ensures State() == Requote(old(State()), ticker)
    {
      var bids := SortBy(orderbooks[ticker].yes, PairGt);
      var mmBid := 0;
      var i := 0;
      while i < |bids|
        invariant 0 <= i <= |bids|
        invariant FirstSized(bids[i..], 0) == FirstSized(bids, 0)
      {
        if bids[i].1 >= MM_SIZE {
          mmBid := bids[i].0;
          break;
        }
        assert bids[i..][1..] == bids[i + 1..];
        i := i + 1;
      }
      assert mmBid == MarketMakerBid(orderbooks[ticker].yes);
      var asks := SortBy(orderbooks[ticker].no, PairLt);
      var mmAsk := 100;
      var j := 0;
      while j < |asks|
        invariant 0 <= j <= |asks|
        invariant FirstSized(asks[j..], 100) == FirstSized(asks, 100)
      {
        if asks[j].1 >= MM_SIZE {
          mmAsk := asks[j].0;
          break;
        }
        assert asks[j..][1..] == asks[j + 1..];
        j := j + 1;
      }
      assert mmAsk == MarketMakerAsk(orderbooks[ticker].no);
      if mmBid > 0 && mmAsk < 100 {
        var spread := Abs(mmAsk - mmBid);
        if spread >= MM_MIN_SPREAD {
          ourQuotes := ourQuotes[ticker := Quote(Some(mmBid + 1), Some(mmAsk - 1))];
        } else {
          ourQuotes := ourQuotes[ticker := NoQuote];
        }
      } else {
        ourQuotes := ourQuotes[ticker := NoQuote];
      }
    }

    /**
     * `update_orderbook_delta(ticker, msg)` as written, flipping only the side
     * spelled "NO"; `ok` is false where it raises.
     */
    method UpdateOrderbookDelta(ticker: Option<string>, msg: Body) returns (ok: bool)
      modifies this
      ensures (State(), ok) == DeltaOfAsWritten(old(State()), ticker, msg)
    {
      if !("side" in msg.keys && "price" in msg.keys && "delta" in msg.keys) {
        return false;
      }
      var side := msg.side;
      var price := msg.price;
      if side == "NO" {
        price := 100 - price;
      }
      if !Tracked(orderbooks, ticker) || !IsSide(side) {
        return false;
      }
      var t := ticker.value;
      var book := SideBook(orderbooks[t], side);
      var qty := GetOr(book, price, 0) + msg.delta;
      if qty <= 0 {
        book := Pop(book, price);
      } else {
        book := Set(book, price, qty);
      }
      orderbooks := orderbooks[t := WithSide(orderbooks[t], side, book)];
      UpdateQuote(t);
      ok := true;
    }

    /** `update_orderbook_snapshot(ticker, msg)`; `ok` is false where it raises. */
    method UpdateOrderbookSnapshot(ticker: Option<string>, msg: Body) returns (ok: bool)
      modifies this
      ensures (State(), ok) == SnapshotOf(old(State()), ticker, msg)
    {
      var ys := LevelsOrEmpty(msg.yes);
      if ys.None? || !Tracked(orderbooks, ticker) {
        return false;
      }
      var t := ticker.value;
      orderbooks := orderbooks[t := orderbooks[t].(yes := FromPairs(ys.value))];
      var ns := LevelsOrEmpty(msg.no);
      if ns.None? {
        return false;
      }
      orderbooks := orderbooks[t := orderbooks[t].(no := FromPairs(Flip(ns.value)))];
      UpdateQuote(t);
      ok := true;
    }

    /** `process_trade(ticker, msg)`; `ok` is false where it raises. */
    method ProcessTrade(ticker: Option<string>, msg: Body) returns (ok: bool)
      modifies this
      ensures (State(), ok) == TradeOf(old(State()), ticker, msg)
    {
      if !Tracked(tradeLog, ticker) {
        return false;
      }
      var t := ticker.value;
      tradeLog := tradeLog[t := tradeLog[t] + [msg]];
      if msg.count.None? || "taker_side" !in msg.keys || t !in ourQuotes {
        return false;
      }
      var count := Min(msg.count.value, MM_SIZE);
      var ourBid := ourQuotes[t].bid;
      var ourAsk := ourQuotes[t].ask;
      if ourBid.None? || ourAsk.None? {
        return true;
      }
      totalTrades := totalTrades + Abs(count);
      ok := msg.takerSide == "yes" || msg.yesPrice.Some?;
    }
  }

  /** One message of the loop: the gap check, then the maker's handler for its type. */
  function DirectStepOf(last: SeqTable, m: Maker, e: Envelope): (SeqTable, Maker, Outcome)
    requires Complete(last)
  {
    if e.msgType == Some("subscribed") then
      (last, m, if "channel" in e.msg.keys && "sid" in e.msg.keys then Skipped else Faulted)
    else match ChannelOf(e.msgType)
      case None => (last, m, Skipped)
      case Some(ch) =>
        var ticker := e.msg.marketTicker;
        match GateOf(last, ch, ticker, e.seqNum)
        case Gap => (last, m, SequenceGap)
        case Fault => (last, m, Faulted)
        case Pass(l) =>
          var handled :=
            if e.msgType == Some("orderbook_snapshot") then SnapshotOf(m, ticker, e.msg)
            else if e.msgType == Some("orderbook_delta") then DeltaOfAsWritten(m, ticker, e.msg)
            else if e.msgType == Some("trade") then TradeOf(m, ticker, e.msg)
            else (m, true);
          (l, handled.0, if handled.1 then Handled else Faulted)
  }

  /**
   * The loop leaves the maker alone on `subscribed`, unknown types, fills
   * and gaps, and keeps it valid on every message.
   */
  lemma DirectStepKeepsValid(last: SeqTable, m: Maker, e: Envelope)
    requires Complete(last) && Valid(m)
    ensures Valid(DirectStepOf(last, m, e).1)
    ensures Complete(DirectStepOf(last, m, e).0)
    ensures (|| e.msgType == Some("fill") || e.msgType == Some("subscribed") || ChannelOf(e.msgType).None?
             || DirectStepOf(last, m, e).2 == SequenceGap) ==> DirectStepOf(last, m, e).1 == m
  {
    var ticker := e.msg.marketTicker;
    if e.msgType != Some("subscribed") && ChannelOf(e.msgType).Some? {
      var ch := ChannelOf(e.msgType).value;
      GateKeepsOtherChannels(last, ch, ticker, e.seqNum);
      if GateOf(last, ch, ticker, e.seqNum).Pass? {
        var l := GateOf(last, ch, ticker, e.seqNum).last;
        if e.msgType == Some("orderbook_snapshot") {
          SnapshotKeepsValid(m, ticker, e.msg);
          assert DirectStepOf(last, m, e).1 == SnapshotOf(m, ticker, e.msg).0;
        } else if e.msgType == Some("orderbook_delta") {
          DeltaKeepsValid(m, ticker, e.msg, DeltaKeyAsWritten(e.msg.side, e.msg.price));
          assert DirectStepOf(last, m, e).1 == DeltaOfAsWritten(m, ticker, e.msg).0;
        } else if e.msgType == Some("trade") {
          TradeKeepsValid(m, ticker, e.msg);
          assert DirectStepOf(last, m, e).1 == TradeOf(m, ticker, e.msg).0;
        } else {
          assert DirectStepOf(last, m, e).1 == m;
        }
        assert DirectStepOf(last, m, e).0 == l;
      }
    }
  }

  /** `kalshi_ws_stream`'s `last_seq`, with the global maker it feeds. */
  class DirectStream {
    var lastSeq: SeqTable

    constructor()
      ensures lastSeq == InitialSeqs
    {
      lastSeq := InitialSeqs;
    }

    method OnMessage(e: Envelope, mm: MarketMaker) returns (r: Outcome)
      requires Complete(lastSeq)
      modifies this, mm
      ensures (lastSeq, mm.State(), r) == DirectStepOf(old(lastSeq), old(mm.State()), e)
    {
      var msg := e.msg;
      if e.msgType == Some("subscribed") {
        return if "channel" in msg.keys && "sid" in msg.keys then Skipped else Faulted;
      }
      var ch := ChannelOf(e.msgType);
      if ch.None? {
        return Skipped;
      }
      var ticker := msg.marketTicker;
      if Truthy(ticker) {
        var verdict := CheckSeq(lastSeq[ch.value], e.seqNum);
        if verdict == OutOfOrder {
          return SequenceGap;
        } else if verdict == SeqFault {
          return Faulted;
        }
        lastSeq := lastSeq[ch.value := e.seqNum];
      }
      var ok := true;
      if e.msgType == Some("orderbook_snapshot") {
        ok := mm.UpdateOrderbookSnapshot(ticker, msg);
      } else if e.msgType == Some("orderbook_delta") {
        ok := mm.UpdateOrderbookDelta(ticker, msg);
      } else if e.msgType == Some("trade") {
        ok := mm.ProcessTrade(ticker, msg);
      }
      r := if ok then Handled else Faulted;
    }
  }
}
