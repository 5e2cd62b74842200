/**
 * The REST order book as the Kalshi helper modules shape it
 * (`get_orderbook` in crypto/mm_range/mm_websockets/utils.py and in
 * crypto/testing_market_sockets/utils.py): each YES level `[p, q]` becomes
 * a bid at p, each NO level an ask at 100 - p, and both sides are sorted
 * best first.  The older helper also reports the top of book and the best
 * level of at least MM_THRESHOLD contracts on each side.  The HTTP response
 * is an input value; so is the time left to expiry, split into hours,
 * minutes and seconds by `get_market_data`.
 */
module KalshiBooks {
  import opened Optional
  import opened Sorting
  import opened KalshiFeed

  /** Size from which a resting level counts as a market maker's. */
  const MM_THRESHOLD := 300

  /** A `{'price': p, 'quantity': q}` entry of `bids` or `asks`. */
  datatype Level = Level(price: int, quantity: int)

  /** The response's `orderbook` object: its `yes` and `no` fields. */
  datatype RestBook = RestBook(yes: JsonLevels, no: JsonLevels)

  /** A YES level rests as a bid at its own price. */
  function AsBid(l: (int, int)): Level {
    Level(l.0, l.1)
  }

  /** A NO level at p rests as an ask at 100 - p in YES terms. */
  function AsAsk(l: (int, int)): Level {
    Level(100 - l.0, l.1)
  }

  function Bids(ls: seq<(int, int)>): seq<Level> {
    seq(|ls|, i requires 0 <= i < |ls| => AsBid(ls[i]))
  }

  function Asks(ls: seq<(int, int)>): seq<Level> {
    seq(|ls|, i requires 0 <= i < |ls| => AsAsk(ls[i]))
  }

  /** The levels a side lists; an absent or null side lists none. */
  function Listed(f: JsonLevels): seq<(int, int)> {
    if f.Levels? then f.levels else []
  }

  /** `key=lambda x: -x["price"]`: high to low. */
  predicate Higher(a: Level, b: Level) {
    -a.price < -b.price
  }

  /** `key=lambda x: x["price"]`: low to high. */
  predicate Lower(a: Level, b: Level) {
    a.price < b.price
  }

  lemma PriceKeysOrder()
    ensures StrictWeakOrder(Higher) && StrictWeakOrder(Lower)
  {
  }

  /** `list(filter(lambda x: x['quantity'] >= MM_THRESHOLD, s))` */
  function Heavy(s: seq<Level>): (r: seq<Level>)
    ensures forall x :: x in r ==> x in s && x.quantity >= MM_THRESHOLD
    ensures forall x :: x in s && x.quantity >= MM_THRESHOLD ==> x in r
  {
    if s == [] then []
    else (if s[0].quantity >= MM_THRESHOLD then [s[0]] else []) + Heavy(s[1..])
  }

  /** The first price of `s`, or `default` when it is empty. */
  function FirstPrice(s: seq<Level>, default: int): int {
    if |s| > 0 then s[0].price else default
  }

  // ------------------------------------------- crypto/mm_range/mm_websockets

  /** `(orderbook, top_ask, top_bid, mm_bid, mm_ask)` with `orderbook = (sorted_bids, sorted_asks)`. */
  datatype MmBook = MmBook(bids: seq<Level>, asks: seq<Level>, topAsk: int, topBid: int, mmBid: int, mmAsk: int)

  /**
   * The older helper: no `orderbook` (absent or null) gives five Nones, and
   * so does an absent `yes` or `no` field, whose `order_book['yes']` raises
   * a KeyError that the handler catches.  A null or empty side is skipped.
   */
  function MmOrderbookOf(ob: Option<RestBook>): Option<MmBook> {
    if ob.None? || ob.value.yes.Missing? || ob.value.no.Missing? then None
    else
      var bids := SortBy(Bids(Listed(ob.value.yes)), Higher);
      var asks := SortBy(Asks(Listed(ob.value.no)), Lower);
      Some(MmBook(bids, asks, FirstPrice(asks, 100), FirstPrice(bids, 0), FirstPrice(Heavy(bids), 0), FirstPrice(Heavy(asks), 100)))
  }

  /** `get_orderbook` of crypto/mm_range/mm_websockets/utils.py, appending level by level. */
  method MmGetOrderbook(ob: Option<RestBook>) returns (r: Option<MmBook>)
    ensures r == MmOrderbookOf(ob)
  {
    if ob.None? {
      return None;
    }
    var book := ob.value;
    if book.yes.Missing? {
      return None;
    }
    var bids: seq<Level> := [];
    if book.yes.Levels? {
      var ls := book.yes.levels;
      var i := 0;
      while i < |ls|
        invariant 0 <= i <= |ls|
        invariant bids == Bids(ls[..i])
      {
        bids := bids + [AsBid(ls[i])];
        i := i + 1;
      }
      assert ls[..i] == ls;
    }
    if book.no.Missing? {
      return None;
    }
    var asks: seq<Level> := [];
    if book.no.Levels? {
      var ls := book.no.levels;
      var i := 0;
      while i < |ls|
        invariant 0 <= i <= |ls|
        invariant asks == Asks(ls[..i])
      {
        asks := asks + [AsAsk(ls[i])];
        i := i + 1;
      }
      assert ls[..i] == ls;
    }
    var sortedBids := SortBy(bids, Higher);
    var sortedAsks := SortBy(asks, Lower);
    var topAsk := if |asks| > 0 then sortedAsks[0].price else 100;
    var topBid := if |bids| > 0 then sortedBids[0].price else 0;
    var mmBids := Heavy(sortedBids);
    var mmAsks := Heavy(sortedAsks);
    var mmBid := if |mmBids| > 0 then mmBids[0].price else 0;
    var mmAsk := if |mmAsks| > 0 then mmAsks[0].price else 100;
    r := Some(MmBook(sortedBids, sortedAsks, topAsk, topBid, mmBid, mmAsk));
  }

  // ------------------------------------------- crypto/testing_market_sockets

  /** `{"bids": sorted_bids, "asks": sorted_asks}`: exactly these two keys. */
  datatype SortedBook = SortedBook(bids: seq<Level>, asks: seq<Level>)

  /** The newer helper: no `orderbook` gives None; `order_book.get(side) or []` treats an absent or null side as empty. */
  function SortedOrderbookOf(ob: Option<RestBook>): Option<SortedBook> {
    if ob.None? then None
    else Some(SortedBook(SortBy(Bids(Listed(ob.value.yes)), Higher), SortBy(Asks(Listed(ob.value.no)), Lower)))
  }

  /** `get_orderbook` of crypto/testing_market_sockets/utils.py, appending level by level. */
  method SortedGetOrderbook(ob: Option<RestBook>) returns (r: Option<SortedBook>)
    ensures r == SortedOrderbookOf(ob)
  {
    if ob.None? {
      return None;
    }
    var yes, no := Listed(ob.value.yes), Listed(ob.value.no);
    var bids: seq<Level> := [];
    var i := 0;
    while i < |yes|
      invariant 0 <= i <= |yes|
      invariant bids == Bids(yes[..i])
    {
      bids := bids + [AsBid(yes[i])];
      i := i + 1;
    }
    assert yes[..i] == yes;
    var asks: seq<Level> := [];
    i := 0;
    while i < |no|
      invariant 0 <= i <= |no|
      invariant asks == Asks(no[..i])
    {
      asks := asks + [AsAsk(no[i])];
      i := i + 1;
    }
    assert no[..i] == no;
    r := Some(SortedBook(SortBy(bids, Higher), SortBy(asks, Lower)));
  }

  // ----------------------------------------------------------- properties

  /** No level sorts before a better one: bids never rise, asks never fall. */
  predicate Descending(s: seq<Level>) {
    forall i, j :: 0 <= i < j < |s| ==> s[j].price <= s[i].price
  }

  predicate Ascending(s: seq<Level>) {
    forall i, j :: 0 <= i < j < |s| ==> s[i].price <= s[j].price
  }

  /** Sorting the bids orders them high to low and neither adds nor loses a level; likewise the asks low to high. */
  lemma SortLevels(bids: seq<Level>, asks: seq<Level>)
    ensures multiset(SortBy(bids, Higher)) == multiset(bids) && Descending(SortBy(bids, Higher))
    ensures multiset(SortBy(asks, Lower)) == multiset(asks) && Ascending(SortBy(asks, Lower))
  {
    PriceKeysOrder();
    SortByPermutes(bids, Higher);
    SortByPermutes(asks, Lower);
    SortBySorted(bids, Higher);
    SortBySorted(asks, Lower);
  }

  /** The first level of a high-to-low list of at least MM_THRESHOLD contracts is the highest such level. */
  lemma {:induction false} HeavyFirstIsHighest(s: seq<Level>)
    requires Descending(s)
    ensures forall x :: x in s && x.quantity >= MM_THRESHOLD ==> x.price <= FirstPrice(Heavy(s), 0)
  {
    if s != [] {
      if s[0].quantity >= MM_THRESHOLD {
        forall x | x in s ensures x.price <= s[0].price {
          var i :| 0 <= i < |s| && s[i] == x;
        }
      } else {
        var tail := s[1..];
        assert Descending(tail) by {
          forall i, j | 0 <= i < j < |tail| ensures tail[j].price <= tail[i].price {
            assert tail[j] == s[j + 1] && tail[i] == s[i + 1];
          }
        }
        HeavyFirstIsHighest(tail);
        forall x | x in s && x.quantity >= MM_THRESHOLD ensures x in tail {
          assert x != s[0];
        }
      }
    }
  }

  /** The first level of a low-to-high list of at least MM_THRESHOLD contracts is the lowest such level. */
  lemma {:induction false} HeavyFirstIsLowest(s: seq<Level>)
    requires Ascending(s)
    ensures forall x :: x in s && x.quantity >= MM_THRESHOLD ==> FirstPrice(Heavy(s), 100) <= x.price
  {
    if s != [] {
      if s[0].quantity >= MM_THRESHOLD {
        forall x | x in s ensures s[0].price <= x.price {
          var i :| 0 <= i < |s| && s[i] == x;
        }
      } else {
        var tail := s[1..];
        assert Ascending(tail) by {
          forall i, j | 0 <= i < j < |tail| ensures tail[i].price <= tail[j].price {
            assert tail[j] == s[j + 1] && tail[i] == s[i + 1];
          }
        }
        HeavyFirstIsLowest(tail);
        forall x | x in s && x.quantity >= MM_THRESHOLD ensures x in tail {
          assert x != s[0];
        }
      }
    }
  }

  /** The levels of a side, as a bid or an ask, are exactly the listed levels mapped. */
  lemma LevelsListed(ls: seq<(int, int)>)
    ensures forall x :: x in Bids(ls) <==> exists l :: l in ls && x == AsBid(l)
    ensures forall x :: x in Asks(ls) <==> exists l :: l in ls && x == AsAsk(l)
  {
    forall x | x in Bids(ls) ensures exists l :: l in ls && x == AsBid(l) {
      var i :| 0 <= i < |ls| && Bids(ls)[i] == x;
      assert ls[i] in ls;
    }
    forall x | x in Asks(ls) ensures exists l :: l in ls && x == AsAsk(l) {
      var i :| 0 <= i < |ls| && Asks(ls)[i] == x;
      assert ls[i] in ls;
    }
    forall l | l in ls ensures AsBid(l) in Bids(ls) && AsAsk(l) in Asks(ls) {
      var i :| 0 <= i < |ls| && ls[i] == l;
      assert Bids(ls)[i] == AsBid(l) && Asks(ls)[i] == AsAsk(l);
    }
  }

  /**
   * The newer helper: None exactly when there is no `orderbook`; otherwise
   * the bids are the YES levels at their prices and the asks the NO levels
   * at 100 - p, each level once, bids high to low and asks low to high.
   */
  lemma SortedOrderbookLevels(ob: Option<RestBook>)
    ensures SortedOrderbookOf(ob).None? <==> ob.None?
    ensures ob.Some? ==>
      var r := SortedOrderbookOf(ob).value;
      && multiset(r.bids) == multiset(Bids(Listed(ob.value.yes))) && Descending(r.bids)
      && multiset(r.asks) == multiset(Asks(Listed(ob.value.no))) && Ascending(r.asks)
  {
    if ob.Some? {
      SortLevels(Bids(Listed(ob.value.yes)), Asks(Listed(ob.value.no)));
    }
  }

  /** When both sides are present the two helpers shape the same levels the same way. */
  lemma HelpersAgree(ob: Option<RestBook>)
    requires MmOrderbookOf(ob).Some?
    ensures SortedOrderbookOf(ob).Some?
    ensures MmOrderbookOf(ob).value.bids == SortedOrderbookOf(ob).value.bids
    ensures MmOrderbookOf(ob).value.asks == SortedOrderbookOf(ob).value.asks
  {
  }

  /**
   * The bid side of the older helper: the YES levels sorted high to low;
   * its first price is the highest YES price (0 when there is none) and its
   * first price resting at least MM_THRESHOLD contracts is the highest such
   * YES price (0 when none does).
   */
  lemma BidSide(yes: seq<(int, int)>)
    ensures var b := SortBy(Bids(yes), Higher);
      var top, mm := FirstPrice(b, 0), FirstPrice(Heavy(b), 0);
      && multiset(b) == multiset(Bids(yes)) && Descending(b)
      && (forall l :: l in yes ==> l.0 <= top)
      && (yes != [] ==> exists l :: l in yes && l.0 == top)
      && (yes == [] ==> top == 0)
      && (forall l :: l in yes && l.1 >= MM_THRESHOLD ==> l.0 <= mm)
      && ((exists l :: l in yes && l.1 >= MM_THRESHOLD) ==> exists l :: l in yes && l.1 >= MM_THRESHOLD && l.0 == mm)
      && ((forall l :: l in yes ==> l.1 < MM_THRESHOLD) ==> mm == 0)
  {
    var b := SortBy(Bids(yes), Higher);
    SortLevels(Bids(yes), []);
    LevelsListed(yes);
    forall x ensures x in b <==> x in Bids(yes) {
      assert x in b <==> x in multiset(b);
    }
    forall l | l in yes ensures l.0 <= FirstPrice(b, 0) {
      assert AsBid(l) in Bids(yes);
      assert AsBid(l) in b;
      var i :| 0 <= i < |b| && b[i] == AsBid(l);
    }
    if yes != [] {
      assert b[0] in b;
    }
    HeavyFirstIsHighest(b);
    forall l | l in yes && l.1 >= MM_THRESHOLD ensures l.0 <= FirstPrice(Heavy(b), 0) {
      assert AsBid(l) in b;
    }
    if exists l :: l in yes && l.1 >= MM_THRESHOLD {
      var l :| l in yes && l.1 >= MM_THRESHOLD;
      assert AsBid(l) in Heavy(b);
      assert Heavy(b)[0] in Heavy(b);
    } else {
      forall x | x in b ensures x.quantity < MM_THRESHOLD {
        var l :| l in yes && x == AsBid(l);
      }
    }
  }

  /**
   * The ask side of the older helper: the NO levels flipped and sorted low
   * to high; its first price is the lowest flipped NO price (100 when there
   * is none) and its first price resting at least MM_THRESHOLD contracts is
   * the lowest such flipped price (100 when none does).
   */
  lemma AskSide(no: seq<(int, int)>)
    ensures var a := SortBy(Asks(no), Lower);
      var top, mm := FirstPrice(a, 100), FirstPrice(Heavy(a), 100);
      && multiset(a) == multiset(Asks(no)) && Ascending(a)
      && (forall l :: l in no ==> top <= 100 - l.0)
      && (no != [] ==> exists l :: l in no && 100 - l.0 == top)
      && (no == [] ==> top == 100)
      && (forall l :: l in no && l.1 >= MM_THRESHOLD ==> mm <= 100 - l.0)
      && ((exists l :: l in no && l.1 >= MM_THRESHOLD) ==> exists l :: l in no && l.1 >= MM_THRESHOLD && 100 - l.0 == mm)
      && ((forall l :: l in no ==> l.1 < MM_THRESHOLD) ==> mm == 100)
  {
    var a := SortBy(Asks(no), Lower);
    SortLevels([], Asks(no));
    LevelsListed(no);
    forall x ensures x in a <==> x in Asks(no) {
      assert x in a <==> x in multiset(a);
    }
    forall l | l in no ensures FirstPrice(a, 100) <= 100 - l.0 {
      assert AsAsk(l) in Asks(no);
      assert AsAsk(l) in a;
      var i :| 0 <= i < |a| && a[i] == AsAsk(l);
    }
    if no != [] {
      assert a[0] in a;
    }
    HeavyFirstIsLowest(a);
    forall l | l in no && l.1 >= MM_THRESHOLD ensures FirstPrice(Heavy(a), 100) <= 100 - l.0 {
      assert AsAsk(l) in a;
    }
    if exists l :: l in no && l.1 >= MM_THRESHOLD {
      var l :| l in no && l.1 >= MM_THRESHOLD;
      assert AsAsk(l) in Heavy(a);
      assert Heavy(a)[0] in Heavy(a);
    } else {
      forall x | x in a ensures x.quantity < MM_THRESHOLD {
        var l :| l in no && x == AsAsk(l);
      }
    }
  }

  /** The older helper returns five Nones exactly when the `orderbook` or one of its sides is absent. */
  lemma MmOrderbookNone(ob: Option<RestBook>)
    ensures MmOrderbookOf(ob).None? <==> ob.None? || ob.value.yes.Missing? || ob.value.no.Missing?
    ensures MmOrderbookOf(ob).Some? ==>
      var r := MmOrderbookOf(ob).value;
      && r.bids == SortBy(Bids(Listed(ob.value.yes)), Higher) && r.asks == SortBy(Asks(Listed(ob.value.no)), Lower)
      && r.topBid == FirstPrice(r.bids, 0) && r.mmBid == FirstPrice(Heavy(r.bids), 0)
      && r.topAsk == FirstPrice(r.asks, 100) && r.mmAsk == FirstPrice(Heavy(r.asks), 100)
  {
  }

  /** With YES and NO prices between 0 and 100, the market maker's levels are never better than the top of book. */
  lemma MarketMakerBehindTop(ob: Option<RestBook>)
    requires MmOrderbookOf(ob).Some?
    requires forall l :: l in Listed(ob.value.yes) ==> 0 <= l.0 <= 100
    requires forall l :: l in Listed(ob.value.no) ==> 0 <= l.0 <= 100
    ensures MmOrderbookOf(ob).value.mmBid <= MmOrderbookOf(ob).value.topBid
    ensures MmOrderbookOf(ob).value.topAsk <= MmOrderbookOf(ob).value.mmAsk
  {
    MmOrderbookNone(ob);
    BidSide(Listed(ob.value.yes));
    AskSide(Listed(ob.value.no));
  }

  // ------------------------------------------------------ time to expiry

  /** `(hours, minutes, seconds)` of `get_market_data`. */
  datatype Hms = Hms(hours: int, minutes: int, seconds: int)

  /**
   * `total // 3600`, `(total % 3600) // 60`, `total % 60`.  Python's `//`
   * and `%` floor; with a positive divisor that is Dafny's Euclidean
   * division, negative totals included.
   */
  function SplitSeconds(total: int): Hms {
    Hms(total / 3600, (total % 3600) / 60, total % 60)
  }

  /**
   * The split is the one decomposition of `total` into whole hours (any
   * sign) and minutes and seconds below 60: a time already past expiry
   * shows negative hours and positive minutes and seconds.
   */
  lemma SplitSecondsIsUnique(total: int)
    ensures var r := SplitSeconds(total);
      && r.hours * 3600 + r.minutes * 60 + r.seconds == total
      && 0 <= r.minutes < 60 && 0 <= r.seconds < 60
    ensures forall h, m, s :: h * 3600 + m * 60 + s == total && 0 <= m < 60 && 0 <= s < 60 ==> SplitSeconds(total) == Hms(h, m, s)
  {
    var r := SplitSeconds(total);
    var rest := total % 3600;
    assert total == r.hours * 3600 + rest;
    assert rest == r.minutes * 60 + rest % 60;
    assert rest % 60 == total % 60 by {
      assert total == r.hours * 60 * 60 + rest;
      ModOfMultiple(r.hours * 60, rest, 60);
    }
    forall h, m, s | h * 3600 + m * 60 + s == total && 0 <= m < 60 && 0 <= s < 60
      ensures r == Hms(h, m, s)
    {
      DivModUnique(total, 3600, h, m * 60 + s);
      DivModUnique(m * 60 + s, 60, m, s);
    }
  }

  /** Adding a multiple of `d` leaves the remainder alone. */
  lemma ModOfMultiple(k: int, x: int, d: int)
    requires d > 0
    ensures (k * d + x) % d == x % d
  {
    DivModUnique(k * d + x, d, k + x / d, x % d);
  }

  /** Euclidean division is the only split with a remainder in `[0, d)`. */
  lemma DivModUnique(x: int, d: int, q: int, r: int)
    requires d > 0 && 0 <= r < d && x == q * d + r
    ensures x / d == q && x % d == r
  {
    var q' := x / d;
    assert (q' - q) * d == r - x % d;
    MulBelow(q' - q, d, r - x % d);
  }

  /** A multiple of `d` strictly between `-d` and `d` is zero. */
  lemma MulBelow(k: int, d: int, y: int)
    requires d > 0 && -d < y < d && k * d == y
    ensures k == 0
  {
    assert (k - 1) * d == k * d - d;
    assert (-k - 1) * d == -(k * d) - d;
    MulNonneg(k - 1, d);
    MulNonneg(-k - 1, d);
  }

  lemma MulNonneg(a: int, b: int)
    ensures a >= 0 && b >= 0 ==> a * b >= 0
  {
  }
}
