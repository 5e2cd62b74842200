/**
 * What the Kalshi websocket handlers share
 * (crypto/testing_market_sockets/market_sockets.py lines 77-133 and
 * crypto/testing_market_sockets/direct_market_sockets_test.py lines 80-103
 * and 182-224): the decoded messages, a market's YES/NO price -> quantity
 * books, the additive delta rule, the channel a message type belongs to and
 * the per-channel sequence-gap rule.
 */
module KalshiFeed {
  import opened Optional
  import opened Dicts
  import opened Sorting

  /** A `[[price, qty], ...]` field: absent, JSON null, or a list of levels. */
  datatype JsonLevels = Missing | Null | Levels(levels: seq<(int, int)>)

  /**
   * `x.get(key, [])` iterated by a comprehension: an absent key gives the
   * empty list, a null value cannot be iterated (TypeError, `None` here).
   */
  function LevelsOrEmpty(f: JsonLevels): Option<seq<(int, int)>>
  {
    match f
    case Missing => Some([])
    case Null => None
    case Levels(ls) => Some(ls)
  }

  /**
   * The `msg` object of a websocket message, as far as the handlers read it.
   * `keys` holds the keys present; a field read with `msg["key"]` means
   * something only when its key is among them.
   */
  datatype Body = Body(
    keys: set<string>,
    marketTicker: Option<string>,  // `msg.get("market_ticker")`: None when absent or null
    side: string,
    price: int,
    delta: int,
    yes: JsonLevels,
    no: JsonLevels,
    count: Option<int>,            // `msg.get("count")`: None when absent or null
    yesPrice: Option<int>,         // `msg.get("yes_price")`
    takerSide: string)

  /** A decoded message: `data.get("type")`, `data.get("seq")`, `data.get("msg", {})`. */
  datatype Envelope = Envelope(msgType: Option<string>, seqNum: Option<int>, msg: Body)

  /** One market's `{"yes": {price: qty}, "no": {price: qty}}`. */
  datatype Books = Books(yes: Dict<int, int>, no: Dict<int, int>)

  const EmptyBooks: Books := Books([], [])

  predicate WellFormed(b: Books) {
    UniqueKeys(b.yes) && UniqueKeys(b.no)
  }

  /** `books[side]`: only the keys "yes" and "no" exist (KeyError otherwise). */
  predicate IsSide(side: string) {
    side == "yes" || side == "no"
  }

  function SideBook(b: Books, side: string): Dict<int, int>
    requires IsSide(side)
  {
    if side == "yes" then b.yes else b.no
  }

  function WithSide(b: Books, side: string, d: Dict<int, int>): (r: Books)
    requires IsSide(side)
    ensures SideBook(r, side) == d
    ensures side == "yes" ==> r.no == b.no
    ensures side == "no" ==> r.yes == b.yes
  {
    if side == "yes" then b.(yes := d) else b.(no := d)
  }

  /** `qty = book.get(price, 0) + delta`, then `pop` when `qty <= 0`, else store. */
  function ApplyDelta(book: Dict<int, int>, price: int, delta: int): Dict<int, int> {
    var qty := GetOr(book, price, 0) + delta;
    if qty <= 0 then Pop(book, price) else Set(book, price, qty)
  }

  /**
   * A delta adds to the quantity at its price (0 when absent) and removes the
   * level once the sum is not positive; every other price is unchanged.
   */
  lemma DeltaSpec(book: Dict<int, int>, price: int, delta: int)
    requires UniqueKeys(book)
    ensures UniqueKeys(ApplyDelta(book, price, delta))
    ensures var qty := GetOr(book, price, 0) + delta;
      Get(ApplyDelta(book, price, delta), price) == if qty <= 0 then None else Some(qty)
    ensures forall p :: p != price ==> Get(ApplyDelta(book, price, delta), p) == Get(book, p)
  {
    var qty := GetOr(book, price, 0) + delta;
    if qty <= 0 {
      var r := Pop(book, price);
      assert ApplyDelta(book, price, delta) == r;
      PopSpec(book, price);
    } else {
      var r := Set(book, price, qty);
      assert ApplyDelta(book, price, delta) == r;
      SetSpec(book, price, qty);
    }
  }

  /**
   * Deltas add up: two deltas at one price whose first leaves the level
   * standing give the same book, levels in the same order, as their sum
   * applied once.
   */
  lemma DeltasAdd(book: Dict<int, int>, price: int, d1: int, d2: int)
    requires GetOr(book, price, 0) + d1 > 0
    ensures ApplyDelta(ApplyDelta(book, price, d1), price, d2) == ApplyDelta(book, price, d1 + d2)
  {
    var q1 := GetOr(book, price, 0) + d1;
    var once := Set(book, price, q1);
    assert ApplyDelta(book, price, d1) == once;
    assert GetOr(once, price, 0) + d2 == q1 + d2 by {
      SetGet(book, price, q1);
    }
    if q1 + d2 <= 0 {
      assert ApplyDelta(once, price, d2) == Pop(once, price);
      assert ApplyDelta(book, price, d1 + d2) == Pop(book, price);
      PopAfterSet(book, price, q1);
    } else {
      assert ApplyDelta(once, price, d2) == Set(once, price, q1 + d2);
      assert ApplyDelta(book, price, d1 + d2) == Set(book, price, q1 + d2);
      SetTwice(book, price, q1, q1 + d2);
    }
  }

  /** The channel whose sequence numbers a message type carries. */
  datatype Channel = BookChannel | TradeChannel | FillChannel

  /**
   * Snapshots and deltas are `orderbook_delta`, then `trade` and `fill`;
   * any other type (including `subscribed`) has no channel and is skipped.
   */
  function ChannelOf(msgType: Option<string>): Option<Channel>
  {
    if msgType == Some("orderbook_snapshot") || msgType == Some("orderbook_delta") then Some(BookChannel)
    else if msgType == Some("trade") then Some(TradeChannel)
    else if msgType == Some("fill") then Some(FillChannel)
    else None
  }

  /** `last_seq`: one entry per channel; an entry can hold a null `seq`. */
  type SeqTable = map<Channel, Option<int>>

  predicate Complete(last: SeqTable) {
    forall c: Channel :: c in last
  }

  const InitialSeqs: SeqTable := map[BookChannel := Some(0), TradeChannel := Some(0), FillChannel := Some(0)]

  lemma InitialSeqsComplete()
    ensures Complete(InitialSeqs)
  {
    forall c: Channel ensures c in InitialSeqs {
      match c
      case BookChannel =>
      case TradeChannel =>
      case FillChannel =>
    }
  }

  datatype SeqVerdict = InOrder | OutOfOrder | SeqFault

  /**
   * `if prev_seq != 0 and seq != prev_seq + 1: raise`: a last seq of 0 lets
   * anything through, a stored null makes `prev_seq + 1` a TypeError.
   */
  function CheckSeq(prev: Option<int>, seqNum: Option<int>): SeqVerdict {
    match prev
    case None => SeqFault
    case Some(p) => if p == 0 || seqNum == Some(p + 1) then InOrder else OutOfOrder
  }

  /** Python truthiness of `msg.get("market_ticker")`. */
  predicate Truthy(t: Option<string>) {
    t.Some? && t.value != ""
  }

  datatype Gate = Pass(last: SeqTable) | Gap | Fault

  /**
   * The gap check of one message on channel `ch`: messages without a
   * (truthy) ticker skip it, an accepted seq becomes the channel's last.
   */
  function GateOf(last: SeqTable, ch: Channel, ticker: Option<string>, seqNum: Option<int>): Gate
    requires Complete(last)
  {
    if !Truthy(ticker) then Pass(last)
    else match CheckSeq(last[ch], seqNum)
      case InOrder => Pass(last[ch := seqNum])
      case OutOfOrder => Gap
      case SeqFault => Fault
  }

  /** The gate keeps a table complete and touches only its own channel. */
  lemma GateKeepsOtherChannels(last: SeqTable, ch: Channel, ticker: Option<string>, seqNum: Option<int>)
    requires Complete(last)
    ensures GateOf(last, ch, ticker, seqNum).Pass? ==>
      && Complete(GateOf(last, ch, ticker, seqNum).last)
      && forall c :: c != ch ==> GateOf(last, ch, ticker, seqNum).last[c] == last[c]
  {
  }

  /**
   * The sequence rule: with a ticker, a message passes iff the channel has
   * seen nothing yet (last seq 0) or its seq is the last one plus one, and
   * then its seq is recorded.
   */
  lemma SequenceRule(last: SeqTable, ch: Channel, ticker: string, p: int, seqNum: Option<int>)
    requires Complete(last) && ticker != "" && last[ch] == Some(p)
    ensures GateOf(last, ch, Some(ticker), seqNum).Pass? <==> p == 0 || seqNum == Some(p + 1)
    ensures GateOf(last, ch, Some(ticker), seqNum).Pass? ==> GateOf(last, ch, Some(ticker), seqNum).last == last[ch := seqNum]
    ensures GateOf(last, ch, Some(ticker), seqNum).Gap? <==> p != 0 && seqNum != Some(p + 1)
  {
  }

  /** Feeds the seqs `ss` of one channel through the check; false at the first gap. */
  function Accepts(prev: Option<int>, ss: seq<Option<int>>): bool
    decreases ss
  {
    if ss == [] then true
    else CheckSeq(prev, ss[0]) == InOrder && Accepts(ss[0], ss[1..])
  }

  /**
   * From a fresh channel, a run of positive seqs goes through without a gap
   * exactly when each seq is its predecessor plus one.
   */
  lemma {:induction false} AcceptsConsecutive(ss: seq<int>, prev: int)
    requires forall i :: 0 <= i < |ss| ==> ss[i] > 0
    requires prev >= 0
    ensures Accepts(Some(prev), SomeAll(ss))
       <==> (ss != [] && prev != 0 ==> ss[0] == prev + 1)
            && forall i :: 0 < i < |ss| ==> ss[i] == ss[i - 1] + 1
  {
    if ss != [] {
      AcceptsConsecutive(ss[1..], ss[0]);
      assert SomeAll(ss)[1..] == SomeAll(ss[1..]);
      if Accepts(Some(prev), SomeAll(ss)) {
        forall i | 0 < i < |ss| ensures ss[i] == ss[i - 1] + 1 {
          if i > 1 {
            assert ss[1..][i - 1] == ss[i] && ss[1..][i - 2] == ss[i - 1];
          }
        }
      }
      if (ss != [] && prev != 0 ==> ss[0] == prev + 1) && forall i :: 0 < i < |ss| ==> ss[i] == ss[i - 1] + 1 {
        forall i | 0 < i < |ss[1..]| ensures ss[1..][i] == ss[1..][i - 1] + 1 {
          assert ss[1..][i] == ss[i + 1] && ss[1..][i - 1] == ss[i];
        }
      }
    }
  }

  function SomeAll(ss: seq<int>): (r: seq<Option<int>>)
    ensures |r| == |ss| && forall i :: 0 <= i < |ss| ==> r[i] == Some(ss[i])
  {
    seq(|ss|, i requires 0 <= i < |ss| => Some(ss[i]))
  }

  /** How a handler ends: done, skipped, the sequence-gap exception, or any other exception. */
  datatype Outcome = Handled | Skipped | SequenceGap | Faulted

  /** `{p: q for p, q in levels}` with every price turned into `100 - p`. */
  function Flip(levels: seq<(int, int)>): seq<(int, int)>
  {
    seq(|levels|, i requires 0 <= i < |levels| => (100 - levels[i].0, levels[i].1))
  }

  /** Flipping prices is a bijection, so the last level for `p` is the last one for `100 - p`. */
  lemma {:induction false} FlipLastValue(levels: seq<(int, int)>, p: int)
    ensures LastValue(Flip(levels), p) == LastValue(levels, 100 - p)
  {
    if levels != [] {
      assert Flip(levels)[..|levels| - 1] == Flip(levels[..|levels| - 1]);
      FlipLastValue(levels[..|levels| - 1], p);
    }
  }

  /** Python's tuple order on `(price, qty)` items. */
  predicate PairLt(a: (int, int), b: (int, int)) {
    a.0 < b.0 || (a.0 == b.0 && a.1 < b.1)
  }

  /** The order `sorted(..., reverse=True)` sorts by. */
  predicate PairGt(a: (int, int), b: (int, int)) {
    PairLt(b, a)
  }

  lemma PairOrders()
    ensures StrictWeakOrder(PairLt) && StrictWeakOrder(PairGt)
  {
  }
}
