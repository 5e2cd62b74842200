/**
 * The venue order books that feed the consolidated index
 * (crypto/brti_aws_setup/brti_mimick_new.py; crypto/websockets/brti.py is
 * the same engine).  Prices and sizes are exact reals; the feed's floats are
 * not modelled.
 */
module IndexBook {
  /** Methodology constants. */
  const SPACING_VOL: real := 1.0
  const DEV_MID: real := 0.005
  const ERR_BAND: real := 0.05
  const MAX_SAMPLE: nat := 50
  const STALE_S: int := 30

  /** One price level: (price, size). */
  type Level = (real, real)

  /** One venue's book: bids best first, asks best first, and its time in ms. */
  datatype Book = Book(bids: seq<Level>, asks: seq<Level>, ts: int)

  /** A venue as the engine's `books` dict holds it: (exchange id, book). */
  type Venue = (string, Book)

  /** The first components of pairs, in order: a side's prices, or the venue ids. */
  function Firsts<A, B>(ps: seq<(A, B)>): seq<A> {
    seq(|ps|, i requires 0 <= i < |ps| => ps[i].0)
  }

  /** The second components of pairs, in order: a side's sizes. */
  function Seconds<A, B>(ps: seq<(A, B)>): seq<B> {
    seq(|ps|, i requires 0 <= i < |ps| => ps[i].1)
  }

  /** The engine's `books` dict, in insertion order, each exchange id once. */
  ghost predicate DistinctIds(vs: seq<Venue>) {
    forall i, j :: 0 <= i < j < |vs| ==> vs[i].0 != vs[j].0
  }

  /** `mid` and `crossing` read `bids[0]` and `asks[0]`. */
  predicate TwoSided(b: Book) {
    |b.bids| > 0 && |b.asks| > 0
  }

  function BestBid(b: Book): real
    requires TwoSided(b)
  {
    b.bids[0].0
  }

  function BestAsk(b: Book): real
    requires TwoSided(b)
  {
    b.asks[0].0
  }

  /** `mid(b)` */
  function Mid(b: Book): real
    requires TwoSided(b)
  {
    (BestBid(b) + BestAsk(b)) / 2.0
  }

  /** `crossing(b)`: the best bid is at or above the best ask. */
  predicate Crossing(b: Book)
    requires TwoSided(b)
  {
    BestBid(b) >= BestAsk(b)
  }

  /** The mid of an uncrossed book lies strictly inside its spread. */
  lemma MidInsideSpread(b: Book)
    requires TwoSided(b)
    ensures !Crossing(b) <==> BestBid(b) < Mid(b) < BestAsk(b)
  {
  }

  /** `[(p, s) for p, s, *_ in levels if s > 0]`, in the exchange's order. */
  function PositiveLevels(levels: seq<Level>): (r: seq<Level>)
    ensures forall l :: l in r <==> l in levels && l.1 > 0.0
  {
    if levels == [] then []
    else
      var rest := PositiveLevels(levels[1..]);
      assert forall l :: l in levels <==> l == levels[0] || l in levels[1..];
      if levels[0].1 > 0.0 then [levels[0]] + rest else rest
  }

  /** Filtering a concatenation filters each part, so the order is kept. */
  lemma {:induction false} PositiveLevelsAppend(a: seq<Level>, b: seq<Level>)
    ensures PositiveLevels(a + b) == PositiveLevels(a) + PositiveLevels(b)
  {
    if a != [] {
      assert (a + b)[1..] == a[1..] + b;
      PositiveLevelsAppend(a[1..], b);
    } else {
      assert a + b == b;
    }
  }

  /**
   * A `Book` as the REST and WebSocket fetchers build it from a raw order
   * book: only levels with a positive size, and `ob.get('timestamp') or
   * now_ms()`, so a missing or zero timestamp becomes the current time.
   */
  function BuildBook(rawBids: seq<Level>, rawAsks: seq<Level>, timestamp: int, hasTimestamp: bool, now: int): (b: Book)
    ensures forall l :: l in b.bids <==> l in rawBids && l.1 > 0.0
    ensures forall l :: l in b.asks <==> l in rawAsks && l.1 > 0.0
    ensures b.ts == if hasTimestamp && timestamp != 0 then timestamp else now
  {
    Book(PositiveLevels(rawBids), PositiveLevels(rawAsks), if hasTimestamp && timestamp != 0 then timestamp else now)
  }

  /** Every level of a built book has a positive size. */
  lemma BuiltBookSizesPositive(rawBids: seq<Level>, rawAsks: seq<Level>, timestamp: int, hasTimestamp: bool, now: int)
    ensures forall i :: 0 <= i < |BuildBook(rawBids, rawAsks, timestamp, hasTimestamp, now).bids| ==>
      BuildBook(rawBids, rawAsks, timestamp, hasTimestamp, now).bids[i].1 > 0.0
    ensures forall i :: 0 <= i < |BuildBook(rawBids, rawAsks, timestamp, hasTimestamp, now).asks| ==>
      BuildBook(rawBids, rawAsks, timestamp, hasTimestamp, now).asks[i].1 > 0.0
  {
    var b := BuildBook(rawBids, rawAsks, timestamp, hasTimestamp, now);
    forall i | 0 <= i < |b.bids| ensures b.bids[i].1 > 0.0 { assert b.bids[i] in b.bids; }
    forall i | 0 <= i < |b.asks| ensures b.asks[i].1 > 0.0 { assert b.asks[i] in b.asks; }
  }
}
