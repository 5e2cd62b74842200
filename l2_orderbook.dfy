/**
 * The Coinbase level-2 book of crypto/orderbook.py: two lists of raw levels
 * that updates overwrite by raw price string or extend, that lose their
 * zero-quantity levels after each update message and that are kept sorted
 * by numeric price, bids high to low and asks low to high.  `float()` on the
 * level's strings is the parameter `toReal`; parse errors are not modelled.
 */
module L2OrderBook {
  import opened Optional
  import opened Sorting

  /** One level as the feed sends it: `{'side', 'px', 'qty'}`, all strings. */
  datatype Level = Level(side: string, px: string, qty: string)

  datatype Event = Event(updates: seq<Level>)

  /** A decoded feed message: `{'channel', 'events': [{'updates': [...]}]}`. */
  datatype Message = Message(channel: string, events: seq<Event>)

  /** `sorted(key=lambda x: float(x['px']), reverse=True)` (stable, so equal prices keep their order). */
  function Desc(toReal: string -> real): (Level, Level) -> bool {
    (a: Level, b: Level) => toReal(a.px) > toReal(b.px)
  }

  /** `sorted(key=lambda x: float(x['px']))` */
  function Asc(toReal: string -> real): (Level, Level) -> bool {
    (a: Level, b: Level) => toReal(a.px) < toReal(b.px)
  }

  lemma OrdersAreStrictWeak(toReal: string -> real)
    ensures StrictWeakOrder(Desc(toReal)) && StrictWeakOrder(Asc(toReal))
  {
  }

  /** The levels whose side is exactly `side`, in order. */
  function OfSide(levels: seq<Level>, side: string): (r: seq<Level>)
    ensures forall l :: l in r <==> l in levels && l.side == side
  {
    if levels == [] then []
    else
      var init := OfSide(levels[..|levels| - 1], side);
      var last := levels[|levels| - 1];
      assert forall l :: l in levels <==> l in levels[..|levels| - 1] || l == last;
      if last.side == side then init + [last] else init
  }

  /** Taking one side of a concatenation takes it run by run, keeping the order. */
  lemma {:induction false} OfSideAppend(a: seq<Level>, b: seq<Level>, side: string)
    ensures OfSide(a + b, side) == OfSide(a, side) + OfSide(b, side)
  {
    if b == [] {
      assert a + b == a;
    } else {
      var b' := b[..|b| - 1];
      assert (a + b)[..|a + b| - 1] == a + b';
      OfSideAppend(a, b', side);
    }
  }

  /** `_apply` on one side: replace the first level with the same raw `px`, else append. */
  function Upsert(book: seq<Level>, l: Level): (r: seq<Level>)
    ensures |r| == |book| || |r| == |book| + 1
  {
    if book == [] then [l]
    else if book[0].px == l.px then [l] + book[1..]
    else [book[0]] + Upsert(book[1..], l)
  }

  /** The first level with raw price `px`, as a lookup by price sees the book. */
  function FirstWithPx(book: seq<Level>, px: string): (r: Option<Level>)
    ensures r.Some? ==> r.value in book && r.value.px == px
    ensures r.None? ==> forall i :: 0 <= i < |book| ==> book[i].px != px
  {
    if book == [] then None
    else if book[0].px == px then Some(book[0])
    else FirstWithPx(book[1..], px)
  }

  /** The lookup returns the level at the first index that holds the price. */
  lemma {:induction false} FirstWithPxIsFirst(book: seq<Level>, px: string, i: nat)
    requires i < |book| && book[i].px == px
    requires forall j :: 0 <= j < i ==> book[j].px != px
    ensures FirstWithPx(book, px) == Some(book[i])
  {
    if i > 0 {
      assert book[0].px != px;
      FirstWithPxIsFirst(book[1..], px, i - 1);
    }
  }

  /**
   * `_apply` keeps the length when the price is already quoted and adds one
   * level otherwise; afterwards the price's first level is the update, and
   * every other price reads as before.
   */
  lemma {:induction false} UpsertReplacesOrAppends(book: seq<Level>, l: Level)
    ensures FirstWithPx(book, l.px).Some? ==> |Upsert(book, l)| == |book|
    ensures FirstWithPx(book, l.px).None? ==> Upsert(book, l) == book + [l]
    ensures FirstWithPx(Upsert(book, l), l.px) == Some(l)
    ensures forall p :: p != l.px ==> FirstWithPx(Upsert(book, l), p) == FirstWithPx(book, p)
  {
    if book != [] && book[0].px != l.px {
      UpsertReplacesOrAppends(book[1..], l);
      assert book == [book[0]] + book[1..];
    }
  }

  /** Where `i` is the first index with the update's price, `_apply` writes there. */
  lemma {:induction false} UpsertAt(book: seq<Level>, l: Level, i: nat)
    requires i < |book| && book[i].px == l.px
    requires forall j :: 0 <= j < i ==> book[j].px != l.px
    ensures Upsert(book, l) == book[i := l]
  {
    if i > 0 {
      UpsertAt(book[1..], l, i - 1);
    }
  }

  lemma {:induction false} UpsertAppends(book: seq<Level>, l: Level)
    requires forall j :: 0 <= j < |book| ==> book[j].px != l.px
    ensures Upsert(book, l) == book + [l]
  {
    if book != [] {
      UpsertAppends(book[1..], l);
    }
  }

  /** The two sides after `_apply` of every update in `us`, in order. */
  function ApplyAll(bids: seq<Level>, asks: seq<Level>, us: seq<Level>): (seq<Level>, seq<Level>) {
    if us == [] then (bids, asks)
    else
      var prev := ApplyAll(bids, asks, us[..|us| - 1]);
      var l := us[|us| - 1];
      if l.side == "bid" then (Upsert(prev.0, l), prev.1) else (prev.0, Upsert(prev.1, l))
  }

  /** Applying two runs of updates is applying their concatenation. */
  lemma {:induction false} ApplyAllAppend(bids: seq<Level>, asks: seq<Level>, us: seq<Level>, vs: seq<Level>)
    ensures ApplyAll(bids, asks, us + vs) ==
      ApplyAll(ApplyAll(bids, asks, us).0, ApplyAll(bids, asks, us).1, vs)
  {
    if vs == [] {
      assert us + vs == us;
    } else {
      assert (us + vs)[..|us + vs| - 1] == us + vs[..|vs| - 1];
      ApplyAllAppend(bids, asks, us, vs[..|vs| - 1]);
    }
  }

  /** The updates of all events, event by event. */
  function Updates(events: seq<Event>): seq<Level> {
    if events == [] then [] else Updates(events[..|events| - 1]) + events[|events| - 1].updates
  }

  /** `abs(float(x['qty'])) > 0` */
  predicate IsOpen(l: Level, toReal: string -> real) {
    toReal(l.qty) != 0.0
  }

  /** `_filter_closed` on one side. */
  function Open(book: seq<Level>, toReal: string -> real): (r: seq<Level>)
    ensures forall l :: l in r <==> l in book && IsOpen(l, toReal)
  {
    if book == [] then []
    else
      var init := Open(book[..|book| - 1], toReal);
      var last := book[|book| - 1];
      assert forall l :: l in book <==> l in book[..|book| - 1] || l == last;
      if IsOpen(last, toReal) then init + [last] else init
  }

  /** The last update in `us` that goes to the bid side (`isBid`) or the ask side with price `px`. */
  function LastUpdate(us: seq<Level>, px: string, isBid: bool): Option<Level> {
    if us == [] then None
    else
      var l := us[|us| - 1];
      if l.px == px && (l.side == "bid") == isBid then Some(l) else LastUpdate(us[..|us| - 1], px, isBid)
  }

  /**
   * Updates apply in message order, so for a repeated price the last update
   * to that side wins; a price no update touches reads as before.
   */
  lemma {:induction false} LastUpdateWins(bids: seq<Level>, asks: seq<Level>, us: seq<Level>, px: string)
    ensures FirstWithPx(ApplyAll(bids, asks, us).0, px) ==
      if LastUpdate(us, px, true).Some? then LastUpdate(us, px, true) else FirstWithPx(bids, px)
    ensures FirstWithPx(ApplyAll(bids, asks, us).1, px) ==
      if LastUpdate(us, px, false).Some? then LastUpdate(us, px, false) else FirstWithPx(asks, px)
  {
    if us != [] {
      var prev := ApplyAll(bids, asks, us[..|us| - 1]);
      LastUpdateWins(bids, asks, us[..|us| - 1], px);
      var l := us[|us| - 1];
      if l.side == "bid" {
        UpsertReplacesOrAppends(prev.0, l);
      } else {
        UpsertReplacesOrAppends(prev.1, l);
      }
    }
  }

  /** Any side other than `'bid'` updates the asks, although construction keeps only `'offer'`. */
  lemma UnknownSideUpdatesAsks(bids: seq<Level>, asks: seq<Level>, l: Level)
    requires l.side != "bid"
    ensures ApplyAll(bids, asks, [l]) == (bids, Upsert(asks, l))
    ensures l.side != "offer" ==> l !in OfSide([l], "bid") + OfSide([l], "offer")
  {
    assert [l][..0] == [];
  }

  /**
   * The book `apply_update` leaves: every level has a non-zero quantity,
   * bids are non-increasing and asks non-decreasing in numeric price, and
   * the sides hold exactly the open levels after the updates.
   */
  lemma UpdatedBookProperties(bids: seq<Level>, asks: seq<Level>, us: seq<Level>, toReal: string -> real)
    ensures var b := SortBy(Open(ApplyAll(bids, asks, us).0, toReal), Desc(toReal));
      var a := SortBy(Open(ApplyAll(bids, asks, us).1, toReal), Asc(toReal));
      && SortedBy(b, Desc(toReal)) && SortedBy(a, Asc(toReal))
      && (forall l :: l in b <==> l in ApplyAll(bids, asks, us).0 && IsOpen(l, toReal))
      && (forall l :: l in a <==> l in ApplyAll(bids, asks, us).1 && IsOpen(l, toReal))
  {
    var applied := ApplyAll(bids, asks, us);
    OrdersAreStrictWeak(toReal);
    SortBySorted(Open(applied.0, toReal), Desc(toReal));
    SortBySorted(Open(applied.1, toReal), Asc(toReal));
    var b := SortBy(Open(applied.0, toReal), Desc(toReal));
    var a := SortBy(Open(applied.1, toReal), Asc(toReal));
    SortByPermutes(Open(applied.0, toReal), Desc(toReal));
    SortByPermutes(Open(applied.1, toReal), Asc(toReal));
    assert forall l :: l in b <==> l in multiset(Open(applied.0, toReal));
    assert forall l :: l in a <==> l in multiset(Open(applied.1, toReal));
  }

  /** So the last update to a price, when its quantity is not zero, is in the updated book. */
  lemma LastOpenUpdateIsQuoted(bids: seq<Level>, asks: seq<Level>, us: seq<Level>, toReal: string -> real, px: string)
    requires LastUpdate(us, px, true).Some? && IsOpen(LastUpdate(us, px, true).value, toReal)
    ensures LastUpdate(us, px, true).value in SortBy(Open(ApplyAll(bids, asks, us).0, toReal), Desc(toReal))
  {
    LastUpdateWins(bids, asks, us, px);
    UpdatedBookProperties(bids, asks, us, toReal);
  }

  class OrderBookProcessor {
    var bids: seq<Level>
    var asks: seq<Level>
    const toReal: string -> real

    /** `__init__`: the first event's levels split by side, then sorted. */
    constructor (events: seq<Event>, toReal: string -> real)
      requires |events| > 0
      ensures this.toReal == toReal
      ensures bids == SortBy(OfSide(events[0].updates, "bid"), Desc(toReal))
      ensures asks == SortBy(OfSide(events[0].updates, "offer"), Asc(toReal))
    {
      var levels := events[0].updates;
      var b: seq<Level> := [];
      var a: seq<Level> := [];
      for i := 0 to |levels|
        invariant b == OfSide(levels[..i], "bid")
        invariant a == OfSide(levels[..i], "offer")
      {
        assert levels[..i + 1][..i] == levels[..i];
        if levels[i].side == "bid" {
          b := b + [levels[i]];
        } else if levels[i].side == "offer" {
          a := a + [levels[i]];
        }
      }
      assert levels[..|levels|] == levels;
      this.toReal := toReal;
      bids := b;
      asks := a;
      new;
      Sort();
    }

    /** `_apply(level)` */
    method ApplyLevel(level: Level)
      modifies this
      ensures level.side == "bid" ==> bids == Upsert(old(bids), level) && asks == old(asks)
      ensures level.side != "bid" ==> asks == Upsert(old(asks), level) && bids == old(bids)
    {
      if level.side == "bid" {
        var i := 0;
        while i < |bids|
          invariant 0 <= i <= |bids| && bids == old(bids) && asks == old(asks)
          invariant forall j :: 0 <= j < i ==> bids[j].px != level.px
        {
          if bids[i].px == level.px {
            UpsertAt(bids, level, i);
            bids := bids[i := level];
            return;
          }
          i := i + 1;
        }
        UpsertAppends(bids, level);
        bids := bids + [level];
      } else {
        var i := 0;
        while i < |asks|
          invariant 0 <= i <= |asks| && bids == old(bids) && asks == old(asks)
          invariant forall j :: 0 <= j < i ==> asks[j].px != level.px
        {
          if asks[i].px == level.px {
            UpsertAt(asks, level, i);
            asks := asks[i := level];
            return;
          }
          i := i + 1;
        }
        UpsertAppends(asks, level);
        asks := asks + [level];
      }
    }

    /** `apply_update(data)`, with `data` already decoded. */
    method ApplyUpdate(msg: Message)
      modifies this
      ensures msg.channel != "l2_data" ==> bids == old(bids) && asks == old(asks)
      ensures msg.channel == "l2_data" ==>
        && bids == SortBy(Open(ApplyAll(old(bids), old(asks), Updates(msg.events)).0, toReal), Desc(toReal))
        && asks == SortBy(Open(ApplyAll(old(bids), old(asks), Updates(msg.events)).1, toReal), Asc(toReal))
    {
      if msg.channel != "l2_data" {
        return;
      }
      ghost var b0, a0 := bids, asks;
      for e := 0 to |msg.events|
        invariant (bids, asks) == ApplyAll(b0, a0, Updates(msg.events[..e]))
      {
        assert msg.events[..e + 1][..e] == msg.events[..e];
        ghost var before := Updates(msg.events[..e]);
        ApplyLevels(msg.events[e].updates);
        ApplyAllAppend(b0, a0, before, msg.events[e].updates);
      }
      assert msg.events[..|msg.events|] == msg.events;
      FilterClosed();
      Sort();
    }

    /** The inner loop of `apply_update`: `_apply` of each update of one event. */
    method ApplyLevels(updates: seq<Level>)
      modifies this
      ensures (bids, asks) == ApplyAll(old(bids), old(asks), updates)
    {
      ghost var b0, a0 := bids, asks;
      for u := 0 to |updates|
        invariant (bids, asks) == ApplyAll(b0, a0, updates[..u])
      {
        assert updates[..u + 1][..u] == updates[..u];
        ApplyLevel(updates[u]);
      }
      assert updates[..|updates|] == updates;
    }

    /** `_filter_closed()` */
    method FilterClosed()
      modifies this
      ensures bids == Open(old(bids), toReal) && asks == Open(old(asks), toReal)
    {
      bids := Open(bids, toReal);
      asks := Open(asks, toReal);
    }

    /** `_sort()` */
    method Sort()
      modifies this
      ensures bids == SortBy(old(bids), Desc(toReal)) && asks == SortBy(old(asks), Asc(toReal))
    {
      bids := SortBy(bids, Desc(toReal));
      asks := SortBy(asks, Asc(toReal));
    }
  }
}
