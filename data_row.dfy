/**
 * The data collector's row flattening and level conversion
 * (crypto/data_collector/utils.py): `get_orderbook` turns the REST order
 * book into bid and ask levels in the listed order, in cents or dollars,
 * and `dataRow.make_data_row` flattens a snapshot into one dictionary with
 * a `bid_<n>_price`/`bid_<n>_quantity` pair per bid and the same for asks.
 */
module DataRow {
  import opened Optional
  import opened KalshiFeed
  import opened KalshiBooks

  // ------------------------------------------------------- get_orderbook

  /** A `{'price': p / divisor, 'quantity': q}` entry. */
  datatype PricedLevel = PricedLevel(price: real, quantity: int)

  /** `divisor`: 1 when prices stay in cents, 100 for dollars. */
  function Divisor(cents: bool): real {
    if cents then 1.0 else 100.0
  }

  /** The YES levels at `p / divisor`. */
  function PricedBids(yes: seq<(int, int)>, cents: bool): seq<PricedLevel> {
    seq(|yes|, i requires 0 <= i < |yes| => PricedLevel(yes[i].0 as real / Divisor(cents), yes[i].1))
  }

  /** The NO levels at `(100 - p) / divisor`. */
  function PricedAsks(no: seq<(int, int)>, cents: bool): seq<PricedLevel> {
    seq(|no|, i requires 0 <= i < |no| => PricedLevel((100 - no[i].0) as real / Divisor(cents), no[i].1))
  }

  /**
   * The collector's conversion: an absent or null `orderbook` and an
   * absent side raise inside the `try`, giving `(None, None)`; a null or
   * empty side gives no levels.  Nothing is sorted.
   */
  function CollectedOf(ob: Option<RestBook>, cents: bool): Option<(seq<PricedLevel>, seq<PricedLevel>)> {
    if ob.None? || ob.value.yes.Missing? || ob.value.no.Missing? then None
    else Some((PricedBids(Listed(ob.value.yes), cents), PricedAsks(Listed(ob.value.no), cents)))
  }

  /** `get_orderbook(ticker, cents)`, appending level by level. */
  method CollectOrderbook(ob: Option<RestBook>, cents: bool) returns (r: Option<(seq<PricedLevel>, seq<PricedLevel>)>)
    ensures r == CollectedOf(ob, cents)
  {
    if ob.None? || ob.value.yes.Missing? {
      return None;
    }
    var divisor := if cents then 1.0 else 100.0;
    var bids: seq<PricedLevel> := [];
    var yes := Listed(ob.value.yes);
    var i := 0;
    while i < |yes|
      invariant 0 <= i <= |yes|
      invariant bids == PricedBids(yes[..i], cents)
    {
      bids := bids + [PricedLevel(yes[i].0 as real / divisor, yes[i].1)];
      i := i + 1;
    }
    assert yes[..i] == yes;
    if ob.value.no.Missing? {
      return None;
    }
    var asks: seq<PricedLevel> := [];
    var no := Listed(ob.value.no);
    i := 0;
    while i < |no|
      invariant 0 <= i <= |no|
      invariant asks == PricedAsks(no[..i], cents)
    {
      asks := asks + [PricedLevel((100 - no[i].0) as real / divisor, no[i].1)];
      i := i + 1;
    }
    assert no[..i] == no;
    r := Some((bids, asks));
  }

  /**
   * The conversion keeps the listed order and the quantities; in cents the
   * levels are exactly the older helper's bids and asks before sorting, and
   * in dollars each price is the cent price divided by 100.
   */
  lemma CollectedLevels(ob: Option<RestBook>)
    ensures CollectedOf(ob, true).None? <==> MmOrderbookOf(ob).None?
    ensures CollectedOf(ob, true).Some? ==>
      var (bids, asks) := CollectedOf(ob, true).value;
      var (dBids, dAsks) := CollectedOf(ob, false).value;
      && |bids| == |Bids(Listed(ob.value.yes))| == |dBids|
      && |asks| == |Asks(Listed(ob.value.no))| == |dAsks|
      && (forall i :: 0 <= i < |bids| ==>
            var b := Bids(Listed(ob.value.yes))[i];
            bids[i] == PricedLevel(b.price as real, b.quantity) && dBids[i] == PricedLevel(b.price as real / 100.0, b.quantity))
      && (forall i :: 0 <= i < |asks| ==>
            var a := Asks(Listed(ob.value.no))[i];
            asks[i] == PricedLevel(a.price as real, a.quantity) && dAsks[i] == PricedLevel(a.price as real / 100.0, a.quantity))
  {
  }

  // ------------------------------------------------------- make_data_row

  /** A value stored in a row: None, a string, or a number. */
  datatype Value = NoneValue | Text(s: string) | Number(x: real)

  /** A `{'price': ..., 'quantity': ...}` entry of `bids` or `asks`. */
  datatype RowLevel = RowLevel(price: Value, quantity: Value)

  /** A decimal digit character. */
  function Digit(d: nat): char
    requires d < 10
  {
    (48 + d) as char
  }

  predicate IsDigit(c: char) {
    '0' <= c <= '9'
  }

  /** `str(n)` of a natural number. */
  function Decimal(n: nat): string
    decreases n
  {
    if n < 10 then [Digit(n)] else Decimal(n / 10) + [Digit(n % 10)]
  }

  /** `f'{side}_{i+1}_{field}'` */
  function FieldKey(side: string, i: nat, field: string): string {
    side + "_" + Decimal(i + 1) + "_" + field
  }

  const FixedKeys: set<string> := {"timestamp", "product", "price", "strike", "expiration_time"}

  predicate IsSide(side: string) {
    side == "bid" || side == "ask"
  }

  predicate IsField(field: string) {
    field == "price" || field == "quantity"
  }

  /** The five fixed keys are distinct. */
  lemma FixedKeysCount()
    ensures |FixedKeys| == 5
  {
    assert "timestamp"[0] == 't' && "product"[0] == 'p' && "price"[0] == 'p' && "strike"[0] == 's' && "expiration_time"[0] == 'e';
    assert "product"[1] == 'r' && "price"[1] == 'r' && "product"[2] == 'o' && "price"[2] == 'i';
  }

  /** The five constructor fields under their own names. */
  function FixedRow(timestamp: Value, product: Value, price: Value, strike: Value, expirationTime: Value): map<string, Value> {
    map["timestamp" := timestamp, "product" := product, "price" := price,
        "strike" := strike, "expiration_time" := expirationTime]
  }

  lemma FixedRowEntries(timestamp: Value, product: Value, price: Value, strike: Value, expirationTime: Value)
    ensures var row := FixedRow(timestamp, product, price, strike, expirationTime);
      && row.Keys == FixedKeys && |row| == 5
      && row["timestamp"] == timestamp && row["product"] == product && row["price"] == price
      && row["strike"] == strike && row["expiration_time"] == expirationTime
  {
    FixedKeysCount();
    var row := FixedRow(timestamp, product, price, strike, expirationTime);
    assert |row| == |row.Keys|;
  }

  /** The keys the first `n` levels of `side` add. */
  function SideKeys(side: string, n: nat): set<string> {
    if n == 0 then {} else SideKeys(side, n - 1) + {FieldKey(side, n - 1, "price"), FieldKey(side, n - 1, "quantity")}
  }

  /** The snapshot `dataRow` stores. */
  class DataRowObj {
    var timestamp: Value
    var product: Value
    var price: Value
    var strike: Value
    var expirationTime: Value
    var bids: seq<RowLevel>
    var asks: seq<RowLevel>

    constructor(timestamp: Value, product: Value, price: Value := NoneValue, strike: Value := NoneValue,
                expirationTime: Value := NoneValue, bids: seq<RowLevel> := [], asks: seq<RowLevel> := [])
      ensures this.timestamp == timestamp && this.product == product && this.price == price
      ensures this.strike == strike && this.expirationTime == expirationTime
      ensures this.bids == bids && this.asks == asks
    {
      this.timestamp := timestamp;
      this.product := product;
      this.price := price;
      this.strike := strike;
      this.expirationTime := expirationTime;
      this.bids := bids;
      this.asks := asks;
    }

    /**
     * `make_data_row()`: the five constructor fields under their own names,
     * then the i-th bid's price and quantity under `bid_{i+1}_price` and
     * `bid_{i+1}_quantity`, then the asks likewise, and no other key; every
     * key is new, so the row has 5 + 2 * (bids + asks) entries.
     */
    method MakeDataRow() returns (data: map<string, Value>)
      ensures data.Keys == FixedKeys + SideKeys("bid", |bids|) + SideKeys("ask", |asks|)
      ensures |data| == 5 + 2 * |bids| + 2 * |asks|
      ensures data["timestamp"] == timestamp && data["product"] == product && data["price"] == price
      ensures data["strike"] == strike && data["expiration_time"] == expirationTime
      ensures forall i :: 0 <= i < |bids| ==>
        && FieldKey("bid", i, "price") in data && data[FieldKey("bid", i, "price")] == bids[i].price
        && FieldKey("bid", i, "quantity") in data && data[FieldKey("bid", i, "quantity")] == bids[i].quantity
      ensures forall i :: 0 <= i < |asks| ==>
        && FieldKey("ask", i, "price") in data && data[FieldKey("ask", i, "price")] == asks[i].price
        && FieldKey("ask", i, "quantity") in data && data[FieldKey("ask", i, "quantity")] == asks[i].quantity
    {
      data := FixedRow(timestamp, product, price, strike, expirationTime);
      FixedRowEntries(timestamp, product, price, strike, expirationTime);
      SidesApart("bid", "ask", |bids|, |asks|);
      data := AddLevels(data, "bid", bids);
      var withBids := data;
      data := AddLevels(data, "ask", asks);
      StoresGrow(withBids, data, "bid", bids);
    }
  }

  /**
   * One of the two `for i, level in enumerate(...)` loops of
   * `make_data_row`: level i goes under `{side}_{i+1}_price` and
   * `{side}_{i+1}_quantity`.  The keys are new, so the row grows by two per
   * level and keeps its earlier entries.
   */
  method AddLevels(data: map<string, Value>, side: string, levels: seq<RowLevel>) returns (d: map<string, Value>)
    requires IsSide(side) && data.Keys !! SideKeys(side, |levels|)
    ensures d.Keys == data.Keys + SideKeys(side, |levels|)
    ensures |d| == |data| + 2 * |levels|
    ensures forall k :: k in data ==> d[k] == data[k]
    ensures Stores(d, side, levels, |levels|)
  {
    d := data;
    WrittenNothing(data, side, levels);
    for i := 0 to |levels|
      invariant Written(data, d, side, levels, i)
    {
      LevelStep(data, d, side, levels, i);
      d := Put(d, side, i, levels[i]);
    }
    RowSize(data, d, side, |levels|);
  }

  // ---------------------------------------------------- distinct keys

  /** The row holds the first `n` levels of one side under their keys. */
  ghost predicate Stores(data: map<string, Value>, side: string, levels: seq<RowLevel>, n: nat)
    requires n <= |levels|
  {
    forall j :: 0 <= j < n ==>
      && FieldKey(side, j, "price") in data && data[FieldKey(side, j, "price")] == levels[j].price
      && FieldKey(side, j, "quantity") in data && data[FieldKey(side, j, "quantity")] == levels[j].quantity
  }

  /** Level i of a side written into the row. */
  function Put(d: map<string, Value>, side: string, i: nat, level: RowLevel): map<string, Value> {
    d[FieldKey(side, i, "price") := level.price][FieldKey(side, i, "quantity") := level.quantity]
  }

  /** The row after the first i levels of a side were written into `data`. */
  ghost predicate Written(data: map<string, Value>, d: map<string, Value>, side: string, levels: seq<RowLevel>, i: nat)
    requires i <= |levels|
  {
    && d.Keys == data.Keys + SideKeys(side, i)
    && (forall k :: k in data ==> d[k] == data[k]) && Stores(d, side, levels, i)
  }

  /** Each level of a side adds two keys of its own. */
  lemma {:induction false} SideKeysCount(side: string, n: nat)
    requires IsSide(side)
    ensures |SideKeys(side, n)| == 2 * n
    decreases n
  {
    if n > 0 {
      SideKeysCount(side, n - 1);
      FreshKeys(side, n - 1, side, n - 1);
      LevelKeysApart(side, n - 1);
    }
  }

  /** A row whose keys are another's plus n new levels of a side is 2n entries larger. */
  lemma RowSize(data: map<string, Value>, d: map<string, Value>, side: string, n: nat)
    requires IsSide(side) && data.Keys !! SideKeys(side, n) && d.Keys == data.Keys + SideKeys(side, n)
    ensures |d| == |data| + 2 * n
  {
    SideKeysCount(side, n);
    assert |d| == |d.Keys| && |data| == |data.Keys|;
  }

  /** Before the loop nothing is written. */
  lemma WrittenNothing(data: map<string, Value>, side: string, levels: seq<RowLevel>)
    ensures Written(data, data, side, levels, 0)
  {
  }

  /** One turn of `AddLevels`' loop keeps its invariant. */
  lemma LevelStep(data: map<string, Value>, d: map<string, Value>, side: string, levels: seq<RowLevel>, i: nat)
    requires IsSide(side) && data.Keys !! SideKeys(side, |levels|) && i < |levels|
    requires Written(data, d, side, levels, i)
    ensures Written(data, Put(d, side, i, levels[i]), side, levels, i + 1)
  {
    FreshKeys(side, i, side, i);
    LevelKeysApart(side, i);
    InSideKeys(side, i, |levels|);
    StoresNext(d, side, levels, i);
  }

  /** A row that keeps every entry of another keeps what that one stores. */
  lemma StoresGrow(data: map<string, Value>, d: map<string, Value>, side: string, levels: seq<RowLevel>)
    requires Stores(data, side, levels, |levels|)
    requires data.Keys <= d.Keys && forall k :: k in data ==> d[k] == data[k]
    ensures Stores(d, side, levels, |levels|)
  {
  }

  /** Writing the n-th level's two keys, when they are new, stores one more level. */
  lemma StoresNext(data: map<string, Value>, side: string, levels: seq<RowLevel>, n: nat)
    requires n < |levels| && Stores(data, side, levels, n)
    requires FieldKey(side, n, "price") !in data && FieldKey(side, n, "quantity") !in data
    requires FieldKey(side, n, "price") != FieldKey(side, n, "quantity")
    ensures Stores(data[FieldKey(side, n, "price") := levels[n].price][FieldKey(side, n, "quantity") := levels[n].quantity],
                   side, levels, n + 1)
    ensures var d := data[FieldKey(side, n, "price") := levels[n].price][FieldKey(side, n, "quantity") := levels[n].quantity];
      d.Keys == data.Keys + {FieldKey(side, n, "price"), FieldKey(side, n, "quantity")}
      && forall k :: k in data ==> d[k] == data[k]
  {
    AddTwo(data, FieldKey(side, n, "price"), levels[n].price, FieldKey(side, n, "quantity"), levels[n].quantity);
  }

  /** Adding two new keys grows a dictionary by two and keeps every old entry. */
  lemma AddTwo<V>(data: map<string, V>, k1: string, v1: V, k2: string, v2: V)
    requires k1 !in data && k2 !in data && k1 != k2
    ensures data[k1 := v1][k2 := v2].Keys == data.Keys + {k1, k2}
    ensures forall k :: k in data ==> data[k1 := v1][k2 := v2][k] == data[k]
  {
    assert data[k1 := v1].Keys == data.Keys + {k1};
  }

  /** `str(n)` is all digits and never empty; it has one digit exactly below 10. */
  lemma {:induction false} DecimalDigits(n: nat)
    ensures |Decimal(n)| >= 1 && (|Decimal(n)| == 1 <==> n < 10)
    ensures forall k :: 0 <= k < |Decimal(n)| ==> IsDigit(Decimal(n)[k])
    decreases n
  {
    if n >= 10 {
      DecimalDigits(n / 10);
    }
  }

  /** Different numbers print differently. */
  lemma {:induction false} DecimalInjective(a: nat, b: nat)
    requires Decimal(a) == Decimal(b)
    ensures a == b
    decreases a
  {
    DecimalDigits(a);
    DecimalDigits(b);
    if a >= 10 && b >= 10 {
      var da, db := Decimal(a), Decimal(b);
      assert da[|da| - 1] == Digit(a % 10) && db[|db| - 1] == Digit(b % 10);
      assert Decimal(a / 10) == da[..|da| - 1] == db[..|db| - 1] == Decimal(b / 10);
      DecimalInjective(a / 10, b / 10);
    }
  }

  /** The index of the first `_` in `s` (its length when there is none). */
  function FirstUnderscore(s: string): nat {
    if s == [] || s[0] == '_' then 0 else 1 + FirstUnderscore(s[1..])
  }

  lemma {:induction false} UnderscoreAfterDigits(d: string, rest: string)
    requires forall k :: 0 <= k < |d| ==> IsDigit(d[k])
    ensures FirstUnderscore(d + "_" + rest) == |d|
    decreases |d|
  {
    if d != [] {
      assert (d + "_" + rest)[1..] == d[1..] + "_" + rest;
      UnderscoreAfterDigits(d[1..], rest);
    }
  }

  /** A field key starts with its side and an underscore, followed by the printed position, an underscore and the field. */
  lemma KeyParts(side: string, i: nat, field: string)
    requires IsSide(side)
    ensures var k := FieldKey(side, i, field);
      k[..3] == side && k[4..] == Decimal(i + 1) + "_" + field && k[0] == side[0]
  {
    var k := FieldKey(side, i, field);
    assert k == side + ("_" + Decimal(i + 1) + "_" + field);
  }

  /** Digits, an underscore and a field split back into the digits and the field. */
  lemma SplitTail(d1: string, f1: string, d2: string, f2: string)
    requires forall k :: 0 <= k < |d1| ==> IsDigit(d1[k])
    requires forall k :: 0 <= k < |d2| ==> IsDigit(d2[k])
    requires d1 + "_" + f1 == d2 + "_" + f2
    ensures d1 == d2 && f1 == f2
  {
    var t := d1 + "_" + f1;
    UnderscoreAfterDigits(d1, f1);
    UnderscoreAfterDigits(d2, f2);
    assert d1 == t[..|d1|];
    assert f1 == t[|d1| + 1..];
    assert d2 == (d2 + "_" + f2)[..|d2|];
    assert f2 == (d2 + "_" + f2)[|d2| + 1..];
  }

  /** Two field keys are equal only for the same side, position and field. */
  lemma FieldKeyInjective(s1: string, i: nat, f1: string, s2: string, j: nat, f2: string)
    requires IsSide(s1) && IsSide(s2)
    ensures FieldKey(s1, i, f1) == FieldKey(s2, j, f2) <==> s1 == s2 && i == j && f1 == f2
  {
    if FieldKey(s1, i, f1) == FieldKey(s2, j, f2) {
      KeyParts(s1, i, f1);
      KeyParts(s2, j, f2);
      DecimalDigits(i + 1);
      DecimalDigits(j + 1);
      SplitTail(Decimal(i + 1), f1, Decimal(j + 1), f2);
      DecimalInjective(i + 1, j + 1);
    }
  }

  /** No field key is one of the five fixed keys. */
  lemma FieldKeyNotFixed(side: string, i: nat, field: string)
    requires IsSide(side)
    ensures FieldKey(side, i, field) !in FixedKeys
  {
    KeyParts(side, i, field);
  }

  /** The i-th level's two keys are not among the first `n` keys of a side (`n <= i` for its own side). */
  lemma {:induction false} FreshKeys(side: string, i: nat, other: string, n: nat)
    requires IsSide(side) && IsSide(other) && (other == side ==> n <= i)
    ensures FieldKey(side, i, "price") !in SideKeys(other, n)
    ensures FieldKey(side, i, "quantity") !in SideKeys(other, n)
    decreases n
  {
    if n > 0 {
      FreshKeys(side, i, other, n - 1);
      FieldKeyInjective(side, i, "price", other, n - 1, "price");
      FieldKeyInjective(side, i, "price", other, n - 1, "quantity");
      FieldKeyInjective(side, i, "quantity", other, n - 1, "price");
      FieldKeyInjective(side, i, "quantity", other, n - 1, "quantity");
    }
  }

  /** A level's two keys are new to the fixed keys and differ from each other. */
  lemma LevelKeysApart(side: string, i: nat)
    requires IsSide(side)
    ensures FieldKey(side, i, "price") !in FixedKeys && FieldKey(side, i, "quantity") !in FixedKeys
    ensures FieldKey(side, i, "price") != FieldKey(side, i, "quantity")
  {
    FieldKeyNotFixed(side, i, "price");
    FieldKeyNotFixed(side, i, "quantity");
    FieldKeyInjective(side, i, "price", side, i, "quantity");
  }

  /** Position i below n has both its keys among the first n levels' keys. */
  lemma {:induction false} InSideKeys(side: string, i: nat, n: nat)
    requires i < n
    ensures FieldKey(side, i, "price") in SideKeys(side, n) && FieldKey(side, i, "quantity") in SideKeys(side, n)
    decreases n
  {
    if i < n - 1 {
      InSideKeys(side, i, n - 1);
    }
  }

  /** The keys of two different sides and the fixed keys never meet. */
  lemma {:induction false} SidesApart(side: string, other: string, n: nat, m: nat)
    requires IsSide(side) && IsSide(other) && side != other
    ensures FixedKeys !! SideKeys(side, n) && FixedKeys !! SideKeys(other, m)
    ensures SideKeys(side, n) !! SideKeys(other, m)
    decreases n + m
  {
    if n > 0 {
      SidesApart(side, other, n - 1, m);
      FreshKeys(side, n - 1, other, m);
      LevelKeysApart(side, n - 1);
    } else if m > 0 {
      SidesApart(side, other, n, m - 1);
      FreshKeys(other, m - 1, side, n);
      LevelKeysApart(other, m - 1);
    }
  }

  /** The keys of the first `n` levels of a side are the price and quantity keys of positions below `n`. */
  lemma {:induction false} SideKeysAre(side: string, n: nat)
    ensures forall k :: k in SideKeys(side, n) <==> exists j: nat, f :: j < n && IsField(f) && k == FieldKey(side, j, f)
    decreases n
  {
    if n > 0 {
      SideKeysAre(side, n - 1);
    }
  }
}
