/**
 * A Python `dict`: key/value pairs kept in insertion order, each key at most
 * once.  Assigning to an existing key keeps its position, a new key goes to
 * the end, and `pop` removes the entry.  Iteration order matters to the
 * source wherever it calls `sorted(d.items())` or walks `d.values()`.
 */
module Dicts {
  import opened Optional

  type Dict<K, V> = seq<(K, V)>

  predicate UniqueKeys<K(==,!new), V>(d: Dict<K, V>) {
    forall i, j :: 0 <= i < j < |d| ==> d[i].0 != d[j].0
  }

  function Keys<K(==,!new), V>(d: Dict<K, V>): set<K> {
    set i | 0 <= i < |d| :: d[i].0
  }

  lemma KeysCons<K(!new), V>(d: Dict<K, V>)
    requires d != []
    ensures Keys(d) == {d[0].0} + Keys(d[1..])
    ensures UniqueKeys(d) ==> d[0].0 !in Keys(d[1..]) && UniqueKeys(d[1..])
  {
    forall x | x in Keys(d) ensures x in {d[0].0} + Keys(d[1..]) {
      var i :| 0 <= i < |d| && d[i].0 == x;
      if i > 0 { assert d[1..][i - 1].0 == x; }
    }
    forall x | x in Keys(d[1..]) ensures x in Keys(d) {
      var i :| 0 <= i < |d[1..]| && d[1..][i].0 == x;
      assert d[i + 1].0 == x;
    }
    if UniqueKeys(d) {
      forall i | 0 <= i < |d[1..]| ensures d[1..][i].0 != d[0].0 {
        assert d[1..][i] == d[i + 1];
      }
    }
  }

  /** `d.get(k)`: the value of the first entry with key `k`. */
  function Get<K(==,!new), V>(d: Dict<K, V>, k: K): (r: Option<V>)
    ensures r.Some? <==> k in Keys(d)
    ensures r.Some? ==> (k, r.value) in d
  {
    if d == [] then None
    else if d[0].0 == k then Some(d[0].1)
    else KeysCons(d); Get(d[1..], k)
  }

  /** `d.get(k, default)` */
  function GetOr<K(==,!new), V>(d: Dict<K, V>, k: K, default: V): V {
    match Get(d, k)
    case Some(v) => v
    case None => default
  }

  /** With unique keys, every stored pair is what `Get` returns. */
  lemma {:induction false} GetStored<K(!new), V>(d: Dict<K, V>, i: nat)
    requires UniqueKeys(d) && i < |d|
    ensures Get(d, d[i].0) == Some(d[i].1)
  {
    if i > 0 {
      KeysCons(d);
      assert d[1..][i - 1] == d[i];
      GetStored(d[1..], i - 1);
    }
  }

  /** `d[k] = v`: an existing key keeps its place, a new key goes last. */
  function Set<K(==,!new), V>(d: Dict<K, V>, k: K, v: V): Dict<K, V> {
    if d == [] then [(k, v)]
    else if d[0].0 == k then [(k, v)] + d[1..]
    else [d[0]] + Set(d[1..], k, v)
  }

  /** After `d[k] = v`, `k` maps to `v` and every other key is as it was. */
  lemma SetSpec<K(!new), V>(d: Dict<K, V>, k: K, v: V)
    ensures UniqueKeys(d) ==> UniqueKeys(Set(d, k, v))
    ensures Get(Set(d, k, v), k) == Some(v)
    ensures forall q :: q != k ==> Get(Set(d, k, v), q) == Get(d, q)
    ensures Keys(Set(d, k, v)) == Keys(d) + {k}
  {
    SetKeys(d, k, v);
    SetGet(d, k, v);
  }

  lemma {:induction false} SetKeys<K(!new), V>(d: Dict<K, V>, k: K, v: V)
    ensures UniqueKeys(d) ==> UniqueKeys(Set(d, k, v))
    ensures Keys(Set(d, k, v)) == Keys(d) + {k}
  {
    var r := Set(d, k, v);
    KeysCons(r);
    if d != [] {
      KeysCons(d);
      if d[0].0 == k {
        assert r[1..] == d[1..];
      } else {
        SetKeys(d[1..], k, v);
        assert r[1..] == Set(d[1..], k, v);
      }
    }
  }

  lemma {:induction false} SetGet<K(!new), V>(d: Dict<K, V>, k: K, v: V)
    ensures Get(Set(d, k, v), k) == Some(v)
    ensures forall q :: q != k ==> Get(Set(d, k, v), q) == Get(d, q)
  {
    if d != [] && d[0].0 != k {
      var r := Set(d, k, v);
      var rest := Set(d[1..], k, v);
      SetGet(d[1..], k, v);
      assert r[1..] == rest;
      forall q | q != k ensures Get(r, q) == Get(d, q) {
        if q != d[0].0 {
          assert Get(r, q) == Get(rest, q);
        }
      }
    }
  }

  /** `d.pop(k, None)` */
  function Pop<K(==,!new), V>(d: Dict<K, V>, k: K): Dict<K, V> {
    if d == [] then []
    else if d[0].0 == k then d[1..]
    else [d[0]] + Pop(d[1..], k)
  }

  /** After `d.pop(k)`, `k` is gone and every other key is as it was. */
  lemma {:induction false} PopSpec<K(!new), V>(d: Dict<K, V>, k: K)
    ensures UniqueKeys(d) ==> UniqueKeys(Pop(d, k)) && Get(Pop(d, k), k) == None && Keys(Pop(d, k)) == Keys(d) - {k}
    ensures forall q :: q != k ==> Get(Pop(d, k), q) == Get(d, q)
    ensures k !in Keys(d) ==> Pop(d, k) == d
  {
    if d != [] {
      KeysCons(d);
      if d[0].0 != k {
        var r := [d[0]] + Pop(d[1..], k);
        PopSpec(d[1..], k);
        KeysCons(r);
        assert r[1..] == Pop(d[1..], k);
      }
    }
  }

  /** Assigning a key twice is assigning it the second value, in the same place. */
  lemma {:induction false} SetTwice<K(!new), V>(d: Dict<K, V>, k: K, v1: V, v2: V)
    ensures Set(Set(d, k, v1), k, v2) == Set(d, k, v2)
  {
    if d != [] && d[0].0 != k {
      SetTwice(d[1..], k, v1, v2);
      assert Set(d, k, v1)[1..] == Set(d[1..], k, v1);
    }
  }

  /** Popping a key just assigned leaves the dict as popping it would have. */
  lemma {:induction false} PopAfterSet<K(!new), V>(d: Dict<K, V>, k: K, v: V)
    ensures Pop(Set(d, k, v), k) == Pop(d, k)
  {
    if d != [] && d[0].0 != k {
      PopAfterSet(d[1..], k, v);
      assert Set(d, k, v)[1..] == Set(d[1..], k, v);
    }
  }

  /** The value of the LAST pair with key `k` in a list of pairs. */
  function LastValue<K(==,!new), V>(ps: seq<(K, V)>, k: K): Option<V> {
    if ps == [] then None
    else if ps[|ps| - 1].0 == k then Some(ps[|ps| - 1].1)
    else LastValue(ps[..|ps| - 1], k)
  }

  /** `{k: v for k, v in ps}`: later duplicates overwrite earlier ones. */
  function FromPairs<K(==,!new), V>(ps: seq<(K, V)>): (r: Dict<K, V>)
    ensures UniqueKeys(r)
  {
    if ps == [] then []
    else
      SetKeys(FromPairs(ps[..|ps| - 1]), ps[|ps| - 1].0, ps[|ps| - 1].1);
      Set(FromPairs(ps[..|ps| - 1]), ps[|ps| - 1].0, ps[|ps| - 1].1)
  }

  /** The dict holds the keys of the pairs, each with the value of its last pair. */
  lemma {:induction false} FromPairsSpec<K(!new), V>(ps: seq<(K, V)>)
    ensures Keys(FromPairs(ps)) == Keys(ps)
    ensures forall k :: Get(FromPairs(ps), k) == LastValue(ps, k)
  {
    if ps != [] {
      var init := ps[..|ps| - 1];
      var last := ps[|ps| - 1];
      assert Keys(ps) == Keys(init) + {last.0} by {
        forall x | x in Keys(ps) ensures x in Keys(init) + {last.0} {
          var i :| 0 <= i < |ps| && ps[i].0 == x;
          if i < |init| { assert init[i].0 == x; }
        }
      }
      FromPairsSpec(init);
      SetSpec(FromPairs(init), last.0, last.1);
      assert FromPairs(ps) == Set(FromPairs(init), last.0, last.1);
    }
  }

  lemma FromPairsAt<K(!new), V>(ps: seq<(K, V)>, k: K)
    ensures Get(FromPairs(ps), k) == LastValue(ps, k)
  {
    FromPairsSpec(ps);
  }
}
