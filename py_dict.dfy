/** Python's `dict` with string keys, as the list of its entries in insertion order.
    Assigning to an existing key replaces the value in place and keeps the key's position;
    assigning to a new key appends it. */
module PyDict {
  import opened Wrappers

  function Keys<V>(d: seq<(string, V)>): (ks: seq<string>)
    ensures |ks| == |d|
    ensures forall i :: 0 <= i < |d| ==> ks[i] == d[i].0
  {
    if d == [] then [] else [d[0].0] + Keys(d[1..])
  }

  /** No key appears twice: what every Python dict satisfies. */
  predicate UniqueKeys<V>(d: seq<(string, V)>)
  {
    forall i, j :: 0 <= i < j < |d| ==> d[i].0 != d[j].0
  }

  /** `d.get(k)`: the value stored under `k`, if any. */
  function Lookup<V>(d: seq<(string, V)>, k: string): Option<V>
  {
    if d == [] then None
    else if d[0].0 == k then Some(d[0].1)
    else Lookup(d[1..], k)
  }

  /** `d.get(k)` finds something exactly when `k` is a key, and what it finds is stored under `k`. */
  lemma {:induction false} LookupFound<V>(d: seq<(string, V)>, k: string)
    ensures Lookup(d, k).None? <==> k !in Keys(d)
    ensures Lookup(d, k).Some? ==> exists i :: 0 <= i < |d| && d[i] == (k, Lookup(d, k).value)
  {
    if d != [] {
      LookupFound(d[1..], k);
      assert Keys(d) == [d[0].0] + Keys(d[1..]);
      if d[0].0 != k && Lookup(d, k).Some? {
        var i :| 0 <= i < |d[1..]| && d[1..][i] == (k, Lookup(d, k).value);
        assert d[i + 1] == (k, Lookup(d, k).value);
      }
    }
  }

  /** The entry at position `i` is what `d.get` finds for its key when no earlier entry has that key. */
  lemma {:induction false} LookupAt<V>(d: seq<(string, V)>, i: nat)
    requires i < |d| && forall j :: 0 <= j < i ==> d[j].0 != d[i].0
    ensures Lookup(d, d[i].0) == Some(d[i].1)
  {
    if i > 0 {
      assert d[0].0 != d[i].0;
      LookupAt(d[1..], i - 1);
    }
  }

  /** `d[k] = v`. */
  function Upsert<V>(d: seq<(string, V)>, k: string, v: V): seq<(string, V)>
  {
    if d == [] then [(k, v)]
    else if d[0].0 == k then [(k, v)] + d[1..]
    else [d[0]] + Upsert(d[1..], k, v)
  }

  /** After `d[k] = v`, `d[k]` is `v`. */
  lemma {:induction false} LookupUpsertSame<V>(d: seq<(string, V)>, k: string, v: V)
    ensures Lookup(Upsert(d, k, v), k) == Some(v)
  {
    if d != [] && d[0].0 != k {
      LookupUpsertSame(d[1..], k, v);
    }
  }

  /** `d[k] = v` leaves every other key's value as it was. */
  lemma {:induction false} LookupUpsertOther<V>(d: seq<(string, V)>, k: string, v: V, other: string)
    requires other != k
    ensures Lookup(Upsert(d, k, v), other) == Lookup(d, other)
  {
    if d != [] && d[0].0 != k {
      LookupUpsertOther(d[1..], k, v, other);
    }
  }

  /** An existing key keeps its position; a new key goes to the end. */
  lemma {:induction false} KeysUpsert<V>(d: seq<(string, V)>, k: string, v: V)
    ensures Keys(Upsert(d, k, v)) == if k in Keys(d) then Keys(d) else Keys(d) + [k]
  {
    if d != [] {
      assert Keys(d) == [d[0].0] + Keys(d[1..]);
      var u := Upsert(d, k, v);
      if d[0].0 == k {
        assert u[1..] == d[1..];
        assert Keys(u) == [k] + Keys(d[1..]);
      } else {
        KeysUpsert(d[1..], k, v);
        assert u[1..] == Upsert(d[1..], k, v);
        assert Keys(u) == [d[0].0] + Keys(Upsert(d[1..], k, v));
        assert (k in Keys(d)) == (k in Keys(d[1..]));
      }
    }
  }

  /** `d[k] = v` keeps the keys distinct. */
  lemma UniqueKeysUpsert<V>(d: seq<(string, V)>, k: string, v: V)
    requires UniqueKeys(d)
    ensures UniqueKeys(Upsert(d, k, v))
  {
    var u := Upsert(d, k, v);
    KeysUpsert(d, k, v);
    var ks := Keys(u);
    forall i, j | 0 <= i < j < |u|
      ensures u[i].0 != u[j].0
    {
      assert ks[i] == u[i].0 && ks[j] == u[j].0;
      if j < |d| {
        assert Keys(d)[i] == d[i].0 && Keys(d)[j] == d[j].0;
      } else {
        assert ks[j] == k;
        assert Keys(d)[i] == d[i].0;
      }
    }
  }
}
