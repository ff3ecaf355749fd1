/** Python's `dict` as an insertion-ordered sequence of (key, value) pairs.
    Assigning to a present key keeps its position; a new key goes last.
    Iterating a dict (`.items()`, `.keys()`, `for k in d`) follows this order. */
module PyDict {
  import opened Wrappers

  type Dict<K, V> = seq<(K, V)>

  function Keys<K(==), V>(d: Dict<K, V>): (ks: seq<K>)
    ensures |ks| == |d| && forall i :: 0 <= i < |d| ==> ks[i] == d[i].0
  {
    if d == [] then [] else [d[0].0] + Keys(d[1..])
  }

  predicate HasKey<K(==), V>(d: Dict<K, V>, k: K) { k in Keys(d) }

  /** A dict never holds the same key twice. */
  predicate UniqueKeys<K(==), V>(d: Dict<K, V>)
  {
    forall i, j :: 0 <= i < j < |d| ==> d[i].0 != d[j].0
  }

  /** `d.get(k, default)` */
  function Get<K(==), V>(d: Dict<K, V>, k: K, default: V): V
  {
    if d == [] then default else if d[0].0 == k then d[0].1 else Get(d[1..], k, default)
  }

  /** `d[k]`: `None` where Python raises `KeyError`. */
  function Lookup<K(==), V>(d: Dict<K, V>, k: K): Option<V>
  {
    if d == [] then None else if d[0].0 == k then Some(d[0].1) else Lookup(d[1..], k)
  }

  /** `d[k] = v` */
  function Set<K(==), V>(d: Dict<K, V>, k: K, v: V): Dict<K, V>
  {
    if d == [] then [(k, v)]
    else if d[0].0 == k then [(k, v)] + d[1..]
    else [d[0]] + Set(d[1..], k, v)
  }

  /** `d.update(other)`: the pairs of `other` are assigned one by one, in order. */
  function Update<K(==), V>(d: Dict<K, V>, other: Dict<K, V>): Dict<K, V>
    decreases |other|
  {
    if other == [] then d else Update(Set(d, other[0].0, other[0].1), other[1..])
  }

  /** Looking up in a dict whose first entry is `x`. */
  lemma GetCons<K, V>(x: (K, V), rest: Dict<K, V>, k: K, default: V)
    ensures Get([x] + rest, k, default) == if x.0 == k then x.1 else Get(rest, k, default)
    ensures HasKey([x] + rest, k) <==> x.0 == k || HasKey(rest, k)
  {
    var d := [x] + rest;
    assert d[0] == x && d[1..] == rest;
    assert Keys(d) == [x.0] + Keys(rest);
  }

  lemma {:induction false} GetOfAbsent<K, V>(d: Dict<K, V>, k: K, default: V)
    requires !HasKey(d, k)
    ensures Get(d, k, default) == default
    ensures Lookup(d, k) == None
  {
    if d != [] {
      GetOfAbsent(d[1..], k, default);
    }
  }

  lemma {:induction false} LookupAgreesWithGet<K, V>(d: Dict<K, V>, k: K, default: V)
    ensures Lookup(d, k).Some? <==> HasKey(d, k)
    ensures Lookup(d, k).Some? ==> Lookup(d, k).value == Get(d, k, default)
  {
    if d != [] {
      LookupAgreesWithGet(d[1..], k, default);
    }
  }

  /** A present key's value sits at some position of the dict. */
  lemma {:induction false} GetIndex<K, V>(d: Dict<K, V>, k: K, default: V) returns (i: nat)
    requires HasKey(d, k)
    ensures i < |d| && d[i] == (k, Get(d, k, default))
  {
    if d[0].0 == k {
      i := 0;
    } else {
      assert HasKey(d[1..], k);
      var j := GetIndex(d[1..], k, default);
      i := j + 1;
    }
  }

  /** `d[k] = v` stores `v` under `k`, changes no other key's value, keeps the
      keys' order and appends `k` only when it was absent. */
  lemma SetSpec<K, V>(d: Dict<K, V>, k: K, v: V)
    ensures forall default: V :: Get(Set(d, k, v), k, default) == v
    ensures forall k', default: V :: k' != k ==> Get(Set(d, k, v), k', default) == Get(d, k', default)
    ensures Keys(Set(d, k, v)) == if HasKey(d, k) then Keys(d) else Keys(d) + [k]
    ensures UniqueKeys(d) ==> UniqueKeys(Set(d, k, v))
  {
    forall default: V {
      SetGet(d, k, v, k, default);
    }
    forall k', default: V | k' != k {
      SetGet(d, k, v, k', default);
    }
    SetKeys(d, k, v);
    if UniqueKeys(d) {
      SetUnique(d, k, v);
    }
  }

  lemma {:induction false} SetGet<K, V>(d: Dict<K, V>, k: K, v: V, k': K, default: V)
    ensures Get(Set(d, k, v), k', default) == if k' == k then v else Get(d, k', default)
  {
    if d != [] && d[0].0 != k {
      SetGet(d[1..], k, v, k', default);
      GetCons(d[0], Set(d[1..], k, v), k', default);
    } else if d != [] {
      GetCons((k, v), d[1..], k', default);
    }
  }

  lemma {:induction false} SetKeys<K, V>(d: Dict<K, V>, k: K, v: V)
    ensures Keys(Set(d, k, v)) == if HasKey(d, k) then Keys(d) else Keys(d) + [k]
  {
    if d != [] && d[0].0 != k {
      SetKeys(d[1..], k, v);
      assert Keys(d) == [d[0].0] + Keys(d[1..]);
      assert HasKey(d, k) <==> HasKey(d[1..], k);
      assert Keys([d[0]] + Set(d[1..], k, v)) == [d[0].0] + Keys(Set(d[1..], k, v));
    } else if d != [] {
      assert Keys([(k, v)] + d[1..]) == [k] + Keys(d[1..]);
    }
  }

  lemma SetUnique<K, V>(d: Dict<K, V>, k: K, v: V)
    requires UniqueKeys(d)
    ensures UniqueKeys(Set(d, k, v))
  {
    var r := Set(d, k, v);
    SetKeys(d, k, v);
    forall i, j | 0 <= i < j < |r|
      ensures r[i].0 != r[j].0
    {
      assert Keys(r)[i] == r[i].0 && Keys(r)[j] == r[j].0;
      if HasKey(d, k) {
        assert Keys(d)[i] == d[i].0 && Keys(d)[j] == d[j].0;
      } else if j < |d| {
        assert Keys(d)[i] == d[i].0 && Keys(d)[j] == d[j].0;
      } else {
        assert Keys(r)[j] == k && Keys(d)[i] == d[i].0;
      }
    }
  }

  /** `d[k] = v` read back through `d[k']`. */
  lemma {:induction false} SetLookup<K, V>(d: Dict<K, V>, k: K, v: V, k': K)
    ensures Lookup(Set(d, k, v), k') == if k' == k then Some(v) else Lookup(d, k')
  {
    if d != [] && d[0].0 != k {
      SetLookup(d[1..], k, v, k');
    }
  }

  /** Assigning a key the value it already holds changes nothing. */
  lemma {:induction false} SetSame<K, V>(d: Dict<K, V>, k: K, v: V, default: V)
    requires HasKey(d, k) && Get(d, k, default) == v
    ensures Set(d, k, v) == d
  {
    if d[0].0 != k {
      SetSame(d[1..], k, v, default);
    }
  }

  /** After `d.update(other)`, each key of `other` holds its value from `other`,
      every other key keeps its value, the keys are those of `d` and of
      `other`, and no key is repeated. */
  lemma UpdateSpec<K, V>(d: Dict<K, V>, other: Dict<K, V>)
    requires UniqueKeys(other)
    ensures forall k, default: V :: HasKey(other, k) ==> Get(Update(d, other), k, default) == Get(other, k, default)
    ensures forall k, default: V :: !HasKey(other, k) ==> Get(Update(d, other), k, default) == Get(d, k, default)
    ensures forall k :: HasKey(Update(d, other), k) <==> HasKey(d, k) || HasKey(other, k)
    ensures UniqueKeys(d) ==> UniqueKeys(Update(d, other))
  {
    forall k, default: V
      ensures Get(Update(d, other), k, default) == if HasKey(other, k) then Get(other, k, default) else Get(d, k, default)
    {
      UpdateGet(d, other, k, default);
    }
    UpdateKeys(d, other);
  }

  lemma {:induction false} UpdateGet<K, V>(d: Dict<K, V>, other: Dict<K, V>, k: K, default: V)
    requires UniqueKeys(other)
    ensures Get(Update(d, other), k, default) == if HasKey(other, k) then Get(other, k, default) else Get(d, k, default)
    decreases |other|
  {
    if other != [] {
      var (k0, v0) := other[0];
      SetSpec(d, k0, v0);
      assert UniqueKeys(other[1..]);
      UpdateGet(Set(d, k0, v0), other[1..], k, default);
      if k == k0 {
        assert !HasKey(other[1..], k0) by {
          forall i | 0 <= i < |other[1..]|
            ensures other[1..][i].0 != k0
          {
            assert other[1..][i] == other[i + 1];
          }
        }
      } else {
        assert HasKey(other, k) <==> HasKey(other[1..], k);
      }
    }
  }

  lemma {:induction false} UpdateKeys<K, V>(d: Dict<K, V>, other: Dict<K, V>)
    ensures forall k :: HasKey(Update(d, other), k) <==> HasKey(d, k) || HasKey(other, k)
    ensures UniqueKeys(d) ==> UniqueKeys(Update(d, other))
    decreases |other|
  {
    if other != [] {
      var (k0, v0) := other[0];
      SetSpec(d, k0, v0);
      UpdateKeys(Set(d, k0, v0), other[1..]);
      assert forall k :: HasKey(other, k) <==> k == k0 || HasKey(other[1..], k);
      assert forall k :: HasKey(Set(d, k0, v0), k) <==> k == k0 || HasKey(d, k);
    }
  }

  /** Assigning a new key appends it. */
  lemma {:induction false} SetAbsent<K, V>(d: Dict<K, V>, k: K, v: V)
    requires !HasKey(d, k)
    ensures Set(d, k, v) == d + [(k, v)]
  {
    if d != [] {
      assert Keys(d) == [d[0].0] + Keys(d[1..]);
      SetAbsent(d[1..], k, v);
      assert d == [d[0]] + d[1..];
    }
  }

  /** Updating with pairs whose keys are all new, and distinct, appends them. */
  lemma {:induction false} UpdateFresh<K, V>(d: Dict<K, V>, other: Dict<K, V>)
    requires UniqueKeys(d + other)
    ensures Update(d, other) == d + other
    decreases |other|
  {
    if other != [] {
      var both := d + other;
      assert !HasKey(d, other[0].0) by {
        forall i | 0 <= i < |d|
          ensures Keys(d)[i] != other[0].0
        {
          assert both[i] == d[i] && both[|d|] == other[0];
        }
      }
      SetAbsent(d, other[0].0, other[0].1);
      assert (d + [other[0]]) + other[1..] == both;
      UpdateFresh(d + [other[0]], other[1..]);
    }
  }

  /** `dict(pairs)` of pairs without a repeated key is those pairs. */
  lemma UpdateUnique<K, V>(d: Dict<K, V>)
    requires UniqueKeys(d)
    ensures Update([], d) == d
  {
    assert [] + d == d;
    UpdateFresh([], d);
  }

  /** In a dict without repeated keys, each pair's key reads back its value. */
  lemma {:induction false} GetAt<K, V>(d: Dict<K, V>, i: nat, default: V)
    requires UniqueKeys(d) && i < |d|
    ensures Get(d, d[i].0, default) == d[i].1
  {
    if i > 0 {
      assert d[1..][i - 1] == d[i];
      GetAt(d[1..], i - 1, default);
    }
  }

  /** Repeating the same `update` changes nothing more. */
  lemma UpdateIdempotent<K, V>(d: Dict<K, V>, other: Dict<K, V>)
    requires UniqueKeys(other)
    ensures Update(Update(d, other), other) == Update(d, other)
  {
    UpdateSpec(d, other);
    forall i, default: V | 0 <= i < |other|
      ensures Get(Update(d, other), other[i].0, default) == other[i].1
    {
      GetAt(other, i, default);
    }
    UpdateWithHeld(Update(d, other), other);
  }

  /** Updating with `a` and then with `b` is updating with `a + b`. */
  lemma {:induction false} UpdateConcat<K, V>(d: Dict<K, V>, a: Dict<K, V>, b: Dict<K, V>)
    ensures Update(d, a + b) == Update(Update(d, a), b)
    decreases |a|
  {
    if a == [] {
      assert a + b == b;
    } else {
      assert (a + b)[0] == a[0] && (a + b)[1..] == a[1..] + b;
      UpdateConcat(Set(d, a[0].0, a[0].1), a[1..], b);
    }
  }

  /** Updating with pairs that are all already held changes nothing. */
  lemma {:induction false} UpdateWithHeld<K, V>(d: Dict<K, V>, other: Dict<K, V>)
    requires forall i :: 0 <= i < |other| ==> HasKey(d, other[i].0)
    requires forall i, default: V :: 0 <= i < |other| ==> Get(d, other[i].0, default) == other[i].1
    ensures Update(d, other) == d
    decreases |other|
  {
    if other != [] {
      SetSame(d, other[0].0, other[0].1, other[0].1);
      UpdateWithHeld(d, other[1..]);
    }
  }
}
