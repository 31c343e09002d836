/**
 * Python dictionaries, as the conversion scripts use them:
 * a key keeps the position of its first insertion, and assigning to a
 * present key replaces its value in place.
 */
module Dicts {
  import opened Seqs

  datatype Dict<K, V> = Dict(keys: seq<K>, values: map<K, V>)

  /** The keys in insertion order are exactly the mapped keys, each once. */
  predicate Valid<K, V>(d: Dict<K, V>) {
    Distinct(d.keys)
    && (forall i | 0 <= i < |d.keys| :: d.keys[i] in d.values)
    && (forall k | k in d.values :: k in d.keys)
  }

  function Empty<K, V>(): (d: Dict<K, V>)
    ensures Valid(d) && d.keys == []
  {
    Dict([], map[])
  }

  /** `d[k] = v`. */
  function Put<K, V>(d: Dict<K, V>, k: K, v: V): (r: Dict<K, V>)
    requires Valid(d)
    ensures Valid(r)
    ensures r.values == d.values[k := v]
    ensures k in d.values ==> r.keys == d.keys
    ensures k !in d.values ==> r.keys == d.keys + [k]
  {
    if k in d.values then Dict(d.keys, d.values[k := v])
    else
      var r := Dict(d.keys + [k], d.values[k := v]);
      assert Distinct(r.keys) by {
        forall i, j | 0 <= i < j < |r.keys| ensures r.keys[i] != r.keys[j] {
          if j == |d.keys| {
            assert r.keys[i] == d.keys[i];
          } else {
            assert r.keys[i] == d.keys[i] && r.keys[j] == d.keys[j];
          }
        }
      }
      r
  }

  /** `d.get(k, default)`. */
  function Get<K, V>(d: Dict<K, V>, k: K, default: V): V {
    if k in d.values then d.values[k] else default
  }

  /** `d.setdefault(k, []).append(x)`, as the scripts spell it out: the list
    * under `k`, created when missing, gains `x` at its end. */
  function Append<K, T>(d: Dict<K, seq<T>>, k: K, x: T): (r: Dict<K, seq<T>>)
    requires Valid(d)
    ensures Valid(r)
    ensures r.values == d.values[k := Get(d, k, []) + [x]]
    ensures k in d.values ==> r.keys == d.keys
    ensures k !in d.values ==> r.keys == d.keys + [k]
  {
    Put(d, k, Get(d, k, []) + [x])
  }

  /** The number of entries of all lists. */
  function TotalLen<K, T>(d: Dict<K, seq<T>>): nat {
    SumLen(d.keys, d.values)
  }

  function SumLen<K, T>(keys: seq<K>, values: map<K, seq<T>>): nat {
    if keys == [] then 0
    else
      var k := keys[|keys| - 1];
      SumLen(keys[..|keys| - 1], values) + (if k in values then |values[k]| else 0)
  }

  /** Changing the value of a key listed once changes the sum by the difference in length. */
  lemma {:induction false} SumLenUpdate<K, T>(keys: seq<K>, values: map<K, seq<T>>, k: K, v: seq<T>)
    requires Distinct(keys) && k in keys && k in values
    ensures SumLen(keys, values[k := v]) + |values[k]| == SumLen(keys, values) + |v|
  {
    var init, last := keys[..|keys| - 1], keys[|keys| - 1];
    assert Distinct(init) by {
      forall i, j | 0 <= i < j < |init| ensures init[i] != init[j] {
        assert init[i] == keys[i] && init[j] == keys[j];
      }
    }
    if last == k {
      assert k !in init by {
        forall i | 0 <= i < |init| ensures init[i] != k {
          assert init[i] == keys[i];
        }
      }
      SumLenUnlisted(init, values, k, v);
    } else {
      assert k in init by {
        var i :| 0 <= i < |keys| && keys[i] == k;
        assert init[i] == k;
      }
      SumLenUpdate(init, values, k, v);
    }
  }

  /** Keys not listed do not count. */
  lemma {:induction false} SumLenUnlisted<K, T>(keys: seq<K>, values: map<K, seq<T>>, k: K, v: seq<T>)
    requires k !in keys
    ensures SumLen(keys, values[k := v]) == SumLen(keys, values)
  {
    if keys != [] {
      var init := keys[..|keys| - 1];
      assert k !in init by {
        forall i | 0 <= i < |init| ensures init[i] != k {
          assert init[i] == keys[i];
        }
      }
      SumLenUnlisted(init, values, k, v);
    }
  }

  /** Appending to one list adds one entry in all. */
  lemma AppendTotal<K, T>(d: Dict<K, seq<T>>, k: K, x: T)
    requires Valid(d)
    ensures TotalLen(Append(d, k, x)) == TotalLen(d) + 1
  {
    var r := Append(d, k, x);
    if k in d.values {
      SumLenUpdate(d.keys, d.values, k, d.values[k] + [x]);
    } else {
      assert k !in d.keys;
      assert r.keys[..|r.keys| - 1] == d.keys && r.keys[|r.keys| - 1] == k;
      assert Get(d, k, []) + [x] == [x];
      SumLenUnlisted(d.keys, d.values, k, [x]);
      assert r.values[k] == [x];
      assert SumLen(r.keys, r.values) == SumLen(d.keys, r.values) + 1;
    }
  }
}
