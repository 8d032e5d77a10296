/**
 * A JavaScript `Map` with string keys: a finite map that remembers the order
 * in which its keys were first inserted. `set` on a key already present
 * replaces the value and keeps the key's place; `delete` removes the key.
 */
module JsMaps {
  import opened Wrappers

  datatype JsMap<V> = JsMap(keys: seq<string>, values: map<string, V>)

  /** No key is listed twice. */
  ghost predicate Distinct(keys: seq<string>) {
    forall i, j :: 0 <= i < j < |keys| ==> keys[i] != keys[j]
  }

  /** Every key appears once in the order and the order lists exactly the stored keys. */
  ghost predicate Valid<V>(m: JsMap<V>) {
    && Distinct(m.keys)
    && (forall k :: k in m.values <==> k in m.keys)
  }

  function Empty<V>(): (m: JsMap<V>)
    ensures Valid(m) && m.keys == []
  {
    JsMap([], map[])
  }

  /** `m.get(k)`, undefined as None. */
  function Get<V>(m: JsMap<V>, k: string): (r: Option<V>)
    ensures r.Some? <==> k in m.values
    ensures r.Some? ==> r.value == m.values[k]
  {
    if k in m.values then Some(m.values[k]) else None
  }

  /** `m.set(k, v)`. */
  function Set<V>(m: JsMap<V>, k: string, v: V): (r: JsMap<V>)
    requires Valid(m)
    ensures Valid(r)
    ensures r.values == m.values[k := v]
    ensures k in m.values ==> r.keys == m.keys
    ensures k !in m.values ==> r.keys == m.keys + [k]
  {
    if k in m.values then JsMap(m.keys, m.values[k := v]) else JsMap(m.keys + [k], m.values[k := v])
  }

  /** `keys` without `k`, order kept. */
  function Remove(keys: seq<string>, k: string): (r: seq<string>)
    ensures forall x :: x in r <==> x in keys && x != k
    ensures |r| <= |keys|
  {
    if keys == [] then []
    else if keys[0] == k then Remove(keys[1..], k)
    else [keys[0]] + Remove(keys[1..], k)
  }

  lemma {:induction false} RemoveDistinct(keys: seq<string>, k: string)
    requires Distinct(keys)
    ensures Distinct(Remove(keys, k))
  {
    if keys != [] {
      RemoveDistinct(keys[1..], k);
      var rest := Remove(keys[1..], k);
      assert keys[0] !in keys[1..] by {
        forall i | 0 <= i < |keys[1..]| ensures keys[1..][i] != keys[0] { assert keys[1..][i] == keys[i + 1]; }
      }
      assert keys[0] !in rest;
    }
  }

  /** `m.delete(k)`. */
  function Delete<V>(m: JsMap<V>, k: string): (r: JsMap<V>)
    requires Valid(m)
    ensures Valid(r)
    ensures r.values == m.values - {k}
    ensures r.keys == Remove(m.keys, k)
  {
    RemoveDistinct(m.keys, k);
    JsMap(Remove(m.keys, k), m.values - {k})
  }

  /** `Array.from(m.entries())`. */
  function Entries<V>(m: JsMap<V>): (r: seq<(string, V)>)
    requires Valid(m)
    ensures |r| == |m.keys|
    ensures forall i :: 0 <= i < |r| ==> r[i] == (m.keys[i], m.values[m.keys[i]])
  {
    seq(|m.keys|, i requires 0 <= i < |m.keys| => (m.keys[i], m.values[m.keys[i]]))
  }

  /** Removing a key that is not present leaves the order as it was. */
  lemma {:induction false} RemoveAbsent(keys: seq<string>, k: string)
    requires k !in keys
    ensures Remove(keys, k) == keys
  {
    if keys != [] {
      RemoveAbsent(keys[1..], k);
      assert [keys[0]] + keys[1..] == keys;
    }
  }

  /** Deleting twice deletes once. */
  lemma DeleteIdempotent<V>(m: JsMap<V>, k: string)
    requires Valid(m)
    ensures Delete(Delete(m, k), k) == Delete(m, k)
  {
    var once := Delete(m, k);
    assert k !in once.keys;
    RemoveAbsent(once.keys, k);
  }
}
