/**
 * An insertion-ordered map: the key order a JavaScript `Map` (and an object with
 * non-numeric keys) iterates in. Storing to a present key keeps its position; a new key
 * goes last; deleting a key removes it from the order.
 */
module OrderedMaps {
  import opened Wrappers

  datatype OMap<K(==,!new), V> = OMap(keys: seq<K>, values: map<K, V>)
  {
    /** The keys are distinct and are exactly the keys of the map. */
    ghost predicate Valid()
    {
      Distinct(keys) && (forall k :: k in values <==> k in keys)
    }
  }

  function Empty<K(==,!new), V>(): (m: OMap<K, V>)
    ensures m.Valid() && m.keys == [] && m.values == map[]
  {
    OMap([], map[])
  }

  /** `Map.prototype.get`: the stored value, or none. */
  function Get<K(==,!new), V>(m: OMap<K, V>, k: K): (r: Option<V>)
    ensures r.Some? <==> k in m.values
    ensures r.Some? ==> r.value == m.values[k]
  {
    if k in m.values then Some(m.values[k]) else None
  }

  /** `Map.prototype.set`. */
  function Put<K(==,!new), V>(m: OMap<K, V>, k: K, v: V): (r: OMap<K, V>)
    requires m.Valid()
    ensures r.Valid()
    ensures r.values == m.values[k := v]
    ensures k in m.values ==> r.keys == m.keys
    ensures k !in m.values ==> r.keys == m.keys + [k]
  {
    if k in m.values then OMap(m.keys, m.values[k := v]) else OMap(m.keys + [k], m.values[k := v])
  }

  /** The order with one key taken out. */
  function Without<K(==,!new)>(s: seq<K>, k: K): (r: seq<K>)
    ensures forall x :: x in r <==> x in s && x != k
    ensures |r| <= |s|
  {
    if s == [] then []
    else if s[0] == k then Without(s[1..], k)
    else [s[0]] + Without(s[1..], k)
  }

  /** No key occurs twice. */
  ghost predicate Distinct<K(!new)>(s: seq<K>)
  {
    forall i, j :: 0 <= i < j < |s| ==> s[i] != s[j]
  }

  lemma {:induction false} WithoutDistinct<K(!new)>(s: seq<K>, k: K)
    requires Distinct(s)
    ensures Distinct(Without(s, k))
  {
    if s != [] {
      WithoutDistinct(s[1..], k);
      var rest := Without(s[1..], k);
      if s[0] != k {
        assert s[0] !in s[1..];
        assert s[0] !in rest;
        var r := [s[0]] + rest;
        forall i, j | 0 <= i < j < |r| ensures r[i] != r[j] {
          if i == 0 { assert r[j] in rest; }
          else { assert r[i] == rest[i - 1] && r[j] == rest[j - 1]; }
        }
      }
    }
  }

  /** `Map.prototype.delete` (and `delete obj[k]`). */
  function Remove<K(==,!new), V>(m: OMap<K, V>, k: K): (r: OMap<K, V>)
    requires m.Valid()
    ensures r.Valid()
    ensures r.values == m.values - {k}
    ensures k !in m.values ==> r == m
  {
    WithoutDistinct(m.keys, k);
    if k in m.values then OMap(Without(m.keys, k), m.values - {k}) else m
  }
}
