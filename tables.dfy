/** Python's `dict` keeps its keys in insertion order, and the player relies on
    that order (`next(iter(scenes))` picks the first scene). A `Table` is a map
    together with the order in which its keys were inserted. */
module Tables {

  datatype Dict<K, V> = Dict(keys: seq<K>, entries: map<K, V>)

  ghost predicate Distinct<K>(s: seq<K>) {
    forall i, j :: 0 <= i < j < |s| ==> s[i] != s[j]
  }

  ghost predicate WellFormed<K(!new), V>(d: Dict<K, V>) {
    Distinct(d.keys) && forall k :: k in d.entries <==> k in d.keys
  }

  type Table<K(==,!new), V> = d: Dict<K, V> | WellFormed(d) witness Dict([], map[])

  function Empty<K(==,!new), V>(): (r: Table<K, V>)
    ensures r.entries == map[] && |r.keys| == 0
  {
    Dict([], map[])
  }

  /** `d[k] = v`: a new key goes to the end, an existing key keeps its place. */
  function Put<K(==,!new), V>(t: Table<K, V>, k: K, v: V): (r: Table<K, V>)
    ensures r.entries == t.entries[k := v]
    ensures k in t.entries ==> r.keys == t.keys
    ensures k !in t.entries ==> r.keys == t.keys + [k]
  {
    if k in t.entries then Dict(t.keys, t.entries[k := v])
    else Dict(t.keys + [k], t.entries[k := v])
  }

  /** The sequence `s` with every occurrence of `x` taken out. */
  function Without<K(==,!new)>(s: seq<K>, x: K): (r: seq<K>)
    ensures forall y :: y in r <==> y in s && y != x
  {
    if s == [] then []
    else if s[0] == x then Without(s[1..], x)
    else [s[0]] + Without(s[1..], x)
  }

  /** Taking a key out of a list without repetitions shortens it by one and
      leaves it without repetitions. */
  lemma {:induction false} WithoutDistinct<K(!new)>(s: seq<K>, x: K)
    requires Distinct(s)
    ensures Distinct(Without(s, x))
    ensures |Without(s, x)| == if x in s then |s| - 1 else |s|
  {
    if s != [] {
      WithoutDistinct(s[1..], x);
      if s[0] != x {
        var r := Without(s, x);
        assert r == [s[0]] + Without(s[1..], x);
        forall i, j | 0 <= i < j < |r| ensures r[i] != r[j] {
          if i == 0 {
            assert r[j] in Without(s[1..], x);
          }
        }
      }
    }
  }

  /** `del d[k]`: the remaining keys keep their order. */
  function Remove<K(==,!new), V>(t: Table<K, V>, k: K): (r: Table<K, V>)
    ensures r.entries == t.entries - {k}
    ensures r.keys == Without(t.keys, k)
    ensures k in t.entries ==> |r.keys| == |t.keys| - 1
  {
    WithoutDistinct(t.keys, k);
    Dict(Without(t.keys, k), t.entries - {k})
  }

  /** `next(iter(d))`: the key inserted first. */
  function First<K(==,!new), V>(t: Table<K, V>): (k: K)
    requires |t.keys| > 0
    ensures k in t.entries
  {
    t.keys[0]
  }

  /** A table is empty (falsy in Python) exactly when it has no entries. */
  lemma EmptyIffNoKeys<K(!new), V>(t: Table<K, V>)
    ensures |t.keys| == 0 <==> t.entries == map[]
  {
    if |t.keys| > 0 {
      assert t.keys[0] in t.entries;
    }
  }

  /** Writing again the value a key already holds changes nothing. */
  lemma PutSame<K(!new), V>(t: Table<K, V>, k: K)
    requires k in t.entries
    ensures Put(t, k, t.entries[k]) == t
  {
  }

  /** Two writes to the same key: the second one wins and the order is that of the first. */
  lemma PutPut<K(!new), V>(t: Table<K, V>, k: K, v: V, w: V)
    ensures Put(Put(t, k, v), k, w) == Put(t, k, w)
  {
  }

  /** Adding a fresh key to a map and removing it again gives the map back. */
  lemma PutThenRemove<K, V>(m: map<K, V>, k: K, v: V)
    requires k !in m
    ensures m[k := v] - {k} == m
  {
  }
}
