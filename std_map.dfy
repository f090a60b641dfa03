/** The three `std::map` behaviours the engine relies on: `insert` keeps an
    existing entry, `operator[]` inserts a default-constructed value for a
    missing key, and iteration visits keys in ascending order. */
module StdMap {
  import opened Strings

  /** `m.insert({k, v})`: first writer wins. The key is present afterwards;
      its value is the old one if there was one, `v` otherwise; no other
      entry changes. */
  function Insert<K, V>(m: map<K, V>, k: K, v: V): (r: map<K, V>)
    ensures r.Keys == m.Keys + {k}
    ensures k in m ==> r[k] == m[k]
    ensures k !in m ==> r[k] == v
    ensures forall j :: j in m ==> r[j] == m[j]
  {
    if k in m then m else m[k := v]
  }

  /** A second `insert` under the same key, whatever its value, changes
      nothing. */
  lemma InsertFirstWins<K, V>(m: map<K, V>, k: K, first: V, second: V)
    ensures Insert(Insert(m, k, first), k, second) == Insert(m, k, first)
  {
  }

  /** An insert grows the map by one entry exactly when the key is new. */
  lemma InsertSize<K, V>(m: map<K, V>, k: K, v: V)
    ensures |Insert(m, k, v)| == if k in m then |m| else |m| + 1
  {
  }

  /** The map after `m[k]` has been evaluated: a key that was missing now
      maps to the default value `d`. */
  function Subscript<K, V>(m: map<K, V>, k: K, d: V): (r: map<K, V>)
    ensures r.Keys == m.Keys + {k}
    ensures r[k] == if k in m then m[k] else d
    ensures forall j :: j in m ==> r[j] == m[j]
  {
    Insert(m, k, d)
  }

  /** The keys of a name-keyed map in iteration order. */
  function Keys<V>(m: map<string, V>): (r: seq<string>)
    ensures |r| == |m|
    ensures forall i :: 0 <= i < |r| ==> r[i] in m
    ensures forall k :: k in m ==> k in r
  {
    SortedKeysMembers(m.Keys);
    SortedKeys(m.Keys)
  }

  /** Iteration visits the keys in strictly ascending order. */
  lemma KeysAscending<V>(m: map<string, V>)
    ensures forall i, j :: 0 <= i < j < |Keys(m)| ==> LexLess(Keys(m)[i], Keys(m)[j])
  {
    SortedKeysAscending(m.Keys);
    assert Keys(m) == SortedKeys(m.Keys);
  }

  /** Iteration visits no key twice. */
  lemma KeysDistinct<V>(m: map<string, V>)
    ensures forall i, j :: 0 <= i < j < |Keys(m)| ==> Keys(m)[i] != Keys(m)[j]
  {
    KeysAscending(m);
    forall i, j | 0 <= i < j < |Keys(m)|
      ensures Keys(m)[i] != Keys(m)[j]
    {
      SortedDistinct(Keys(m), i, j);
    }
  }

  /** The values of a name-keyed map in iteration order. */
  function Values<V>(m: map<string, V>): (r: seq<V>)
    ensures |r| == |m|
    ensures forall i :: 0 <= i < |r| ==> r[i] == m[Keys(m)[i]]
  {
    var keys := Keys(m);
    seq(|keys|, i requires 0 <= i < |keys| => m[keys[i]])
  }
}
