/** A JavaScript `Map` keyed by strings: lookups by key, and iteration (`values()`) in the order
    in which keys were first inserted. `set` on a key already present replaces the value and
    keeps the key's position. */
module OrderedMaps {
  import opened Wrappers

  /** The keys occurring in `s`. */
  function Elements(s: seq<string>): set<string>
  {
    if s == [] then {} else Elements(s[..|s| - 1]) + {s[|s| - 1]}
  }

  /** No key occurs twice in `s`. */
  predicate Distinct(s: seq<string>)
  {
    s == [] || (s[|s| - 1] !in Elements(s[..|s| - 1]) && Distinct(s[..|s| - 1]))
  }

  lemma {:induction false} ElementsMembership(s: seq<string>, k: string)
    ensures k in Elements(s) <==> k in s
  {
    if s != [] {
      ElementsMembership(s[..|s| - 1], k);
      assert s == s[..|s| - 1] + [s[|s| - 1]];
    }
  }

  /** In a sequence without repetitions, two positions hold different keys. */
  lemma {:induction false} DistinctPositions(s: seq<string>, i: nat, j: nat)
    requires Distinct(s) && i < j < |s|
    ensures s[i] != s[j]
  {
    var n := |s| - 1;
    if j == n {
      ElementsMembership(s[..n], s[i]);
      assert s[..n][i] == s[i];
    } else {
      DistinctPositions(s[..n], i, j);
    }
  }

  /** The values stored under `keys`, in the order of `keys`. */
  function ValuesOf<V>(keys: seq<string>, entries: map<string, V>): (vs: seq<V>)
    requires Elements(keys) <= entries.Keys
    ensures |vs| == |keys|
  {
    if keys == [] then []
    else ValuesOf(keys[..|keys| - 1], entries) + [entries[keys[|keys| - 1]]]
  }

  lemma {:induction false} ValuesOfAt<V>(keys: seq<string>, entries: map<string, V>, i: nat)
    requires Elements(keys) <= entries.Keys && i < |keys|
    ensures keys[i] in entries && ValuesOf(keys, entries)[i] == entries[keys[i]]
  {
    var n := |keys| - 1;
    if i < n {
      ValuesOfAt(keys[..n], entries, i);
    }
  }

  /** Storing under a key not in `keys` leaves their values as they were. */
  lemma {:induction false} ValuesOfOther<V>(keys: seq<string>, entries: map<string, V>, k: string, v: V)
    requires Elements(keys) <= entries.Keys && k !in Elements(keys)
    ensures ValuesOf(keys, entries[k := v]) == ValuesOf(keys, entries)
  {
    if keys != [] {
      ValuesOfOther(keys[..|keys| - 1], entries, k, v);
    }
  }

  /** Storing under the key at position `i` changes the value at that position only. */
  lemma {:induction false} ValuesOfReplace<V>(keys: seq<string>, entries: map<string, V>, i: nat, v: V)
    requires Elements(keys) <= entries.Keys && Distinct(keys) && i < |keys|
    ensures ValuesOf(keys, entries[keys[i] := v]) == ValuesOf(keys, entries)[i := v]
  {
    var n := |keys| - 1;
    var init := keys[..n];
    if i == n {
      ValuesOfOther(init, entries, keys[i], v);
    } else {
      assert init[i] == keys[i];
      ValuesOfReplace(init, entries, i, v);
      DistinctPositions(keys, i, n);
    }
  }

  datatype OrderedMap<V> = OrderedMap(keys: seq<string>, entries: map<string, V>)
  {
    /** `keys` is the insertion order of exactly the keys of `entries`, each once. */
    ghost predicate Valid()
    {
      Distinct(keys) && entries.Keys == Elements(keys)
    }

    /** `Map.prototype.get`: `undefined` (None) for a missing key. */
    function Get(k: string): (r: Option<V>)
      ensures r.Some? <==> k in entries
      ensures r.Some? ==> r.value == entries[k]
    {
      if k in entries then Some(entries[k]) else None
    }

    /** `Map.prototype.set` */
    function Put(k: string, v: V): (m: OrderedMap<V>)
      ensures Valid() ==> m.Valid()
      ensures m.entries == entries[k := v]
      ensures k in entries ==> m.keys == keys
      ensures k !in entries ==> m.keys == keys + [k]
    {
      assert (keys + [k])[..|keys|] == keys;
      OrderedMap(if k in entries then keys else keys + [k], entries[k := v])
    }

    /** `Map.prototype.values()`, in iteration order. */
    function Values(): (vs: seq<V>)
      requires Valid()
      ensures |vs| == |keys|
    {
      ValuesOf(keys, entries)
    }

    /** The position of a present key in the iteration order. */
    ghost function IndexOf(k: string): (i: nat)
      requires Valid() && k in entries
      ensures i < |keys| && keys[i] == k
    {
      ElementsMembership(keys, k);
      var i :| 0 <= i < |keys| && keys[i] == k; i
    }
  }

  function Empty<V>(): (m: OrderedMap<V>)
    ensures m.Valid() && m.Values() == [] && m.entries == map[]
  {
    OrderedMap([], map[])
  }

  /** Inserting a new key appends its value to the iteration. */
  lemma PutNewValues<V>(m: OrderedMap<V>, k: string, v: V)
    requires m.Valid() && k !in m.entries
    ensures m.Put(k, v).Values() == m.Values() + [v]
  {
    assert (m.keys + [k])[..|m.keys|] == m.keys;
    ValuesOfOther(m.keys, m.entries, k, v);
  }

  /** Setting a present key replaces its value in place in the iteration. */
  lemma PutExistingValues<V>(m: OrderedMap<V>, k: string, v: V)
    requires m.Valid() && k in m.entries
    ensures m.Put(k, v).Values() == m.Values()[m.IndexOf(k) := v]
  {
    ValuesOfReplace(m.keys, m.entries, m.IndexOf(k), v);
  }

  /** The value at each position of the iteration is the one stored under the key there. */
  lemma ValuesAt<V>(m: OrderedMap<V>, i: nat)
    requires m.Valid() && i < |m.keys|
    ensures m.keys[i] in m.entries && m.Values()[i] == m.entries[m.keys[i]]
  {
    ValuesOfAt(m.keys, m.entries, i);
  }

  /** A value is reached by iteration exactly when some key maps to it. */
  lemma ValuesMembership<V>(m: OrderedMap<V>, v: V)
    requires m.Valid()
    ensures v in m.Values() <==> exists k :: k in m.entries && m.entries[k] == v
  {
    if v in m.Values() {
      var i :| 0 <= i < |m.Values()| && m.Values()[i] == v;
      ValuesAt(m, i);
    }
    if exists k :: k in m.entries && m.entries[k] == v {
      var k :| k in m.entries && m.entries[k] == v;
      ValuesAt(m, m.IndexOf(k));
    }
  }
}
