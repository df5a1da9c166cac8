/** Python dicts: entries in insertion order, searched by key. */
module Dict {
  import opened Wrappers

  datatype Entry<K, V> = Entry(key: K, value: V)

  function Get<K(==), V>(d: seq<Entry<K, V>>, k: K): Option<V>
  {
    if d == [] then None else if d[0].key == k then Some(d[0].value) else Get(d[1..], k)
  }

  /** `d[k] = v` */
  function Put<K(==), V>(d: seq<Entry<K, V>>, k: K, v: V): seq<Entry<K, V>>
  {
    if d == [] then [Entry(k, v)]
    else if d[0].key == k then [Entry(k, v)] + d[1..]
    else [d[0]] + Put(d[1..], k, v)
  }

  ghost predicate DistinctKeys<K, V>(d: seq<Entry<K, V>>)
  {
    forall i, j | 0 <= i < j < |d| :: d[i].key != d[j].key
  }

  lemma {:induction false} GetPut<K, V>(d: seq<Entry<K, V>>, k: K, v: V, q: K)
    ensures Get(Put(d, k, v), q) == if q == k then Some(v) else Get(d, q)
  {
    if d != [] {
      if d[0].key == k {
        assert ([Entry(k, v)] + d[1..])[1..] == d[1..];
      } else {
        GetPut(d[1..], k, v, q);
        assert ([d[0]] + Put(d[1..], k, v))[1..] == Put(d[1..], k, v);
      }
    }
  }

  lemma {:induction false} PutShape<K, V>(d: seq<Entry<K, V>>, k: K, v: V)
    requires DistinctKeys(d)
    ensures DistinctKeys(Put(d, k, v))
    ensures |Put(d, k, v)| == |d| + (if Get(d, k).None? then 1 else 0)
    ensures forall e | e in Put(d, k, v) :: e.key == k || e in d
  {
    if d != [] && d[0].key != k {
      var rest := d[1..];
      assert forall i | 0 <= i < |rest| :: rest[i] == d[i + 1];
      PutShape(rest, k, v);
      forall e | e in Put(rest, k, v) ensures e.key != d[0].key {
        if e.key != k { var i :| 0 <= i < |rest| && rest[i] == e; assert d[i + 1] == e; }
      }
    }
  }

  /** An entry of a dict is what its key looks up. */
  lemma {:induction false} GetOfEntry<K, V>(d: seq<Entry<K, V>>, e: Entry<K, V>)
    requires DistinctKeys(d) && e in d
    ensures Get(d, e.key) == Some(e.value)
  {
    if e != d[0] {
      assert e in d[1..];
      var i :| 0 <= i < |d| && d[i] == e;
      assert d[0].key != d[i].key;
      GetOfEntry(d[1..], e);
    }
  }

  lemma {:induction false} EntryOfGet<K, V>(d: seq<Entry<K, V>>, k: K)
    requires Get(d, k).Some?
    ensures Entry(k, Get(d, k).value) in d
  {
    if d[0].key != k {
      EntryOfGet(d[1..], k);
    } else {
      assert d[0] == Entry(k, Get(d, k).value);
    }
  }
}
