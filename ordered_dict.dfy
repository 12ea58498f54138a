/** An insertion-ordered dictionary with the semantics of a Python `dict`:
    a new key is appended after all existing ones, assigning to an existing key
    replaces its value and keeps its position, and iteration follows key order. */
module OrderedDict {
  import opened Basics

  datatype ODict<K(==, !new), V> = ODict(keys: seq<K>, entries: map<K, V>) {

    /** Keys are distinct and are exactly the keys of the map. */
    ghost predicate Valid() {
      && (forall i, j :: 0 <= i < j < |keys| ==> keys[i] != keys[j])
      && (forall k :: k in entries <==> k in keys)
    }

    /** `d.get(k)`. */
    function Get(k: K): (r: Option<V>)
      ensures r.Some? <==> k in entries
      ensures r.Some? ==> r.value == entries[k]
    {
      if k in entries then Some(entries[k]) else None
    }

    /** `d[k] = v`. */
    function Put(k: K, v: V): (d: ODict<K, V>)
      ensures d.Get(k) == Some(v)
      ensures forall k' :: k' != k ==> d.Get(k') == Get(k')
      ensures Valid() ==> d.Valid()
      ensures keys <= d.keys
      ensures |d.keys| == |keys| + (if k in entries then 0 else 1)
    {
      if k in entries then ODict(keys, entries[k := v])
      else ODict(keys + [k], entries[k := v])
    }

    /** `list(d.values())`: the values in key order. */
    function Values(): (vs: seq<V>)
      requires Valid()
      ensures |vs| == |keys|
      ensures forall i :: 0 <= i < |keys| ==> vs[i] == entries[keys[i]]
    {
      seq(|keys|, i requires 0 <= i < |keys| => entries[keys[i]])
    }
  }

  function Empty<K(==, !new), V>(): (d: ODict<K, V>)
    ensures d.Valid() && d.keys == []
    ensures forall k :: d.Get(k) == None
  {
    ODict([], map[])
  }

  /** Overwriting an existing key changes the value at its position and no
      other; adding a new key appends its value at the end. */
  lemma PutValues<K(!new), V>(d: ODict<K, V>, k: K, v: V)
    requires d.Valid()
    ensures k in d.entries ==>
      exists i :: 0 <= i < |d.keys| && d.keys[i] == k && d.Put(k, v).Values() == d.Values()[i := v]
    ensures k !in d.entries ==> d.Put(k, v).Values() == d.Values() + [v]
  {
    var e := d.Put(k, v);
    if k in d.entries {
      var i :| 0 <= i < |d.keys| && d.keys[i] == k;
      assert e.Values() == d.Values()[i := v] by {
        forall j | 0 <= j < |d.keys|
          ensures e.Values()[j] == d.Values()[i := v][j]
        {
          if j != i {
            assert d.keys[j] != k;
          }
        }
      }
    } else {
      assert e.Values() == d.Values() + [v];
    }
  }
}
