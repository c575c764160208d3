/**
 * Python dicts with string keys, kept in insertion order: lookup,
 * assignment (`d[key] = value`) and deletion (`del d[key]`).
 */
module Dict {
  import opened Wrappers

  /** The keys of a dict, in insertion order. */
  function Keys<V>(fields: seq<(string, V)>): (ks: seq<string>)
    ensures |ks| == |fields| && forall i :: 0 <= i < |fields| ==> ks[i] == fields[i].0
  {
    seq(|fields|, i requires 0 <= i < |fields| => fields[i].0)
  }

  /** A dict: no key twice. */
  predicate UniqueKeys<V>(fields: seq<(string, V)>)
  {
    forall i, j :: 0 <= i < j < |fields| ==> fields[i].0 != fields[j].0
  }

  /** The value stored under `key`, if any. */
  function Lookup<V>(fields: seq<(string, V)>, key: string): Option<V>
  {
    if fields == [] then None
    else if fields[0].0 == key then Some(fields[0].1)
    else Lookup(fields[1..], key)
  }

  /** A key is found exactly when the dict holds it, and then with its value. */
  lemma {:induction false} LookupFound<V>(fields: seq<(string, V)>, key: string)
    ensures Lookup(fields, key).Some? <==> key in Keys(fields)
    ensures Lookup(fields, key).Some? ==> (key, Lookup(fields, key).value) in fields
    decreases |fields|
  {
    if fields != [] {
      LookupFound(fields[1..], key);
      assert Keys(fields) == [fields[0].0] + Keys(fields[1..]);
    }
  }

  /** In a dict, the value found under a key is the one stored at its position. */
  lemma {:induction false} LookupAt<V>(fields: seq<(string, V)>, i: nat)
    requires UniqueKeys(fields) && i < |fields|
    ensures Lookup(fields, fields[i].0) == Some(fields[i].1)
    decreases i
  {
    if i > 0 {
      assert fields[1..][i - 1] == fields[i];
      LookupAt(fields[1..], i - 1);
    }
  }

  /** `d[key] = value`: replaces the value in place, or appends a new key at the end. */
  function Store<V>(fields: seq<(string, V)>, key: string, value: V): (r: seq<(string, V)>)
    ensures Lookup(r, key) == Some(value)
    ensures forall k {:trigger Lookup(r, k)} :: k != key ==> Lookup(r, k) == Lookup(fields, k)
    ensures |r| == if Lookup(fields, key).Some? then |fields| else |fields| + 1
  {
    if fields == [] then [(key, value)]
    else if fields[0].0 == key then [(key, value)] + fields[1..]
    else [fields[0]] + Store(fields[1..], key, value)
  }

  /** Storing keeps every key where it was; a new key goes at the end. */
  lemma {:induction false} StoreKeepsOrder<V>(fields: seq<(string, V)>, key: string, value: V)
    ensures forall i :: 0 <= i < |fields| ==> Store(fields, key, value)[i].0 == fields[i].0
    ensures Lookup(fields, key).None? ==> Store(fields, key, value)[|fields|] == (key, value)
    decreases |fields|
  {
    if fields != [] && fields[0].0 != key {
      StoreKeepsOrder(fields[1..], key, value);
    }
  }

  /** Storing into a dict keeps it a dict. */
  lemma {:induction false} StoreUnique<V>(fields: seq<(string, V)>, key: string, value: V)
    requires UniqueKeys(fields)
    ensures UniqueKeys(Store(fields, key, value))
    decreases |fields|
  {
    if fields != [] && fields[0].0 != key {
      StoreUnique(fields[1..], key, value);
      var tail := Store(fields[1..], key, value);
      var r := Store(fields, key, value);
      assert r == [fields[0]] + tail;
      LookupFound(fields[1..], fields[0].0);
      LookupFound(tail, fields[0].0);
      assert fields[0].0 !in Keys(fields[1..]);
      forall i, j | 0 <= i < j < |r| ensures r[i].0 != r[j].0 {
        if i == 0 {
          assert r[j] == tail[j - 1];
          assert r[j].0 in Keys(tail);
        }
      }
    }
  }

  /** `del d[key]`: the dict without `key`, the other entries in their order. */
  function Remove<V>(fields: seq<(string, V)>, key: string): (r: seq<(string, V)>)
    ensures Lookup(r, key) == None
    ensures forall k {:trigger Lookup(r, k)} :: k != key ==> Lookup(r, k) == Lookup(fields, k)
    ensures |r| <= |fields|
  {
    if fields == [] then []
    else if fields[0].0 == key then Remove(fields[1..], key)
    else [fields[0]] + Remove(fields[1..], key)
  }

  /** Deleting only drops entries. */
  lemma {:induction false} RemoveKeepsEntries<V>(fields: seq<(string, V)>, key: string)
    ensures forall i :: 0 <= i < |Remove(fields, key)| ==> Remove(fields, key)[i] in fields
    decreases |fields|
  {
    if fields != [] {
      RemoveKeepsEntries(fields[1..], key);
    }
  }

  lemma UniqueTail<V>(fields: seq<(string, V)>)
    requires UniqueKeys(fields) && fields != []
    ensures UniqueKeys(fields[1..])
    ensures fields[0].0 !in Keys(fields[1..])
  {
    forall i, j | 0 <= i < j < |fields[1..]| ensures fields[1..][i].0 != fields[1..][j].0 {
      assert fields[1..][i] == fields[i + 1] && fields[1..][j] == fields[j + 1];
    }
    forall i | 0 <= i < |fields[1..]| ensures Keys(fields[1..])[i] != fields[0].0 {
      assert fields[1..][i] == fields[i + 1];
    }
  }

  /** Deleting from a dict keeps it a dict. */
  lemma {:induction false} RemoveUnique<V>(fields: seq<(string, V)>, key: string)
    requires UniqueKeys(fields)
    ensures UniqueKeys(Remove(fields, key))
    decreases |fields|
  {
    if fields != [] {
      UniqueTail(fields);
      if fields[0].0 == key {
        RemoveUnique(fields[1..], key);
      } else {
        RemoveUnique(fields[1..], key);
        var tail := Remove(fields[1..], key);
        var r := Remove(fields, key);
        assert r == [fields[0]] + tail;
        LookupFound(fields[1..], fields[0].0);
        LookupFound(tail, fields[0].0);
        forall i, j | 0 <= i < j < |r| ensures r[i].0 != r[j].0 {
          if i == 0 {
            assert r[j] == tail[j - 1];
            assert Keys(tail)[j - 1] == r[j].0;
          } else {
            assert r[i] == tail[i - 1] && r[j] == tail[j - 1];
          }
        }
      }
    }
  }
}
