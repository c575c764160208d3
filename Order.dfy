/**
 * Python's ordering of strings (code point by code point) and the three
 * sorts the modelled code relies on: `sorted(set(names))`, `sorted(keys)`
 * and the stable `sorted(entries, key=..., reverse=True)`.
 */
module Order {

  /** Python's `a < b` on `str`: lexicographic by code point, a proper prefix first. */
  predicate Less(a: string, b: string)
    decreases |a|
  {
    if a == [] then b != []
    else if b == [] then false
    else if a[0] != b[0] then a[0] < b[0]
    else Less(a[1..], b[1..])
  }

  lemma {:induction false} LessIrreflexive(a: string)
    ensures !Less(a, a)
    decreases |a|
  {
    if a != [] {
      LessIrreflexive(a[1..]);
    }
  }

  lemma {:induction false} LessTransitive(a: string, b: string, c: string)
    requires Less(a, b) && Less(b, c)
    ensures Less(a, c)
    decreases |a|
  {
    if a != [] && b != [] && c != [] && a[0] == b[0] && b[0] == c[0] {
      LessTransitive(a[1..], b[1..], c[1..]);
    }
  }

  /** Two different strings are ordered one way or the other, never both. */
  lemma {:induction false} LessTotal(a: string, b: string)
    ensures a == b || Less(a, b) || Less(b, a)
    ensures !(Less(a, b) && Less(b, a))
    decreases |a|
  {
    if a != [] && b != [] && a[0] == b[0] {
      LessTotal(a[1..], b[1..]);
      if a[1..] == b[1..] {
        assert a == [a[0]] + a[1..] && b == [b[0]] + b[1..];
      }
    }
  }

  // ---------------------------------------------------------------------------
  // sorted(set(names))

  predicate StrictlySorted(s: seq<string>)
  {
    forall i, j :: 0 <= i < j < |s| ==> Less(s[i], s[j])
  }

  /** A strictly sorted list holds no element twice. */
  lemma SortedDistinctElements(s: seq<string>)
    requires StrictlySorted(s)
    ensures forall i, j :: 0 <= i < j < |s| ==> s[i] != s[j]
  {
    forall i, j | 0 <= i < j < |s|
      ensures s[i] != s[j]
    {
      if s[i] == s[j] {
        LessIrreflexive(s[i]);
      }
    }
  }

  /** Insert `x` into a strictly sorted list unless it is already there. */
  function Insert(x: string, s: seq<string>): (r: seq<string>)
    requires StrictlySorted(s)
    ensures StrictlySorted(r)
    ensures forall e :: e in r <==> e in s || e == x
  {
    if s == [] then [x]
    else if x == s[0] then s
    else if Less(x, s[0]) then
      assert forall j :: 0 < j < |s| ==> Less(x, s[j]) by {
        forall j | 0 < j < |s| ensures Less(x, s[j]) {
          LessTransitive(x, s[0], s[j]);
        }
      }
      [x] + s
    else
      LessTotal(x, s[0]);
      var tail := Insert(x, s[1..]);
      assert forall e :: e in s <==> e == s[0] || e in s[1..] by {
        assert s == [s[0]] + s[1..];
      }
      var r := [s[0]] + tail;
      assert StrictlySorted(r) by {
        forall i, j | 0 <= i < j < |r| ensures Less(r[i], r[j]) {
          if i == 0 {
            assert r[j] == tail[j - 1] && r[j] in tail;
            if r[j] != x {
              var m :| 0 <= m < |s[1..]| && s[1..][m] == r[j];
              assert s[m + 1] == r[j];
            }
          } else {
            assert r[i] == tail[i - 1] && r[j] == tail[j - 1];
          }
        }
      }
      r
  }

  /** Python's `sorted(set(names))`: the distinct names in ascending order. */
  function SortedDistinct(names: seq<string>): (r: seq<string>)
    ensures StrictlySorted(r)
    ensures forall e :: e in r <==> e in names
  {
    if names == [] then []
    else
      var init := names[..|names| - 1];
      var r := Insert(names[|names| - 1], SortedDistinct(init));
      assert forall e :: e in names <==> e in init || e == names[|names| - 1] by {
        assert names == init + [names[|names| - 1]];
      }
      r
  }

  /** The sorted distinct list is the only strictly sorted list with those elements. */
  lemma {:induction false} StrictlySortedUnique(a: seq<string>, b: seq<string>)
    requires StrictlySorted(a) && StrictlySorted(b)
    requires forall e :: e in a <==> e in b
    ensures a == b
    decreases |a|
  {
    assert a != [] ==> a[0] in b;
    assert b != [] ==> b[0] in a;
    if a != [] && b != [] {
      var a0, b0 := a[0], b[0];
      var j :| 0 <= j < |b| && b[j] == a0;
      var i :| 0 <= i < |a| && a[i] == b0;
      assert j > 0 ==> Less(b0, a0);
      assert i > 0 ==> Less(a0, b0);
      if a0 != b0 {
        LessTotal(a0, b0);
        assert false;
      }
      SortedDistinctElements(a);
      SortedDistinctElements(b);
      forall e ensures e in a[1..] <==> e in b[1..] {
        if e in a[1..] {
          var k :| 1 <= k < |a| && a[k] == e;
          assert e != a[0];
          assert e in b;
        }
        if e in b[1..] {
          var k :| 1 <= k < |b| && b[k] == e;
          assert e != b[0];
          assert e in a;
        }
      }
      StrictlySortedUnique(a[1..], b[1..]);
      assert a == [a[0]] + a[1..] && b == [b[0]] + b[1..];
    }
  }

  // ---------------------------------------------------------------------------
  // sorted(xs, key=k, reverse=True)

  /** The descending order Python's `reverse=True` produces on the keys. */
  predicate SortedDesc<T>(xs: seq<T>, key: T -> string)
  {
    forall i, j :: 0 <= i < j < |xs| ==> !Less(key(xs[i]), key(xs[j]))
  }

  /** The elements of `xs` whose key is `k`, in their order. */
  function WithKey<T>(xs: seq<T>, key: T -> string, k: string): (r: seq<T>)
    ensures forall y :: y in r ==> y in xs && key(y) == k
  {
    if xs == [] then []
    else (if key(xs[0]) == k then [xs[0]] else []) + WithKey(xs[1..], key, k)
  }

  lemma {:induction false} WithKeyAppend<T>(a: seq<T>, b: seq<T>, key: T -> string, k: string)
    ensures WithKey(a + b, key, k) == WithKey(a, key, k) + WithKey(b, key, k)
    decreases |a|
  {
    if a != [] {
      assert (a + b)[1..] == a[1..] + b;
      WithKeyAppend(a[1..], b, key, k);
    } else {
      assert a + b == b;
    }
  }

  /** Insert `x` after every element whose key is not below its own. */
  function InsertDesc<T>(x: T, s: seq<T>, key: T -> string): (r: seq<T>)
    ensures multiset(r) == multiset(s) + multiset{x}
    ensures |r| == |s| + 1
  {
    if s == [] || Less(key(s[0]), key(x)) then [x] + s
    else
      assert s == [s[0]] + s[1..];
      [s[0]] + InsertDesc(x, s[1..], key)
  }

  lemma {:induction false} InsertDescSorted<T>(x: T, s: seq<T>, key: T -> string)
    requires SortedDesc(s, key)
    ensures SortedDesc(InsertDesc(x, s, key), key)
    decreases |s|
  {
    var r := InsertDesc(x, s, key);
    if s == [] {
    } else if Less(key(s[0]), key(x)) {
      forall j | 1 <= j < |r|
        ensures !Less(key(x), key(r[j]))
      {
        assert r[j] == s[j - 1];
        if j > 1 {
          LessTotal(key(s[j - 1]), key(s[0]));
          if Less(key(x), key(s[j - 1])) {
            LessTransitive(key(s[0]), key(x), key(s[j - 1]));
          }
        }
        LessTotal(key(s[0]), key(x));
      }
    } else {
      InsertDescSorted(x, s[1..], key);
      var tail := InsertDesc(x, s[1..], key);
      assert r == [s[0]] + tail;
      forall j | 0 <= j < |tail|
        ensures !Less(key(s[0]), key(tail[j]))
      {
        assert tail[j] in multiset(s[1..]) + multiset{x};
        if tail[j] in multiset(s[1..]) {
          var m :| 0 <= m < |s[1..]| && s[1..][m] == tail[j];
          assert s[m + 1] == tail[j];
        }
      }
    }
  }

  lemma WithKeySingle<T>(x: T, key: T -> string, k: string)
    ensures WithKey([x], key, k) == if key(x) == k then [x] else []
  {
    assert [x][1..] == [];
  }

  /** Equal-key elements already present stay ahead of the inserted one. */
  lemma {:induction false} InsertDescWithKey<T>(x: T, s: seq<T>, key: T -> string, k: string)
    requires SortedDesc(s, key)
    ensures WithKey(InsertDesc(x, s, key), key, k)
         == WithKey(s, key, k) + (if key(x) == k then [x] else [])
    decreases |s|
  {
    var added := if key(x) == k then [x] else [];
    WithKeySingle(x, key, k);
    if s == [] {
      assert InsertDesc(x, s, key) == [x];
    } else if Less(key(s[0]), key(x)) {
      assert InsertDesc(x, s, key) == [x] + s;
      WithKeyAppend([x], s, key, k);
      if key(x) == k {
        NoneWithKey(s, key, k);
      }
    } else {
      var tail := InsertDesc(x, s[1..], key);
      assert InsertDesc(x, s, key) == [s[0]] + tail;
      assert SortedDesc(s[1..], key);
      InsertDescWithKey(x, s[1..], key, k);
      WithKeyAppend([s[0]], tail, key, k);
      WithKeyAppend([s[0]], s[1..], key, k);
      assert [s[0]] + s[1..] == s;
    }
  }

  /** In a descending list whose head lies below `k`, no element has key `k`. */
  lemma {:induction false} NoneWithKey<T>(s: seq<T>, key: T -> string, k: string)
    requires s != [] && SortedDesc(s, key) && Less(key(s[0]), k)
    ensures WithKey(s, key, k) == []
    decreases |s|
  {
    LessIrreflexive(k);
    if |s| > 1 {
      assert !Less(key(s[0]), key(s[1]));
      LessTotal(key(s[0]), key(s[1]));
      if key(s[1]) != key(s[0]) {
        LessTransitive(key(s[1]), key(s[0]), k);
      }
      assert SortedDesc(s[1..], key);
      NoneWithKey(s[1..], key, k);
    }
  }

  /** Python's stable `sorted(xs, key=key, reverse=True)`. */
  function SortDesc<T>(xs: seq<T>, key: T -> string): (r: seq<T>)
    ensures multiset(r) == multiset(xs)
    ensures |r| == |xs|
  {
    if xs == [] then []
    else
      var init := xs[..|xs| - 1];
      assert xs == init + [xs[|xs| - 1]];
      InsertDesc(xs[|xs| - 1], SortDesc(init, key), key)
  }

  /** The result is in descending key order and equal keys keep their input order. */
  lemma {:induction false} SortDescCorrect<T>(xs: seq<T>, key: T -> string)
    ensures SortedDesc(SortDesc(xs, key), key)
    ensures forall k :: WithKey(SortDesc(xs, key), key, k) == WithKey(xs, key, k)
    decreases |xs|
  {
    if xs != [] {
      var init := xs[..|xs| - 1];
      var x := xs[|xs| - 1];
      var sortedInit := SortDesc(init, key);
      var r := SortDesc(xs, key);
      assert r == InsertDesc(x, sortedInit, key);
      assert init + [x] == xs;
      SortDescCorrect(init, key);
      InsertDescSorted(x, sortedInit, key);
      forall k
        ensures WithKey(r, key, k) == WithKey(xs, key, k)
      {
        InsertDescWithKey(x, sortedInit, key, k);
        WithKeyAppend(init, [x], key, k);
        WithKeySingle(x, key, k);
      }
    }
  }
}
