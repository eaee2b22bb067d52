// Python's list.sort(key=..., reverse=...) as used by the selectors: a stable
// sort on a key of one or two reals compared lexicographically. Ascending
// sorts are written as descending sorts on negated keys.
module Sorting {

  /** A sort key compared lexicographically: primary first, then secondary. */
  datatype Key = Key(primary: real, secondary: real)

  /** `a` sorts strictly before `b` in descending order. */
  predicate Above(a: Key, b: Key) {
    a.primary > b.primary || (a.primary == b.primary && a.secondary > b.secondary)
  }

  /** No element is strictly above an element that precedes it. */
  predicate SortedDesc<T>(s: seq<T>, key: T -> Key) {
    forall i, j :: 0 <= i < j < |s| ==> !Above(key(s[j]), key(s[i]))
  }

  /**
   * Inserts `x` after every element that is not below it, so that elements
   * with equal keys keep their input order (the sort is stable).
   */
  function Insert<T>(x: T, s: seq<T>, key: T -> Key): (r: seq<T>)
    requires SortedDesc(s, key)
    ensures |r| == |s| + 1
    ensures multiset(r) == multiset(s) + multiset{x}
    ensures SortedDesc(r, key)
  {
    if s == [] then [x]
    else if Above(key(x), key(s[0])) then
      AboveAll(x, s, key);
      ConsSorted(x, s, key);
      [x] + s
    else
      var tail := Insert(x, s[1..], key);
      BelowHead(x, s, tail, key);
      ConsSorted(s[0], tail, key);
      assert s == [s[0]] + s[1..];
      [s[0]] + tail
  }

  /** An element above the head of a sorted sequence is above all of it. */
  lemma AboveAll<T>(x: T, s: seq<T>, key: T -> Key)
    requires s != [] && SortedDesc(s, key) && Above(key(x), key(s[0]))
    ensures forall j :: 0 <= j < |s| ==> !Above(key(s[j]), key(x))
  {
  }

  /** Putting an element no lower than the rest in front of a sorted sequence keeps it sorted. */
  lemma ConsSorted<T>(h: T, tail: seq<T>, key: T -> Key)
    requires SortedDesc(tail, key)
    requires forall j :: 0 <= j < |tail| ==> !Above(key(tail[j]), key(h))
    ensures SortedDesc([h] + tail, key)
  {
    var r := [h] + tail;
    forall i, j | 0 <= i < j < |r| ensures !Above(key(r[j]), key(r[i])) {
      assert r[j] == tail[j - 1];
      if i > 0 {
        assert r[i] == tail[i - 1];
      }
    }
  }

  /** The elements of the rest, with `x` inserted, are none of them above the head. */
  lemma BelowHead<T>(x: T, s: seq<T>, tail: seq<T>, key: T -> Key)
    requires s != [] && SortedDesc(s, key) && !Above(key(x), key(s[0]))
    requires multiset(tail) == multiset(s[1..]) + multiset{x}
    ensures forall j :: 0 <= j < |tail| ==> !Above(key(tail[j]), key(s[0]))
  {
    forall j | 0 <= j < |tail| ensures !Above(key(tail[j]), key(s[0])) {
      assert tail[j] in multiset(tail);
      if tail[j] != x {
        assert tail[j] in multiset(s[1..]);
        var k :| 0 <= k < |s[1..]| && s[1..][k] == tail[j];
        assert s[k + 1] == tail[j];
      }
    }
  }

  /** A stable insertion sort, descending by key. */
  function SortDesc<T>(s: seq<T>, key: T -> Key): (r: seq<T>)
    ensures |r| == |s|
    ensures multiset(r) == multiset(s)
    ensures SortedDesc(r, key)
  {
    if s == [] then []
    else
      assert s == s[..|s| - 1] + [s[|s| - 1]];
      Insert(s[|s| - 1], SortDesc(s[..|s| - 1], key), key)
  }

  /** The elements whose key is `k`, in the order they occur. */
  function WithKey<T>(s: seq<T>, key: T -> Key, k: Key): (r: seq<T>)
    ensures |r| <= |s|
    ensures forall i :: 0 <= i < |r| ==> key(r[i]) == k
  {
    if s == [] then []
    else (if key(s[0]) == k then [s[0]] else []) + WithKey(s[1..], key, k)
  }

  /** Picking the elements of one key distributes over concatenation. */
  lemma {:induction false} WithKeyAppend<T>(a: seq<T>, b: seq<T>, key: T -> Key, k: Key)
    ensures WithKey(a + b, key, k) == WithKey(a, key, k) + WithKey(b, key, k)
    decreases |a|
  {
    if a == [] {
      assert a + b == b;
    } else {
      var head := if key(a[0]) == k then [a[0]] else [];
      calc {
        WithKey(a + b, key, k);
      == { assert a + b == [a[0]] + (a[1..] + b); }
        WithKey([a[0]] + (a[1..] + b), key, k);
      == { WithKeyCons(a[0], a[1..] + b, key, k); }
        head + WithKey(a[1..] + b, key, k);
      == { WithKeyAppend(a[1..], b, key, k); }
        head + (WithKey(a[1..], key, k) + WithKey(b, key, k));
      == { AppendAssoc(head, WithKey(a[1..], key, k), WithKey(b, key, k)); }
        (head + WithKey(a[1..], key, k)) + WithKey(b, key, k);
      == { WithKeyCons(a[0], a[1..], key, k); assert a == [a[0]] + a[1..]; }
        WithKey(a, key, k) + WithKey(b, key, k);
      }
    }
  }

  /** Picking from a sequence with a known head. */
  lemma WithKeyCons<T>(x: T, t: seq<T>, key: T -> Key, k: Key)
    ensures WithKey([x] + t, key, k) == (if key(x) == k then [x] else []) + WithKey(t, key, k)
  {
    assert ([x] + t)[0] == x;
    assert ([x] + t)[1..] == t;
  }

  /** A sequence with no element of key `k` has nothing to pick for it. */
  lemma {:induction false} WithKeyNone<T>(s: seq<T>, key: T -> Key, k: Key)
    requires forall j :: 0 <= j < |s| ==> key(s[j]) != k
    ensures WithKey(s, key, k) == []
    decreases |s|
  {
    if s != [] {
      WithKeyNone(s[1..], key, k);
    }
  }

  /** Inserting `x` puts it after every element of the same key already there. */
  lemma {:induction false} InsertStable<T>(x: T, s: seq<T>, key: T -> Key, k: Key)
    requires SortedDesc(s, key)
    ensures WithKey(Insert(x, s, key), key, k) == WithKey(s, key, k) + (if key(x) == k then [x] else [])
    decreases |s|
  {
    if s == [] {
    } else if Above(key(x), key(s[0])) {
      InsertFrontStable(x, s, key, k);
    } else {
      var tail := Insert(x, s[1..], key);
      var head := if key(s[0]) == k then [s[0]] else [];
      var mine := if key(x) == k then [x] else [];
      calc {
        WithKey(Insert(x, s, key), key, k);
      == { assert Insert(x, s, key) == [s[0]] + tail; }
        WithKey([s[0]] + tail, key, k);
      == { WithKeyCons(s[0], tail, key, k); }
        head + WithKey(tail, key, k);
      == { InsertStable(x, s[1..], key, k); }
        head + (WithKey(s[1..], key, k) + mine);
      == { AppendAssoc(head, WithKey(s[1..], key, k), mine); }
        (head + WithKey(s[1..], key, k)) + mine;
      == { WithKeyCons(s[0], s[1..], key, k); assert s == [s[0]] + s[1..]; }
        WithKey(s, key, k) + mine;
      }
    }
  }

  lemma AppendAssoc<T>(a: seq<T>, b: seq<T>, c: seq<T>)
    ensures a + (b + c) == (a + b) + c
  {
  }

  /** An element inserted in front is above everything, so nothing of its key precedes it. */
  lemma InsertFrontStable<T>(x: T, s: seq<T>, key: T -> Key, k: Key)
    requires s != [] && SortedDesc(s, key) && Above(key(x), key(s[0]))
    ensures WithKey(Insert(x, s, key), key, k) == WithKey(s, key, k) + (if key(x) == k then [x] else [])
  {
    assert Insert(x, s, key) == [x] + s;
    WithKeyCons(x, s, key, k);
    if key(x) == k {
      forall j | 0 <= j < |s| ensures key(s[j]) != k {
        if j > 0 {
          assert !Above(key(s[j]), key(s[0]));
        }
      }
      WithKeyNone(s, key, k);
    }
  }

  /** The sort is stable: the elements of each key come out in their input order. */
  lemma {:induction false} SortStable<T>(s: seq<T>, key: T -> Key, k: Key)
    ensures WithKey(SortDesc(s, key), key, k) == WithKey(s, key, k)
    decreases |s|
  {
    if s != [] {
      var p := s[..|s| - 1];
      var last := s[|s| - 1];
      assert s == p + [last];
      assert SortDesc(s, key) == Insert(last, SortDesc(p, key), key);
      SortStable(p, key, k);
      InsertStable(last, SortDesc(p, key), key, k);
      WithKeyAppend(p, [last], key, k);
      assert [last][1..] == [];
      assert WithKey([last], key, k) == (if key(last) == k then [last] else []);
    }
  }
}
