// List helpers shared by the tiered pick selectors: a list comprehension
// with a condition, slicing off the first n elements, the elements not yet
// selected, and what these keep of distinctness and length.
module Lists {

  /** `[x for x in s if f(x)]`. */
  function Filter<T>(s: seq<T>, f: T -> bool): (r: seq<T>)
    ensures |r| <= |s|
    ensures forall i :: 0 <= i < |r| ==> r[i] in s && f(r[i])
    ensures forall i :: 0 <= i < |s| && f(s[i]) ==> s[i] in r
  {
    if s == [] then []
    else if f(s[0]) then [s[0]] + Filter(s[1..], f)
    else Filter(s[1..], f)
  }

  /** Filtering distributes over concatenation. */
  lemma {:induction false} FilterAppend<T>(a: seq<T>, b: seq<T>, f: T -> bool)
    ensures Filter(a + b, f) == Filter(a, f) + Filter(b, f)
    decreases |a|
  {
    if a != [] {
      var head := if f(a[0]) then [a[0]] else [];
      calc {
        Filter(a + b, f);
      == { assert a + b == [a[0]] + (a[1..] + b); }
        Filter([a[0]] + (a[1..] + b), f);
      == { FilterCons(a[0], a[1..] + b, f); }
        head + Filter(a[1..] + b, f);
      == { FilterAppend(a[1..], b, f); }
        head + (Filter(a[1..], f) + Filter(b, f));
      == { ConcatAssoc(head, Filter(a[1..], f), Filter(b, f)); }
        (head + Filter(a[1..], f)) + Filter(b, f);
      == { FilterCons(a[0], a[1..], f); assert a == [a[0]] + a[1..]; }
        Filter(a, f) + Filter(b, f);
      }
    } else {
      assert a + b == b;
    }
  }

  /** Filtering a sequence with a known head. */
  lemma FilterCons<T>(x: T, t: seq<T>, f: T -> bool)
    ensures Filter([x] + t, f) == (if f(x) then [x] else []) + Filter(t, f)
  {
    assert ([x] + t)[0] == x;
    assert ([x] + t)[1..] == t;
  }

  lemma ConcatAssoc<T>(a: seq<T>, b: seq<T>, c: seq<T>)
    ensures a + (b + c) == (a + b) + c
  {
  }

  /** A filter keeps every copy of an element it accepts and none of one it refuses. */
  lemma {:induction false} FilterCount<T>(s: seq<T>, f: T -> bool, z: T)
    ensures multiset(Filter(s, f))[z] == if f(z) then multiset(s)[z] else 0
    decreases |s|
  {
    if s != [] {
      FilterCount(s[1..], f, z);
      assert s == [s[0]] + s[1..];
    }
  }

  /** Rearranging a list rearranges what a filter keeps of it. */
  lemma FilterPermutation<T>(a: seq<T>, b: seq<T>, f: T -> bool)
    requires multiset(a) == multiset(b)
    ensures multiset(Filter(a, f)) == multiset(Filter(b, f))
    ensures |Filter(a, f)| == |Filter(b, f)|
  {
    forall z ensures multiset(Filter(a, f))[z] == multiset(Filter(b, f))[z] {
      FilterCount(a, f, z);
      FilterCount(b, f, z);
    }
    assert multiset(Filter(a, f)) == multiset(Filter(b, f));
    assert |Filter(a, f)| == |multiset(Filter(a, f))|;
    assert |Filter(b, f)| == |multiset(Filter(b, f))|;
  }

  /** A filter that keeps everything, or nothing. */
  lemma {:induction false} FilterAll<T>(s: seq<T>, f: T -> bool)
    ensures (forall x :: x in s ==> f(x)) ==> Filter(s, f) == s
    ensures (forall x :: x in s ==> !f(x)) ==> Filter(s, f) == []
    decreases |s|
  {
    if s != [] {
      FilterAll(s[1..], f);
      assert s == [s[0]] + s[1..];
    }
  }

  /** The condition, once false along `s`, stays false. */
  predicate FalseOnward<T>(s: seq<T>, f: T -> bool) {
    forall i, j :: 0 <= i < j < |s| && f(s[j]) ==> f(s[i])
  }

  lemma FalseOnwardTail<T>(s: seq<T>, f: T -> bool)
    requires FalseOnward(s, f) && s != []
    ensures FalseOnward(s[1..], f)
  {
    var t := s[1..];
    forall i, j | 0 <= i < j < |t| && f(t[j]) ensures f(t[i]) {
      assert t[j] == s[j + 1] && t[i] == s[i + 1];
    }
  }

  /**
   * When the condition, once false along `s`, stays false, the filter keeps
   * a prefix of `s`.
   */
  lemma {:induction false} FilterPrefix<T>(s: seq<T>, f: T -> bool)
    requires FalseOnward(s, f)
    ensures Filter(s, f) == s[..|Filter(s, f)|]
    decreases |s|
  {
    if s != [] {
      var t := s[1..];
      FalseOnwardTail(s, f);
      FilterPrefix(t, f);
      if f(s[0]) {
        var n := |Filter(t, f)|;
        assert Filter(s, f) == [s[0]] + t[..n];
        assert [s[0]] + t[..n] == s[..n + 1] by {
          assert t[..n] == s[1..n + 1];
          assert s[..n + 1] == [s[0]] + s[1..n + 1];
        }
      } else {
        forall x | x in t ensures !f(x) {
          var j :| 0 <= j < |t| && t[j] == x;
          assert s[j + 1] == x;
        }
        FilterAll(t, f);
      }
    }
  }

  /**
   * When the condition, once false along `s`, stays false, it holds exactly
   * at the positions the filter keeps.
   */
  lemma {:induction false} FilterPrefixIndex<T>(s: seq<T>, f: T -> bool)
    requires FalseOnward(s, f)
    ensures forall i :: 0 <= i < |s| ==> (f(s[i]) <==> i < |Filter(s, f)|)
    decreases |s|
  {
    if s != [] {
      var t := s[1..];
      FalseOnwardTail(s, f);
      FilterPrefixIndex(t, f);
      if f(s[0]) {
        var n := |Filter(t, f)|;
        assert |Filter(s, f)| == n + 1;
        forall i | 1 <= i < |s| ensures f(s[i]) <==> i < n + 1 {
          assert s[i] == t[i - 1];
        }
      } else {
        forall x | x in t ensures !f(x) {
          var j :| 0 <= j < |t| && t[j] == x;
          assert s[j + 1] == x;
        }
        FilterAll(t, f);
        forall i | 1 <= i < |s| ensures !f(s[i]) {
          assert s[i] == t[i - 1];
        }
      }
    }
  }

  /**
   * When the condition, once false along `s`, stays false, filtering what
   * follows the first `a` kept elements keeps the rest of the prefix.
   */
  lemma FilterPrefixFrom<T>(s: seq<T>, f: T -> bool, a: int)
    requires FalseOnward(s, f)
    requires 0 <= a <= |Filter(s, f)|
    ensures Filter(s[a..], f) == s[a..|Filter(s, f)|]
  {
    var n := |Filter(s, f)|;
    FilterPrefix(s, f);
    HeadKept(s, f, a);
    FilterSplit(s, f, a);
    SliceAfterPrefix(s[..n], s[..a], Filter(s[a..], f));
    SliceOfPrefix(s, a, n);
  }

  /** Filtering the two sides of a cut. */
  lemma FilterSplit<T>(s: seq<T>, f: T -> bool, a: int)
    requires 0 <= a <= |s|
    ensures Filter(s, f) == Filter(s[..a], f) + Filter(s[a..], f)
  {
    assert s == s[..a] + s[a..];
    FilterAppend(s[..a], s[a..], f);
  }

  lemma SliceOfPrefix<T>(s: seq<T>, a: int, n: int)
    requires 0 <= a <= n <= |s|
    ensures s[..n][a..] == s[a..n]
  {
  }

  /** The first `a` elements, with `a` at most what the filter keeps, are all kept. */
  lemma HeadKept<T>(s: seq<T>, f: T -> bool, a: int)
    requires FalseOnward(s, f)
    requires 0 <= a <= |Filter(s, f)|
    ensures Filter(s[..a], f) == s[..a]
  {
    var head := s[..a];
    FilterPrefixIndex(s, f);
    forall k | 0 <= k < |head| ensures f(head[k]) {
      assert head[k] == s[k];
    }
    FilterKeepsAll(head, f);
  }

  /** A filter keeps a list all of whose elements it accepts. */
  lemma FilterKeepsAll<T>(s: seq<T>, f: T -> bool)
    requires forall k :: 0 <= k < |s| ==> f(s[k])
    ensures Filter(s, f) == s
  {
    FilterAll(s, f);
  }

  /** What follows a prefix is determined by the whole. */
  lemma SliceAfterPrefix<T>(w: seq<T>, p: seq<T>, x: seq<T>)
    requires w == p + x
    ensures x == w[|p|..]
  {
  }

  /** Membership in a filter. */
  lemma InFilter<T>(s: seq<T>, f: T -> bool, x: T)
    requires x in Filter(s, f)
    ensures x in s && f(x)
  {
    var r := Filter(s, f);
    var i :| 0 <= i < |r| && r[i] == x;
    assert r[i] in s;
  }

  /** `s[:n]` for a non-negative n. */
  function Take<T>(s: seq<T>, n: int): (r: seq<T>)
    requires n >= 0
    ensures |r| == if n < |s| then n else |s|
    ensures r <= s
  {
    if n < |s| then s[..n] else s
  }

  /** Extending the first `a` elements by the start of what follows them. */
  lemma PrefixExtend<T>(s: seq<T>, a: int, n: int, m: int)
    requires 0 <= a <= m <= n <= |s|
    ensures s[..a] + s[a..n][..m - a] == s[..m]
  {
    assert s[a..n][..m - a] == s[a..m];
  }

  /** The last element of a concatenation, and what comes before it. */
  lemma AppendInit<T>(a: seq<T>, b: seq<T>)
    requires b != []
    ensures (a + b)[..|a + b| - 1] == a + b[..|b| - 1]
    ensures (a + b)[|a + b| - 1] == b[|b| - 1]
  {
  }

  /** `f` applied to each element, built up from the front. */
  function MapSeq<T, U>(s: seq<T>, f: T --> U): seq<U>
    requires forall i :: 0 <= i < |s| ==> f.requires(s[i])
    decreases |s|
  {
    if s == [] then [] else MapSeq(s[..|s| - 1], f) + [f(s[|s| - 1])]
  }

  /** One element out per element in. */
  lemma {:induction false} MapSeqLength<T, U>(s: seq<T>, f: T --> U)
    requires forall i :: 0 <= i < |s| ==> f.requires(s[i])
    ensures |MapSeq(s, f)| == |s|
    decreases |s|
  {
    if s != [] {
      MapSeqLength(s[..|s| - 1], f);
    }
  }

  /** The mapped sequence holds `f` of each element, position by position. */
  lemma {:induction false} MapSeqAt<T, U>(s: seq<T>, f: T --> U, i: int)
    requires forall i :: 0 <= i < |s| ==> f.requires(s[i])
    requires 0 <= i < |s|
    ensures |MapSeq(s, f)| == |s| && MapSeq(s, f)[i] == f(s[i])
    decreases |s|
  {
    var n := |s| - 1;
    MapSeqLength(s, f);
    MapSeqLength(s[..n], f);
    if i < n {
      MapSeqAt(s[..n], f, i);
      assert s[..n][i] == s[i];
    }
  }

  /** Mapping one more element of a prefix appends its image. */
  lemma MapSeqSnoc<T, U>(s: seq<T>, f: T --> U, i: int)
    requires forall i :: 0 <= i < |s| ==> f.requires(s[i])
    requires 0 <= i < |s|
    ensures MapSeq(s[..i + 1], f) == MapSeq(s[..i], f) + [f(s[i])]
  {
    assert s[..i + 1][..i] == s[..i];
  }
  /** No element occurs twice. */
  predicate Distinct<T(==)>(s: seq<T>) {
    forall i, j :: 0 <= i < j < |s| ==> s[i] != s[j]
  }

  /** `[c for c in s if c not in selected]`. */
  function Without<T(==)>(s: seq<T>, selected: seq<T>): (r: seq<T>)
    ensures forall i :: 0 <= i < |r| ==> r[i] in s && r[i] !in selected
    ensures forall i :: 0 <= i < |s| && s[i] !in selected ==> s[i] in r
  {
    Filter(s, (x: T) => x !in selected)
  }

  /** What passes the condition is kept. */
  lemma FilterKeeps<T>(s: seq<T>, f: T -> bool, x: T)
    requires x in s && f(x)
    ensures x in Filter(s, f)
  {
    var i :| 0 <= i < |s| && s[i] == x;
  }

  /** What was not selected is left over. */
  lemma WithoutKeeps<T>(s: seq<T>, selected: seq<T>, x: T)
    requires x in s && x !in selected
    ensures x in Without(s, selected)
  {
    var i :| 0 <= i < |s| && s[i] == x;
  }

  /** Every element of `a` is one of `b`. */
  predicate Within<T(==)>(a: seq<T>, b: seq<T>) {
    forall x :: x in a ==> x in b
  }

  /** A distinct sequence within another distinct one is no longer. */
  lemma WithinLength<T>(a: seq<T>, b: seq<T>)
    requires Distinct(a) && Distinct(b) && Within(a, b)
    ensures |a| <= |b|
  {
    DistinctCard(a);
    DistinctCard(b);
    var A := set x | x in a;
    var B := set x | x in b;
    assert A <= B;
    assert B == A + (B - A);
  }

  /** Membership in a prefix. */
  lemma InTake<T>(s: seq<T>, n: int, x: T)
    requires n >= 0 && x in Take(s, n)
    ensures x in s
  {
    var r := Take(s, n);
    var i :| 0 <= i < |r| && r[i] == x;
    assert s[i] == x;
  }

  /** Membership in what is left over. */
  lemma InWithout<T>(s: seq<T>, selected: seq<T>, x: T)
    requires x in Without(s, selected)
    ensures x in s && x !in selected
  {
    var r := Without(s, selected);
    var i :| 0 <= i < |r| && r[i] == x;
    assert r[i] in s && r[i] !in selected;
  }

  /** Leaving out a prefix of a distinct sequence leaves the suffix. */
  lemma WithoutPrefix<T>(s: seq<T>, a: int)
    requires Distinct(s) && 0 <= a <= |s|
    ensures Without(s, s[..a]) == s[a..]
  {
    var sel := s[..a];
    var f := (x: T) => x !in sel;
    assert Without(s, sel) == Filter(s, f);
    assert s == sel + s[a..];
    FilterAppend(sel, s[a..], f);
    FilterAll(sel, f);
    forall x | x in s[a..] ensures f(x) {
      var j :| 0 <= j < |s[a..]| && s[a..][j] == x;
      forall k | 0 <= k < a ensures sel[k] != x {
        assert s[k] != s[a + j];
      }
    }
    FilterAll(s[a..], f);
  }

  lemma {:induction false} FilterDistinct<T>(s: seq<T>, f: T -> bool)
    requires Distinct(s)
    ensures Distinct(Filter(s, f))
    decreases |s|
  {
    if s != [] {
      FilterDistinct(s[1..], f);
      if f(s[0]) {
        var r := [s[0]] + Filter(s[1..], f);
        forall i, j | 0 <= i < j < |r| ensures r[i] != r[j] {
          if i == 0 {
            assert r[j] in Filter(s[1..], f);
            assert s[0] !in s[1..];
          }
        }
      }
    }
  }

  /** The keys never increase along the sequence. */
  predicate NonIncreasing<T>(s: seq<T>, key: T -> real) {
    forall i, j :: 0 <= i < j < |s| ==> key(s[j]) <= key(s[i])
  }

  /** A filter keeps a non-increasing sequence non-increasing. */
  lemma {:induction false} FilterNonIncreasing<T>(s: seq<T>, f: T -> bool, key: T -> real)
    requires NonIncreasing(s, key)
    ensures NonIncreasing(Filter(s, f), key)
    decreases |s|
  {
    if s != [] {
      TailNonIncreasing(s, key);
      FilterNonIncreasing(s[1..], f, key);
      var tail := Filter(s[1..], f);
      if f(s[0]) {
        forall y | y in tail ensures key(y) <= key(s[0]) {
          InFilter(s[1..], f, y);
          HeadAbove(s, key, y);
        }
        ConsNonIncreasing(s[0], tail, key);
        assert Filter(s, f) == [s[0]] + tail;
      }
    }
  }

  lemma TailNonIncreasing<T>(s: seq<T>, key: T -> real)
    requires NonIncreasing(s, key) && s != []
    ensures NonIncreasing(s[1..], key)
  {
    forall i, j | 0 <= i < j < |s[1..]| ensures key(s[1..][j]) <= key(s[1..][i]) {
      assert s[1..][j] == s[j + 1] && s[1..][i] == s[i + 1];
    }
  }

  /** The head of a non-increasing sequence has the largest key. */
  lemma HeadAbove<T>(s: seq<T>, key: T -> real, y: T)
    requires NonIncreasing(s, key) && s != [] && y in s[1..]
    ensures key(y) <= key(s[0])
  {
    var k :| 0 <= k < |s[1..]| && s[1..][k] == y;
    assert s[k + 1] == y;
  }

  /** A key no smaller than everything after it extends a non-increasing sequence. */
  lemma ConsNonIncreasing<T>(x: T, t: seq<T>, key: T -> real)
    requires NonIncreasing(t, key) && forall y :: y in t ==> key(y) <= key(x)
    ensures NonIncreasing([x] + t, key)
  {
    var r := [x] + t;
    forall i, j | 0 <= i < j < |r| ensures key(r[j]) <= key(r[i]) {
      assert r[j] == t[j - 1];
      if i > 0 {
        assert r[i] == t[i - 1];
      }
    }
  }

  /** What is left over from a distinct sequence is distinct. */
  lemma WithoutDistinct<T>(s: seq<T>, selected: seq<T>)
    requires Distinct(s)
    ensures Distinct(Without(s, selected))
  {
    FilterDistinct(s, (x: T) => x !in selected);
  }

  lemma AppendDistinct<T>(a: seq<T>, b: seq<T>)
    requires Distinct(a) && Distinct(b)
    requires forall x :: x in b ==> x !in a
    ensures Distinct(a + b)
  {
    var r := a + b;
    forall i, j | 0 <= i < j < |r| ensures r[i] != r[j] {
      if j >= |a| && i < |a| {
        assert r[j] in b && r[i] in a;
      }
    }
  }

  /** A slice of a distinct sequence is distinct. */
  lemma SliceDistinct<T>(s: seq<T>, lo: int, hi: int)
    requires Distinct(s) && 0 <= lo <= hi <= |s|
    ensures Distinct(s[lo..hi])
  {
  }

  /** A sequence is distinct exactly when no element occurs more than once in its multiset. */
  lemma {:induction false} DistinctMultiset<T>(s: seq<T>)
    ensures Distinct(s) <==> forall x :: multiset(s)[x] <= 1
    decreases |s|
  {
    if s != [] {
      var t := s[1..];
      DistinctMultiset(t);
      assert s == [s[0]] + t;
      assert multiset(s) == multiset{s[0]} + multiset(t);
      if Distinct(s) {
        assert Distinct(t) by {
          forall i, j | 0 <= i < j < |t| ensures t[i] != t[j] {
            assert t[i] == s[i + 1] && t[j] == s[j + 1];
          }
        }
        assert s[0] !in t;
      } else {
        var i, j :| 0 <= i < j < |s| && s[i] == s[j];
        var x := s[i];
        if i == 0 {
          assert x in t by { assert t[j - 1] == x; }
          assert multiset(s)[x] >= 2;
        } else {
          assert t[i - 1] == x && t[j - 1] == x;
          assert !Distinct(t);
          var y :| multiset(t)[y] > 1;
          assert multiset(s)[y] > 1;
        }
      }
    }
  }

  /** Reordering keeps distinctness. */
  lemma PermutationDistinct<T>(s: seq<T>, r: seq<T>)
    requires multiset(r) == multiset(s) && Distinct(s)
    ensures Distinct(r)
  {
    DistinctMultiset(s);
    DistinctMultiset(r);
  }

  /** A distinct sequence has as many distinct elements as it is long. */
  lemma {:induction false} DistinctCard<T>(s: seq<T>)
    requires Distinct(s)
    ensures |set x | x in s| == |s|
    decreases |s|
  {
    if s != [] {
      var t := s[1..];
      assert Distinct(t) by {
        forall i, j | 0 <= i < j < |t| ensures t[i] != t[j] {
          assert t[i] == s[i + 1] && t[j] == s[j + 1];
        }
      }
      DistinctCard(t);
      assert s[0] !in t;
      assert (set x | x in s) == (set x | x in t) + {s[0]} by {
        assert s == [s[0]] + t;
      }
    }
  }

  /**
   * Leaving out the selected elements of a distinct sequence, all of them
   * present, leaves as many as were not selected.
   */
  lemma WithoutLength<T>(s: seq<T>, selected: seq<T>)
    requires Distinct(s) && Distinct(selected)
    requires forall x :: x in selected ==> x in s
    ensures |Without(s, selected)| == |s| - |selected|
  {
    var r := Without(s, selected);
    FilterDistinct(s, (x: T) => x !in selected);
    DistinctCard(s);
    DistinctCard(selected);
    DistinctCard(r);
    var S := set x | x in s;
    var P := set x | x in selected;
    var R := set x | x in r;
    assert R == S - P;
    assert P <= S;
    assert |S - P| == |S| - |P|;
  }
}
