/**
 * The stable sort used throughout the scoring pipeline (src/astro-core/src/scout.rs). Rust's
 * `sort_by(|a, b| key(b).partial_cmp(&key(a)))` orders a vector by non-increasing key and keeps
 * equal-key elements in their original order. `SortDescending` is the reference definition (an
 * insertion sort that files each element behind every element whose key is at least its own);
 * `SortInPlace` is the in-place array algorithm proved to compute it.
 */
module Sorting {

  /** Keys never increase from left to right. */
  ghost predicate NonIncreasing<T>(s: seq<T>, key: T -> real)
  {
    forall i, j :: 0 <= i < j < |s| ==> key(s[i]) >= key(s[j])
  }

  /** A non-empty sequence is its prefix followed by its last element. */
  lemma SplitLast<T>(s: seq<T>)
    requires |s| > 0
    ensures s == s[..|s| - 1] + [s[|s| - 1]]
  {
  }

  /** The elements of `s` whose key is exactly `k`, in their order in `s`. */
  function WithKey<T>(s: seq<T>, key: T -> real, k: real): (r: seq<T>)
    ensures |r| <= |s|
  {
    if |s| == 0 then []
    else WithKey(s[..|s| - 1], key, k) + (if key(s[|s| - 1]) == k then [s[|s| - 1]] else [])
  }

  /** Files `x` behind the last element whose key is at least `key(x)`. */
  function Insert<T>(s: seq<T>, x: T, key: T -> real): (r: seq<T>)
    ensures |r| == |s| + 1
    decreases |s|
  {
    if |s| == 0 || key(s[|s| - 1]) >= key(x) then s + [x]
    else Insert(s[..|s| - 1], x, key) + [s[|s| - 1]]
  }

  /** Reference definition of the stable descending sort. */
  function SortDescending<T>(s: seq<T>, key: T -> real): (r: seq<T>)
    ensures |r| == |s|
  {
    if |s| == 0 then []
    else Insert(SortDescending(s[..|s| - 1], key), s[|s| - 1], key)
  }

  lemma {:induction false} InsertPermutes<T>(s: seq<T>, x: T, key: T -> real)
    ensures multiset(Insert(s, x, key)) == multiset(s) + multiset{x}
    decreases |s|
  {
    if |s| > 0 && key(s[|s| - 1]) < key(x) {
      InsertPermutes(s[..|s| - 1], x, key);
      SplitLast(s);
    }
  }

  /** The sort rearranges its input: same elements, same multiplicities. */
  lemma {:induction false} SortDescendingPermutes<T>(s: seq<T>, key: T -> real)
    ensures multiset(SortDescending(s, key)) == multiset(s)
    decreases |s|
  {
    if |s| > 0 {
      SortDescendingPermutes(s[..|s| - 1], key);
      InsertPermutes(SortDescending(s[..|s| - 1], key), s[|s| - 1], key);
      SplitLast(s);
    }
  }

  /** The sort keeps exactly the elements it was given. */
  lemma SortDescendingMembers<T>(s: seq<T>, key: T -> real, x: T)
    ensures x in SortDescending(s, key) <==> x in s
  {
    SortDescendingPermutes(s, key);
    assert x in SortDescending(s, key) <==> x in multiset(SortDescending(s, key));
  }

  lemma {:induction false} WithKeyAppend<T>(s: seq<T>, t: seq<T>, key: T -> real, k: real)
    ensures WithKey(s + t, key, k) == WithKey(s, key, k) + WithKey(t, key, k)
    decreases |t|
  {
    if |t| == 0 {
      assert s + t == s;
    } else {
      assert (s + t)[..|s + t| - 1] == s + t[..|t| - 1];
      WithKeyAppend(s, t[..|t| - 1], key, k);
    }
  }

  lemma {:induction false} InsertNonIncreasing<T>(s: seq<T>, x: T, key: T -> real)
    requires NonIncreasing(s, key)
    ensures NonIncreasing(Insert(s, x, key), key)
    decreases |s|
  {
    if |s| == 0 || key(s[|s| - 1]) >= key(x) {
    } else {
      var init := s[..|s| - 1];
      var last := s[|s| - 1];
      InsertNonIncreasing(init, x, key);
      InsertKeepsBound(init, x, key, key(last));
      var r := Insert(init, x, key);
      assert Insert(s, x, key) == r + [last];
      forall i, j | 0 <= i < j < |r + [last]|
        ensures key((r + [last])[i]) >= key((r + [last])[j])
      {
        if j == |r| {
          assert key(r[i]) >= key(last);
        }
      }
    }
  }

  /** Every key of `s` is at least `lo`. */
  ghost predicate AllAtLeast<T>(s: seq<T>, key: T -> real, lo: real)
  {
    forall i :: 0 <= i < |s| ==> key(s[i]) >= lo
  }

  lemma {:induction false} InsertKeepsBound<T>(s: seq<T>, x: T, key: T -> real, lo: real)
    requires AllAtLeast(s, key, lo) && key(x) >= lo
    ensures AllAtLeast(Insert(s, x, key), key, lo)
    decreases |s|
  {
    if |s| > 0 && key(s[|s| - 1]) < key(x) {
      InsertKeepsBound(s[..|s| - 1], x, key, lo);
    }
  }

  function Own<T>(e: T, key: T -> real, k: real): seq<T>
  {
    if key(e) == k then [e] else []
  }

  lemma WithKeySingle<T>(e: T, key: T -> real, k: real)
    ensures WithKey([e], key, k) == Own(e, key, k)
  {
    assert [e][..0] == [];
  }

  /** Inserting keeps every equal-key run in order and puts `x` after the elements of its own key. */
  lemma {:induction false} InsertWithKey<T>(s: seq<T>, x: T, key: T -> real, k: real)
    ensures WithKey(Insert(s, x, key), key, k) == WithKey(s, key, k) + Own(x, key, k)
    decreases |s|
  {
    WithKeySingle(x, key, k);
    if |s| == 0 || key(s[|s| - 1]) >= key(x) {
      WithKeyAppend(s, [x], key, k);
    } else {
      var init := s[..|s| - 1];
      var last := s[|s| - 1];
      var r := Insert(init, x, key);
      assert Insert(s, x, key) == r + [last];
      InsertWithKey(init, x, key, k);
      WithKeySingle(last, key, k);
      WithKeyAppend(r, [last], key, k);
      SplitLast(s);
      WithKeyAppend(init, [last], key, k);
      if key(x) == k {
        assert Own(last, key, k) == [];
        assert WithKey(r + [last], key, k) == WithKey(init, key, k) + [x];
      } else {
        assert Own(x, key, k) == [];
        assert WithKey(r + [last], key, k) == WithKey(init, key, k) + Own(last, key, k);
      }
    }
  }

  /** The sort orders by non-increasing key. */
  lemma {:induction false} SortDescendingOrders<T>(s: seq<T>, key: T -> real)
    ensures NonIncreasing(SortDescending(s, key), key)
    decreases |s|
  {
    if |s| > 0 {
      SortDescendingOrders(s[..|s| - 1], key);
      InsertNonIncreasing(SortDescending(s[..|s| - 1], key), s[|s| - 1], key);
    }
  }

  /** The sort is stable: the elements of any one key keep their original order. */
  lemma {:induction false} SortDescendingStable<T>(s: seq<T>, key: T -> real, k: real)
    ensures WithKey(SortDescending(s, key), key, k) == WithKey(s, key, k)
    decreases |s|
  {
    if |s| > 0 {
      var init := s[..|s| - 1];
      SortDescendingStable(init, key, k);
      InsertWithKey(SortDescending(init, key), s[|s| - 1], key, k);
      assert s == init + [s[|s| - 1]];
      WithKeyAppend(init, [s[|s| - 1]], key, k);
      WithKeySingle(s[|s| - 1], key, k);
    }
  }

  /** An input already in non-increasing order comes back unchanged. */
  lemma {:induction false} SortDescendingFixesOrdered<T>(s: seq<T>, key: T -> real)
    requires NonIncreasing(s, key)
    ensures SortDescending(s, key) == s
    decreases |s|
  {
    if |s| > 0 {
      var init := s[..|s| - 1];
      assert NonIncreasing(init, key);
      SortDescendingFixesOrdered(init, key);
      assert s == init + [s[|s| - 1]];
    }
  }

  /** Every element of `s` from index `j` on has a key below that of `x`. */
  ghost predicate BelowFrom<T>(s: seq<T>, j: int, x: T, key: T -> real)
  {
    forall m :: 0 <= j <= m < |s| ==> key(s[m]) < key(x)
  }

  /** `x` lands right behind the last element whose key is at least its own. */
  lemma {:induction false} InsertSplits<T>(s: seq<T>, x: T, key: T -> real, j: int)
    requires 0 <= j <= |s|
    requires j == 0 || key(s[j - 1]) >= key(x)
    requires BelowFrom(s, j, x, key)
    ensures Insert(s, x, key) == s[..j] + [x] + s[j..]
    decreases |s|
  {
    if |s| == j {
      assert s[..j] == s;
    } else {
      var init := s[..|s| - 1];
      var last := s[|s| - 1];
      assert key(last) < key(x);
      InsertSplits(init, x, key, j);
      calc {
        Insert(s, x, key);
        Insert(init, x, key) + [last];
        init[..j] + [x] + init[j..] + [last];
        { assert init[..j] == s[..j]; assert init[j..] + [last] == s[j..]; }
        s[..j] + [x] + s[j..];
      }
    }
  }

  /** Moves `a[i]` left past every element of the sorted prefix `a[..i]` whose key is below its own. */
  method InsertLast<T>(a: array<T>, i: int, key: T -> real)
    requires 0 <= i < a.Length
    modifies a
    ensures a[..i + 1] == Insert(old(a[..i]), old(a[i]), key)
    ensures forall m :: i < m < a.Length ==> a[m] == old(a[m])
  {
    ghost var sorted := a[..i];
    var x := a[i];
    var j := i;
    while j > 0 && key(a[j - 1]) < key(x)
      invariant 0 <= j <= i
      invariant forall m :: 0 <= m < j ==> a[m] == sorted[m]
      invariant forall m :: j < m <= i ==> a[m] == sorted[m - 1]
      invariant forall m :: i < m < a.Length ==> a[m] == old(a[m])
      invariant BelowFrom(sorted, j, x, key)
    {
      a[j] := a[j - 1];
      j := j - 1;
    }
    a[j] := x;
    InsertSplits(sorted, x, key, j);
    ghost var inserted := sorted[..j] + [x] + sorted[j..];
    assert forall m :: 0 <= m <= i ==> a[m] == inserted[m];
    assert a[..i + 1] == inserted;
  }

  /** Insertion sort on an array, filing each element behind every element with a key at least its own. */
  method SortInPlace<T>(a: array<T>, key: T -> real)
    modifies a
    ensures a[..] == SortDescending(old(a[..]), key)
  {
    ghost var s := a[..];
    var i := 0;
    while i < a.Length
      invariant 0 <= i <= a.Length
      invariant a[..i] == SortDescending(s[..i], key)
      invariant forall m :: i <= m < a.Length ==> a[m] == s[m]
    {
      InsertLast(a, i, key);
      assert s[..i + 1][..i] == s[..i];
      i := i + 1;
    }
    assert a[..] == a[..a.Length];
    assert s == s[..a.Length];
  }

  /** Sorts a vector: the elements go into an array that is sorted in place and read back. */
  method SortedCopy<T>(s: seq<T>, key: T -> real) returns (r: seq<T>)
    ensures r == SortDescending(s, key)
  {
    var a := new T[|s|](i requires 0 <= i < |s| => s[i]);
    assert a[..] == s;
    SortInPlace(a, key);
    r := a[..];
  }
}
