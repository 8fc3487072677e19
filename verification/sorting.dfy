/**
 * The stable sort that JavaScript's `Array.prototype.sort` performs with a
 * numeric comparator, as used by
 * supabase/functions/calculate-settlements/index.ts:29-30 and
 * src/pages/Analytics.tsx:183. A comparator `(a, b) => a.x - b.x` orders by
 * `x` ascending and `(a, b) => b.x - a.x` by `-x` ascending; equal keys keep
 * their input order. `SortBy` is that order, written as an insertion sort.
 */
module Sorting {

  /** Inserts `x` after every element of `s` whose key is at most `x`'s. */
  function Insert<T>(s: seq<T>, x: T, key: T -> real): seq<T>
  {
    if s == [] then [x]
    else if key(s[|s| - 1]) <= key(x) then s + [x]
    else Insert(s[..|s| - 1], x, key) + [s[|s| - 1]]
  }

  /** `s` stably sorted by ascending `key`. */
  function SortBy<T>(s: seq<T>, key: T -> real): seq<T>
  {
    if s == [] then [] else Insert(SortBy(s[..|s| - 1], key), s[|s| - 1], key)
  }

  ghost predicate SortedBy<T>(s: seq<T>, key: T -> real)
  {
    forall i, j :: 0 <= i < j < |s| ==> key(s[i]) <= key(s[j])
  }

  /** Appending an element with the largest key keeps a sequence ordered. */
  lemma SortedSnoc<T>(s: seq<T>, y: T, key: T -> real)
    requires SortedBy(s, key)
    requires forall i :: 0 <= i < |s| ==> key(s[i]) <= key(y)
    ensures SortedBy(s + [y], key)
  {
    var t := s + [y];
    forall i, j | 0 <= i < j < |t| ensures key(t[i]) <= key(t[j]) {
      assert t[i] == s[i];
      if j < |s| {
        assert t[j] == s[j];
      }
    }
  }

  lemma {:induction false} InsertKeepsOrder<T>(s: seq<T>, x: T, key: T -> real)
    requires SortedBy(s, key)
    ensures SortedBy(Insert(s, x, key), key)
    ensures multiset(Insert(s, x, key)) == multiset(s) + multiset{x}
  {
    if s == [] {
    } else if key(s[|s| - 1]) <= key(x) {
      forall i | 0 <= i < |s| ensures key(s[i]) <= key(x) {
        assert i == |s| - 1 || key(s[i]) <= key(s[|s| - 1]);
      }
      SortedSnoc(s, x, key);
    } else {
      var init, last := s[..|s| - 1], s[|s| - 1];
      assert s == init + [last];
      var r := Insert(init, x, key);
      assert Insert(s, x, key) == r + [last];
      assert SortedBy(init, key) by {
        forall i, j | 0 <= i < j < |init| ensures key(init[i]) <= key(init[j]) {
          assert init[i] == s[i] && init[j] == s[j];
        }
      }
      InsertKeepsOrder(init, x, key);
      forall i | 0 <= i < |r|
        ensures key(r[i]) <= key(last)
      {
        assert r[i] in multiset(init) + multiset{x};
        if r[i] != x {
          var m :| 0 <= m < |init| && init[m] == r[i];
          assert init[m] == s[m];
        }
      }
      SortedSnoc(r, last, key);
    }
  }

  /** The sorted sequence is ordered by key. */
  lemma {:induction false} SortByOrdered<T>(s: seq<T>, key: T -> real)
    ensures SortedBy(SortBy(s, key), key)
    ensures multiset(SortBy(s, key)) == multiset(s)
  {
    if s != [] {
      var init := s[..|s| - 1];
      assert s == init + [s[|s| - 1]];
      SortByOrdered(init, key);
      InsertKeepsOrder(SortBy(init, key), s[|s| - 1], key);
    }
  }

  /** The sorted sequence is a permutation of the input. */
  lemma SortByPermutes<T>(s: seq<T>, key: T -> real)
    ensures multiset(SortBy(s, key)) == multiset(s)
    ensures |SortBy(s, key)| == |s|
    ensures forall x :: x in SortBy(s, key) <==> x in s
  {
    SortByOrdered(s, key);
    assert |multiset(SortBy(s, key))| == |multiset(s)|;
    forall x ensures x in SortBy(s, key) <==> x in s {
      assert x in SortBy(s, key) <==> x in multiset(SortBy(s, key));
      assert x in s <==> x in multiset(s);
    }
  }

  /**
   * `Insert` puts `x` right after the last element whose key is at most
   * `x`'s: at position `j` when every later element has a larger key.
   */
  lemma {:induction false} InsertAt<T>(p: seq<T>, x: T, key: T -> real, j: nat)
    requires j <= |p|
    requires j == 0 || key(p[j - 1]) <= key(x)
    requires forall m :: j <= m < |p| ==> key(p[m]) > key(x)
    ensures Insert(p, x, key) == p[..j] + [x] + p[j..]
    decreases |p|
  {
    if p == [] {
    } else if j == |p| {
      assert p[..j] == p;
    } else {
      var init := p[..|p| - 1];
      InsertAt(init, x, key, j);
      assert init[..j] == p[..j];
      assert init[j..] + [p[|p| - 1]] == p[j..];
    }
  }

  /**
   * One pass of insertion sort: moves `a[k]` left past every element of the
   * sorted prefix `a[..k]` with a larger key.
   */
  method InsertLast<T>(a: array<T>, k: nat, key: T -> real)
    requires k < a.Length
    modifies a
    ensures a[..k + 1] == Insert(old(a[..k]), old(a[k]), key)
    ensures a[k + 1..] == old(a[k + 1..])
  {
    var x := a[k];
    ghost var prefix := a[..k];
    var j := k;
    while j > 0 && key(a[j - 1]) > key(x)
      invariant 0 <= j <= k
      invariant forall m :: 0 <= m < j ==> a[m] == prefix[m]
      invariant forall m :: j < m <= k ==> a[m] == prefix[m - 1]
      invariant forall m :: k < m < a.Length ==> a[m] == old(a[m])
      invariant forall m :: j <= m < k ==> key(prefix[m]) > key(x)
    {
      a[j] := a[j - 1];
      j := j - 1;
    }
    a[j] := x;
    InsertAt(prefix, x, key, j);
    ghost var r := prefix[..j] + [x] + prefix[j..];
    assert forall m :: 0 <= m <= k ==> a[m] == r[m];
    assert a[..k + 1] == r;
    assert a[k + 1..] == old(a[k + 1..]);
  }

  /** Sorts `a` in place: the array ends up holding `SortBy` of its old contents. */
  method SortInPlace<T>(a: array<T>, key: T -> real)
    modifies a
    ensures a[..] == SortBy(old(a[..]), key)
  {
    ghost var input := a[..];
    var k := 0;
    while k < a.Length
      invariant 0 <= k <= a.Length
      invariant a[..k] == SortBy(input[..k], key)
      invariant a[k..] == input[k..]
    {
      ghost var sorted, next := a[..k], a[k];
      assert next == input[k];
      assert SortBy(input[..k + 1], key) == Insert(sorted, next, key) by {
        assert input[..k + 1][..k] == input[..k];
        assert input[..k + 1][k] == next;
      }
      ghost var rest := a[k + 1..];
      assert rest == input[k + 1..] by {
        assert a[k..][1..] == rest && input[k..][1..] == input[k + 1..];
      }
      InsertLast(a, k, key);
      k := k + 1;
    }
    assert a[..] == a[..a.Length];
    assert input == input[..a.Length];
  }
}
