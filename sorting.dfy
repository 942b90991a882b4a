/** The in-place `Array.prototype.sort` calls of the dashboard. Every comparator the
    dashboard passes compares a key of two parts (a rank, then a number), so sorting is
    modelled as a stable sort by such a key: `Array.prototype.sort` is stable, and a stable
    sort by a total preorder has exactly one possible result. */
module Sorting {
  import opened Grouping

  /** The key a comparator compares: first `primary`, then `secondary`. */
  datatype SortKey = SortKey(primary: int, secondary: real)

  /** `cmp(a, b) <= 0` for a comparator that compares keys lexicographically. */
  predicate KeyLe(a: SortKey, b: SortKey)
  {
    a.primary < b.primary || (a.primary == b.primary && a.secondary <= b.secondary)
  }

  ghost predicate Sorted<T>(s: seq<T>, key: T -> SortKey)
  {
    forall i, j :: 0 <= i < j < |s| ==> KeyLe(key(s[i]), key(s[j]))
  }

  /** The elements whose key is `k`; a sort is stable when it keeps each such run in
      input order. */
  function SameKey<T>(key: T -> SortKey, k: SortKey): T -> bool
  {
    x => key(x) == k
  }

  /** `x` placed into `t` after every element whose key is not greater than its own. */
  function Insert<T>(t: seq<T>, x: T, key: T -> SortKey): (r: seq<T>)
    ensures |r| == |t| + 1
    decreases |t|
  {
    if t == [] || KeyLe(key(t[|t| - 1]), key(x)) then t + [x]
    else Insert(t[..|t| - 1], x, key) + [t[|t| - 1]]
  }

  /** Insertion sort: each element in turn inserted into the sorted prefix. */
  function Sort<T>(s: seq<T>, key: T -> SortKey): (r: seq<T>)
    ensures |r| == |s|
    decreases |s|
  {
    if s == [] then [] else Insert(Sort(s[..|s| - 1], key), s[|s| - 1], key)
  }

  lemma {:induction false} InsertMultiset<T>(t: seq<T>, x: T, key: T -> SortKey)
    ensures multiset(Insert(t, x, key)) == multiset(t) + multiset{x}
    decreases |t|
  {
    if !(t == [] || KeyLe(key(t[|t| - 1]), key(x))) {
      var n := |t| - 1;
      InsertMultiset(t[..n], x, key);
      assert t == t[..n] + [t[n]];
    }
  }

  lemma {:induction false} InsertSorted<T>(t: seq<T>, x: T, key: T -> SortKey)
    requires Sorted(t, key)
    ensures Sorted(Insert(t, x, key), key)
    decreases |t|
  {
    if !(t == [] || KeyLe(key(t[|t| - 1]), key(x))) {
      var n := |t| - 1;
      var r := Insert(t[..n], x, key);
      InsertSorted(t[..n], x, key);
      InsertMultiset(t[..n], x, key);
      forall i | 0 <= i < |r|
        ensures KeyLe(key(r[i]), key(t[n]))
      {
        assert r[i] in multiset(t[..n]) + multiset{x};
        if r[i] != x {
          var j :| 0 <= j < n && t[..n][j] == r[i];
          assert t[j] == r[i];
        }
      }
    }
  }

  /** Inserting keeps the elements of every key in order, and puts `x` after the elements
      that share its key. */
  lemma {:induction false} InsertStable<T>(t: seq<T>, x: T, key: T -> SortKey, k: SortKey)
    ensures Filter(Insert(t, x, key), SameKey(key, k))
            == Filter(t, SameKey(key, k)) + (if key(x) == k then [x] else [])
    decreases |t|
  {
    var p := SameKey(key, k);
    if t == [] || KeyLe(key(t[|t| - 1]), key(x)) {
      FilterAppend(t, x, p);
    } else {
      var n := |t| - 1;
      InsertStable(t[..n], x, key, k);
      FilterAppend(Insert(t[..n], x, key), t[n], p);
      FilterLast(t, p);
    }
  }

  /** The sort yields a sorted permutation of its input ... */
  lemma {:induction false} SortSortedPermutation<T>(s: seq<T>, key: T -> SortKey)
    ensures Sorted(Sort(s, key), key)
    ensures multiset(Sort(s, key)) == multiset(s)
    decreases |s|
  {
    if s != [] {
      var n := |s| - 1;
      SortSortedPermutation(s[..n], key);
      InsertSorted(Sort(s[..n], key), s[n], key);
      InsertMultiset(Sort(s[..n], key), s[n], key);
      assert s == s[..n] + [s[n]];
    }
  }

  /** ... and is stable: the elements of each key appear in input order. */
  lemma {:induction false} SortStable<T>(s: seq<T>, key: T -> SortKey, k: SortKey)
    ensures Filter(Sort(s, key), SameKey(key, k)) == Filter(s, SameKey(key, k))
    decreases |s|
  {
    if s != [] {
      var n := |s| - 1;
      SortStable(s[..n], key, k);
      InsertStable(Sort(s[..n], key), s[n], key, k);
      FilterAppend(s[..n], s[n], SameKey(key, k));
      assert s == s[..n] + [s[n]];
    }
  }

  /** In a sorted sequence no key exceeds that of the last element. */
  lemma LastIsGreatest<T>(u: seq<T>, key: T -> SortKey, x: T)
    requires Sorted(u, key) && x in u
    ensures KeyLe(key(x), key(u[|u| - 1]))
  {
    var j :| 0 <= j < |u| && u[j] == x;
  }

  /** The last elements of two sorted sequences that agree on every key have the same key. */
  lemma SameLastKey<T>(u: seq<T>, v: seq<T>, key: T -> SortKey)
    requires u != [] && v != []
    requires Sorted(u, key) && Sorted(v, key)
    requires forall k :: Filter(u, SameKey(key, k)) == Filter(v, SameKey(key, k))
    ensures key(u[|u| - 1]) == key(v[|v| - 1])
  {
    var x, y := u[|u| - 1], v[|v| - 1];
    assert SameKey(key, key(x))(x);
    assert x in Filter(v, SameKey(key, key(x)));
    LastIsGreatest(v, key, x);
    assert SameKey(key, key(y))(y);
    assert y in Filter(u, SameKey(key, key(y)));
    LastIsGreatest(u, key, y);
  }

  /** Dropping the last elements of two sequences with the same elements satisfying `p`,
      when `p` holds of both last elements or of neither: what is left still has the same
      elements satisfying `p`, and if `p` holds of the last elements they are the same. */
  lemma DropLastFiltered<T>(u: seq<T>, v: seq<T>, p: T -> bool)
    requires u != [] && v != [] && p(u[|u| - 1]) == p(v[|v| - 1])
    requires Filter(u, p) == Filter(v, p)
    ensures Filter(u[..|u| - 1], p) == Filter(v[..|v| - 1], p)
    ensures p(u[|u| - 1]) ==> u[|u| - 1] == v[|v| - 1]
  {
    if p(u[|u| - 1]) {
      DropLastKept(u, v, p);
    } else {
      DropLastSkipped(u, v, p);
    }
  }

  lemma DropLastKept<T>(u: seq<T>, v: seq<T>, p: T -> bool)
    requires u != [] && v != [] && p(u[|u| - 1]) && p(v[|v| - 1])
    requires Filter(u, p) == Filter(v, p)
    ensures Filter(u[..|u| - 1], p) == Filter(v[..|v| - 1], p)
    ensures u[|u| - 1] == v[|v| - 1]
  {
    var n, m := |u| - 1, |v| - 1;
    FilterLast(u, p);
    FilterLast(v, p);
    AppendOneInjective(Filter(u[..n], p), u[n], Filter(v[..m], p), v[m]);
  }

  lemma DropLastSkipped<T>(u: seq<T>, v: seq<T>, p: T -> bool)
    requires u != [] && v != [] && !p(u[|u| - 1]) && !p(v[|v| - 1])
    requires Filter(u, p) == Filter(v, p)
    ensures Filter(u[..|u| - 1], p) == Filter(v[..|v| - 1], p)
  {
    FilterLast(u, p);
    FilterLast(v, p);
  }

  /** `Filter` of a non-empty sequence, one step unfolded. */
  lemma FilterLast<T>(u: seq<T>, p: T -> bool)
    requires u != []
    ensures p(u[|u| - 1]) ==> Filter(u, p) == Filter(u[..|u| - 1], p) + [u[|u| - 1]]
    ensures !p(u[|u| - 1]) ==> Filter(u, p) == Filter(u[..|u| - 1], p)
  {
    var n := |u| - 1;
    if !p(u[n]) {
      assert Filter(u[..n], p) + [] == Filter(u[..n], p);
    }
  }

  /** The same for every key at once, when the last elements have the same key. */
  lemma DropLast<T>(u: seq<T>, v: seq<T>, key: T -> SortKey)
    requires u != [] && v != [] && key(u[|u| - 1]) == key(v[|v| - 1])
    requires forall k :: Filter(u, SameKey(key, k)) == Filter(v, SameKey(key, k))
    ensures u[|u| - 1] == v[|v| - 1]
    ensures forall k :: Filter(u[..|u| - 1], SameKey(key, k)) == Filter(v[..|v| - 1], SameKey(key, k))
  {
    forall k
      ensures Filter(u[..|u| - 1], SameKey(key, k)) == Filter(v[..|v| - 1], SameKey(key, k))
    {
      DropLastFiltered(u, v, SameKey(key, k));
    }
    DropLastFiltered(u, v, SameKey(key, key(u[|u| - 1])));
  }

  lemma AppendOneInjective<T>(a: seq<T>, x: T, b: seq<T>, y: T)
    requires a + [x] == b + [y]
    ensures a == b && x == y
  {
    assert (a + [x])[..|a|] == a && (b + [y])[..|b|] == b;
    assert (a + [x])[|a|] == x && (b + [y])[|b|] == y;
  }

  /** A non-empty sequence has elements of the key of its first element. */
  lemma NonEmptyFilter<T>(u: seq<T>, key: T -> SortKey)
    requires u != []
    ensures Filter(u, SameKey(key, key(u[0]))) != []
  {
    assert SameKey(key, key(u[0]))(u[0]);
    assert u[0] in Filter(u, SameKey(key, key(u[0])));
  }

  /** Two sorted sequences that agree on the elements of every key, in order, are equal. */
  lemma {:induction false} SortedUnique<T>(u: seq<T>, v: seq<T>, key: T -> SortKey)
    requires Sorted(u, key) && Sorted(v, key)
    requires forall k :: Filter(u, SameKey(key, k)) == Filter(v, SameKey(key, k))
    ensures u == v
    decreases |u| + |v|
  {
    if u == [] && v != [] {
      NonEmptyFilter(v, key);
    } else if u != [] && v == [] {
      NonEmptyFilter(u, key);
    } else if u != [] {
      var n, m := |u| - 1, |v| - 1;
      SameLastKey(u, v, key);
      DropLast(u, v, key);
      SortedUnique(u[..n], v[..m], key);
      assert u == u[..n] + [u[n]] && v == v[..m] + [v[m]];
    }
  }

  /** So `Sort` is the only result a stable sort by `key` can give: any sorted arrangement
      that keeps each key's elements in input order is `Sort`. */
  lemma StableSortIsSort<T>(s: seq<T>, r: seq<T>, key: T -> SortKey)
    requires Sorted(r, key)
    requires forall k :: Filter(r, SameKey(key, k)) == Filter(s, SameKey(key, k))
    ensures r == Sort(s, key)
  {
    SortSortedPermutation(s, key);
    forall k
      ensures Filter(r, SameKey(key, k)) == Filter(Sort(s, key), SameKey(key, k))
    {
      SortStable(s, key, k);
    }
    SortedUnique(r, Sort(s, key), key);
  }

  /** Inserting `x` at position `j` of `t` is `Insert` when the element before `j` is not
      greater than `x` and every element from `j` on is. */
  lemma {:induction false} InsertAt<T>(t: seq<T>, x: T, key: T -> SortKey, j: nat)
    requires j <= |t|
    requires j == 0 || KeyLe(key(t[j - 1]), key(x))
    requires forall m :: j <= m < |t| ==> !KeyLe(key(t[m]), key(x))
    ensures Insert(t, x, key) == t[..j] + [x] + t[j..]
    decreases |t|
  {
    if j == |t| {
      assert t[..j] == t && t[j..] == [];
    } else {
      var n := |t| - 1;
      var init := t[..n];
      assert !KeyLe(key(t[n]), key(x));
      assert Insert(t, x, key) == Insert(init, x, key) + [t[n]];
      assert j == 0 || KeyLe(key(init[j - 1]), key(x)) by {
        if j > 0 {
          assert init[j - 1] == t[j - 1];
        }
      }
      assert forall m :: j <= m < |init| ==> !KeyLe(key(init[m]), key(x)) by {
        forall m | j <= m < |init|
          ensures !KeyLe(key(init[m]), key(x))
        {
          assert init[m] == t[m];
        }
      }
      InsertAt(init, x, key, j);
      assert init[..j] == t[..j];
      assert init[j..] + [t[n]] == t[j..];
    }
  }

  /** One step of the insertion sort: `a[i]` moves into the sorted prefix `a[..i]`, the
      greater elements of the prefix shifting one place to the right. */
  method InsertInPlace<T>(a: array<T>, i: int, key: T -> SortKey)
    requires 0 <= i < a.Length
    modifies a
    ensures a[..i + 1] == Insert(old(a[..i]), old(a[i]), key)
    ensures a[i + 1..] == old(a[i + 1..])
  {
    ghost var t := a[..i];
    var x := a[i];
    var j := i;
    while j > 0 && !KeyLe(key(a[j - 1]), key(x))
      invariant 0 <= j <= i
      invariant forall m :: 0 <= m < j ==> a[m] == t[m]
      invariant forall m :: j < m <= i ==> a[m] == t[m - 1]
      invariant forall m :: i < m < a.Length ==> a[m] == old(a[m])
      invariant forall m :: j <= m < i ==> !KeyLe(key(t[m]), key(x))
    {
      a[j] := a[j - 1];
      j := j - 1;
    }
    a[j] := x;
    InsertAt(t, x, key, j);
    assert a[..i + 1] == t[..j] + [x] + t[j..];
  }

  /** The insertion sort of the array, element by element. */
  method InsertionSort<T>(a: array<T>, key: T -> SortKey)
    modifies a
    ensures a[..] == Sort(old(a[..]), key)
  {
    ghost var s := a[..];
    var i := 0;
    while i < a.Length
      invariant 0 <= i <= a.Length
      invariant a[..i] == Sort(s[..i], key)
      invariant a[i..] == s[i..]
    {
      assert a[i] == s[i] && a[i + 1..] == s[i + 1..] by {
        assert a[i..][0] == a[i] && a[i..][1..] == a[i + 1..];
      }
      InsertInPlace(a, i, key);
      assert s[..i + 1][..i] == s[..i];
      i := i + 1;
    }
    assert s[..i] == s;
  }
}
