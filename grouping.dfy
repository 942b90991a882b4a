/** Grouping by first-seen key, the pattern every view of the dashboard uses: a JavaScript
    object used as a dictionary (`if (!groups[k]) groups[k] = {...}; groups[k].orders.push(x)`)
    or an array searched with `findIndex` before `push`. Keys come out in the order in which
    they were first met; each group keeps its members in input order. */
module Grouping {

  /** A JavaScript object used as a dictionary: its keys in insertion order, and its entries. */
  datatype Table<K(==,!new), V> = Table(keys: seq<K>, entries: map<K, V>)
  {
    ghost predicate Valid()
    {
      && Distinct(keys)
      && (forall k :: k in entries <==> k in keys)
    }

    /** `Object.values(t)`. */
    function Values(): (vs: seq<V>)
      requires forall k :: k in keys ==> k in entries
      ensures |vs| == |keys|
      ensures forall i :: 0 <= i < |keys| ==> vs[i] == entries[keys[i]]
    {
      seq(|keys|, i requires 0 <= i < |keys| => entries[keys[i]])
    }
  }

  ghost predicate Distinct<K>(ks: seq<K>)
  {
    forall i, j :: 0 <= i < j < |ks| ==> ks[i] != ks[j]
  }

  function EmptyTable<K(==,!new), V>(): (t: Table<K, V>)
    ensures t.Valid() && t.keys == []
  {
    Table([], map[])
  }

  /** The keys of `s`, each once, in the order in which they first occur. */
  function FirstSeen<T, K(==,!new)>(s: seq<T>, key: T -> K): (ks: seq<K>)
    ensures Distinct(ks)
    ensures forall k :: k in ks <==> exists i :: 0 <= i < |s| && key(s[i]) == k
    ensures |ks| <= |s|
    decreases |s|
  {
    if s == [] then []
    else
      var p := FirstSeen(s[..|s| - 1], key);
      var k := key(s[|s| - 1]);
      if k in p then p else p + [k]
  }

  /** The members of `s` whose key is `k`, in input order. */
  function Select<T, K(==,!new)>(s: seq<T>, key: T -> K, k: K): (r: seq<T>)
    decreases |s|
  {
    if s == [] then []
    else Select(s[..|s| - 1], key, k) + (if key(s[|s| - 1]) == k then [s[|s| - 1]] else [])
  }

  /** A value lies in the group of `k` exactly when it occurs in `s` with key `k`: every
      member of `s` is in the group of its own key and in no other. */
  lemma {:induction false} SelectMembers<T, K(!new)>(s: seq<T>, key: T -> K, k: K)
    ensures forall x :: x in Select(s, key, k) ==> x in s && key(x) == k
    ensures forall x :: x in s && key(x) == k ==> x in Select(s, key, k)
    ensures |Select(s, key, k)| <= |s|
    decreases |s|
  {
    if s != [] {
      var init := s[..|s| - 1];
      SelectMembers(init, key, k);
      assert s == init + [s[|s| - 1]];
    }
  }

  /** A group is non-empty exactly when its key was seen. */
  lemma {:induction false} SelectNonEmpty<T, K(!new)>(s: seq<T>, key: T -> K, k: K)
    ensures Select(s, key, k) != [] <==> k in FirstSeen(s, key)
  {
    SelectMembers(s, key, k);
    if k in FirstSeen(s, key) {
      var i :| 0 <= i < |s| && key(s[i]) == k;
      assert s[i] in Select(s, key, k);
    }
    if Select(s, key, k) != [] {
      var x := Select(s, key, k)[0];
      assert x in Select(s, key, k);
      var i :| 0 <= i < |s| && s[i] == x;
    }
  }

  /** The first member of a group is the first element of `s` with that key. */
  lemma {:induction false} SelectHead<T, K(!new)>(s: seq<T>, key: T -> K, k: K)
    requires k in FirstSeen(s, key)
    ensures Select(s, key, k) != []
    ensures exists i ::
              && 0 <= i < |s| && key(s[i]) == k && Select(s, key, k)[0] == s[i]
              && (forall j :: 0 <= j < i ==> key(s[j]) != k)
    decreases |s|
  {
    SelectNonEmpty(s, key, k);
    var init := s[..|s| - 1];
    if k in FirstSeen(init, key) {
      SelectHead(init, key, k);
      var i :| 0 <= i < |init| && key(init[i]) == k && Select(init, key, k)[0] == init[i]
               && (forall j :: 0 <= j < i ==> key(init[j]) != k);
      assert s[i] == init[i];
      assert forall j :: 0 <= j < i ==> s[j] == init[j];
    } else {
      SelectNonEmpty(init, key, k);
      assert Select(init, key, k) == [];
      assert forall j :: 0 <= j < |init| ==> key(s[j]) != k by {
        forall j | 0 <= j < |init| ensures key(s[j]) != k {
          assert s[j] == init[j];
        }
      }
    }
  }

  /** Appending one element extends its own group and leaves the others as they were. */
  lemma SelectAppend<T, K(!new)>(s: seq<T>, x: T, key: T -> K, k: K)
    ensures Select(s + [x], key, k) == Select(s, key, k) + (if key(x) == k then [x] else [])
  {
    assert (s + [x])[..|s|] == s;
  }

  lemma FirstSeenAppend<T, K(!new)>(s: seq<T>, x: T, key: T -> K)
    ensures FirstSeen(s + [x], key) == if key(x) in FirstSeen(s, key) then FirstSeen(s, key) else FirstSeen(s, key) + [key(x)]
  {
    assert (s + [x])[..|s|] == s;
  }

  /** The multiset union of the groups named in `ks`. */
  function Gathered<T, K(==,!new)>(s: seq<T>, key: T -> K, ks: seq<K>): multiset<T>
    decreases |ks|
  {
    if ks == [] then multiset{} else Gathered(s, key, ks[..|ks| - 1]) + multiset(Select(s, key, ks[|ks| - 1]))
  }

  /** Appending `x` adds it once to the gathered groups if its key is among `ks` (each key
      named once), and not at all otherwise. */
  lemma {:induction false} GatheredAppend<T, K(!new)>(s: seq<T>, x: T, key: T -> K, ks: seq<K>)
    requires Distinct(ks)
    ensures Gathered(s + [x], key, ks)
            == Gathered(s, key, ks) + (if key(x) in ks then multiset{x} else multiset{})
    decreases |ks|
  {
    if ks != [] {
      var init, k := ks[..|ks| - 1], ks[|ks| - 1];
      assert ks == init + [k];
      assert Distinct(init);
      GatheredAppend(s, x, key, init);
      SelectAppend(s, x, key, k);
      var g, gx := Gathered(s, key, init), Gathered(s + [x], key, init);
      assert Gathered(s + [x], key, ks) == gx + multiset(Select(s + [x], key, k));
      assert Gathered(s, key, ks) == g + multiset(Select(s, key, k));
      if key(x) == k {
        assert key(x) !in init;
        assert gx == g;
        assert multiset(Select(s + [x], key, k)) == multiset(Select(s, key, k)) + multiset{x};
      } else {
        assert multiset(Select(s + [x], key, k)) == multiset(Select(s, key, k));
        assert key(x) in ks <==> key(x) in init;
      }
    }
  }

  /** Grouping is a partition: put back together, the groups hold every element of `s`
      exactly as often as `s` does, so nothing is lost and nothing is counted twice. */
  lemma {:induction false} GroupsPartition<T, K(!new)>(s: seq<T>, key: T -> K)
    ensures Gathered(s, key, FirstSeen(s, key)) == multiset(s)
    decreases |s|
  {
    if s != [] {
      var init := s[..|s| - 1];
      var x := s[|s| - 1];
      assert s == init + [x];
      GroupsPartition(init, key);
      var p := FirstSeen(init, key);
      FirstSeenAppend(init, x, key);
      GatheredAppend(init, x, key, p);
      if key(x) !in p {
        SelectNonEmpty(init, key, key(x));
        SelectAppend(init, x, key, key(x));
        assert Gathered(s, key, p + [key(x)]) == Gathered(s, key, p) + multiset(Select(s, key, key(x)));
      }
    }
  }

  /** `v` after `add` has been applied with each element of `xs` in turn. */
  function Fold<T, V>(v: V, xs: seq<T>, add: (V, T) -> V): V
    decreases |xs|
  {
    if xs == [] then v else add(Fold(v, xs[..|xs| - 1], add), xs[|xs| - 1])
  }

  /** The source's upsert `if (!t[k]) t[k] = create(x); add(t[k], x)`. */
  function Upsert<T, V>(t: Table<string, V>, k: string, x: T, create: T -> V, add: (V, T) -> V): Table<string, V>
  {
    if k in t.entries then Table(t.keys, t.entries[k := add(t.entries[k], x)])
    else Table(t.keys + [k], t.entries[k := add(create(x), x)])
  }

  /** The source's upsert, written as "create if missing, then add", is `Upsert`. */
  lemma UpsertInTwoSteps<T, V>(t: Table<string, V>, k: string, x: T, create: T -> V, add: (V, T) -> V)
    ensures var t1 := if k in t.entries then t else Table(t.keys + [k], t.entries[k := create(x)]);
            Upsert(t, k, x, create, add) == Table(t1.keys, t1.entries[k := add(t1.entries[k], x)])
  {
    if k !in t.entries {
      assert t.entries[k := create(x)][k := add(create(x), x)] == t.entries[k := add(create(x), x)];
    }
  }

  /** The dictionary an upsert loop over `s` builds, one step per element. */
  function Grouped<T, V>(s: seq<T>, key: T -> string, create: T -> V, add: (V, T) -> V): Table<string, V>
    decreases |s|
  {
    if s == [] then Table([], map[])
    else
      var n := |s| - 1;
      Upsert(Grouped(s[..n], key, create, add), key(s[n]), s[n], create, add)
  }

  /** The group of key `k` in closed form: created from its first member, then every member
      added in input order. */
  function GroupOf<T, V>(s: seq<T>, key: T -> string, create: T -> V, add: (V, T) -> V, k: string): V
    requires Select(s, key, k) != []
  {
    Fold(create(Select(s, key, k)[0]), Select(s, key, k), add)
  }

  /** The upsert loop yields a well-formed dictionary whose keys are those of `s` in
      first-seen order, and whose group for each key is created from the first element with
      that key and then receives all elements with that key, in input order. */
  lemma {:induction false} GroupedShape<T, V>(s: seq<T>, key: T -> string, create: T -> V, add: (V, T) -> V)
    ensures Grouped(s, key, create, add).Valid()
    ensures Grouped(s, key, create, add).keys == FirstSeen(s, key)
    ensures forall k :: k in Grouped(s, key, create, add).entries ==>
              && Select(s, key, k) != []
              && Grouped(s, key, create, add).entries[k] == GroupOf(s, key, create, add, k)
    decreases |s|
  {
    if s != [] {
      var n := |s| - 1;
      var init, x := s[..n], s[n];
      assert s == init + [x];
      GroupedShape(init, key, create, add);
      FirstSeenAppend(init, x, key);
      forall k | k in Grouped(s, key, create, add).entries
        ensures Select(s, key, k) != []
        ensures Grouped(s, key, create, add).entries[k] == GroupOf(s, key, create, add, k)
      {
        GroupStep(Grouped(init, key, create, add), init, x, key, create, add, k);
      }
    }
  }

  /** The group of one key: its first member has that key, and it is that member's new group
      with all the members added in input order. */
  lemma GroupAt<T, V>(s: seq<T>, key: T -> string, create: T -> V, add: (V, T) -> V, k: string)
    requires k in Grouped(s, key, create, add).entries
    ensures Select(s, key, k) != [] && key(Select(s, key, k)[0]) == k
    ensures Grouped(s, key, create, add).entries[k] == Fold(create(Select(s, key, k)[0]), Select(s, key, k), add)
  {
    GroupedShape(s, key, create, add);
    SelectMembers(s, key, k);
    assert Select(s, key, k)[0] in Select(s, key, k);
  }

  /** The group of one key after one more upsert, given the closed form before. */
  lemma GroupStep<T, V>(g: Table<string, V>, s: seq<T>, x: T, key: T -> string, create: T -> V, add: (V, T) -> V, k: string)
    requires k in g.entries <==> k in FirstSeen(s, key)
    requires key(x) in g.entries <==> key(x) in FirstSeen(s, key)
    requires k in g.entries ==> Select(s, key, k) != [] && g.entries[k] == GroupOf(s, key, create, add, k)
    requires k in FirstSeen(s + [x], key)
    ensures Select(s + [x], key, k) != []
    ensures k in Upsert(g, key(x), x, create, add).entries
    ensures GroupOf(s + [x], key, create, add, k) == Upsert(g, key(x), x, create, add).entries[k]
  {
    FirstSeenAppend(s, x, key);
    SelectAppend(s, x, key, k);
    SelectNonEmpty(s, key, k);
    if k != key(x) {
      assert Select(s + [x], key, k) == Select(s, key, k);
    } else if k in g.entries {
      GroupGrows(s, x, key, create, add);
    } else {
      GroupStarts(s, x, key, create, add);
    }
  }

  /** A key already seen: its group receives `x`. */
  lemma GroupGrows<T, V>(s: seq<T>, x: T, key: T -> string, create: T -> V, add: (V, T) -> V)
    requires Select(s, key, key(x)) != []
    ensures Select(s + [x], key, key(x)) != []
    ensures GroupOf(s + [x], key, create, add, key(x)) == add(GroupOf(s, key, create, add, key(x)), x)
  {
    var sel := Select(s, key, key(x));
    SelectAppend(s, x, key, key(x));
    FoldAppend(create(sel[0]), sel, x, add);
    assert (sel + [x])[0] == sel[0];
  }

  /** A key seen for the first time: its group is created from `x` and receives `x`. */
  lemma GroupStarts<T, V>(s: seq<T>, x: T, key: T -> string, create: T -> V, add: (V, T) -> V)
    requires Select(s, key, key(x)) == []
    ensures Select(s + [x], key, key(x)) == [x]
    ensures GroupOf(s + [x], key, create, add, key(x)) == add(create(x), x)
  {
    SelectAppend(s, x, key, key(x));
    FoldAppend(create(x), [], x, add);
    assert [] + [x] == [x];
  }

  lemma FoldAppend<T, V>(v: V, xs: seq<T>, x: T, add: (V, T) -> V)
    ensures Fold(v, xs + [x], add) == add(Fold(v, xs, add), x)
  {
    assert (xs + [x])[..|xs|] == xs;
  }

  /** `map` over a sequence. */
  function Lines<T, L>(s: seq<T>, line: T -> L): (r: seq<L>)
    ensures |r| == |s|
    ensures forall i :: 0 <= i < |s| ==> r[i] == line(s[i])
    decreases |s|
  {
    if s == [] then [] else Lines(s[..|s| - 1], line) + [line(s[|s| - 1])]
  }

  /** A group of lines under one counterpart: the flag of the first line and the lines. */
  datatype Bucket<G, L> = Bucket(flag: G, orders: seq<L>)

  /** `{flag: flag(x), orders: []}`. */
  function NewBucket<T, G, L>(flag: T -> G): T -> Bucket<G, L>
  {
    x => Bucket(flag(x), [])
  }

  /** `b.orders.push(line(x))`. */
  function PushLine<T, G, L>(line: T -> L): (Bucket<G, L>, T) -> Bucket<G, L>
  {
    (b: Bucket<G, L>, x: T) => b.(orders := b.orders + [line(x)])
  }

  /** `b.orders.push(x)`. */
  function Push<T, G>(): (Bucket<G, T>, T) -> Bucket<G, T>
  {
    (b: Bucket<G, T>, x: T) => b.(orders := b.orders + [x])
  }

  /** Pushing the lines one at a time leaves the flag and collects the lines in order. */
  lemma {:induction false} PushLines<T, G, L>(f: G, xs: seq<T>, line: T -> L)
    ensures Fold(Bucket(f, []), xs, PushLine(line)) == Bucket(f, Lines(xs, line))
    decreases |xs|
  {
    if xs != [] {
      PushLines(f, xs[..|xs| - 1], line);
    }
  }

  lemma {:induction false} PushAll<T, G>(f: G, xs: seq<T>)
    ensures Fold(Bucket(f, []), xs, Push()) == Bucket(f, xs)
    decreases |xs|
  {
    if xs != [] {
      var n := |xs| - 1;
      PushAll(f, xs[..n]);
      assert xs[..n] + [xs[n]] == xs;
    }
  }

  /** The source's loop `lines.forEach(l => { if (!t[k(l)]) t[k(l)] = {flag: flag(l), orders: []};
      t[k(l)].orders.push(l) })`: one bucket per counterpart, in first-seen order, each with
      the flag of its first line and all its lines in input order. */
  method GroupByCounterpart<T, G>(s: seq<T>, key: T -> string, flag: T -> G)
    returns (t: Table<string, Bucket<G, T>>)
    ensures t == Grouped(s, key, NewBucket(flag), Push())
    ensures t.Valid() && t.keys == FirstSeen(s, key)
    ensures forall k :: k in t.entries ==>
              && Select(s, key, k) != []
              && t.entries[k] == Bucket(flag(Select(s, key, k)[0]), Select(s, key, k))
  {
    t := Table([], map[]);
    var i := 0;
    while i < |s|
      invariant 0 <= i <= |s|
      invariant t == Grouped(s[..i], key, NewBucket(flag), Push())
    {
      assert s[..i + 1][..i] == s[..i];
      var k := key(s[i]);
      if k !in t.entries {
        t := Table(t.keys + [k], t.entries[k := Bucket(flag(s[i]), [])]);
      }
      t := Table(t.keys, t.entries[k := t.entries[k].(orders := t.entries[k].orders + [s[i]])]);
      i := i + 1;
    }
    assert s[..i] == s;
    GroupedShape(s, key, NewBucket(flag), Push());
    forall k | k in t.entries
      ensures t.entries[k] == Bucket(flag(Select(s, key, k)[0]), Select(s, key, k))
    {
      PushAll(flag(Select(s, key, k)[0]), Select(s, key, k));
    }
  }

  /** Every line of a group lands in exactly one bucket: put back together, the buckets
      hold the group's lines exactly as often as the group does, and each bucket keeps
      input order. */
  lemma BucketsPartition<T, G>(s: seq<T>, key: T -> string, flag: T -> G)
    ensures var t := Grouped(s, key, NewBucket(flag), Push());
            && Gathered(s, key, t.keys) == multiset(s)
            && forall k :: k in t.entries ==> t.entries[k].orders == Select(s, key, k)
  {
    GroupedShape(s, key, NewBucket(flag), Push());
    GroupsPartition(s, key);
    var t := Grouped(s, key, NewBucket(flag), Push());
    forall k | k in t.entries
      ensures t.entries[k].orders == Select(s, key, k)
    {
      PushAll(flag(Select(s, key, k)[0]), Select(s, key, k));
    }
  }

  /** The elements of `s` that satisfy `p`, in input order. */
  function Filter<T>(s: seq<T>, p: T -> bool): (r: seq<T>)
    ensures |r| <= |s|
    ensures forall x :: x in r ==> x in s && p(x)
    ensures forall x :: x in s && p(x) ==> x in r
    decreases |s|
  {
    if s == [] then []
    else
      var n := |s| - 1;
      Filter(s[..n], p) + (if p(s[n]) then [s[n]] else [])
  }

  lemma FilterAppend<T>(s: seq<T>, x: T, p: T -> bool)
    ensures Filter(s + [x], p) == Filter(s, p) + (if p(x) then [x] else [])
  {
    assert (s + [x])[..|s|] == s;
  }

  /** When `p` holds exactly where one of the exclusive `q` and `r` does, filtering by `q`
      and by `r` splits the elements filtered by `p` between them. */
  lemma {:induction false} FilterPartition<T>(s: seq<T>, p: T -> bool, q: T -> bool, r: T -> bool)
    requires forall i :: 0 <= i < |s| ==> (p(s[i]) <==> q(s[i]) || r(s[i]))
    requires forall i :: 0 <= i < |s| ==> !(q(s[i]) && r(s[i]))
    ensures multiset(Filter(s, q)) + multiset(Filter(s, r)) == multiset(Filter(s, p))
    decreases |s|
  {
    if s != [] {
      var n := |s| - 1;
      assert s[..n] + [s[n]] == s;
      FilterPartition(s[..n], p, q, r);
      FilterAppend(s[..n], s[n], p);
      FilterAppend(s[..n], s[n], q);
      FilterAppend(s[..n], s[n], r);
    }
  }

  /** The first element of a group drawn from a filtered sequence is the first element of
      the whole sequence that passes the filter and has that key. */
  lemma {:induction false} FilterSelectHead<T, K(!new)>(s: seq<T>, p: T -> bool, key: T -> K, k: K)
    requires Select(Filter(s, p), key, k) != []
    ensures exists i ::
              && 0 <= i < |s| && p(s[i]) && key(s[i]) == k && Select(Filter(s, p), key, k)[0] == s[i]
              && (forall j :: 0 <= j < i ==> !(p(s[j]) && key(s[j]) == k))
    decreases |s|
  {
    var n := |s| - 1;
    var init, x := s[..n], s[n];
    assert s == init + [x];
    SelectFilterAppend(init, x, p, key, k);
    if Select(Filter(init, p), key, k) != [] {
      FilterSelectHead(init, p, key, k);
      var i :| && 0 <= i < |init| && p(init[i]) && key(init[i]) == k
               && Select(Filter(init, p), key, k)[0] == init[i]
               && (forall j :: 0 <= j < i ==> !(p(init[j]) && key(init[j]) == k));
      assert s[i] == init[i];
      assert forall j :: 0 <= j < i ==> s[j] == init[j];
      assert Select(Filter(s, p), key, k)[0] == s[i];
    } else {
      assert p(x) && key(x) == k;
      assert Select(Filter(s, p), key, k)[0] == s[n];
      SelectMembers(Filter(init, p), key, k);
      forall j | 0 <= j < n
        ensures !(p(s[j]) && key(s[j]) == k)
      {
        assert s[j] == init[j] && init[j] in init;
      }
    }
  }

  lemma SelectFilterAppend<T, K(!new)>(s: seq<T>, x: T, p: T -> bool, key: T -> K, k: K)
    ensures Select(Filter(s + [x], p), key, k)
            == Select(Filter(s, p), key, k) + (if p(x) && key(x) == k then [x] else [])
  {
    FilterAppend(s, x, p);
    if p(x) {
      SelectAppend(Filter(s, p), x, key, k);
    } else {
      assert Filter(s + [x], p) == Filter(s, p);
    }
  }

  /** The set of keys of the elements of `s`. */
  function KeysOf<T, K(==,!new)>(s: seq<T>, key: T -> K): (ks: set<K>)
    ensures forall k :: k in ks <==> exists i :: 0 <= i < |s| && key(s[i]) == k
    decreases |s|
  {
    if s == [] then {}
    else
      var n := |s| - 1;
      assert forall i :: 0 <= i < n ==> s[..n][i] == s[i];
      KeysOf(s[..n], key) + {key(s[n])}
  }

  /** No two elements of `s` share a key. */
  predicate KeysDistinct<T, K(==,!new)>(s: seq<T>, key: T -> K)
  {
    forall i, j :: 0 <= i < j < |s| ==> key(s[i]) != key(s[j])
  }

  /** Counting distinct keys: never more than the elements, and exactly as many when, and
      only when, no key repeats. */
  lemma {:induction false} KeysOfCount<T, K(!new)>(s: seq<T>, key: T -> K)
    ensures |KeysOf(s, key)| <= |s|
    ensures |KeysOf(s, key)| == |s| <==> KeysDistinct(s, key)
    decreases |s|
  {
    if s != [] {
      var n := |s| - 1;
      var init, x := s[..n], s[n];
      assert s == init + [x];
      KeysOfCount(init, key);
      KeysOfAppend(init, x, key);
      if key(x) in KeysOf(init, key) {
        assert KeysOf(s, key) == KeysOf(init, key);
        assert !KeysDistinct(s, key) by {
          var i :| 0 <= i < n && key(init[i]) == key(x);
          assert key(s[i]) == key(s[n]);
        }
      } else {
        assert |KeysOf(s, key)| == |KeysOf(init, key)| + 1;
        KeysDistinctAppend(init, x, key);
      }
    }
  }

  lemma KeysDistinctAppend<T, K(!new)>(s: seq<T>, x: T, key: T -> K)
    requires key(x) !in KeysOf(s, key)
    ensures KeysDistinct(s + [x], key) <==> KeysDistinct(s, key)
  {
    var t := s + [x];
    if KeysDistinct(s, key) {
      forall i, j | 0 <= i < j < |t|
        ensures key(t[i]) != key(t[j])
      {
        assert t[i] == s[i];
        if j < |s| {
          assert t[j] == s[j];
        }
      }
    } else {
      var i, j :| 0 <= i < j < |s| && key(s[i]) == key(s[j]);
      assert t[i] == s[i] && t[j] == s[j];
    }
  }

  /** The table with `f` applied to every value, keys and their order unchanged. */
  function MapValues<V, W>(t: Table<string, V>, f: V -> W): (r: Table<string, W>)
    ensures r.keys == t.keys && r.entries.Keys == t.entries.Keys
    ensures forall k :: k in t.entries ==> r.entries[k] == f(t.entries[k])
  {
    Table(t.keys, map k | k in t.entries :: f(t.entries[k]))
  }

  lemma KeysOfAppend<T, K(!new)>(s: seq<T>, x: T, key: T -> K)
    ensures KeysOf(s + [x], key) == KeysOf(s, key) + {key(x)}
  {
    assert (s + [x])[..|s|] == s;
  }

  /** One more element adds its key to the keys of the filtered elements exactly when it
      passes the filter. */
  lemma KeysOfFilterAppend<T, K(!new)>(s: seq<T>, x: T, p: T -> bool, key: T -> K)
    ensures KeysOf(Filter(s + [x], p), key) == KeysOf(Filter(s, p), key) + (if p(x) then {key(x)} else {})
  {
    FilterAppend(s, x, p);
    if p(x) {
      KeysOfAppend(Filter(s, p), x, key);
    } else {
      assert Filter(s + [x], p) == Filter(s, p);
    }
  }

  /** A filtered element has key `k` exactly when some element of the whole sequence passes
      the filter and has key `k`. */
  lemma FilterHasKey<T, K(!new)>(s: seq<T>, p: T -> bool, key: T -> K, k: K)
    ensures (exists j :: 0 <= j < |Filter(s, p)| && key(Filter(s, p)[j]) == k)
            <==> exists i :: 0 <= i < |s| && p(s[i]) && key(s[i]) == k
  {
    var r := Filter(s, p);
    if exists j :: 0 <= j < |r| && key(r[j]) == k {
      var j :| 0 <= j < |r| && key(r[j]) == k;
      assert r[j] in r;
      var i :| 0 <= i < |s| && s[i] == r[j];
      assert p(s[i]) && key(s[i]) == k;
    }
    if exists i :: 0 <= i < |s| && p(s[i]) && key(s[i]) == k {
      var i :| 0 <= i < |s| && p(s[i]) && key(s[i]) == k;
      assert s[i] in s;
      assert s[i] in r;
      var j :| 0 <= j < |r| && r[j] == s[i];
      assert key(r[j]) == k;
      assert exists j :: 0 <= j < |Filter(s, p)| && key(Filter(s, p)[j]) == k;
    }
  }

  /** The keys of the filtered elements are the keys of the elements that pass the filter. */
  lemma KeysOfFilter<T, K(!new)>(s: seq<T>, p: T -> bool, key: T -> K, k: K)
    ensures k in KeysOf(Filter(s, p), key) <==> exists i :: 0 <= i < |s| && p(s[i]) && key(s[i]) == k
  {
    FilterHasKey(s, p, key, k);
  }

  /** Grouping the filtered elements: a well-formed dictionary, keys in first-seen order,
      with a group for `k` exactly when some element passing the filter has key `k`. */
  lemma GroupedFilterKeys<T, V>(s: seq<T>, p: T -> bool, key: T -> string, create: T -> V, add: (V, T) -> V, k: string)
    ensures Grouped(Filter(s, p), key, create, add).Valid()
    ensures Grouped(Filter(s, p), key, create, add).keys == FirstSeen(Filter(s, p), key)
    ensures k in Grouped(Filter(s, p), key, create, add).entries
            <==> exists i :: 0 <= i < |s| && p(s[i]) && key(s[i]) == k
  {
    GroupedShape(Filter(s, p), key, create, add);
    FilterHasKey(s, p, key, k);
  }

  /** One more element is upserted into the grouping of the filtered elements exactly when it
      passes the filter. */
  lemma GroupedFilterAppend<T, V>(s: seq<T>, x: T, p: T -> bool, key: T -> string, create: T -> V, add: (V, T) -> V)
    ensures Grouped(Filter(s + [x], p), key, create, add)
            == if p(x) then Upsert(Grouped(Filter(s, p), key, create, add), key(x), x, create, add)
               else Grouped(Filter(s, p), key, create, add)
  {
    FilterAppend(s, x, p);
    if p(x) {
      assert (Filter(s, p) + [x])[..|Filter(s, p)|] == Filter(s, p);
    } else {
      assert Filter(s + [x], p) == Filter(s, p);
    }
  }

  /** `s.findIndex(p)`: the first position where `p` holds, or -1. */
  function FindIndex<T>(s: seq<T>, p: T -> bool): (r: int)
    ensures -1 <= r < |s|
    ensures r == -1 <==> forall i :: 0 <= i < |s| ==> !p(s[i])
    ensures r >= 0 ==> p(s[r]) && forall i :: 0 <= i < r ==> !p(s[i])
    decreases |s|
  {
    if s == [] then -1
    else if p(s[0]) then 0
    else
      var r := FindIndex(s[1..], p);
      if r == -1 then -1 else r + 1
  }

  /** The first element with each key, in first-seen order: what a loop builds that pushes
      an element unless `findIndex` finds one with the same key already pushed. */
  function Firsts<T, K(==,!new)>(s: seq<T>, key: T -> K): (r: seq<T>)
    ensures |r| == |FirstSeen(s, key)|
    ensures forall i :: 0 <= i < |r| ==> key(r[i]) == FirstSeen(s, key)[i]
    decreases |s|
  {
    if s == [] then []
    else
      var n := |s| - 1;
      var p := Firsts(s[..n], key);
      if key(s[n]) in FirstSeen(s[..n], key) then p else p + [s[n]]
  }

  /** Each element `Firsts` keeps is the head of its key's group, that is, the first
      element of `s` with that key. */
  lemma {:induction false} FirstsAreHeads<T, K(!new)>(s: seq<T>, key: T -> K)
    ensures forall i :: 0 <= i < |Firsts(s, key)| ==>
              && Select(s, key, FirstSeen(s, key)[i]) != []
              && Firsts(s, key)[i] == Select(s, key, FirstSeen(s, key)[i])[0]
    decreases |s|
  {
    if s != [] {
      var n := |s| - 1;
      var init, x := s[..n], s[n];
      assert s == init + [x];
      FirstsAreHeads(init, key);
      FirstSeenAppend(init, x, key);
      var ks := FirstSeen(init, key);
      forall i | 0 <= i < |Firsts(s, key)|
        ensures Select(s, key, FirstSeen(s, key)[i]) != []
        ensures Firsts(s, key)[i] == Select(s, key, FirstSeen(s, key)[i])[0]
      {
        var k := FirstSeen(s, key)[i];
        SelectAppend(init, x, key, k);
        if i < |ks| {
          assert k == ks[i];
          assert Firsts(s, key)[i] == Firsts(init, key)[i];
        } else {
          assert k == key(x) && k !in ks;
          SelectNonEmpty(init, key, k);
        }
      }
    }
  }

  /** One more element extends `Firsts` of the filtered elements exactly when it passes the
      filter with a key not seen before. */
  lemma FirstsFilterAppend<T, K(!new)>(s: seq<T>, x: T, p: T -> bool, key: T -> K)
    ensures Firsts(Filter(s + [x], p), key)
            == if p(x) && key(x) !in FirstSeen(Filter(s, p), key) then Firsts(Filter(s, p), key) + [x]
               else Firsts(Filter(s, p), key)
  {
    FilterAppend(s, x, p);
    if p(x) {
      assert (Filter(s, p) + [x])[..|Filter(s, p)|] == Filter(s, p);
    } else {
      assert Filter(s + [x], p) == Filter(s, p);
    }
  }

  /** Drawn from the elements of `d` that pass `p`, the `i`-th kept element is the first
      element of `d` that passes with the `i`-th key. */
  lemma FirstOfFilterAt<T, K(!new)>(d: seq<T>, p: T -> bool, key: T -> K, i: int)
    requires 0 <= i < |Firsts(Filter(d, p), key)|
    ensures exists j :: && 0 <= j < |d| && p(d[j]) && key(d[j]) == FirstSeen(Filter(d, p), key)[i]
                        && Firsts(Filter(d, p), key)[i] == d[j]
                        && forall m :: 0 <= m < j ==> !(p(d[m]) && key(d[m]) == FirstSeen(Filter(d, p), key)[i])
  {
    var e := Filter(d, p);
    var k := FirstSeen(e, key)[i];
    FirstsAreHeads(e, key);
    assert Select(e, key, k) != [] && Firsts(e, key)[i] == Select(e, key, k)[0];
    FilterSelectHead(d, p, key, k);
  }

  /** Every element of `d` that passes `p` has its key among the kept keys. */
  lemma FilterKeySeen<T, K(!new)>(d: seq<T>, p: T -> bool, key: T -> K, j: int)
    requires 0 <= j < |d| && p(d[j])
    ensures key(d[j]) in FirstSeen(Filter(d, p), key)
  {
    var x := d[j];
    assert x in d;
    assert x in Filter(d, p);
    var m :| 0 <= m < |Filter(d, p)| && Filter(d, p)[m] == x;
  }
}
