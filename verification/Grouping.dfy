/** Grouping, gathering and what permuting their input leaves unchanged. */
module Grouping {
  import opened Sorting

  /** Distinct keys in order of first occurrence. */
  function Keys<T, K(==)>(xs: seq<T>, keyOf: T -> K): seq<K> {
    if xs == [] then []
    else
      var front, key := Keys(xs[..|xs| - 1], keyOf), keyOf(xs[|xs| - 1]);
      if key in front then front else front + [key]
  }

  /** The elements with one key, in input order. */
  function Group<T, K(==)>(xs: seq<T>, keyOf: T -> K, key: K): seq<T> {
    if xs == [] then []
    else
      var front, last := Group(xs[..|xs| - 1], keyOf, key), xs[|xs| - 1];
      if keyOf(last) == key then front + [last] else front
  }

  /** Concatenation of f over the elements: maps, filters and per-group results. */
  function Gather<A, B>(xs: seq<A>, f: A -> seq<B>): seq<B> {
    if xs == [] then [] else Gather(xs[..|xs| - 1], f) + f(xs[|xs| - 1])
  }

  /** groupBy: one pass over the values, with the keys in insertion order. */
  method GroupBy<T, K(!new, ==)>(values: seq<T>, keyOf: T -> K) returns (order: seq<K>, grouped: map<K, seq<T>>)
    ensures order == Keys(values, keyOf)
    ensures grouped == map k | k in Keys(values, keyOf) :: Group(values, keyOf, k)
  {
    order, grouped := [], map[];
    for i := 0 to |values|
      invariant order == Keys(values[..i], keyOf)
      invariant grouped == map k | k in Keys(values[..i], keyOf) :: Group(values[..i], keyOf, k)
    {
      var value := values[i];
      var key := keyOf(value);
      assert values[..i + 1] == values[..i] + [value];
      forall k ensures Group(values[..i + 1], keyOf, k) == Group(values[..i], keyOf, k) + if key == k then [value] else [] {
        GroupStep(values[..i], value, keyOf, k);
      }
      KeysStep(values[..i], value, keyOf);
      forall k | k !in order ensures Group(values[..i], keyOf, k) == [] { NoGroup(values[..i], keyOf, k); }
      ghost var before := grouped;
      if key !in grouped {
        grouped := grouped[key := [value]];
        order := order + [key];
      } else {
        grouped := grouped[key := grouped[key] + [value]];
      }
      forall k | k in grouped ensures grouped[k] == Group(values[..i + 1], keyOf, k) {
        if k != key { assert k in before; }
      }
    }
    assert values[..|values|] == values;
  }

  lemma GroupStep<T, K>(xs: seq<T>, x: T, keyOf: T -> K, key: K)
    ensures Group(xs + [x], keyOf, key) == Group(xs, keyOf, key) + if keyOf(x) == key then [x] else []
  {
    assert (xs + [x])[..|xs|] == xs;
  }

  lemma KeysStep<T, K>(xs: seq<T>, x: T, keyOf: T -> K)
    ensures Keys(xs + [x], keyOf) == Keys(xs, keyOf) + if keyOf(x) in Keys(xs, keyOf) then [] else [keyOf(x)]
  {
    assert (xs + [x])[..|xs|] == xs;
  }

  lemma {:induction false} NoGroup<T, K>(xs: seq<T>, keyOf: T -> K, key: K)
    requires key !in Keys(xs, keyOf)
    ensures Group(xs, keyOf, key) == []
  {
    if xs != [] { NoGroup(xs[..|xs| - 1], keyOf, key); }
  }

  // ----- keys

  lemma {:induction false} KeysDistinct<T, K(!new)>(xs: seq<T>, keyOf: T -> K)
    ensures NoDuplicates(Keys(xs, keyOf))
  {
    if xs != [] { KeysDistinct(xs[..|xs| - 1], keyOf); }
  }

  lemma {:induction false} KeysAre<T(!new), K(!new)>(xs: seq<T>, keyOf: T -> K)
    ensures forall x :: x in xs ==> keyOf(x) in Keys(xs, keyOf)
    ensures forall k :: k in Keys(xs, keyOf) ==> exists x :: x in xs && keyOf(x) == k
  {
    if xs != [] {
      var n := |xs| - 1;
      KeysAre(xs[..n], keyOf);
      assert xs == xs[..n] + [xs[n]];
      assert forall x :: x in xs[..n] ==> x in xs;
      assert xs[n] in xs;
    }
  }

  /** Sequences without duplicates and with the same members are permutations of each other. */
  lemma SameMembersPermute<T(!new)>(xs: seq<T>, ys: seq<T>)
    requires NoDuplicates(xs) && NoDuplicates(ys) && forall a :: a in xs <==> a in ys
    ensures multiset(xs) == multiset(ys)
  {
    NoDuplicatesCounted(xs);
    NoDuplicatesCounted(ys);
    forall a ensures multiset(xs)[a] == multiset(ys)[a] {
      assert a in multiset(xs) <==> a in xs;
      assert a in multiset(ys) <==> a in ys;
    }
  }

  lemma SameMembers<T(!new)>(xs: seq<T>, ys: seq<T>)
    requires multiset(xs) == multiset(ys)
    ensures forall a :: a in xs <==> a in ys
  {
    forall a ensures a in xs <==> a in ys {
      assert a in multiset(xs) <==> a in xs;
      assert a in multiset(ys) <==> a in ys;
    }
  }

  lemma KeysPermute<T(!new), K(!new)>(xs: seq<T>, ys: seq<T>, keyOf: T -> K)
    requires multiset(xs) == multiset(ys)
    ensures multiset(Keys(xs, keyOf)) == multiset(Keys(ys, keyOf))
  {
    KeysDistinct(xs, keyOf);
    KeysDistinct(ys, keyOf);
    KeysAre(xs, keyOf);
    KeysAre(ys, keyOf);
    SameMembers(xs, ys);
    SameMembersPermute(Keys(xs, keyOf), Keys(ys, keyOf));
  }

  // ----- groups

  lemma {:induction false} GroupCounts<T(!new), K>(xs: seq<T>, keyOf: T -> K, key: K)
    ensures forall x :: multiset(Group(xs, keyOf, key))[x] == if keyOf(x) == key then multiset(xs)[x] else 0
  {
    if xs != [] {
      var n := |xs| - 1;
      GroupCounts(xs[..n], keyOf, key);
      DropLast(xs);
      assert multiset(xs) == multiset(xs[..n]) + multiset{xs[n]};
    }
  }

  lemma GroupMembers<T(!new), K(!new)>(xs: seq<T>, keyOf: T -> K, key: K)
    ensures forall x :: x in Group(xs, keyOf, key) <==> x in xs && keyOf(x) == key
    ensures key in Keys(xs, keyOf) <==> Group(xs, keyOf, key) != []
  {
    GroupCounts(xs, keyOf, key);
    forall x ensures x in Group(xs, keyOf, key) <==> x in xs && keyOf(x) == key {
      assert x in multiset(Group(xs, keyOf, key)) <==> x in Group(xs, keyOf, key);
      assert x in multiset(xs) <==> x in xs;
    }
    KeysAre(xs, keyOf);
    if key in Keys(xs, keyOf) {
      var x :| x in xs && keyOf(x) == key;
      assert x in Group(xs, keyOf, key);
    } else {
      NoGroup(xs, keyOf, key);
    }
  }

  lemma GroupPermutes<T(!new), K>(xs: seq<T>, ys: seq<T>, keyOf: T -> K, key: K)
    requires multiset(xs) == multiset(ys)
    ensures multiset(Group(xs, keyOf, key)) == multiset(Group(ys, keyOf, key))
    ensures |Group(xs, keyOf, key)| == |Group(ys, keyOf, key)|
  {
    GroupCounts(xs, keyOf, key);
    GroupCounts(ys, keyOf, key);
    SameSize(Group(xs, keyOf, key), Group(ys, keyOf, key));
  }

  // ----- gathering

  lemma {:induction false} GatherSplit<A, B>(xs: seq<A>, ys: seq<A>, f: A -> seq<B>)
    ensures Gather(xs + ys, f) == Gather(xs, f) + Gather(ys, f)
  {
    if ys == [] {
      assert xs + ys == xs;
    } else {
      var n := |ys| - 1;
      assert (xs + ys)[..|xs| + n] == xs + ys[..n];
      GatherSplit(xs, ys[..n], f);
    }
  }

  lemma GatherOne<A, B>(x: A, f: A -> seq<B>)
    ensures Gather([x], f) == f(x)
  {
    assert [x][..0] == [];
    assert Gather([], f) == [];
  }

  /** One element more contributes what it yields, wherever it stands. */
  lemma GatherAround<A, B>(a: seq<A>, x: A, b: seq<A>, f: A -> seq<B>)
    ensures multiset(Gather(a + [x] + b, f)) == multiset(Gather(a + b, f)) + multiset(f(x))
  {
    GatherSplit(a + [x], b, f);
    GatherSplit(a, [x], f);
    GatherOne(x, f);
    GatherSplit(a, b, f);
    hide Gather;
  }

  /** The multiset gathered depends on the multiset of elements and of what each yields. */
  lemma {:induction false} GatherPermutes<A(!new), B>(xs: seq<A>, ys: seq<A>, f: A -> seq<B>, g: A -> seq<B>)
    requires multiset(xs) == multiset(ys)
    requires forall x :: x in xs ==> multiset(f(x)) == multiset(g(x))
    ensures multiset(Gather(xs, f)) == multiset(Gather(ys, g))
    decreases |xs|
  {
    SameSize(xs, ys);
    if xs != [] {
      var n := |xs| - 1;
      var last := xs[n];
      DropLast(xs);
      GatherLast(xs, f);
      hide Gather;
      var i := Occurrence(xs, ys);
      var rest := ys[..i] + ys[i + 1..];
      TakeOut(ys, i);
      GatherPermutes(xs[..n], rest, f, g);
      GatherAround(ys[..i], last, ys[i + 1..], g);
    }
  }

  lemma GatherLast<A, B>(xs: seq<A>, f: A -> seq<B>)
    requires xs != []
    ensures multiset(Gather(xs, f)) == multiset(Gather(xs[..|xs| - 1], f)) + multiset(f(xs[|xs| - 1]))
  {
  }

  /** Where the last element of one sequence stands in a permutation of it. */
  lemma Occurrence<T>(xs: seq<T>, ys: seq<T>) returns (i: nat)
    requires multiset(xs) == multiset(ys) && xs != []
    ensures i < |ys| && ys[i] == xs[|xs| - 1]
  {
    assert xs[|xs| - 1] in multiset(ys);
    i :| 0 <= i < |ys| && ys[i] == xs[|xs| - 1];
  }

  lemma TakeOut<T>(ys: seq<T>, i: nat)
    requires i < |ys|
    ensures ys == ys[..i] + [ys[i]] + ys[i + 1..]
    ensures multiset(ys[..i] + ys[i + 1..]) == multiset(ys) - multiset{ys[i]}
  {
    assert ys == ys[..i] + [ys[i]] + ys[i + 1..];
  }

  lemma {:induction false} GatherMembers<A(!new), B(!new)>(xs: seq<A>, f: A -> seq<B>)
    ensures forall b :: b in Gather(xs, f) <==> exists x :: x in xs && b in f(x)
  {
    if xs != [] {
      var n := |xs| - 1;
      GatherMembers(xs[..n], f);
      DropLast(xs);
      assert xs[n] in xs;
      forall x | x in xs ensures x in xs[..n] || x == xs[n] {}
    }
  }

  /** Distinct elements that yield disjoint, duplicate-free results gather without duplicates. */
  lemma {:induction false} GatherNoDuplicates<A(!new), B(!new)>(xs: seq<A>, f: A -> seq<B>)
    requires NoDuplicates(xs) && forall x :: x in xs ==> NoDuplicates(f(x))
    requires forall x, y, b :: x in xs && y in xs && b in f(x) && b in f(y) ==> x == y
    ensures NoDuplicates(Gather(xs, f))
  {
    if xs != [] {
      var n := |xs| - 1;
      DropLast(xs);
      GatherNoDuplicates(xs[..n], f);
      GatherMembers(xs[..n], f);
      var front, last := Gather(xs[..n], f), f(xs[n]);
      assert xs[n] in xs && xs[n] !in xs[..n];
      forall b | b in front ensures b !in last {
        var x :| x in xs[..n] && b in f(x);
        assert x in xs && x != xs[n];
      }
      NoDuplicatesJoin(front, last);
    }
  }

  lemma NoDuplicatesJoin<T(!new)>(xs: seq<T>, ys: seq<T>)
    requires NoDuplicates(xs) && NoDuplicates(ys) && forall b :: b in xs ==> b !in ys
    ensures NoDuplicates(xs + ys)
  {
    forall i, j | 0 <= i < j < |xs + ys| ensures (xs + ys)[i] != (xs + ys)[j] {
      if i < |xs| <= j { assert xs[i] in xs && ys[j - |xs|] in ys; }
    }
  }

  // ----- counting

  function Sum<A>(xs: seq<A>, f: A -> int): int {
    if xs == [] then 0 else Sum(xs[..|xs| - 1], f) + f(xs[|xs| - 1])
  }

  lemma {:induction false} GatherCounts<A(!new), B>(xs: seq<A>, f: A -> seq<B>, size: A -> int)
    requires forall x :: x in xs ==> size(x) == |f(x)|
    ensures |Gather(xs, f)| == Sum(xs, size)
  {
    if xs != [] { DropLast(xs); GatherCounts(xs[..|xs| - 1], f, size); assert xs[|xs| - 1] in xs; }
  }

  lemma {:induction false} SumSame<A(!new)>(xs: seq<A>, f: A -> int, g: A -> int)
    requires forall x :: x in xs ==> f(x) == g(x)
    ensures Sum(xs, f) == Sum(xs, g)
  {
    if xs != [] { DropLast(xs); SumSame(xs[..|xs| - 1], f, g); assert xs[|xs| - 1] in xs; }
  }

  /** Every element is in exactly one group: the group sizes add up. */
  lemma {:induction false} GroupSizes<T(!new), K(!new)>(xs: seq<T>, keyOf: T -> K, size: K -> int)
    requires forall k :: size(k) == |Group(xs, keyOf, k)|
    ensures Sum(Keys(xs, keyOf), size) == |xs|
  {
    if xs != [] {
      var n := |xs| - 1;
      var front, key := xs[..n], keyOf(xs[n]);
      var before := k => |Group(front, keyOf, k)|;
      GroupSizes(front, keyOf, before);
      KeysDistinct(front, keyOf);
      SumBump(Keys(front, keyOf), before, size, key);
      if key !in Keys(front, keyOf) { NoGroup(front, keyOf, key); }
    }
  }

  lemma {:induction false} SumBump<K(!new)>(ks: seq<K>, f: K -> int, g: K -> int, key: K)
    requires NoDuplicates(ks)
    requires forall k :: k in ks ==> g(k) == f(k) + if k == key then 1 else 0
    ensures Sum(ks, g) == Sum(ks, f) + if key in ks then 1 else 0
  {
    if ks != [] {
      var n := |ks| - 1;
      DropLast(ks);
      assert ks[n] in ks && ks[n] !in ks[..n];
      SumBump(ks[..n], f, g, key);
    }
  }
}
