/** The stable array sort of the host language, and what makes a sorted result independent of input order. */
module Sorting {
  import opened CodeUnits

  /** A total preorder: what a comparison function must be for sort to be well defined. */
  ghost predicate Preorder<T(!new)>(le: (T, T) -> bool) {
    && (forall a, b :: le(a, b) || le(b, a))
    && (forall a, b, c :: le(a, b) && le(b, c) ==> le(a, c))
  }

  ghost predicate Sorted<T>(xs: seq<T>, le: (T, T) -> bool) {
    forall i, j :: 0 <= i < j < |xs| ==> le(xs[i], xs[j])
  }

  /** Insert after every element not greater than x, which keeps the sort stable. */
  function Insert<T>(xs: seq<T>, x: T, le: (T, T) -> bool): seq<T> {
    if xs == [] || le(xs[|xs| - 1], x) then xs + [x]
    else Insert(xs[..|xs| - 1], x, le) + [xs[|xs| - 1]]
  }

  function Sort<T>(xs: seq<T>, le: (T, T) -> bool): seq<T> {
    if xs == [] then [] else Insert(Sort(xs[..|xs| - 1], le), xs[|xs| - 1], le)
  }

  lemma {:induction false} InsertPermutes<T>(xs: seq<T>, x: T, le: (T, T) -> bool)
    ensures multiset(Insert(xs, x, le)) == multiset(xs) + multiset{x}
    ensures |Insert(xs, x, le)| == |xs| + 1
  {
    if xs != [] && !le(xs[|xs| - 1], x) {
      InsertPermutes(xs[..|xs| - 1], x, le);
      assert xs == xs[..|xs| - 1] + [xs[|xs| - 1]];
    }
  }

  lemma {:induction false} SortPermutes<T>(xs: seq<T>, le: (T, T) -> bool)
    ensures multiset(Sort(xs, le)) == multiset(xs)
    ensures |Sort(xs, le)| == |xs|
  {
    if xs != [] {
      SortPermutes(xs[..|xs| - 1], le);
      InsertPermutes(Sort(xs[..|xs| - 1], le), xs[|xs| - 1], le);
      assert xs == xs[..|xs| - 1] + [xs[|xs| - 1]];
    }
  }

  lemma {:induction false} InsertSorts<T(!new)>(xs: seq<T>, x: T, le: (T, T) -> bool)
    requires Preorder(le) && Sorted(xs, le)
    ensures Sorted(Insert(xs, x, le), le)
  {
    if xs != [] && !le(xs[|xs| - 1], x) {
      var n := |xs| - 1;
      var rest := Insert(xs[..n], x, le);
      InsertSorts(xs[..n], x, le);
      InsertPermutes(xs[..n], x, le);
      forall i | 0 <= i < |rest| ensures le(rest[i], xs[n]) {
        assert rest[i] in multiset(rest);
        assert rest[i] in xs[..n] || rest[i] == x;
      }
    } else if xs != [] {
      var n := |xs| - 1;
      forall i | 0 <= i < |xs| ensures le(xs[i], x) {
        if i < n { assert le(xs[i], xs[n]); }
      }
    }
  }

  lemma {:induction false} SortSorts<T(!new)>(xs: seq<T>, le: (T, T) -> bool)
    requires Preorder(le)
    ensures Sorted(Sort(xs, le), le)
  {
    if xs != [] {
      SortSorts(xs[..|xs| - 1], le);
      InsertSorts(Sort(xs[..|xs| - 1], le), xs[|xs| - 1], le);
    }
  }

  /** Members of xs the order cannot tell apart are equal. */
  ghost predicate Distinguishes<T(!new)>(le: (T, T) -> bool, xs: seq<T>) {
    forall a, b :: a in xs && b in xs && le(a, b) && le(b, a) ==> a == b
  }

  lemma DropLast<T>(xs: seq<T>)
    requires xs != []
    ensures xs == xs[..|xs| - 1] + [xs[|xs| - 1]]
    ensures multiset(xs[..|xs| - 1]) == multiset(xs) - multiset{xs[|xs| - 1]}
    ensures forall a :: a in xs[..|xs| - 1] ==> a in xs
  {
    assert xs == xs[..|xs| - 1] + [xs[|xs| - 1]];
  }

  lemma GreatestAgree<T(!new)>(xs: seq<T>, ys: seq<T>, le: (T, T) -> bool)
    requires Sorted(xs, le) && Sorted(ys, le)
    requires xs != [] && ys != [] && multiset(xs) == multiset(ys)
    requires Distinguishes(le, xs)
    ensures xs[|xs| - 1] == ys[|ys| - 1]
  {
    var m, n := |xs| - 1, |ys| - 1;
    var a, b := xs[m], ys[n];
    assert a in multiset(ys) && b in multiset(xs);
    var i :| 0 <= i < |ys| && ys[i] == a;
    var j :| 0 <= j < |xs| && xs[j] == b;
    if i < n && j < m {
      assert le(ys[i], ys[n]) && le(xs[j], xs[m]);
    }
  }

  lemma FrontsAgree<T(!new)>(xs: seq<T>, ys: seq<T>, le: (T, T) -> bool)
    requires Sorted(xs, le) && Sorted(ys, le)
    requires xs != [] && ys != [] && multiset(xs) == multiset(ys)
    requires Distinguishes(le, xs)
    ensures var front, front' := xs[..|xs| - 1], ys[..|ys| - 1];
            && Sorted(front, le) && Sorted(front', le)
            && multiset(front) == multiset(front') && Distinguishes(le, front)
            && xs == front + [xs[|xs| - 1]] && ys == front' + [xs[|xs| - 1]]
  {
    GreatestAgree(xs, ys, le);
    DropLast(xs);
    DropLast(ys);
  }

  lemma {:induction false} SortedUnique<T(!new)>(xs: seq<T>, ys: seq<T>, le: (T, T) -> bool)
    requires Sorted(xs, le) && Sorted(ys, le)
    requires multiset(xs) == multiset(ys)
    requires Distinguishes(le, xs)
    ensures xs == ys
  {
    SameSize(xs, ys);
    if xs != [] {
      FrontsAgree(xs, ys, le);
      SortedUnique(xs[..|xs| - 1], ys[..|ys| - 1], le);
    }
  }

  lemma SameSize<T>(xs: seq<T>, ys: seq<T>)
    requires multiset(xs) == multiset(ys)
    ensures |xs| == |ys|
  {
    assert |xs| == |multiset(xs)| == |multiset(ys)| == |ys|;
  }

  /** Sorting forgets the input order whenever the sort key tells distinct elements apart. */
  lemma SortForgetsOrder<T(!new)>(xs: seq<T>, ys: seq<T>, le: (T, T) -> bool)
    requires Preorder(le)
    requires multiset(xs) == multiset(ys)
    requires Distinguishes(le, xs)
    ensures Sort(xs, le) == Sort(ys, le)
  {
    SortSorts(xs, le); SortSorts(ys, le);
    SortPermutes(xs, le); SortPermutes(ys, le);
    forall a | a in Sort(xs, le) ensures a in xs { assert a in multiset(Sort(xs, le)); assert a in multiset(xs); }
    SortedUnique(Sort(xs, le), Sort(ys, le), le);
  }

  lemma {:induction false} SortOfSorted<T(!new)>(xs: seq<T>, le: (T, T) -> bool)
    requires Sorted(xs, le)
    ensures Sort(xs, le) == xs
  {
    if xs != [] {
      var n := |xs| - 1;
      SortOfSorted(xs[..n], le);
      if n > 0 { assert le(xs[n - 1], xs[n]); }
      assert xs == xs[..n] + [xs[n]];
    }
  }

  /** Where insertion puts the new element. */
  lemma {:induction false} InsertPosition<T(!new)>(xs: seq<T>, x: T, le: (T, T) -> bool) returns (k: nat)
    ensures k <= |xs| && Insert(xs, x, le) == xs[..k] + [x] + xs[k..]
    ensures k > 0 ==> le(xs[k - 1], x)
    ensures k < |xs| ==> !le(xs[k], x)
  {
    if xs == [] || le(xs[|xs| - 1], x) {
      k := |xs|;
    } else {
      var n := |xs| - 1;
      k := InsertPosition(xs[..n], x, le);
      assert xs[..n][k..] + [xs[n]] == xs[k..];
    }
  }

  /** Comparison of two elements by a text key. */
  function ByKey<T>(key: T -> Text): (T, T) -> bool {
    (a: T, b: T) => Compare(key(a), key(b)) <= 0
  }

  /** Text as its own key. */
  function Itself(t: Text): Text { t }

  lemma ByKeyPreorder<T(!new)>(key: T -> Text)
    ensures Preorder(ByKey(key))
  {
    var le := ByKey(key);
    forall a, b ensures le(a, b) || le(b, a) { CompareAntisymmetric(key(a), key(b)); }
    forall a, b, c | le(a, b) && le(b, c) ensures le(a, c) {
      LeTransitive(key(a), key(b), key(c));
    }
  }

  lemma LeTransitive(a: Text, b: Text, c: Text)
    requires Compare(a, b) <= 0 && Compare(b, c) <= 0
    ensures Compare(a, c) <= 0
  {
    CompareZero(a, b);
    CompareZero(b, c);
    if a != b && b != c { BeforeTransitive(a, b, c); }
  }

  lemma ByKeyDistinguishes<T(!new)>(key: T -> Text, xs: seq<T>)
    requires forall a, b :: a in xs && b in xs && key(a) == key(b) ==> a == b
    ensures Distinguishes(ByKey(key), xs)
  {
    var le := ByKey(key);
    forall a, b | a in xs && b in xs && le(a, b) && le(b, a) ensures a == b {
      CompareAntisymmetric(key(a), key(b));
      CompareZero(key(a), key(b));
    }
  }

  function Map<A, B>(f: A -> B, xs: seq<A>): seq<B> {
    seq(|xs|, i requires 0 <= i < |xs| => f(xs[i]))
  }

  lemma {:induction false} InsertMap<A, B>(f: A -> B, xs: seq<A>, x: A, le: (A, A) -> bool, le': (B, B) -> bool)
    requires forall a, b :: le'(f(a), f(b)) == le(a, b)
    ensures Insert(Map(f, xs), f(x), le') == Map(f, Insert(xs, x, le))
  {
    if xs != [] && !le(xs[|xs| - 1], x) {
      var n := |xs| - 1;
      InsertMap(f, xs[..n], x, le, le');
      assert Map(f, xs)[..n] == Map(f, xs[..n]);
      assert Map(f, Insert(xs, x, le)) == Map(f, Insert(xs[..n], x, le)) + [f(xs[n])];
    }
  }

  /** Sorting looks at the keys only: it commutes with any map that keeps them. */
  lemma {:induction false} SortMap<A, B>(f: A -> B, xs: seq<A>, le: (A, A) -> bool, le': (B, B) -> bool)
    requires forall a, b :: le'(f(a), f(b)) == le(a, b)
    ensures Sort(Map(f, xs), le') == Map(f, Sort(xs, le))
  {
    if xs != [] {
      var n := |xs| - 1;
      SortMap(f, xs[..n], le, le');
      assert Map(f, xs)[..n] == Map(f, xs[..n]);
      InsertMap(f, Sort(xs[..n], le), xs[n], le, le');
    }
  }

  predicate NoDuplicates<T(==)>(xs: seq<T>) {
    forall i, j :: 0 <= i < j < |xs| ==> xs[i] != xs[j]
  }

  lemma {:induction false} NoDuplicatesCounted<T(!new)>(xs: seq<T>)
    ensures NoDuplicates(xs) <==> forall a :: multiset(xs)[a] <= 1
  {
    if xs != [] {
      var n := |xs| - 1;
      var front, last := xs[..n], xs[n];
      DropLast(xs);
      NoDuplicatesCounted(front);
      assert multiset(xs) == multiset(front) + multiset{last};
      assert NoDuplicates(xs) <==> NoDuplicates(front) && last !in front;
      assert last in front <==> multiset(front)[last] > 0;
      assert forall a :: multiset(xs)[a] == multiset(front)[a] + if a == last then 1 else 0;
    }
  }

  lemma SortNoDuplicates<T(!new)>(xs: seq<T>, le: (T, T) -> bool)
    requires NoDuplicates(xs)
    ensures NoDuplicates(Sort(xs, le))
  {
    SortPermutes(xs, le);
    NoDuplicatesCounted(xs);
    NoDuplicatesCounted(Sort(xs, le));
  }

  /** An injective map keeps elements distinct. */
  lemma DistinctImages<A(!new), B>(f: A -> B, xs: seq<A>)
    requires NoDuplicates(xs) && forall a, b :: a in xs && b in xs && f(a) == f(b) ==> a == b
    ensures NoDuplicates(Map(f, xs))
  {
    forall i, j | 0 <= i < j < |xs| ensures Map(f, xs)[i] != Map(f, xs)[j] {
      assert xs[i] in xs && xs[j] in xs;
    }
  }
}
