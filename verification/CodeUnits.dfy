/** UTF-16 text and its code-unit order: the only string order the program uses. */
module CodeUnits {
  type Unit = u: int | 0 <= u < 0x1_0000
  type Text = seq<Unit>

  /** Sign of the first differing unit, else of the length difference. */
  function Compare(left: Text, right: Text): int {
    if left == [] || right == [] then |left| - |right|
    else if left[0] != right[0] then left[0] - right[0]
    else Compare(left[1..], right[1..])
  }

  /** Strict code-unit order. */
  predicate Before(left: Text, right: Text) {
    Compare(left, right) < 0
  }

  /** The index loop of compareCodeUnits. */
  method CompareCodeUnits(left: Text, right: Text) returns (order: int)
    ensures order == Compare(left, right)
  {
    var sharedLength := if |left| < |right| then |left| else |right|;
    var index := 0;
    while index < sharedLength
      invariant 0 <= index <= sharedLength
      invariant Compare(left[index..], right[index..]) == Compare(left, right)
    {
      var difference := left[index] as int - right[index] as int;
      if difference != 0 { return difference; }
      assert left[index..][1..] == left[index + 1..] && right[index..][1..] == right[index + 1..];
      index := index + 1;
    }
    return |left| - |right|;
  }

  /** What the comparison means: a proper prefix, or a smaller unit at the first difference. */
  lemma {:induction false} CompareMeaning(left: Text, right: Text)
    ensures Before(left, right) <==>
            exists k :: 0 <= k <= |left| && k <= |right| && left[..k] == right[..k]
                        && k < |right| && (k == |left| || left[k] < right[k])
  {
    if left == [] {
      if right != [] { assert left[..0] == right[..0]; }
    } else if right == [] || left[0] != right[0] {
      if right != [] && left[0] < right[0] { assert left[..0] == right[..0]; }
      assert forall k :: 0 < k <= |left| && k <= |right| ==> left[..k][0] == left[0] && right[..k][0] == right[0];
    } else {
      var l, r := left[1..], right[1..];
      CompareMeaning(l, r);
      if Before(l, r) {
        var k :| 0 <= k <= |l| && k <= |r| && l[..k] == r[..k] && k < |r| && (k == |l| || l[k] < r[k]);
        assert left[..k + 1] == [left[0]] + l[..k] && right[..k + 1] == [right[0]] + r[..k];
      }
      if k :| 0 <= k <= |left| && k <= |right| && left[..k] == right[..k]
              && k < |right| && (k == |left| || left[k] < right[k]) {
        assert k > 0;
        assert l[..k - 1] == left[..k][1..] && r[..k - 1] == right[..k][1..];
      }
    }
  }

  lemma {:induction false} CompareZero(left: Text, right: Text)
    ensures Compare(left, right) == 0 <==> left == right
  {
    if left != [] && right != [] && left[0] == right[0] {
      CompareZero(left[1..], right[1..]);
      assert left == [left[0]] + left[1..] && right == [right[0]] + right[1..];
    }
  }

  lemma {:induction false} CompareAntisymmetric(left: Text, right: Text)
    ensures Compare(left, right) == -Compare(right, left)
  {
    if left != [] && right != [] && left[0] == right[0] {
      CompareAntisymmetric(left[1..], right[1..]);
    }
  }

  lemma {:induction false} BeforeTransitive(a: Text, b: Text, c: Text)
    requires Before(a, b) && Before(b, c)
    ensures Before(a, c)
  {
    if a != [] && b != [] && c != [] && a[0] == b[0] && b[0] == c[0] {
      BeforeTransitive(a[1..], b[1..], c[1..]);
    }
  }

  /** The comparison is a strict total order on text. */
  lemma BeforeTotal(a: Text, b: Text)
    ensures Before(a, b) || Before(b, a) || a == b
    ensures !(Before(a, b) && Before(b, a)) && !Before(a, a)
    ensures forall c :: Before(a, b) && Before(b, c) ==> Before(a, c)
  {
    CompareZero(a, b);
    CompareAntisymmetric(a, b);
    CompareAntisymmetric(a, a);
    forall c | Before(a, b) && Before(b, c) ensures Before(a, c) { BeforeTransitive(a, b, c); }
  }

  lemma {:induction false} ComparePrefix(p: Text, a: Text, b: Text)
    ensures Compare(p + a, p + b) == Compare(a, b)
  {
    if p == [] {
      assert p + a == a && p + b == b;
    } else {
      assert (p + a)[1..] == p[1..] + a && (p + b)[1..] == p[1..] + b;
      ComparePrefix(p[1..], a, b);
    }
  }
}
