/** The controller's fixed-width UTC timestamps (RFC 3339, section 5.6) and the order they stand for. */
module Timestamps {
  import opened CodeUnits

  predicate IsDigit(u: Unit) { 0x30 <= u <= 0x39 }

  /** Decimal value of a digit run. */
  function Value(t: Text): (n: nat)
    requires forall i :: 0 <= i < |t| ==> IsDigit(t[i])
  {
    if t == [] then 0
    else
      var last := t[|t| - 1];
      assert IsDigit(last);
      10 * Value(t[..|t| - 1]) + (last as int - 0x30)
  }

  predicate IsLeapYear(year: int) {
    year % 4 == 0 && (year % 100 != 0 || year % 400 == 0)
  }

  function MonthLength(year: int, month: int): (days: int)
    ensures 28 <= days <= 31
  {
    if month == 2 then (if IsLeapYear(year) then 29 else 28)
    else if month in {4, 6, 9, 11} then 30
    else 31
  }

  /** The shape dddd-dd-ddTdd:dd:dd.dddZ. */
  predicate Shaped(t: Text) {
    && |t| == 24
    && (forall i :: 0 <= i < 24 && i !in {4, 7, 10, 13, 16, 19, 23} ==> IsDigit(t[i]))
    && t[4] == 0x2d && t[7] == 0x2d && t[10] == 0x54 && t[13] == 0x3a
    && t[16] == 0x3a && t[19] == 0x2e && t[23] == 0x5a
  }

  datatype Fields = Fields(year: int, month: int, day: int, hour: int, minute: int, second: int, milli: int)

  function FieldsOf(t: Text): Fields
    requires Shaped(t)
  {
    Fields(Value(t[..4]), Value(t[5..7]), Value(t[8..10]),
           Value(t[11..13]), Value(t[14..16]), Value(t[17..19]), Value(t[20..23]))
  }

  predicate RealInstant(f: Fields) {
    && 1 <= f.year && 1 <= f.month <= 12
    && 1 <= f.day <= MonthLength(f.year, f.month)
    && 0 <= f.hour <= 23 && 0 <= f.minute <= 59 && 0 <= f.second <= 59 && 0 <= f.milli <= 999
  }

  predicate IsExactControllerTimestamp(t: Text) {
    Shaped(t) && RealInstant(FieldsOf(t))
  }

  // ----- elapsed time, counted day by day from the calendar rules

  function YearLength(year: int): int {
    if IsLeapYear(year) then 366 else 365
  }

  /** Days in the years before `year`, from year 1. */
  function DaysBeforeYear(year: int): int
    requires year >= 1
  {
    if year == 1 then 0 else DaysBeforeYear(year - 1) + YearLength(year - 1)
  }

  /** Days in the months before `month` in one year. */
  function DaysBeforeMonth(year: int, month: int): int
    requires 1 <= month <= 13
    decreases month
  {
    if month == 1 then 0 else DaysBeforeMonth(year, month - 1) + MonthLength(year, month - 1)
  }

  function Days(f: Fields): int
    requires RealInstant(f)
  {
    DaysBeforeYear(f.year) + DaysBeforeMonth(f.year, f.month) + f.day
  }

  function ElapsedFields(f: Fields): int
    requires RealInstant(f)
  {
    ((Days(f) * 24 + f.hour) * 60 + f.minute) * 60_000 + f.second * 1_000 + f.milli
  }

  /** Milliseconds elapsed since the start of the calendar. */
  function Elapsed(t: Text): int
    requires IsExactControllerTimestamp(t)
  {
    ElapsedFields(FieldsOf(t))
  }

  lemma YearIsTwelveMonths(year: int)
    ensures DaysBeforeMonth(year, 13) == YearLength(year)
  {
    assert DaysBeforeMonth(year, 3) == (if IsLeapYear(year) then 60 else 59);
    assert DaysBeforeMonth(year, 5) == DaysBeforeMonth(year, 3) + 61;
    assert DaysBeforeMonth(year, 7) == DaysBeforeMonth(year, 5) + 61;
    assert DaysBeforeMonth(year, 9) == DaysBeforeMonth(year, 7) + 62;
    assert DaysBeforeMonth(year, 11) == DaysBeforeMonth(year, 9) + 61;
  }

  lemma {:induction false} MonthsIncrease(year: int, a: int, b: int)
    requires 1 <= a < b <= 13
    ensures DaysBeforeMonth(year, a) + MonthLength(year, a) <= DaysBeforeMonth(year, b)
    decreases b
  {
    if a + 1 < b { MonthsIncrease(year, a, b - 1); }
  }

  lemma {:induction false} YearsIncrease(a: int, b: int)
    requires 1 <= a < b
    ensures DaysBeforeYear(a) + YearLength(a) <= DaysBeforeYear(b)
    decreases b
  {
    if a + 1 < b { YearsIncrease(a, b - 1); }
  }

  /** Lexicographic order of calendar dates is the order of day counts. */
  lemma DaysFollowDates(f: Fields, g: Fields)
    requires RealInstant(f) && RealInstant(g)
    requires f.year < g.year || (f.year == g.year && (f.month < g.month || (f.month == g.month && f.day < g.day)))
    ensures Days(f) < Days(g)
  {
    if f.year < g.year {
      YearsIncrease(f.year, g.year);
      YearIsTwelveMonths(f.year);
      MonthsIncrease(f.year, f.month, 13);
      if g.month > 1 { MonthsIncrease(g.year, 1, g.month); }
    } else if f.month < g.month {
      MonthsIncrease(f.year, f.month, g.month);
    }
  }

  // ----- code units against fields

  lemma {:induction false} DigitsOrder(a: Text, b: Text)
    requires |a| == |b|
    requires forall i :: 0 <= i < |a| ==> IsDigit(a[i]) && IsDigit(b[i])
    ensures Compare(a, b) < 0 <==> Value(a) < Value(b)
    ensures a == b <==> Value(a) == Value(b)
  {
    if a != [] {
      var n := |a| - 1;
      var p, q := a[..n], b[..n];
      DigitsOrder(p, q);
      assert a == p + a[n..] && b == q + b[n..];
      if p == q {
        ComparePrefix(p, a[n..], b[n..]);
        assert Compare(a[n..], b[n..]) == a[n] as int - b[n] as int by { assert a[n..][1..] == [] && b[n..][1..] == []; }
      } else {
        CompareSplit(p, q, a[n..], b[n..]);
        CompareZero(p, q);
      }
    }
  }

  /** A difference inside the first halves decides the comparison. */
  lemma {:induction false} CompareSplit(p: Text, q: Text, a: Text, b: Text)
    requires |p| == |q|
    ensures Compare(p + a, q + b) == if p == q then Compare(a, b) else Compare(p, q)
  {
    if p == [] {
      assert p + a == a && q + b == b;
    } else {
      assert (p + a)[1..] == p[1..] + a && (q + b)[1..] == q[1..] + b;
      if p[0] == q[0] {
        CompareSplit(p[1..], q[1..], a, b);
        assert p == q <==> p[1..] == q[1..];
      }
    }
  }

  /** Compare two timestamps from unit `i` on: one field and its separator at a time. */
  lemma FieldStep(s: Text, t: Text, i: nat, j: nat)
    requires Shaped(s) && Shaped(t) && i <= j <= 24
    requires forall k :: i <= k < j ==> IsDigit(s[k]) && IsDigit(t[k])
    ensures s[i..j] == t[i..j] <==> Value(s[i..j]) == Value(t[i..j])
    ensures s[i..j] == t[i..j] ==> Compare(s[i..], t[i..]) == Compare(s[j..], t[j..])
    ensures s[i..j] != t[i..j] ==> (Compare(s[i..], t[i..]) < 0 <==> Value(s[i..j]) < Value(t[i..j]))
  {
    DigitsOrder(s[i..j], t[i..j]);
    assert s[i..] == s[i..j] + s[j..] && t[i..] == t[i..j] + t[j..];
    CompareSplit(s[i..j], t[i..j], s[j..], t[j..]);
  }

  lemma SeparatorStep(s: Text, t: Text, i: nat)
    requires Shaped(s) && Shaped(t) && i in {4, 7, 10, 13, 16, 19, 23}
    ensures s[i] == t[i] && Compare(s[i..], t[i..]) == Compare(s[i + 1..], t[i + 1..])
  {
    assert s[i..][1..] == s[i + 1..] && t[i..][1..] == t[i + 1..];
  }

  predicate FieldsBefore(f: Fields, g: Fields) {
    if f.year != g.year then f.year < g.year
    else if f.month != g.month then f.month < g.month
    else if f.day != g.day then f.day < g.day
    else if f.hour != g.hour then f.hour < g.hour
    else if f.minute != g.minute then f.minute < g.minute
    else if f.second != g.second then f.second < g.second
    else f.milli < g.milli
  }

  lemma SecondsFollowFields(s: Text, t: Text)
    requires Shaped(s) && Shaped(t)
    requires s[..16] == t[..16]
    ensures Before(s[17..], t[17..]) <==> FieldsBefore(FieldsOf(s), FieldsOf(t))
  {
    assert s[0..4] == s[..16][0..4] && t[0..4] == t[..16][0..4];
    assert s[5..7] == s[..16][5..7] && t[5..7] == t[..16][5..7];
    assert s[8..10] == s[..16][8..10] && t[8..10] == t[..16][8..10];
    assert s[11..13] == s[..16][11..13] && t[11..13] == t[..16][11..13];
    assert s[14..16] == s[..16][14..16] && t[14..16] == t[..16][14..16];
    FieldStep(s, t, 17, 19);
    if s[17..19] == t[17..19] {
      SeparatorStep(s, t, 19);
      FieldStep(s, t, 20, 23);
      SeparatorStep(s, t, 23);
    }
  }

  lemma MinutesFollowFields(s: Text, t: Text)
    requires Shaped(s) && Shaped(t)
    requires s[..13] == t[..13]
    ensures Before(s[14..], t[14..]) <==> FieldsBefore(FieldsOf(s), FieldsOf(t))
  {
    assert s[0..4] == s[..13][0..4] && t[0..4] == t[..13][0..4];
    assert s[5..7] == s[..13][5..7] && t[5..7] == t[..13][5..7];
    assert s[8..10] == s[..13][8..10] && t[8..10] == t[..13][8..10];
    assert s[11..13] == s[..13][11..13] && t[11..13] == t[..13][11..13];
    FieldStep(s, t, 14, 16);
    if s[14..16] == t[14..16] {
      SeparatorStep(s, t, 16);
      assert s[..16] == s[..13] + [s[13]] + s[14..16] && t[..16] == t[..13] + [t[13]] + t[14..16];
      SecondsFollowFields(s, t);
    }
  }

  lemma HoursFollowFields(s: Text, t: Text)
    requires Shaped(s) && Shaped(t)
    requires s[..10] == t[..10]
    ensures Before(s[11..], t[11..]) <==> FieldsBefore(FieldsOf(s), FieldsOf(t))
  {
    assert s[0..4] == s[..10][0..4] && t[0..4] == t[..10][0..4];
    assert s[5..7] == s[..10][5..7] && t[5..7] == t[..10][5..7];
    assert s[8..10] == s[..10][8..10] && t[8..10] == t[..10][8..10];
    FieldStep(s, t, 11, 13);
    if s[11..13] == t[11..13] {
      SeparatorStep(s, t, 13);
      assert s[..13] == s[..10] + [s[10]] + s[11..13] && t[..13] == t[..10] + [t[10]] + t[11..13];
      MinutesFollowFields(s, t);
    }
  }

  lemma DaysFollowFields(s: Text, t: Text)
    requires Shaped(s) && Shaped(t)
    requires s[..7] == t[..7]
    ensures Before(s[8..], t[8..]) <==> FieldsBefore(FieldsOf(s), FieldsOf(t))
  {
    assert s[0..4] == s[..7][0..4] && t[0..4] == t[..7][0..4];
    assert s[5..7] == s[..7][5..7] && t[5..7] == t[..7][5..7];
    FieldStep(s, t, 8, 10);
    if s[8..10] == t[8..10] {
      SeparatorStep(s, t, 10);
      assert s[..10] == s[..7] + [s[7]] + s[8..10] && t[..10] == t[..7] + [t[7]] + t[8..10];
      HoursFollowFields(s, t);
    }
  }

  lemma MonthsFollowFields(s: Text, t: Text)
    requires Shaped(s) && Shaped(t)
    requires s[..4] == t[..4]
    ensures Before(s[5..], t[5..]) <==> FieldsBefore(FieldsOf(s), FieldsOf(t))
  {
    assert s[0..4] == s[..4][0..4] && t[0..4] == t[..4][0..4];
    FieldStep(s, t, 5, 7);
    if s[5..7] == t[5..7] {
      SeparatorStep(s, t, 7);
      assert s[..7] == s[..4] + [s[4]] + s[5..7] && t[..7] == t[..4] + [t[4]] + t[5..7];
      DaysFollowFields(s, t);
    }
  }

  lemma UnitsFollowFields(s: Text, t: Text)
    requires Shaped(s) && Shaped(t)
    ensures Before(s, t) <==> FieldsBefore(FieldsOf(s), FieldsOf(t))
  {
    assert s == s[0..] && t == t[0..] && s[..4] == s[0..4] && t[..4] == t[0..4];
    FieldStep(s, t, 0, 4);
    if s[..4] == t[..4] {
      SeparatorStep(s, t, 4);
      MonthsFollowFields(s, t);
    }
  }

  lemma ElapsedFollowsFields(f: Fields, g: Fields)
    requires RealInstant(f) && RealInstant(g) && FieldsBefore(f, g)
    ensures ElapsedFields(f) < ElapsedFields(g)
  {
    if f.year != g.year || f.month != g.month || f.day != g.day {
      DaysFollowDates(f, g);
    }
  }

  /** Code-unit order of accepted timestamps is the order of elapsed milliseconds, leap years included. */
  lemma TimestampOrder(s: Text, t: Text)
    requires IsExactControllerTimestamp(s) && IsExactControllerTimestamp(t)
    ensures Before(s, t) <==> Elapsed(s) < Elapsed(t)
    ensures s == t <==> Elapsed(s) == Elapsed(t)
  {
    UnitsFollowFields(s, t);
    UnitsFollowFields(t, s);
    BeforeTotal(s, t);
    if Before(s, t) {
      ElapsedFollowsFields(FieldsOf(s), FieldsOf(t));
    } else if Before(t, s) {
      ElapsedFollowsFields(FieldsOf(t), FieldsOf(s));
    }
  }
}
