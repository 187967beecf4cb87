/** The lexical functions accept exactly the RFC 8259 strings and numbers that meet the limits. */
module JsonLexemes {
  import opened CodeUnits
  import opened Wrappers
  import opened JsonGrammar
  import opened JsonScanner

  /** Text t stands in the source at i. */
  predicate At(d: Doc, i: nat, t: Text) {
    i + |t| <= |d.source| && d.source[i..i + |t|] == t
  }

  lemma AtSplit(d: Doc, i: nat, a: Text, b: Text)
    ensures At(d, i, a + b) <==> At(d, i, a) && At(d, i + |a|, b)
  {
    var m, n := i + |a|, i + |a| + |b|;
    if n <= |d.source| {
      SliceJoin(d.source, i, m, n);
      JoinTells(d.source[i..m], d.source[m..n], a, b);
    }
  }

  /** Equal concatenations of parts with equal lengths have equal parts. */
  lemma JoinTells(x: Text, y: Text, a: Text, b: Text)
    requires |x| == |a| && |y| == |b|
    ensures x + y == a + b <==> x == a && y == b
  {
    if x + y == a + b {
      assert x == (x + y)[..|x|] && a == (a + b)[..|a|];
      assert y == (x + y)[|x|..] && b == (a + b)[|a|..];
    }
  }

  lemma AtBound(d: Doc, i: nat, t: Text)
    requires At(d, i, t)
    ensures i + |t| <= |d.source|
  {
  }

  lemma AtSlice(d: Doc, i: nat, t: Text)
    requires At(d, i, t)
    ensures i + |t| <= |d.source| && d.source[i..i + |t|] == t
  {
  }

  lemma SliceJoin(src: Text, a: nat, b: nat, c: nat)
    requires a <= b <= c <= |src|
    ensures src[a..c] == src[a..b] + src[b..c]
  {
  }

  lemma AtUnit(d: Doc, i: nat, u: Unit)
    ensures At(d, i, [u]) <==> i < |d.source| && d.source[i] == u
  {
    if i < |d.source| { assert d.source[i..i + 1] == [d.source[i]]; }
  }

  // ----- surrogates

  /** Pairing as the scanner tracks it, with an open high surrogate before t when `pending`. */
  predicate PairedFrom(t: Text, pending: bool) {
    if t == [] then !pending
    else if pending then IsLow(t[0]) && PairedFrom(t[1..], false)
    else !IsLow(t[0]) && PairedFrom(t[1..], IsHigh(t[0]))
  }

  lemma {:induction false} PairedIsWellFormed(t: Text)
    ensures PairedFrom(t, false) <==> WellFormed(t)
    decreases |t|
  {
    if t != [] {
      if IsHigh(t[0]) {
        if |t| >= 2 {
          assert t[1..][1..] == t[2..] && t[1..][0] == t[1];
          PairedIsWellFormed(t[2..]);
        } else {
          assert t[1..] == [];
        }
      } else {
        PairedIsWellFormed(t[1..]);
      }
    }
  }

  // ----- strings

  lemma EscapeSound(d: Doc, i: nat)
    requires i < |d.source| && d.source[i] == BACKSLASH && ScanEscape(d.source, i + 1).Ok?
    ensures var e := ScanEscape(d.source, i + 1).value;
            At(d, i, PrintItem(e.0)) && e.1 == i + |PrintItem(e.0)| && !e.0.Plain?
  {
    var e := ScanEscape(d.source, i + 1).value;
    if e.0.Hex? {
      assert d.source[i..i + 6] == [d.source[i], d.source[i + 1], d.source[i + 2], d.source[i + 3], d.source[i + 4], d.source[i + 5]];
    } else {
      assert d.source[i..i + 2] == [d.source[i], d.source[i + 1]];
    }
  }

  lemma PrintCons(x: Item, rest: seq<Item>)
    ensures PrintItems([x] + rest) + [QUOTE] == PrintItem(x) + (PrintItems(rest) + [QUOTE])
    ensures |PrintItems([x] + rest)| == |PrintItem(x)| + |PrintItems(rest)|
  {
    assert ([x] + rest)[1..] == rest;
  }

  lemma DecodeCons(x: Item, rest: seq<Item>, pending: bool)
    requires ItemOk(x) && ItemsOk(rest)
    ensures ItemsOk([x] + rest) && Decode([x] + rest) == [DecodeItem(x)] + Decode(rest)
    ensures PairedFrom(Decode([x] + rest), pending) <==>
            var after := Pairing(pending, DecodeItem(x)); after.Ok? && PairedFrom(Decode(rest), after.value)
  {
    hide DecodeItem;
    assert ([x] + rest)[1..] == rest;
    assert ([DecodeItem(x)] + Decode(rest))[1..] == Decode(rest);
  }

  /** What an accepted body is: its text, its length, its budget, and its pairing. */
  predicate BodyIs(d: Doc, i: nat, units: nat, pending: bool, end: nat, items: seq<Item>)
    requires ItemsOk(items)
  {
    && At(d, i, PrintItems(items) + [QUOTE]) && end == i + |PrintItems(items)| + 1
    && (items != [] ==> units + |items| <= d.limits.maxDecodedStringLength) && PairedFrom(Decode(items), pending)
  }

  lemma BodyEnds(d: Doc, i: nat, units: nat)
    requires i < |d.source| && d.source[i] == QUOTE
    ensures BodyIs(d, i, units, false, i + 1, [])
  {
    AtUnit(d, i, QUOTE);
    hide At;
    assert PrintItems([]) + [QUOTE] == [QUOTE];
    PairedNothing();
  }

  /** The first character of an accepted body, verbatim or escaped. */
  lemma FirstItem(d: Doc, i: nat, units: nat, pending: bool) returns (x: Item, after: bool)
    requires i < |d.source| && d.source[i] != QUOTE && ScanItems(d, i, units, pending).Ok?
    ensures ItemOk(x) && At(d, i, PrintItem(x)) && i + |PrintItem(x)| <= |d.source| && Pairing(pending, DecodeItem(x)) == Ok(after)
    ensures units + 1 <= d.limits.maxDecodedStringLength
    ensures ScanItems(d, i, units, pending) == Prepend(x, ScanItems(d, i + |PrintItem(x)|, units + 1, after))
    ensures |PrintItem(x)| > 0
  {
    var u := d.source[i];
    if u == BACKSLASH {
      EscapeSound(d, i);
      x := ScanEscape(d.source, i + 1).value.0;
    } else {
      AtUnit(d, i, u);
      PlainDecodes(u);
      x := Plain(u);
    }
    hide DecodeItem, ScanEscape, At, ItemOk;
    after := Pairing(pending, DecodeItem(x)).value;
  }

  lemma BodyGrows(d: Doc, i: nat, units: nat, pending: bool, x: Item, after: bool, end: nat, rest: seq<Item>)
    requires ItemOk(x) && ItemsOk(rest) && At(d, i, PrintItem(x)) && Pairing(pending, DecodeItem(x)) == Ok(after)
    requires units + 1 <= d.limits.maxDecodedStringLength && BodyIs(d, i + |PrintItem(x)|, units + 1, after, end, rest)
    ensures ItemsOk([x] + rest) && BodyIs(d, i, units, pending, end, [x] + rest)
  {
    hide DecodeItem, At, PairedFrom, Decode, PrintItems, PrintItem, ItemOk, Pairing;
    PrintCons(x, rest);
    DecodeCons(x, rest, pending);
    AtSplit(d, i, PrintItem(x), PrintItems(rest) + [QUOTE]);
  }

  lemma BodyStarts(d: Doc, i: nat, units: nat, pending: bool)
    requires i <= |d.source| && ScanItems(d, i, units, pending).Ok?
    ensures i < |d.source|
    ensures d.source[i] == QUOTE ==> !pending && ScanItems(d, i, units, pending) == Ok((i + 1, []))
  {
  }

  lemma {:induction false} ItemsSound(d: Doc, i: nat, units: nat, pending: bool)
    requires i <= |d.source| && ScanItems(d, i, units, pending).Ok?
    ensures var r := ScanItems(d, i, units, pending).value; BodyIs(d, i, units, pending, r.0, r.1)
    decreases |d.source| - i
  {
    hide ScanItems, BodyIs, At, Pairing, DecodeItem, ItemOk, PrintItem, Decode;
    BodyStarts(d, i, units, pending);
    if d.source[i] == QUOTE {
      BodyEnds(d, i, units);
    } else {
      var x, after := FirstItem(d, i, units, pending);
      ItemsSound(d, i + |PrintItem(x)|, units + 1, after);
      var rest := ScanItems(d, i + |PrintItem(x)|, units + 1, after).value;
      BodyGrows(d, i, units, pending, x, after, rest.0, rest.1);
    }
  }

  lemma PairedNothing()
    ensures PairedFrom([], false)
  {
  }

  lemma PlainDecodes(u: Unit)
    requires ItemOk(Plain(u))
    ensures DecodeItem(Plain(u)) == u
  {
  }

  lemma EscapeComplete(d: Doc, i: nat, x: Item)
    requires ItemOk(x) && !x.Plain? && At(d, i, PrintItem(x)) && i + |PrintItem(x)| < |d.source|
    ensures d.source[i] == BACKSLASH
    ensures ScanEscape(d.source, i + 1) == Ok((x, i + |PrintItem(x)|))
  {
    var t := PrintItem(x);
    var w := d.source[i..i + |t|];
    assert w[0] == d.source[i] && w[1] == d.source[i + 1];
    if x.Hex? {
      assert w[2] == d.source[i + 2] && w[3] == d.source[i + 3] && w[4] == d.source[i + 4] && w[5] == d.source[i + 5];
    }
  }

  lemma PlainComplete(d: Doc, i: nat, x: Item)
    requires x.Plain? && ItemOk(x) && At(d, i, PrintItem(x))
    ensures i < |d.source| && d.source[i] == x.u == DecodeItem(x) && |PrintItem(x)| == 1
    ensures x.u >= 0x20 && x.u != QUOTE && x.u != BACKSLASH
  {
    AtUnit(d, i, x.u);
  }

  /** One character of a string, as a scanning step. */
  lemma ScanItemsStep(d: Doc, i: nat, units: nat, pending: bool, x: Item)
    requires ItemOk(x) && At(d, i, PrintItem(x)) && i + |PrintItem(x)| < |d.source|
    requires units + 1 <= d.limits.maxDecodedStringLength && Pairing(pending, DecodeItem(x)).Ok?
    ensures ScanItems(d, i, units, pending)
            == Prepend(x, ScanItems(d, i + |PrintItem(x)|, units + 1, Pairing(pending, DecodeItem(x)).value))
  {
    hide DecodeItem, ScanEscape, At, ItemOk, Prepend, Pairing;
    if x.Plain? { PlainComplete(d, i, x); } else { EscapeComplete(d, i, x); }
  }

  lemma StringEnds(d: Doc, i: nat, units: nat, pending: bool)
    requires At(d, i, PrintItems([]) + [QUOTE]) && PairedFrom(Decode([]), pending)
    ensures i < |d.source| && |PrintItems([])| == 0
    ensures ScanItems(d, i, units, pending) == Ok((i + 1, []))
  {
    hide At;
    assert PrintItems([]) + [QUOTE] == [QUOTE];
    AtUnit(d, i, QUOTE);
  }

  /** A string body opens into its first character and the remaining body. */
  lemma BodyOpens(d: Doc, i: nat, items: seq<Item>, pending: bool)
    requires items != [] && ItemsOk(items) && At(d, i, PrintItems(items) + [QUOTE]) && PairedFrom(Decode(items), pending)
    ensures var x, rest := items[0], items[1..];
            var j, after := i + |PrintItem(x)|, Pairing(pending, DecodeItem(x));
            && items == [x] + rest && ItemOk(x) && ItemsOk(rest)
            && At(d, i, PrintItem(x)) && At(d, j, PrintItems(rest) + [QUOTE]) && j < |d.source|
            && after.Ok? && PairedFrom(Decode(rest), after.value) && |PrintItems(items)| == |PrintItem(x)| + |PrintItems(rest)|
  {
    hide DecodeItem, At, ItemOk, PairedFrom, PrintItems, PrintItem, Decode, Pairing;
    var x, rest := items[0], items[1..];
    assert items == [x] + rest;
    PrintCons(x, rest);
    DecodeCons(x, rest, pending);
    AtSplit(d, i, PrintItem(x), PrintItems(rest) + [QUOTE]);
    AtBound(d, i + |PrintItem(x)|, PrintItems(rest) + [QUOTE]);
  }

  lemma {:induction false} ItemsComplete(d: Doc, i: nat, units: nat, pending: bool, items: seq<Item>)
    requires ItemsOk(items) && At(d, i, PrintItems(items) + [QUOTE])
    requires units + |items| <= d.limits.maxDecodedStringLength
    requires PairedFrom(Decode(items), pending)
    ensures i <= |d.source|
    ensures ScanItems(d, i, units, pending) == Ok((i + |PrintItems(items)| + 1, items))
    decreases |items|
  {
    hide ScanItems, At, DecodeItem, ItemOk, PairedFrom, PrintItems, PrintItem, Decode, Pairing;
    AtBound(d, i, PrintItems(items) + [QUOTE]);
    if items == [] {
      StringEnds(d, i, units, pending);
    } else {
      BodyOpens(d, i, items, pending);
      var x, rest := items[0], items[1..];
      ItemsComplete(d, i + |PrintItem(x)|, units + 1, Pairing(pending, DecodeItem(x)).value, rest);
      ScanItemsStep(d, i, units, pending, x);
    }
  }

  lemma StringSound(d: Doc, i: nat)
    requires i < |d.source| && d.source[i] == QUOTE && ScanString(d, i).Ok?
    ensures var r := ScanString(d, i).value;
            At(d, i, PrintString(r.1)) && r.0 == i + |PrintString(r.1)| && StringFits(d, r.1)
  {
    ItemsSound(d, i + 1, 0, false);
    var r := ScanString(d, i).value;
    PairedIsWellFormed(Decode(r.1));
    assert PrintString(r.1) == [QUOTE] + (PrintItems(r.1) + [QUOTE]);
    AtUnit(d, i, QUOTE);
    AtSplit(d, i, [QUOTE], PrintItems(r.1) + [QUOTE]);
  }

  lemma StringComplete(d: Doc, i: nat, items: seq<Item>)
    requires ItemsOk(items) && StringFits(d, items) && At(d, i, PrintString(items))
    ensures i < |d.source| && d.source[i] == QUOTE
    ensures ScanString(d, i) == Ok((i + |PrintString(items)|, items))
  {
    assert PrintString(items) == [QUOTE] + (PrintItems(items) + [QUOTE]);
    AtSplit(d, i, [QUOTE], PrintItems(items) + [QUOTE]);
    AtUnit(d, i, QUOTE);
    PairedIsWellFormed(Decode(items));
    ItemsComplete(d, i + 1, 0, false, items);
  }

  // ----- numbers

  /** What may follow a value inside a JSON text. */
  predicate Delimited(d: Doc, j: nat) {
    j < |d.source| ==> IsWhitespace(d.source[j]) || d.source[j] in {COMMA, CLOSE_BRACKET, CLOSE_BRACE}
  }

  /** A digit run ends where the text stops being digits. */
  lemma {:induction false} DigitsEndAt(src: Text, i: nat, j: nat)
    requires i <= j <= |src| && Digits(src[i..j]) && (j < |src| ==> !IsDigit(src[j]))
    ensures DigitsEnd(src, i) == j
    decreases j - i
  {
    if i < j {
      assert src[i] == src[i..j][0];
      assert src[i..j][1..] == src[i + 1..j];
      DigitsEndAt(src, i + 1, j);
    }
  }

  lemma IntegerSound(d: Doc, start: nat, i: nat)
    requires start <= i <= |d.source| && ScanInteger(d, start, i).Ok?
    ensures var j := ScanInteger(d, start, i).value;
            IntegerPart(d.source[i..j]) && j - start <= d.limits.maxNumericTokenLength
  {
  }

  lemma FractionSound(d: Doc, start: nat, i: nat)
    requires start <= i <= |d.source| && ScanFraction(d, start, i).Ok?
    requires i - start <= d.limits.maxNumericTokenLength
    ensures var j := ScanFraction(d, start, i).value;
            FractionPart(d.source[i..j]) && j - start <= d.limits.maxNumericTokenLength
  {
    var j := ScanFraction(d, start, i).value;
    if i < j { assert d.source[i..j][1..] == d.source[i + 1..j]; }
  }

  lemma ExponentSound(d: Doc, start: nat, i: nat)
    requires start <= i <= |d.source| && ScanExponent(d, start, i).Ok?
    requires i - start <= d.limits.maxNumericTokenLength
    ensures var j := ScanExponent(d, start, i).value;
            ExponentPart(d.source[i..j]) && j - start <= d.limits.maxNumericTokenLength
  {
    var j := ScanExponent(d, start, i).value;
    if i < j {
      assert d.source[i..j][1..] == d.source[i + 1..j];
      assert d.source[i..j][2..] == d.source[i + 2..j];
    }
  }

  lemma PartsSound(src: Text, i: nat, a: nat, b: nat, c: nat, e: nat)
    requires i <= a <= b <= c <= e <= |src|
    requires SignPart(src[i..a]) && IntegerPart(src[a..b]) && FractionPart(src[b..c]) && ExponentPart(src[c..e])
    ensures IsNumber(src[i..e])
  {
    hide SignPart, IntegerPart, FractionPart, ExponentPart;
    SliceJoin(src, i, a, b);
    SliceJoin(src, i, b, c);
    SliceJoin(src, i, c, e);
    assert NumberParts(src[i..e], src[i..a], src[a..b], src[b..c], src[c..e]);
  }

  lemma SignSound(d: Doc, i: nat)
    requires i < |d.source| && ScanSign(d, i).Ok?
    ensures SignPart(d.source[i..ScanSign(d, i).value])
  {
  }

  lemma NumberSound(d: Doc, i: nat)
    requires i < |d.source| && ScanNumber(d, i).Ok?
    ensures var j := ScanNumber(d, i).value;
            && IsNumber(d.source[i..j])
            && j - i <= d.limits.maxNumericTokenLength && d.finite(d.source[i..j])
  {
    hide SignPart, IntegerPart, FractionPart, ExponentPart, ScanInteger, ScanFraction, ScanExponent, ScanSign;
    var a := ScanSign(d, i).value;
    var b := ScanInteger(d, i, a).value;
    var c := ScanFraction(d, i, b).value;
    SignSound(d, i);
    IntegerSound(d, i, a);
    FractionSound(d, i, b);
    ExponentSound(d, i, c);
    PartsSound(d.source, i, a, b, c, ScanExponent(d, i, c).value);
  }

  lemma IntegerComplete(d: Doc, start: nat, i: nat, t: Text)
    requires start <= i && IntegerPart(t) && At(d, i, t) && i + |t| - start <= d.limits.maxNumericTokenLength
    requires i + |t| < |d.source| ==> !IsDigit(d.source[i + |t|])
    ensures i <= |d.source| && ScanInteger(d, start, i) == Ok(i + |t|)
  {
    assert d.source[i] == d.source[i..i + |t|][0];
    if t[0] != 0x30 { DigitsEndAt(d.source, i, i + |t|); }
  }

  lemma FractionComplete(d: Doc, start: nat, i: nat, t: Text)
    requires start <= i <= |d.source| && FractionPart(t) && At(d, i, t) && i + |t| - start <= d.limits.maxNumericTokenLength
    requires i + |t| < |d.source| ==> !IsDigit(d.source[i + |t|])
    requires t == [] && i < |d.source| ==> d.source[i] != 0x2e
    ensures ScanFraction(d, start, i) == Ok(i + |t|)
  {
    if t != [] {
      assert d.source[i] == d.source[i..i + |t|][0];
      assert d.source[i + 1..i + |t|] == t[1..];
      DigitsEndAt(d.source, i + 1, i + |t|);
    }
  }

  lemma ExponentComplete(d: Doc, start: nat, i: nat, t: Text)
    requires start <= i <= |d.source| && ExponentPart(t) && At(d, i, t) && i + |t| - start <= d.limits.maxNumericTokenLength
    requires i + |t| < |d.source| ==> !IsDigit(d.source[i + |t|])
    requires t == [] && i < |d.source| ==> d.source[i] != 0x65 && d.source[i] != 0x45
    ensures ScanExponent(d, start, i) == Ok(i + |t|)
  {
    if t != [] {
      assert d.source[i] == d.source[i..i + |t|][0] && d.source[i + 1] == d.source[i..i + |t|][1];
      if t[1] == 0x2b || t[1] == 0x2d {
        assert d.source[i + 2..i + |t|] == t[2..];
        DigitsEndAt(d.source, i + 2, i + |t|);
      } else {
        assert d.source[i + 1..i + |t|] == t[1..];
        DigitsEndAt(d.source, i + 1, i + |t|);
      }
    }
  }

  lemma NumberComplete(d: Doc, i: nat, t: Text)
    requires IsNumber(t) && At(d, i, t) && Delimited(d, i + |t|)
    requires |t| <= d.limits.maxNumericTokenLength && d.finite(t)
    ensures i < |d.source| && (d.source[i] == 0x2d || IsDigit(d.source[i]))
    ensures ScanNumber(d, i) == Ok(i + |t|)
  {
    var sign, whole, fraction, exponent :| NumberParts(t, sign, whole, fraction, exponent);
    PartsComplete(d, i, t, sign, whole, fraction, exponent);
  }

  /** The parts stand one after another, each ending where its digits end. */
  lemma PartsStand(d: Doc, i: nat, t: Text, sign: Text, whole: Text, fraction: Text, exponent: Text)
    requires NumberParts(t, sign, whole, fraction, exponent) && At(d, i, t) && Delimited(d, i + |t|)
    ensures var a, b, c := i + |sign|, i + |sign| + |whole|, i + |sign| + |whole| + |fraction|;
            && At(d, i, sign) && At(d, a, whole) && At(d, b, fraction) && At(d, c, exponent)
            && c + |exponent| == i + |t| <= |d.source|
            && (b < |d.source| ==> !IsDigit(d.source[b])) && (c < |d.source| ==> !IsDigit(d.source[c]))
            && (fraction == [] && b < |d.source| ==> d.source[b] != 0x2e)
            && (exponent == [] && c < |d.source| ==> d.source[c] != 0x65 && d.source[c] != 0x45)
  {
    hide At, SignPart, IntegerPart, FractionPart, ExponentPart;
    var a, b, c := i + |sign|, i + |sign| + |whole|, i + |sign| + |whole| + |fraction|;
    AtBound(d, i, t);
    assert t == sign + (whole + (fraction + exponent));
    AtSplit(d, i, sign, whole + (fraction + exponent));
    AtSplit(d, a, whole, fraction + exponent);
    AtSplit(d, b, fraction, exponent);
    PartStarts(fraction, exponent);
    StartOf(d, b, fraction);
    StartOf(d, c, exponent);
  }

  lemma PartsComplete(d: Doc, i: nat, t: Text, sign: Text, whole: Text, fraction: Text, exponent: Text)
    requires NumberParts(t, sign, whole, fraction, exponent) && At(d, i, t) && Delimited(d, i + |t|)
    requires |t| <= d.limits.maxNumericTokenLength && d.finite(t)
    ensures i < |d.source| && (d.source[i] == 0x2d || IsDigit(d.source[i]))
    ensures ScanNumber(d, i) == Ok(i + |t|)
  {
    hide At, SignPart, IntegerPart, FractionPart, ExponentPart, ScanSign, ScanInteger, ScanFraction, ScanExponent;
    var a, b, c := i + |sign|, i + |sign| + |whole|, i + |sign| + |whole| + |fraction|;
    PartsStand(d, i, t, sign, whole, fraction, exponent);
    SignComplete(d, i, sign, whole);
    AtSlice(d, i, t);
    IntegerComplete(d, i, a, whole);
    FractionComplete(d, i, b, fraction);
    ExponentComplete(d, i, c, exponent);
  }

  lemma SignComplete(d: Doc, i: nat, sign: Text, whole: Text)
    requires SignPart(sign) && IntegerPart(whole) && At(d, i, sign) && At(d, i + |sign|, whole)
    requires |sign| <= d.limits.maxNumericTokenLength
    ensures i < |d.source| && (d.source[i] == 0x2d || IsDigit(d.source[i]))
    ensures ScanSign(d, i) == Ok(i + |sign|)
  {
    FirstDigit(whole);
    StartOf(d, i, sign);
    StartOf(d, i + |sign|, whole);
  }

  lemma FirstDigit(t: Text)
    requires IntegerPart(t)
    ensures |t| >= 1 && IsDigit(t[0])
  {
  }

  lemma PartStarts(fraction: Text, exponent: Text)
    requires FractionPart(fraction) && ExponentPart(exponent)
    ensures fraction != [] ==> fraction[0] == 0x2e
    ensures exponent != [] ==> exponent[0] == 0x65 || exponent[0] == 0x45
  {
  }

  lemma StartOf(d: Doc, i: nat, t: Text)
    requires At(d, i, t)
    ensures t != [] ==> i < |d.source| && d.source[i] == t[0]
  {
    if t != [] { assert d.source[i..i + |t|][0] == d.source[i]; }
  }

  // ----- white space

  lemma {:induction false} SkipsWhitespace(d: Doc, i: nat, ws: Text)
    requires At(d, i, ws) && Whitespace(ws)
    ensures SkipWs(d.source, i) == SkipWs(d.source, i + |ws|)
    decreases |ws|
  {
    if ws != [] {
      assert ws == [ws[0]] + ws[1..];
      AtSplit(d, i, [ws[0]], ws[1..]);
      AtUnit(d, i, ws[0]);
      SkipsWhitespace(d, i + 1, ws[1..]);
    }
  }
}
