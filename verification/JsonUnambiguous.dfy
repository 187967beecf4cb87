/** A JSON text has one derivation, so it denotes one value and the scanner's verdict can be read off that derivation. */
module JsonUnambiguous {
  import opened CodeUnits
  import opened Wrappers
  import opened JsonGrammar
  import opened JsonScanner
  import opened JsonLexemes
  import opened JsonAcceptance
  import opened JsonSoundness

  // ----- strings

  lemma ItemUnique(d: Doc, i: nat, x: Item, y: Item)
    requires ItemOk(x) && At(d, i, PrintItem(x)) && i + |PrintItem(x)| < |d.source|
    requires ItemOk(y) && At(d, i, PrintItem(y)) && i + |PrintItem(y)| < |d.source|
    ensures x == y
  {
    hide ItemOk, ScanEscape, At;
    if x.Plain? { PlainComplete(d, i, x); } else { EscapeComplete(d, i, x); }
    if y.Plain? { PlainComplete(d, i, y); } else { EscapeComplete(d, i, y); }
  }

  /** A string body stands at i: empty exactly when the closing quote is next. */
  lemma BodyStands(d: Doc, i: nat, xs: seq<Item>)
    requires ItemsOk(xs) && At(d, i, PrintItems(xs) + [QUOTE])
    ensures i < |d.source| && (xs == [] <==> d.source[i] == QUOTE)
    ensures xs != [] ==> var j := i + |PrintItem(xs[0])|;
            At(d, i, PrintItem(xs[0])) && j < |d.source| && At(d, j, PrintItems(xs[1..]) + [QUOTE])
  {
    hide At;
    if xs == [] {
      assert PrintItems(xs) + [QUOTE] == [QUOTE];
      AtUnit(d, i, QUOTE);
    } else {
      assert xs == [xs[0]] + xs[1..];
      PrintCons(xs[0], xs[1..]);
      AtSplit(d, i, PrintItem(xs[0]), PrintItems(xs[1..]) + [QUOTE]);
      AtBound(d, i + |PrintItem(xs[0])|, PrintItems(xs[1..]) + [QUOTE]);
      StartOf(d, i, PrintItem(xs[0]));
    }
  }

  lemma {:induction false} ItemsUnique(d: Doc, i: nat, xs: seq<Item>, ys: seq<Item>)
    requires ItemsOk(xs) && At(d, i, PrintItems(xs) + [QUOTE])
    requires ItemsOk(ys) && At(d, i, PrintItems(ys) + [QUOTE])
    ensures xs == ys
    decreases |xs|
  {
    hide At, PrintItem, PrintItems, ItemOk;
    BodyStands(d, i, xs);
    BodyStands(d, i, ys);
    if xs != [] {
      ItemUnique(d, i, xs[0], ys[0]);
      ItemsUnique(d, i + |PrintItem(xs[0])|, xs[1..], ys[1..]);
      assert xs == [xs[0]] + xs[1..] && ys == [ys[0]] + ys[1..];
    }
  }

  lemma StringUnique(d: Doc, i: nat, xs: seq<Item>, ys: seq<Item>)
    requires ItemsOk(xs) && At(d, i, PrintString(xs))
    requires ItemsOk(ys) && At(d, i, PrintString(ys))
    ensures xs == ys
  {
    hide At;
    Assoc([QUOTE], PrintItems(xs), [QUOTE]);
    Assoc([QUOTE], PrintItems(ys), [QUOTE]);
    AtSplit(d, i, [QUOTE], PrintItems(xs) + [QUOTE]);
    AtSplit(d, i, [QUOTE], PrintItems(ys) + [QUOTE]);
    ItemsUnique(d, i + 1, xs, ys);
  }

  // ----- white space and numbers

  /** Two texts standing at the same place with the same length are the same. */
  lemma SameLength(d: Doc, i: nat, a: Text, b: Text)
    requires At(d, i, a) && At(d, i, b) && |a| == |b|
    ensures a == b
  {
  }

  lemma BlankUnique(d: Doc, i: nat, a: Text, b: Text)
    requires At(d, i, a) && Whitespace(a) && i + |a| < |d.source| && !IsWhitespace(d.source[i + |a|])
    requires At(d, i, b) && Whitespace(b) && i + |b| < |d.source| && !IsWhitespace(d.source[i + |b|])
    ensures a == b
  {
    SkipsWhitespace(d, i, a);
    SkipsWhitespace(d, i, b);
    SameLength(d, i, a, b);
  }

  lemma NumberUnique(d: Doc, i: nat, a: Text, b: Text)
    requires IsNumber(a) && At(d, i, a) && Delimited(d, i + |a|)
    requires IsNumber(b) && At(d, i, b) && Delimited(d, i + |b|)
    ensures a == b
  {
    hide IsNumber, ScanNumber;
    var free := d.(limits := d.limits.(maxNumericTokenLength := |a| + |b|), finite := (t: Text) => true);
    assert At(free, i, a) && At(free, i, b) && Delimited(free, i + |a|) && Delimited(free, i + |b|);
    NumberComplete(free, i, a);
    NumberComplete(free, i, b);
    SameLength(d, i, a, b);
  }

  // ----- values

  /** The first unit tells which production a value uses. */
  lemma Production(v: Cst)
    requires Grammatical(v)
    ensures Print(v) != []
    ensures var u := Print(v)[0];
            && (v.Lit? <==> u in {0x74, 0x66, 0x6e}) && (v.Str? <==> u == QUOTE)
            && (v.Arr? <==> u == OPEN_BRACKET) && (v.Obj? <==> u == OPEN_BRACE)
    ensures v.Lit? ==> v.word == if Print(v)[0] == 0x74 then TRUE else if Print(v)[0] == 0x66 then FALSE else NULL
  {
    if v.Num? {
      var sign, whole, fraction, exponent :| NumberParts(v.lexeme, sign, whole, fraction, exponent);
      FirstDigit(whole);
    }
  }

  lemma {:induction false} ValueUnique(d: Doc, i: nat, v: Cst, w: Cst)
    requires Grammatical(v) && At(d, i, Print(v)) && Delimited(d, i + |Print(v)|)
    requires Grammatical(w) && At(d, i, Print(w)) && Delimited(d, i + |Print(w)|)
    ensures v == w
    decreases v, 1
  {
    Production(v);
    Production(w);
    StartOf(d, i, Print(v));
    StartOf(d, i, Print(w));
    hide Print, At, Delimited, IsNumber;
    match v {
      case Lit(_) =>
      case Num(a) => NumberLexeme(v); NumberLexeme(w); NumberUnique(d, i, a, w.lexeme);
      case Str(xs) => StringText(v); StringText(w); StringUnique(d, i, xs, w.items);
      case Arr(blank, elems) => ArrayUnique(d, i, v, w);
      case Obj(blank, members) => ObjectUnique(d, i, v, w);
    }
  }

  lemma NumberLexeme(v: Cst)
    requires v.Num?
    ensures Print(v) == v.lexeme
  {
  }

  lemma StringText(v: Cst)
    requires v.Str?
    ensures Print(v) == PrintString(v.items)
  {
  }

  /** Inside the brackets: blank and the closing bracket, or elements whose first is no closing bracket. */
  lemma ArrayStands(d: Doc, i: nat, v: Cst)
    requires v.Arr? && Grammatical(v) && At(d, i, Print(v))
    ensures v.elems.NoElems? ==>
              At(d, i + 1, v.blank) && i + 1 + |v.blank| < |d.source| && d.source[i + 1 + |v.blank|] == CLOSE_BRACKET
    ensures v.elems.Elem? ==> At(d, i + 1, ElemsTail(v.elems))
    ensures var j := i + 1 + |v.blank| + (if v.elems.Elem? then |v.elems.pre| else 0);
            j < |d.source| && SkipWs(d.source, i + 1) == j && (d.source[j] == CLOSE_BRACKET <==> v.elems.NoElems?)
  {
    hide At, SkipWs;
    var elems := v.elems;
    if elems.NoElems? {
      assert Print(v) == [OPEN_BRACKET] + (v.blank + [CLOSE_BRACKET]);
      AtSplit(d, i, [OPEN_BRACKET], v.blank + [CLOSE_BRACKET]);
      AtSplit(d, i + 1, v.blank, [CLOSE_BRACKET]);
      AtUnit(d, i + 1 + |v.blank|, CLOSE_BRACKET);
      SkipsWhitespace(d, i + 1, v.blank);
    } else {
      assert Print(v) == [OPEN_BRACKET] + ElemsTail(elems);
      AtSplit(d, i, [OPEN_BRACKET], ElemsTail(elems));
      ElemStands(d, i + 1, elems);
      SkipsWhitespace(d, i + 1, elems.pre);
    }
    Stops(d, i + 1 + |v.blank| + (if elems.Elem? then |elems.pre| else 0));
  }

  lemma Stops(d: Doc, j: nat)
    requires j < |d.source| && !IsWhitespace(d.source[j])
    ensures SkipWs(d.source, j) == j
  {
  }

  lemma {:induction false} ArrayUnique(d: Doc, i: nat, v: Cst, w: Cst)
    requires v.Arr? && Grammatical(v) && At(d, i, Print(v))
    requires w.Arr? && Grammatical(w) && At(d, i, Print(w))
    ensures v == w
    decreases v, 0
  {
    hide At, Print, SkipWs;
    ArrayStands(d, i, v);
    ArrayStands(d, i, w);
    if v.elems.NoElems? {
      SameLength(d, i + 1, v.blank, w.blank);
    } else {
      ElemsUnique(d, i + 1, v.elems, w.elems);
    }
  }

  lemma {:induction false} ElemsUnique(d: Doc, i: nat, es: Elems, fs: Elems)
    requires es.Elem? && GrammaticalElems(es) && At(d, i, ElemsTail(es))
    requires fs.Elem? && GrammaticalElems(fs) && At(d, i, ElemsTail(fs))
    ensures es == fs
    decreases es
  {
    hide At, Print, ElemsTail, AfterElem, Delimited;
    ElemStands(d, i, es);
    ElemStands(d, i, fs);
    BlankUnique(d, i, es.pre, fs.pre);
    var p := i + |es.pre|;
    ValueUnique(d, p, es.value, fs.value);
    var q := p + |Print(es.value)|;
    AfterElemEnds(d, q, es);
    AfterElemEnds(d, q, fs);
    BlankUnique(d, q, es.post, fs.post);
    if es.rest.Elem? { ElemsUnique(d, q + |es.post| + 1, es.rest, fs.rest); }
  }

  lemma AfterElemEnds(d: Doc, q: nat, es: Elems)
    requires es.Elem? && At(d, q, AfterElem(es))
    ensures At(d, q, es.post) && q + |es.post| < |d.source| && !IsWhitespace(d.source[q + |es.post|])
    ensures d.source[q + |es.post|] == CLOSE_BRACKET <==> es.rest.NoElems?
    ensures es.rest.Elem? ==> At(d, q + |es.post| + 1, ElemsTail(es.rest))
  {
    hide At, ElemsTail;
    AfterElemStands(d, q, es);
    AtUnit(d, q + |es.post|, CLOSE_BRACKET);
    AtUnit(d, q + |es.post|, COMMA);
  }

  lemma ObjectStands(d: Doc, i: nat, v: Cst)
    requires v.Obj? && Grammatical(v) && At(d, i, Print(v))
    ensures v.members.NoMembers? ==>
              At(d, i + 1, v.blank) && i + 1 + |v.blank| < |d.source| && d.source[i + 1 + |v.blank|] == CLOSE_BRACE
    ensures v.members.Member? ==> At(d, i + 1, MembersTail(v.members))
    ensures var j := i + 1 + |v.blank| + (if v.members.Member? then |v.members.pre| else 0);
            j < |d.source| && SkipWs(d.source, i + 1) == j && (d.source[j] == CLOSE_BRACE <==> v.members.NoMembers?)
  {
    hide At, SkipWs;
    var members := v.members;
    if members.NoMembers? {
      assert Print(v) == [OPEN_BRACE] + (v.blank + [CLOSE_BRACE]);
      AtSplit(d, i, [OPEN_BRACE], v.blank + [CLOSE_BRACE]);
      AtSplit(d, i + 1, v.blank, [CLOSE_BRACE]);
      AtUnit(d, i + 1 + |v.blank|, CLOSE_BRACE);
      SkipsWhitespace(d, i + 1, v.blank);
    } else {
      assert Print(v) == [OPEN_BRACE] + MembersTail(members);
      AtSplit(d, i, [OPEN_BRACE], MembersTail(members));
      MemberStands(d, i + 1, members);
      StartOf(d, i + 1 + |members.pre|, PrintString(members.key));
      SkipsWhitespace(d, i + 1, members.pre);
    }
    Stops(d, i + 1 + |v.blank| + (if members.Member? then |members.pre| else 0));
  }

  /** The first unit after the opening brace and its white space tells an empty object from another. */
  lemma SameEmptiness(d: Doc, i: nat, v: Cst, w: Cst)
    requires v.Obj? && Grammatical(v) && At(d, i, Print(v))
    requires w.Obj? && Grammatical(w) && At(d, i, Print(w))
    ensures v.members.NoMembers? <==> w.members.NoMembers?
  {
    hide At, Print, SkipWs, Grammatical, MembersTail;
    ObjectStands(d, i, v);
    ObjectStands(d, i, w);
  }

  lemma EmptyObjectUnique(d: Doc, i: nat, v: Cst, w: Cst)
    requires v.Obj? && Grammatical(v) && At(d, i, Print(v)) && v.members.NoMembers?
    requires w.Obj? && Grammatical(w) && At(d, i, Print(w)) && w.members.NoMembers?
    ensures v == w
  {
    hide At, Print, SkipWs, MembersTail;
    ObjectStands(d, i, v);
    ObjectStands(d, i, w);
    SameLength(d, i + 1, v.blank, w.blank);
  }

  lemma {:induction false} ObjectUnique(d: Doc, i: nat, v: Cst, w: Cst)
    requires v.Obj? && Grammatical(v) && At(d, i, Print(v))
    requires w.Obj? && Grammatical(w) && At(d, i, Print(w))
    ensures v == w
    decreases v, 0
  {
    hide At, Print, SkipWs, MembersTail;
    SameEmptiness(d, i, v, w);
    if v.members.NoMembers? {
      EmptyObjectUnique(d, i, v, w);
    } else {
      ObjectStands(d, i, v);
      ObjectStands(d, i, w);
      MembersUnique(d, i + 1, v.members, w.members);
    }
  }

  /** The key and the colon in place, each after white space that ends. */
  lemma KeyStands(d: Doc, i: nat, ms: Members)
    requires ms.Member? && At(d, i, MembersTail(ms))
    ensures At(d, i, ms.pre) && i + |ms.pre| < |d.source| && !IsWhitespace(d.source[i + |ms.pre|])
    ensures At(d, i + |ms.pre|, PrintString(ms.key))
    ensures var k := i + |ms.pre| + |PrintString(ms.key)|;
            && At(d, k, ms.mid) && k + |ms.mid| < |d.source| && !IsWhitespace(d.source[k + |ms.mid|])
            && At(d, k + |ms.mid| + 1, MemberValue(ms))
  {
    hide At, MembersTail, MemberValue;
    MemberStands(d, i, ms);
    StartOf(d, i + |ms.pre|, PrintString(ms.key));
    AtUnit(d, i + |ms.pre| + |PrintString(ms.key)| + |ms.mid|, COLON);
  }

  lemma AfterMemberEnds(d: Doc, q: nat, ms: Members)
    requires ms.Member? && At(d, q, AfterMember(ms))
    ensures At(d, q, ms.post) && q + |ms.post| < |d.source| && !IsWhitespace(d.source[q + |ms.post|])
    ensures d.source[q + |ms.post|] == CLOSE_BRACE <==> ms.rest.NoMembers?
    ensures ms.rest.Member? ==> At(d, q + |ms.post| + 1, MembersTail(ms.rest))
  {
    hide At, MembersTail;
    AfterMemberStands(d, q, ms);
    AtUnit(d, q + |ms.post|, CLOSE_BRACE);
    AtUnit(d, q + |ms.post|, COMMA);
  }

  lemma {:induction false} MembersUnique(d: Doc, i: nat, ms: Members, ns: Members)
    requires ms.Member? && GrammaticalMembers(ms) && At(d, i, MembersTail(ms))
    requires ns.Member? && GrammaticalMembers(ns) && At(d, i, MembersTail(ns))
    ensures ms == ns
    decreases ms
  {
    hide At, Print, PrintString, MembersTail, MemberValue, AfterMember, Delimited, ItemsOk, Whitespace;
    KeyStands(d, i, ms);
    KeyStands(d, i, ns);
    BlankUnique(d, i, ms.pre, ns.pre);
    StringUnique(d, i + |ms.pre|, ms.key, ns.key);
    var k := i + |ms.pre| + |PrintString(ms.key)|;
    BlankUnique(d, k, ms.mid, ns.mid);
    var g := k + |ms.mid| + 1;
    MemberValueStands(d, g, ms);
    MemberValueStands(d, g, ns);
    ValueBlank(d, g, ms, ns);
    var p := g + |ms.gap|;
    ValueUnique(d, p, ms.value, ns.value);
    var q := p + |Print(ms.value)|;
    AfterMemberEnds(d, q, ms);
    AfterMemberEnds(d, q, ns);
    BlankUnique(d, q, ms.post, ns.post);
    if ms.rest.Member? { MembersUnique(d, q + |ms.post| + 1, ms.rest, ns.rest); }
  }

  lemma ValueBlank(d: Doc, g: nat, ms: Members, ns: Members)
    requires ms.Member? && GrammaticalMembers(ms) && At(d, g, MemberValue(ms))
    requires ns.Member? && GrammaticalMembers(ns) && At(d, g, MemberValue(ns))
    ensures ms.gap == ns.gap
  {
    hide At, Print, MemberValue, Delimited;
    MemberValueStands(d, g, ms);
    MemberValueStands(d, g, ns);
    BlankUnique(d, g, ms.gap, ns.gap);
  }

  // ----- texts

  /** The RFC 8259 grammar is unambiguous: one text, one derivation. */
  lemma DerivationUnique(d: Doc, before: Text, v: Cst, after: Text, before': Text, v': Cst, after': Text)
    requires Derives(d, before, v, after) && Derives(d, before', v', after')
    ensures before == before' && v == v' && after == after'
  {
    hide Print, Grammatical, At, Delimited;
    RootSplit(d, before, v, after);
    RootSplit(d, before', v', after');
    BlankUnique(d, 0, before, before');
    ValueUnique(d, |before|, v, v');
    SameLength(d, |before| + |Print(v)|, after, after');
  }

  /** Given its derivation, a text is accepted exactly when that derivation is within the limits. */
  lemma VerdictByDerivation(d: Doc, before: Text, v: Cst, after: Text)
    requires Derives(d, before, v, after)
    ensures Validate(d).Ok? <==> WithinBudget(d, v)
  {
    hide Validate, WithinBudget;
    ScannerDecides(d);
    if IsBoundedJson(d) {
      var b, w, a :| Derives(d, b, w, a) && WithinBudget(d, w);
      DerivationUnique(d, before, v, after, b, w, a);
    }
  }
}
