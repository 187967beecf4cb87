/** Everything the scanner accepts is a bounded JSON text, and the scan decides IsBoundedJson. */
module JsonSoundness {
  import opened CodeUnits
  import opened Wrappers
  import opened JsonGrammar
  import opened JsonScanner
  import opened JsonLexemes
  import opened JsonAcceptance

  /** Reading on inside an open frame: the white space skipped, and the step taken at the unit after it. */
  lemma ReadOn(d: Doc, s: State) returns (ws: Text)
    requires s.index <= |d.source| && s.frames != [] && Run(d, s).Ok?
    ensures At(d, s.index, ws) && Whitespace(ws)
    ensures var t := s.(index := s.index + |ws|);
            && t.index < |d.source| && !IsWhitespace(d.source[t.index])
            && ScanTop(d, t).Ok? && Run(d, ScanTop(d, t).value) == Run(d, s)
  {
    hide ScanObject, ScanArray;
    var j := SkipWs(d.source, s.index);
    ws := d.source[s.index..j];
    RunOnce(d, s);
  }

  // ----- scalars

  lemma WordSound(d: Doc, s: State, word: Text)
    requires s.index < |d.source| && word in {TRUE, FALSE, NULL} && ScanWord(d, s.index, word).Ok?
    ensures At(d, s.index, word) && ScanWord(d, s.index, word).value == s.index + |word|
  {
  }

  lemma ScalarSound(d: Doc, s: State) returns (v: Cst)
    requires s.index < |d.source| && d.source[s.index] != OPEN_BRACE && d.source[s.index] != OPEN_BRACKET
    requires ScanValue(d, s).Ok? && Within(d, s)
    ensures Grammatical(v) && Fits(d, v) && Room(d, s, v) && At(d, s.index, Print(v))
    ensures ScanValue(d, s) == Ok(After(s, v))
  {
    hide ScanString, ScanNumber, At, StringFits, IsNumber, PrintString, ScanWord, Push;
    var u := d.source[s.index];
    if u == QUOTE {
      StringSound(d, s.index);
      v := Str(ScanString(d, s.index).value.1);
    } else if u == 0x74 {
      WordSound(d, s, TRUE);
      v := Lit(TRUE);
    } else if u == 0x66 {
      WordSound(d, s, FALSE);
      v := Lit(FALSE);
    } else if u == 0x6e {
      WordSound(d, s, NULL);
      v := Lit(NULL);
    } else {
      NumberSound(d, s.index);
      var j := ScanNumber(d, s.index).value;
      v := Num(d.source[s.index..j]);
      SliceStands(d, s.index, j);
    }
  }

  lemma SliceStands(d: Doc, i: nat, j: nat)
    requires i <= j <= |d.source|
    ensures At(d, i, d.source[i..j])
  {
  }

  // ----- arrays

  lemma ArrayOpened(d: Doc, s: State)
    requires s.index < |d.source| && d.source[s.index] == OPEN_BRACKET && ScanValue(d, s).Ok?
    ensures s.tokens + 1 <= d.limits.maxTokens && |s.frames| + 1 <= d.limits.maxDepth
    ensures ScanValue(d, s) == Ok(s.(index := s.index + 1, tokens := s.tokens + 1, frames := s.frames + [ArrayFrame(true, true, 0)]))
  {
  }

  /** In an array before a value, anything but a closing bracket starts a value within the item limit. */
  lemma ElemOpened(d: Doc, t: State)
    requires t.frames != [] && t.index < |d.source| && Top(t).ArrayFrame? && Top(t).atValue
    requires d.source[t.index] != CLOSE_BRACKET && ScanTop(d, t).Ok?
    ensures Top(t).items + 1 <= d.limits.maxArrayItems
    ensures ScanTop(d, t) == ScanValue(d, WithTop(t, Top(t).(items := Top(t).items + 1, atValue := false)))
  {
    hide ScanValue;
  }

  /** After an element: a closing bracket or a comma. */
  lemma ElemClosed(d: Doc, t: State)
    requires t.frames != [] && t.index < |d.source| && Top(t).ArrayFrame? && !Top(t).atValue && ScanTop(d, t).Ok?
    ensures d.source[t.index] == CLOSE_BRACKET || d.source[t.index] == COMMA
    ensures t.tokens + 1 <= d.limits.maxTokens
    ensures d.source[t.index] == COMMA ==>
              ScanTop(d, t) == Ok(WithTop(t.(index := t.index + 1, tokens := t.tokens + 1), Top(t).(atValue := true, allowEnd := false)))
  {
    hide ScanValue;
  }

  /** Right after a comma a closing bracket is refused. */
  lemma NoTrailingComma(d: Doc, t: State)
    requires t.frames != [] && t.index < |d.source| && ScanTop(d, t).Ok?
    requires Top(t).ArrayFrame? && Top(t).atValue && !Top(t).allowEnd
    ensures d.source[t.index] != CLOSE_BRACKET
  {
    hide ScanValue;
  }

  lemma {:induction false} ElemsSound(d: Doc, s: State) returns (es: Elems)
    requires s.index <= |d.source| && s.frames != [] && Top(s).ArrayFrame? && Top(s).atValue
    requires Run(d, s).Ok? && Within(d, s)
    requires SkipWs(d.source, s.index) < |d.source| ==> d.source[SkipWs(d.source, s.index)] != CLOSE_BRACKET
    ensures ElemsFit(d, s, es)
    decreases |d.source| - s.index, 1
  {
    hide Run, ScanTop, ScanValue, At, Print, ElemsTail;
    var pre := ReadOn(d, s);
    SkipsWhitespace(d, s.index, pre);
    var t := s.(index := s.index + |pre|);
    ElemOpened(d, t);
    var u := WithTop(t, Top(t).(items := Top(t).items + 1, atValue := false));
    var value := ValueSound(d, u);
    var w := After(u, value);
    var post := ReadOn(d, w);
    var c := w.(index := w.index + |post|);
    ElemClosed(d, c);
    if d.source[c.index] == CLOSE_BRACKET {
      es := Elem(pre, value, post, NoElems);
      AtUnit(d, c.index, CLOSE_BRACKET);
      ElemsJoin(d, s.index, es);
      ElemsFitLast(d, s, es);
    } else {
      var x := WithTop(c.(index := c.index + 1, tokens := c.tokens + 1), Top(c).(atValue := true, allowEnd := false));
      var gap := ReadOn(d, x);
      SkipsWhitespace(d, x.index, gap);
      NoTrailingComma(d, x.(index := x.index + |gap|));
      var rest := ElemsSound(d, x);
      es := Elem(pre, value, post, rest);
      AtUnit(d, c.index, COMMA);
      ElemsJoin(d, s.index, es);
      ElemsFitRest(d, s, es, x);
    }
  }

  /** Pieces standing one after another make the tail of an element list. */
  lemma ElemsJoin(d: Doc, i: nat, es: Elems)
    requires es.Elem? && At(d, i, es.pre) && At(d, i + |es.pre|, Print(es.value))
    requires var q := i + |es.pre| + |Print(es.value)|;
             && At(d, q, es.post)
             && (es.rest.NoElems? ==> At(d, q + |es.post|, [CLOSE_BRACKET]))
             && (es.rest.Elem? ==> At(d, q + |es.post|, [COMMA]) && At(d, q + |es.post| + 1, ElemsTail(es.rest)))
    ensures At(d, i, ElemsTail(es))
  {
    hide At, Print;
    ElemsTailShape(es);
    var q := i + |es.pre| + |Print(es.value)|;
    var next := if es.rest.NoElems? then [CLOSE_BRACKET] else [COMMA] + ElemsTail(es.rest);
    if es.rest.Elem? { AtSplit(d, q + |es.post|, [COMMA], ElemsTail(es.rest)); }
    AtSplit(d, q, es.post, next);
    AtSplit(d, i + |es.pre|, Print(es.value), AfterElem(es));
    AtSplit(d, i, es.pre, Print(es.value) + AfterElem(es));
  }

  lemma ElemsFitLast(d: Doc, s: State, es: Elems)
    requires es.Elem? && es.rest.NoElems? && Whitespace(es.pre) && Whitespace(es.post)
    requires Grammatical(es.value) && Fits(d, es.value)
    requires s.frames != [] && Top(s).ArrayFrame? && Top(s).atValue && Top(s).items + 1 <= d.limits.maxArrayItems
    requires s.tokens + Tokens(es.value) + 1 <= d.limits.maxTokens
    requires s.objectKeys + Keys(es.value) <= d.limits.maxObjectKeys && |s.frames| + Depth(es.value) <= d.limits.maxDepth
    requires At(d, s.index, ElemsTail(es))
    ensures ElemsFit(d, s, es)
  {
    hide At, ElemsTail;
    assert GrammaticalElems(es.rest) && FitsElems(d, es.rest);
    assert Count(es.rest) == 0 && KeysElems(es.rest) == 0 && DepthElems(es.rest) == 0;
  }

  lemma ElemsFitRest(d: Doc, s: State, es: Elems, x: State)
    requires es.Elem? && es.rest.Elem? && Whitespace(es.pre) && Whitespace(es.post)
    requires Grammatical(es.value) && Fits(d, es.value) && ElemsFit(d, x, es.rest)
    requires s.frames != [] && |x.frames| == |s.frames| && Top(s).ArrayFrame? && Top(s).atValue && Top(x).items == Top(s).items + 1
    requires x.tokens == s.tokens + Tokens(es.value) + 1 && x.objectKeys == s.objectKeys + Keys(es.value)
    requires |s.frames| + Depth(es.value) <= d.limits.maxDepth
    requires At(d, s.index, ElemsTail(es))
    ensures ElemsFit(d, s, es)
  {
    hide At, ElemsTail;
  }

  // ----- objects

  lemma ObjectOpened(d: Doc, s: State)
    requires s.index < |d.source| && d.source[s.index] == OPEN_BRACE && ScanValue(d, s).Ok?
    ensures s.tokens + 1 <= d.limits.maxTokens && |s.frames| + 1 <= d.limits.maxDepth
    ensures ScanValue(d, s) == Ok(s.(index := s.index + 1, tokens := s.tokens + 1, frames := s.frames + [ObjectFrame(KeyOrEnd, true, {})]))
  {
  }

  lemma KeySound(d: Doc, t: State) returns (items: seq<Item>)
    requires t.frames != [] && t.index < |d.source| && Top(t).ObjectFrame? && Top(t).state == KeyOrEnd
    requires d.source[t.index] != CLOSE_BRACE && ScanTop(d, t).Ok?
    ensures ItemsOk(items) && StringFits(d, items) && At(d, t.index, PrintString(items)) && Decode(items) !in Top(t).keys
    ensures t.tokens + 1 <= d.limits.maxTokens && t.objectKeys + 1 <= d.limits.maxObjectKeys
    ensures ScanTop(d, t) == Ok(WithTop(t.(index := t.index + |PrintString(items)|, tokens := t.tokens + 1, objectKeys := t.objectKeys + 1),
                                        Top(t).(keys := Top(t).keys + {Decode(items)}, state := ColonNext)))
  {
    hide ScanString, ScanValue, At, StringFits, PrintString;
    StringSound(d, t.index);
    items := ScanString(d, t.index).value.1;
  }

  lemma ColonSound(d: Doc, t: State)
    requires t.frames != [] && t.index < |d.source| && Top(t).ObjectFrame? && Top(t).state == ColonNext && ScanTop(d, t).Ok?
    ensures d.source[t.index] == COLON && t.tokens + 1 <= d.limits.maxTokens
    ensures ScanTop(d, t) == Ok(WithTop(t.(index := t.index + 1, tokens := t.tokens + 1), Top(t).(state := ValueNext)))
  {
    hide ScanValue, ScanKey;
  }

  lemma MemberClosed(d: Doc, t: State)
    requires t.frames != [] && t.index < |d.source| && Top(t).ObjectFrame? && Top(t).state == MemberEnd && ScanTop(d, t).Ok?
    ensures d.source[t.index] == CLOSE_BRACE || d.source[t.index] == COMMA
    ensures t.tokens + 1 <= d.limits.maxTokens
    ensures d.source[t.index] == COMMA ==>
              ScanTop(d, t) == Ok(WithTop(t.(index := t.index + 1, tokens := t.tokens + 1), Top(t).(state := KeyOrEnd, allowEnd := false)))
  {
    hide ScanValue, ScanKey;
  }

  lemma NoTrailingMember(d: Doc, t: State)
    requires t.frames != [] && t.index < |d.source| && ScanTop(d, t).Ok?
    requires Top(t).ObjectFrame? && Top(t).state == KeyOrEnd && !Top(t).allowEnd
    ensures d.source[t.index] != CLOSE_BRACE
  {
    hide ScanValue, ScanKey;
  }

  /** A member up to its value: white space, key, colon, and the state in which the value is scanned. */
  lemma HeadSound(d: Doc, s: State) returns (pre: Text, key: seq<Item>, mid: Text, gap: Text, u: State)
    requires s.index <= |d.source| && s.frames != [] && Top(s).ObjectFrame? && Top(s).state == KeyOrEnd
    requires Run(d, s).Ok?
    requires SkipWs(d.source, s.index) < |d.source| ==> d.source[SkipWs(d.source, s.index)] != CLOSE_BRACE
    ensures Whitespace(pre) && ItemsOk(key) && StringFits(d, key) && Whitespace(mid) && Whitespace(gap)
    ensures At(d, s.index, pre) && At(d, s.index + |pre|, PrintString(key))
    ensures var k := s.index + |pre| + |PrintString(key)|;
            At(d, k, mid) && At(d, k + |mid|, [COLON]) && At(d, k + |mid| + 1, gap) && u.index == k + |mid| + 1 + |gap|
    ensures Decode(key) !in Top(s).keys
    ensures u == WithTop(s.(index := u.index, tokens := s.tokens + 2, objectKeys := s.objectKeys + 1),
                         Top(s).(keys := Top(s).keys + {Decode(key)}, state := MemberEnd))
    ensures u.objectKeys <= d.limits.maxObjectKeys && u.tokens <= d.limits.maxTokens
    ensures u.index < |d.source| && ScanValue(d, u).Ok? && Run(d, ScanValue(d, u).value) == Run(d, s)
  {
    hide Run, ScanTop, ScanValue, At, PrintString, StringFits, ItemOk, Decode;
    pre := ReadOn(d, s);
    SkipsWhitespace(d, s.index, pre);
    var t := s.(index := s.index + |pre|);
    key := KeySound(d, t);
    var k := ScanTop(d, t).value;
    mid := ReadOn(d, k);
    var m := k.(index := k.index + |mid|);
    ColonSound(d, m);
    AtUnit(d, m.index, COLON);
    var g := ScanTop(d, m).value;
    gap := ReadOn(d, g);
    var v := g.(index := g.index + |gap|);
    MemberValueStep(d, v);
    u := WithTop(v, Top(v).(state := MemberEnd));
  }

  lemma {:induction false} MembersSound(d: Doc, s: State) returns (ms: Members)
    requires s.index <= |d.source| && s.frames != [] && Top(s).ObjectFrame? && Top(s).state == KeyOrEnd
    requires Run(d, s).Ok? && Within(d, s)
    requires SkipWs(d.source, s.index) < |d.source| ==> d.source[SkipWs(d.source, s.index)] != CLOSE_BRACE
    ensures MembersFit(d, s, ms)
    decreases |d.source| - s.index, 1
  {
    hide Run, ScanTop, ScanValue, At, Print, PrintString, MembersTail, StringFits, ItemOk, Decode;
    var pre, key, mid, gap, u := HeadSound(d, s);
    var value := ValueSound(d, u);
    var w := After(u, value);
    var post := ReadOn(d, w);
    var c := w.(index := w.index + |post|);
    MemberClosed(d, c);
    if d.source[c.index] == CLOSE_BRACE {
      ms := Member(pre, key, mid, gap, value, post, NoMembers);
      AtUnit(d, c.index, CLOSE_BRACE);
      MembersJoin(d, s.index, ms);
      MembersFitLast(d, s, ms);
    } else {
      var x := WithTop(c.(index := c.index + 1, tokens := c.tokens + 1), Top(c).(state := KeyOrEnd, allowEnd := false));
      var space := ReadOn(d, x);
      SkipsWhitespace(d, x.index, space);
      NoTrailingMember(d, x.(index := x.index + |space|));
      var rest := MembersSound(d, x);
      ms := Member(pre, key, mid, gap, value, post, rest);
      AtUnit(d, c.index, COMMA);
      MembersJoin(d, s.index, ms);
      MembersFitRest(d, s, ms, x);
    }
  }

  lemma MembersJoin(d: Doc, i: nat, ms: Members)
    requires ms.Member? && At(d, i, ms.pre) && At(d, i + |ms.pre|, PrintString(ms.key))
    requires var k := i + |ms.pre| + |PrintString(ms.key)|;
             && At(d, k, ms.mid) && At(d, k + |ms.mid|, [COLON]) && At(d, k + |ms.mid| + 1, ms.gap)
             && At(d, k + |ms.mid| + 1 + |ms.gap|, Print(ms.value))
    requires var q := i + |ms.pre| + |PrintString(ms.key)| + |ms.mid| + 1 + |ms.gap| + |Print(ms.value)|;
             && At(d, q, ms.post)
             && (ms.rest.NoMembers? ==> At(d, q + |ms.post|, [CLOSE_BRACE]))
             && (ms.rest.Member? ==> At(d, q + |ms.post|, [COMMA]) && At(d, q + |ms.post| + 1, MembersTail(ms.rest)))
    ensures At(d, i, MembersTail(ms))
  {
    hide At, Print, PrintString;
    MembersTailShape(ms);
    var k := i + |ms.pre| + |PrintString(ms.key)|;
    var v := k + |ms.mid| + 1;
    var q := v + |ms.gap| + |Print(ms.value)|;
    var next := if ms.rest.NoMembers? then [CLOSE_BRACE] else [COMMA] + MembersTail(ms.rest);
    if ms.rest.Member? { AtSplit(d, q + |ms.post|, [COMMA], MembersTail(ms.rest)); }
    AtSplit(d, q, ms.post, next);
    AtSplit(d, v + |ms.gap|, Print(ms.value), AfterMember(ms));
    AtSplit(d, v, ms.gap, Print(ms.value) + AfterMember(ms));
    var colon, key := [COLON], PrintString(ms.key);
    AtSplit(d, k + |ms.mid|, colon, MemberValue(ms));
    AtSplit(d, k, ms.mid, colon + MemberValue(ms));
    AtSplit(d, i + |ms.pre|, key, ms.mid + (colon + MemberValue(ms)));
    AtSplit(d, i, ms.pre, key + (ms.mid + (colon + MemberValue(ms))));
  }

  predicate MemberBlanks(ms: Members)
    requires ms.Member?
  {
    Whitespace(ms.pre) && Whitespace(ms.mid) && Whitespace(ms.gap) && Whitespace(ms.post)
  }

  lemma MembersFitLast(d: Doc, s: State, ms: Members)
    requires ms.Member? && ms.rest.NoMembers? && MemberBlanks(ms) && ItemsOk(ms.key) && StringFits(d, ms.key)
    requires Grammatical(ms.value) && Fits(d, ms.value)
    requires s.frames != [] && Top(s).ObjectFrame? && Top(s).state == KeyOrEnd && Decode(ms.key) !in Top(s).keys
    requires s.tokens + 2 + Tokens(ms.value) + 1 <= d.limits.maxTokens
    requires s.objectKeys + 1 + Keys(ms.value) <= d.limits.maxObjectKeys && |s.frames| + Depth(ms.value) <= d.limits.maxDepth
    requires At(d, s.index, MembersTail(ms))
    ensures MembersFit(d, s, ms)
  {
    hide At, MembersTail, ItemOk, StringFits, Decode;
    assert GrammaticalMembers(ms.rest) && FitsMembers(d, ms.rest, Top(s).keys + {Decode(ms.key)});
    assert KeysMembers(ms.rest) == 0 && DepthMembers(ms.rest) == 0;
  }

  lemma MembersFitRest(d: Doc, s: State, ms: Members, x: State)
    requires ms.Member? && ms.rest.Member? && MemberBlanks(ms) && ItemsOk(ms.key) && StringFits(d, ms.key)
    requires Grammatical(ms.value) && Fits(d, ms.value) && MembersFit(d, x, ms.rest)
    requires s.frames != [] && |x.frames| == |s.frames| && Top(s).ObjectFrame? && Top(s).state == KeyOrEnd
    requires Decode(ms.key) !in Top(s).keys && Top(x).keys == Top(s).keys + {Decode(ms.key)}
    requires x.tokens == s.tokens + 2 + Tokens(ms.value) + 1 && x.objectKeys == s.objectKeys + 1 + Keys(ms.value)
    requires |s.frames| + Depth(ms.value) <= d.limits.maxDepth
    requires At(d, s.index, MembersTail(ms))
    ensures MembersFit(d, s, ms)
  {
    hide At, MembersTail, ItemOk, StringFits, Decode;
  }

  // ----- values

  lemma {:induction false} ValueSound(d: Doc, s: State) returns (v: Cst)
    requires s.index < |d.source| && ScanValue(d, s).Ok? && Run(d, ScanValue(d, s).value).Ok? && Within(d, s)
    ensures Grammatical(v) && Fits(d, v) && Room(d, s, v) && At(d, s.index, Print(v))
    ensures After(s, v).index <= |d.source| && Run(d, ScanValue(d, s).value) == Run(d, After(s, v))
    decreases |d.source| - s.index, 0
  {
    hide Run, ScanValue, ScanTop, At;
    if d.source[s.index] == OPEN_BRACKET {
      AtUnit(d, s.index, OPEN_BRACKET);
      ArrayOpened(d, s);
      v := ArraySound(d, s);
    } else if d.source[s.index] == OPEN_BRACE {
      AtUnit(d, s.index, OPEN_BRACE);
      ObjectOpened(d, s);
      v := ObjectSound(d, s);
    } else {
      v := ScalarSound(d, s);
    }
    AtBound(d, s.index, Print(v));
  }

  lemma {:induction false} ArraySound(d: Doc, s: State) returns (v: Cst)
    requires s.index < |d.source| && At(d, s.index, [OPEN_BRACKET]) && Within(d, s)
    requires s.tokens + 1 <= d.limits.maxTokens && |s.frames| + 1 <= d.limits.maxDepth
    requires ScanValue(d, s) == Ok(s.(index := s.index + 1, tokens := s.tokens + 1, frames := s.frames + [ArrayFrame(true, true, 0)]))
    requires Run(d, ScanValue(d, s).value).Ok?
    ensures Grammatical(v) && Fits(d, v) && Room(d, s, v) && At(d, s.index, Print(v))
    ensures After(s, v).index <= |d.source| && Run(d, ScanValue(d, s).value) == Run(d, After(s, v))
    decreases |d.source| - s.index - 1, 2
  {
    hide Run, ScanValue, ScanTop, At;
    var o := ScanValue(d, s).value;
    var blank := ReadOn(d, o);
    SkipsWhitespace(d, o.index, blank);
    var t := o.(index := o.index + |blank|);
    if d.source[t.index] == CLOSE_BRACKET {
      v := Arr(blank, NoElems);
      assert Print(v) == [OPEN_BRACKET] + (blank + [CLOSE_BRACKET]);
      AtUnit(d, t.index, CLOSE_BRACKET);
      AtSplit(d, o.index, blank, [CLOSE_BRACKET]);
      AtSplit(d, s.index, [OPEN_BRACKET], blank + [CLOSE_BRACKET]);
      ClosingToken(d, t);
      assert GrammaticalElems(NoElems) && FitsElems(d, NoElems) && Count(NoElems) == 0;
      assert Tokens(v) == 2 && Keys(v) == 0 && Depth(v) == 1;
      ArrayComplete(d, s, blank, NoElems);
    } else {
      var es := ElemsSound(d, o);
      ElemsComplete(d, o, es);
      v := Arr([], es);
      assert Print(v) == [OPEN_BRACKET] + ElemsTail(es);
      AtSplit(d, s.index, [OPEN_BRACKET], ElemsTail(es));
      ArrayComplete(d, s, [], es);
    }
  }

  lemma ClosingToken(d: Doc, t: State)
    requires t.frames != [] && t.index < |d.source| && ScanTop(d, t).Ok?
    requires || (Top(t).ArrayFrame? && Top(t).atValue && d.source[t.index] == CLOSE_BRACKET)
             || (Top(t).ObjectFrame? && Top(t).state == KeyOrEnd && d.source[t.index] == CLOSE_BRACE)
    ensures t.tokens + 1 <= d.limits.maxTokens
  {
    hide ScanValue, ScanKey;
  }

  lemma {:induction false} ObjectSound(d: Doc, s: State) returns (v: Cst)
    requires s.index < |d.source| && At(d, s.index, [OPEN_BRACE]) && Within(d, s)
    requires s.tokens + 1 <= d.limits.maxTokens && |s.frames| + 1 <= d.limits.maxDepth
    requires ScanValue(d, s) == Ok(s.(index := s.index + 1, tokens := s.tokens + 1, frames := s.frames + [ObjectFrame(KeyOrEnd, true, {})]))
    requires Run(d, ScanValue(d, s).value).Ok?
    ensures Grammatical(v) && Fits(d, v) && Room(d, s, v) && At(d, s.index, Print(v))
    ensures After(s, v).index <= |d.source| && Run(d, ScanValue(d, s).value) == Run(d, After(s, v))
    decreases |d.source| - s.index - 1, 2
  {
    hide Run, ScanValue, ScanTop, At;
    var o := ScanValue(d, s).value;
    var blank := ReadOn(d, o);
    SkipsWhitespace(d, o.index, blank);
    var t := o.(index := o.index + |blank|);
    if d.source[t.index] == CLOSE_BRACE {
      v := Obj(blank, NoMembers);
      assert Print(v) == [OPEN_BRACE] + (blank + [CLOSE_BRACE]);
      AtUnit(d, t.index, CLOSE_BRACE);
      AtSplit(d, o.index, blank, [CLOSE_BRACE]);
      AtSplit(d, s.index, [OPEN_BRACE], blank + [CLOSE_BRACE]);
      ClosingToken(d, t);
      assert GrammaticalMembers(NoMembers) && FitsMembers(d, NoMembers, {});
      assert Tokens(v) == 2 && Keys(v) == 0 && Depth(v) == 1;
      ObjectComplete(d, s, blank, NoMembers);
    } else {
      var ms := MembersSound(d, o);
      MembersComplete(d, o, ms);
      v := Obj([], ms);
      assert Print(v) == [OPEN_BRACE] + MembersTail(ms);
      AtSplit(d, s.index, [OPEN_BRACE], MembersTail(ms));
      ObjectComplete(d, s, [], ms);
    }
  }

  // ----- the whole text

  lemma RootStart(d: Doc)
    ensures var j := SkipWs(d.source, 0);
            Validate(d) == if j >= |d.source| then Err(InvalidJson)
                           else
                             var next := ScanValue(d, State(j, 0, 0, [], true));
                             if next.Err? then Err(next.error) else Run(d, next.value)
  {
    hide ScanValue;
  }

  lemma RootEnd(d: Doc, s: State)
    requires s.index <= |d.source| && s.frames == [] && s.rootComplete
    ensures Run(d, s).Ok? <==> SkipWs(d.source, s.index) == |d.source|
  {
    hide ScanValue, ScanTop;
  }

  /** Grammar refinement: the scanner accepts a text exactly when it is a bounded JSON text. */
  lemma ScannerDecides(d: Doc)
    ensures Validate(d).Ok? <==> IsBoundedJson(d)
  {
    hide Run, ScanValue, Validate;
    RootStart(d);
    if Validate(d).Ok? { AcceptedIsJson(d); }
    if before, v, after :| Derives(d, before, v, after) && WithinBudget(d, v) {
      JsonIsAccepted(d, before, v, after);
    }
  }

  lemma AcceptedIsJson(d: Doc)
    requires Validate(d).Ok?
    ensures IsBoundedJson(d)
  {
    hide Run, ScanValue, Validate, At;
    RootStart(d);
    var s := State(SkipWs(d.source, 0), 0, 0, [], true);
    var v := ValueSound(d, s);
    RootEnd(d, After(s, v));
    RootJoin(d, s.index, v);
  }

  lemma RootJoin(d: Doc, i: nat, v: Cst)
    requires i <= |d.source| && Whitespace(d.source[0..i]) && At(d, i, Print(v)) && Grammatical(v)
    requires i + |Print(v)| <= |d.source| && SkipWs(d.source, i + |Print(v)|) == |d.source|
    ensures var e := i + |Print(v)|; Derives(d, d.source[0..i], v, d.source[e..|d.source|])
  {
    hide Print, Grammatical;
    var e := i + |Print(v)|;
    AtSlice(d, i, Print(v));
    SliceJoin(d.source, 0, i, e);
    SliceJoin(d.source, 0, e, |d.source|);
    assert d.source == d.source[0..|d.source|];
  }

  /** Where the parts of a JSON text stand. */
  lemma RootSplit(d: Doc, before: Text, v: Cst, after: Text)
    requires Derives(d, before, v, after)
    ensures At(d, 0, before) && At(d, |before|, Print(v)) && At(d, |before| + |Print(v)|, after)
    ensures Delimited(d, |before| + |Print(v)|) && |before| + |Print(v)| + |after| == |d.source|
    ensures |before| < |d.source| && !IsWhitespace(d.source[|before|])
  {
    hide Print, Grammatical;
    Assoc(before, Print(v), after);
    SliceStands(d, 0, |d.source|);
    assert d.source[0..|d.source|] == before + (Print(v) + after);
    AtSplit(d, 0, before, Print(v) + after);
    AtSplit(d, |before|, Print(v), after);
    ValueStart(v);
    StartOf(d, |before|, Print(v));
    StartOf(d, |before| + |Print(v)|, after);
  }

  lemma JsonIsAccepted(d: Doc, before: Text, v: Cst, after: Text)
    requires Derives(d, before, v, after) && WithinBudget(d, v)
    ensures Validate(d).Ok?
  {
    hide Run, ScanValue, Validate, At, Print, Delimited;
    RootSplit(d, before, v, after);
    SkipsWhitespace(d, 0, before);
    var s := State(|before|, 0, 0, [], true);
    ValueComplete(d, s, v);
    RootStart(d);
    SkipsWhitespace(d, |before| + |Print(v)|, after);
    RootEnd(d, After(s, v));
  }
}
