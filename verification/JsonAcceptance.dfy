/** The explicit-stack scanner accepts exactly the bounded JSON texts. */
module JsonAcceptance {
  import opened CodeUnits
  import opened Wrappers
  import opened JsonGrammar
  import opened JsonScanner
  import opened JsonLexemes

  /** Budget left for one value at state s. */
  predicate Room(d: Doc, s: State, v: Cst) {
    && s.tokens + Tokens(v) <= d.limits.maxTokens
    && s.objectKeys + Keys(v) <= d.limits.maxObjectKeys
    && |s.frames| + Depth(v) <= d.limits.maxDepth
  }

  /** The state after a value: same frames, its text, tokens and keys consumed. */
  function After(s: State, v: Cst): State {
    s.(index := s.index + |Print(v)|, tokens := s.tokens + Tokens(v), objectKeys := s.objectKeys + Keys(v))
  }

  predicate Within(d: Doc, s: State) {
    |s.frames| <= d.limits.maxDepth && s.objectKeys <= d.limits.maxObjectKeys && s.tokens <= d.limits.maxTokens
  }

  // ----- one step of the loop

  /** Act on the innermost open frame. */
  function ScanTop(d: Doc, t: State): (r: Result<State, Code>)
    requires t.frames != [] && t.index < |d.source|
    ensures r.Ok? ==> t.index < r.value.index <= |d.source|
  {
    if Top(t).ObjectFrame? then ScanObject(d, t) else ScanArray(d, t)
  }

  lemma RunOnce(d: Doc, s: State)
    requires s.index <= |d.source| && s.frames != []
    ensures Run(d, s) == var next := Advance(d, Skipped(d, s)); if next.Err? then Err(next.error) else Run(d, next.value)
  {
  }

  /** Skip known white space, then act on the unit after it. */
  lemma RunAt(d: Doc, s: State, ws: Text)
    requires At(d, s.index, ws) && Whitespace(ws) && s.frames != []
    requires s.index + |ws| < |d.source| && !IsWhitespace(d.source[s.index + |ws|])
    ensures s.index <= |d.source|
    ensures var next := ScanTop(d, s.(index := s.index + |ws|));
            Run(d, s) == if next.Err? then Err(next.error) else Run(d, next.value)
  {
    hide ScanObject, ScanArray, Run;
    SkipsWhitespace(d, s.index, ws);
    RunOnce(d, s);
  }

  /** The first unit of a value is neither white space nor closing punctuation. */
  predicate StartsValue(u: Unit) {
    !IsWhitespace(u) && u != CLOSE_BRACKET && u != CLOSE_BRACE && u != COMMA
  }

  lemma ValueStart(v: Cst)
    requires Grammatical(v)
    ensures Print(v) != [] && StartsValue(Print(v)[0])
  {
    if v.Num? {
      var sign, whole, fraction, exponent :| NumberParts(v.lexeme, sign, whole, fraction, exponent);
      FirstDigit(whole);
    }
  }

  // ----- completeness: every derivation within the limits is accepted

  lemma WordComplete(d: Doc, s: State, word: Text)
    requires word in {TRUE, FALSE, NULL} && At(d, s.index, word) && s.tokens + 1 <= d.limits.maxTokens
    ensures s.index < |d.source|
    ensures ScanValue(d, s) == Ok(s.(index := s.index + |word|, tokens := s.tokens + 1))
  {
    hide ScanString, ScanNumber, Push;
    AtSlice(d, s.index, word);
    StartOf(d, s.index, word);
  }

  lemma NumberValue(d: Doc, s: State, j: nat)
    requires s.index < |d.source| && (d.source[s.index] == 0x2d || IsDigit(d.source[s.index]))
    requires ScanNumber(d, s.index) == Ok(j) && s.tokens + 1 <= d.limits.maxTokens
    ensures ScanValue(d, s) == Ok(s.(index := j, tokens := s.tokens + 1))
  {
    hide ScanString, ScanNumber, Push, ScanWord;
  }

  lemma StringValue(d: Doc, s: State, j: nat, items: seq<Item>)
    requires s.index < |d.source| && d.source[s.index] == QUOTE
    requires ScanString(d, s.index) == Ok((j, items)) && s.tokens + 1 <= d.limits.maxTokens
    ensures ScanValue(d, s) == Ok(s.(index := j, tokens := s.tokens + 1))
  {
    hide ScanString, ScanNumber, Push, ScanWord;
  }

  lemma ScalarComplete(d: Doc, s: State, v: Cst)
    requires v.Lit? || v.Num? || v.Str?
    requires Grammatical(v) && Fits(d, v) && Room(d, s, v)
    requires At(d, s.index, Print(v)) && Delimited(d, s.index + |Print(v)|)
    ensures s.index < |d.source| && ScanValue(d, s) == Ok(After(s, v))
  {
    hide ScanValue, ScanString, ScanNumber, At, StringFits, IsNumber, Delimited, PrintString;
    match v {
      case Lit(word) => WordComplete(d, s, word);
      case Num(lexeme) =>
        NumberComplete(d, s.index, lexeme);
        NumberValue(d, s, s.index + |lexeme|);
      case Str(items) =>
        StringComplete(d, s.index, items);
        StringValue(d, s, s.index + |PrintString(items)|, items);
    }
  }

  /** Text after a value inside a container: white space, then a comma or the closing unit. */
  lemma FollowDelimits(d: Doc, i: nat, post: Text, u: Unit)
    requires At(d, i, post) && Whitespace(post) && At(d, i + |post|, [u]) && u in {COMMA, CLOSE_BRACKET, CLOSE_BRACE}
    ensures Delimited(d, i)
  {
    AtUnit(d, i + |post|, u);
    if post != [] {
      StartOf(d, i, post);
    }
  }

  lemma OpenArray(d: Doc, s: State)
    requires s.index < |d.source| && d.source[s.index] == OPEN_BRACKET
    requires s.tokens + 1 <= d.limits.maxTokens && |s.frames| + 1 <= d.limits.maxDepth
    ensures ScanValue(d, s) == Ok(s.(index := s.index + 1, tokens := s.tokens + 1, frames := s.frames + [ArrayFrame(true, true, 0)]))
  {
  }

  lemma OpenObject(d: Doc, s: State)
    requires s.index < |d.source| && d.source[s.index] == OPEN_BRACE
    requires s.tokens + 1 <= d.limits.maxTokens && |s.frames| + 1 <= d.limits.maxDepth
    ensures ScanValue(d, s) == Ok(s.(index := s.index + 1, tokens := s.tokens + 1, frames := s.frames + [ObjectFrame(KeyOrEnd, true, {})]))
  {
  }

  function ClosedBy(s: State, ws: Text): State
    requires s.frames != []
  {
    Pop(s).(index := s.index + |ws| + 1, tokens := s.tokens + 1)
  }

  predicate Closable(s: State)
    requires s.frames != []
  {
    match Top(s)
    case ArrayFrame(atValue, allowEnd, _) => atValue ==> allowEnd
    case ObjectFrame(state, allowEnd, _) => state == MemberEnd || (state == KeyOrEnd && allowEnd)
  }

  function Closer(s: State): Unit
    requires s.frames != []
  {
    if Top(s).ArrayFrame? then CLOSE_BRACKET else CLOSE_BRACE
  }

  lemma CloseStep(d: Doc, t: State)
    requires t.frames != [] && t.index < |d.source| && d.source[t.index] == Closer(t) && Closable(t)
    requires t.tokens + 1 <= d.limits.maxTokens
    ensures ScanTop(d, t) == Ok(Pop(t).(index := t.index + 1, tokens := t.tokens + 1))
  {
    hide ScanValue, ScanKey;
  }

  lemma CloseFrame(d: Doc, s: State, ws: Text)
    requires s.frames != [] && At(d, s.index, ws) && Whitespace(ws) && s.tokens + 1 <= d.limits.maxTokens
    requires At(d, s.index + |ws|, [Closer(s)]) && Closable(s)
    ensures s.index <= |d.source| && ClosedBy(s, ws).index <= |d.source|
    ensures Run(d, s) == Run(d, ClosedBy(s, ws))
  {
    hide Run, At, ScanArray, ScanObject;
    AtUnit(d, s.index + |ws|, Closer(s));
    RunAt(d, s, ws);
    CloseStep(d, s.(index := s.index + |ws|));
  }

  lemma CommaArrayStep(d: Doc, t: State)
    requires t.frames != [] && t.index < |d.source| && d.source[t.index] == COMMA
    requires Top(t).ArrayFrame? && !Top(t).atValue && t.tokens + 1 <= d.limits.maxTokens
    ensures ScanArray(d, t) == Ok(WithTop(t.(index := t.index + 1, tokens := t.tokens + 1), Top(t).(atValue := true, allowEnd := false)))
  {
    hide ScanValue;
  }

  /** A comma after a value re-opens the frame for the next one. */
  lemma CommaInArray(d: Doc, s: State, ws: Text)
    requires s.frames != [] && Top(s).ArrayFrame? && !Top(s).atValue
    requires At(d, s.index, ws) && Whitespace(ws) && At(d, s.index + |ws|, [COMMA]) && s.tokens + 1 <= d.limits.maxTokens
    ensures s.index + |ws| + 1 <= |d.source|
    ensures Run(d, s) == Run(d, WithTop(s.(index := s.index + |ws| + 1, tokens := s.tokens + 1),
                                        Top(s).(atValue := true, allowEnd := false)))
  {
    hide Run, At, ScanArray, ScanObject;
    AtUnit(d, s.index + |ws|, COMMA);
    RunAt(d, s, ws);
    CommaArrayStep(d, s.(index := s.index + |ws|));
  }

  lemma CommaObjectStep(d: Doc, t: State)
    requires t.frames != [] && t.index < |d.source| && d.source[t.index] == COMMA
    requires Top(t).ObjectFrame? && Top(t).state == MemberEnd && t.tokens + 1 <= d.limits.maxTokens
    ensures ScanObject(d, t) == Ok(WithTop(t.(index := t.index + 1, tokens := t.tokens + 1), Top(t).(state := KeyOrEnd, allowEnd := false)))
  {
    hide ScanValue, ScanKey;
  }

  lemma CommaInObject(d: Doc, s: State, ws: Text)
    requires s.frames != [] && Top(s).ObjectFrame? && Top(s).state == MemberEnd
    requires At(d, s.index, ws) && Whitespace(ws) && At(d, s.index + |ws|, [COMMA]) && s.tokens + 1 <= d.limits.maxTokens
    ensures s.index + |ws| + 1 <= |d.source|
    ensures Run(d, s) == Run(d, WithTop(s.(index := s.index + |ws| + 1, tokens := s.tokens + 1),
                                        Top(s).(state := KeyOrEnd, allowEnd := false)))
  {
    hide Run, At, ScanArray, ScanObject;
    AtUnit(d, s.index + |ws|, COMMA);
    RunAt(d, s, ws);
    CommaObjectStep(d, s.(index := s.index + |ws|));
  }

  /** Text of the elements from the current one to the closing bracket. */
  function ElemsTail(es: Elems): Text { PrintElems(es) + [CLOSE_BRACKET] }
  function MembersTail(ms: Members): Text { PrintMembers(ms) + [CLOSE_BRACE] }

  /** What follows the value of an element. */
  function AfterElem(es: Elems): Text
    requires es.Elem?
  {
    es.post + (if es.rest.NoElems? then [CLOSE_BRACKET] else [COMMA] + ElemsTail(es.rest))
  }

  lemma Assoc<T>(a: seq<T>, b: seq<T>, c: seq<T>)
    ensures a + b + c == a + (b + c)
  {
  }

  lemma ElemsTailShape(es: Elems)
    requires es.Elem?
    ensures ElemsTail(es) == es.pre + (Print(es.value) + AfterElem(es))
  {
    hide Print;
    var rest := if es.rest.NoElems? then [] else [COMMA] + PrintElems(es.rest);
    var close := [CLOSE_BRACKET];
    assert rest + close == if es.rest.NoElems? then close else [COMMA] + ElemsTail(es.rest);
    var value := Print(es.value);
    assert PrintElems(es) == es.pre + value + es.post + rest;
    Assoc(es.pre + value + es.post, rest, close);
    Assoc(es.pre + value, es.post, rest + close);
    Assoc(es.pre, value, es.post + (rest + close));
  }

  /** The element's value in place: where it starts, and that it is delimited. */
  lemma ElemStands(d: Doc, i: nat, es: Elems)
    requires es.Elem? && GrammaticalElems(es) && At(d, i, ElemsTail(es))
    ensures At(d, i, es.pre)
    ensures var p := i + |es.pre|;
            && p < |d.source| && StartsValue(d.source[p]) && At(d, p, Print(es.value))
            && Delimited(d, p + |Print(es.value)|)
            && At(d, p + |Print(es.value)|, AfterElem(es))
    ensures |ElemsTail(es)| == |es.pre| + |Print(es.value)| + |AfterElem(es)|
  {
    hide At;
    ElemsTailShape(es);
    AtSplit(d, i, es.pre, Print(es.value) + AfterElem(es));
    var p := i + |es.pre|;
    AtSplit(d, p, Print(es.value), AfterElem(es));
    ValueStart(es.value);
    StartOf(d, p, Print(es.value));
    var q := p + |Print(es.value)|;
    var next := if es.rest.NoElems? then [CLOSE_BRACKET] else [COMMA] + ElemsTail(es.rest);
    AtSplit(d, q, es.post, next);
    if es.rest.Elem? { AtSplit(d, q + |es.post|, [COMMA], ElemsTail(es.rest)); }
    FollowDelimits(d, q, es.post, next[0]);
  }

  /** After the value: white space and the closing bracket, or a comma and the remaining elements. */
  lemma AfterElemStands(d: Doc, q: nat, es: Elems)
    requires es.Elem? && At(d, q, AfterElem(es))
    ensures At(d, q, es.post)
    ensures es.rest.NoElems? ==> At(d, q + |es.post|, [CLOSE_BRACKET])
    ensures es.rest.Elem? ==> At(d, q + |es.post|, [COMMA]) && At(d, q + |es.post| + 1, ElemsTail(es.rest))
  {
    hide At;
    var next := if es.rest.NoElems? then [CLOSE_BRACKET] else [COMMA] + ElemsTail(es.rest);
    AtSplit(d, q, es.post, next);
    if es.rest.Elem? { AtSplit(d, q + |es.post|, [COMMA], ElemsTail(es.rest)); }
  }

  lemma ElemStep(d: Doc, t: State)
    requires t.frames != [] && t.index < |d.source| && StartsValue(d.source[t.index])
    requires Top(t).ArrayFrame? && Top(t).atValue && Top(t).items + 1 <= d.limits.maxArrayItems
    ensures ScanTop(d, t) == ScanValue(d, WithTop(t, Top(t).(items := Top(t).items + 1, atValue := false)))
  {
    hide ScanValue;
  }

  /** The state once the elements and their closing bracket are consumed. */
  function ElemsDone(s: State, es: Elems): State
    requires s.frames != []
  {
    Pop(s).(index := s.index + |ElemsTail(es)|, tokens := s.tokens + TokensElems(es) + 1,
            objectKeys := s.objectKeys + KeysElems(es))
  }

  ghost predicate ElemsFit(d: Doc, s: State, es: Elems) {
    && es.Elem? && GrammaticalElems(es) && FitsElems(d, es)
    && s.frames != [] && Top(s).ArrayFrame? && Top(s).atValue
    && Top(s).items + Count(es) <= d.limits.maxArrayItems
    && s.tokens + TokensElems(es) + 1 <= d.limits.maxTokens
    && s.objectKeys + KeysElems(es) <= d.limits.maxObjectKeys
    && |s.frames| + DepthElems(es) <= d.limits.maxDepth
    && At(d, s.index, ElemsTail(es))
  }

  lemma {:induction false} ElemsComplete(d: Doc, s: State, es: Elems)
    requires ElemsFit(d, s, es)
    ensures s.index <= |d.source| && ElemsDone(s, es).index <= |d.source|
    ensures Run(d, s) == Run(d, ElemsDone(s, es))
    decreases es, 0
  {
    hide Run, ScanTop, ScanValue, At, Print, AfterElem;
    AtBound(d, s.index, ElemsTail(es));
    ElemStands(d, s.index, es);
    var t := s.(index := s.index + |es.pre|);
    RunAt(d, s, es.pre);
    ElemStep(d, t);
    var u := WithTop(t, Top(t).(items := Top(t).items + 1, atValue := false));
    ValueComplete(d, u, es.value);
    var w := After(u, es.value);
    AfterElemStands(d, w.index, es);
    if es.rest.NoElems? {
      CloseFrame(d, w, es.post);
      ElemsDoneLast(s, es, w);
    } else {
      CommaInArray(d, w, es.post);
      var x := WithTop(w.(index := w.index + |es.post| + 1, tokens := w.tokens + 1), Top(w).(atValue := true, allowEnd := false));
      ElemsComplete(d, x, es.rest);
      ElemsDoneRest(s, es, x);
    }
  }

  lemma ElemsDoneLast(s: State, es: Elems, w: State)
    requires s.frames != [] && es.Elem? && es.rest.NoElems? && |w.frames| == |s.frames| && Pop(w).frames == Pop(s).frames
    requires w.tokens == s.tokens + Tokens(es.value) && w.objectKeys == s.objectKeys + Keys(es.value)
    requires w.index == s.index + |es.pre| + |Print(es.value)| && w.rootComplete == s.rootComplete
    ensures ClosedBy(w, es.post) == ElemsDone(s, es)
  {
    hide Print;
    ElemsTailShape(es);
    assert KeysElems(es.rest) == 0 && |AfterElem(es)| == |es.post| + 1;
  }

  lemma ElemsDoneRest(s: State, es: Elems, x: State)
    requires s.frames != [] && es.Elem? && es.rest.Elem? && |x.frames| == |s.frames| && Pop(x).frames == Pop(s).frames
    requires x.tokens == s.tokens + Tokens(es.value) + 1 && x.objectKeys == s.objectKeys + Keys(es.value)
    requires x.index == s.index + |es.pre| + |Print(es.value)| + |es.post| + 1 && x.rootComplete == s.rootComplete
    ensures ElemsDone(x, es.rest) == ElemsDone(s, es)
  {
    hide Print, ElemsTail;
    ElemsTailShape(es);
    assert |AfterElem(es)| == |es.post| + 1 + |ElemsTail(es.rest)|;
  }

  lemma {:induction false} ValueComplete(d: Doc, s: State, v: Cst)
    requires Grammatical(v) && Fits(d, v) && Room(d, s, v)
    requires At(d, s.index, Print(v)) && Delimited(d, s.index + |Print(v)|)
    ensures s.index < |d.source| && ScanValue(d, s).Ok? && After(s, v).index <= |d.source|
    ensures Run(d, ScanValue(d, s).value) == Run(d, After(s, v))
    decreases v
  {
    hide Run, ScanValue, At;
    AtBound(d, s.index, Print(v));
    match v {
      case Arr(blank, elems) => ArrayComplete(d, s, blank, elems);
      case Obj(blank, members) => ObjectComplete(d, s, blank, members);
      case _ => ScalarComplete(d, s, v);
    }
  }

  lemma {:induction false} ArrayComplete(d: Doc, s: State, blank: Text, elems: Elems)
    requires var v := Arr(blank, elems); Grammatical(v) && Fits(d, v) && Room(d, s, v) && At(d, s.index, Print(v))
    ensures s.index < |d.source| && ScanValue(d, s).Ok? && After(s, Arr(blank, elems)).index <= |d.source|
    ensures Run(d, ScanValue(d, s).value) == Run(d, After(s, Arr(blank, elems)))
    decreases elems, 1
  {
    hide Run, ScanValue, At;
    var v := Arr(blank, elems);
    AtBound(d, s.index, Print(v));
    var o := s.(index := s.index + 1, tokens := s.tokens + 1, frames := s.frames + [ArrayFrame(true, true, 0)]);
    assert Pop(o).frames == s.frames;
    if elems.NoElems? {
      assert Print(v) == [OPEN_BRACKET] + (blank + [CLOSE_BRACKET]);
      AtSplit(d, s.index, [OPEN_BRACKET], blank + [CLOSE_BRACKET]);
      AtUnit(d, s.index, OPEN_BRACKET);
      AtSplit(d, o.index, blank, [CLOSE_BRACKET]);
      OpenArray(d, s);
      CloseFrame(d, o, blank);
      assert |Print(v)| == |blank| + 2 && Tokens(v) == 2 && Keys(v) == 0;
      assert ClosedBy(o, blank) == After(s, v);
    } else {
      assert Print(v) == [OPEN_BRACKET] + ElemsTail(elems);
      AtSplit(d, s.index, [OPEN_BRACKET], ElemsTail(elems));
      AtUnit(d, s.index, OPEN_BRACKET);
      OpenArray(d, s);
      ElemsComplete(d, o, elems);
      assert ElemsDone(o, elems) == After(s, v);
    }
  }

  // ----- objects

  function AfterMember(ms: Members): Text
    requires ms.Member?
  {
    ms.post + (if ms.rest.NoMembers? then [CLOSE_BRACE] else [COMMA] + MembersTail(ms.rest))
  }

  function MemberValue(ms: Members): Text
    requires ms.Member?
  {
    ms.gap + (Print(ms.value) + AfterMember(ms))
  }

  lemma MembersTailShape(ms: Members)
    requires ms.Member?
    ensures MembersTail(ms) == ms.pre + (PrintString(ms.key) + (ms.mid + ([COLON] + MemberValue(ms))))
  {
    hide Print, PrintString;
    var rest := if ms.rest.NoMembers? then [] else [COMMA] + PrintMembers(ms.rest);
    var close, value, key, colon := [CLOSE_BRACE], Print(ms.value), PrintString(ms.key), [COLON];
    assert rest + close == if ms.rest.NoMembers? then close else [COMMA] + MembersTail(ms.rest);
    assert PrintMembers(ms) == ms.pre + key + ms.mid + colon + ms.gap + value + ms.post + rest;
    Assoc(ms.pre + key + ms.mid + colon + ms.gap + value + ms.post, rest, close);
    Assoc(ms.pre + key + ms.mid + colon + ms.gap + value, ms.post, rest + close);
    Assoc(ms.pre + key + ms.mid + colon + ms.gap, value, ms.post + (rest + close));
    Assoc(ms.pre + key + ms.mid + colon, ms.gap, value + (ms.post + (rest + close)));
    Assoc(ms.pre + key + ms.mid, colon, MemberValue(ms));
    Assoc(ms.pre + key, ms.mid, colon + MemberValue(ms));
    Assoc(ms.pre, key, ms.mid + (colon + MemberValue(ms)));
  }

  lemma MemberStands(d: Doc, i: nat, ms: Members)
    requires ms.Member? && At(d, i, MembersTail(ms))
    ensures At(d, i, ms.pre) && At(d, i + |ms.pre|, PrintString(ms.key))
    ensures var k := i + |ms.pre| + |PrintString(ms.key)|;
            && At(d, k, ms.mid) && At(d, k + |ms.mid|, [COLON])
            && At(d, k + |ms.mid| + 1, MemberValue(ms))
    ensures |MembersTail(ms)| == |ms.pre| + |PrintString(ms.key)| + |ms.mid| + 1 + |MemberValue(ms)|
  {
    hide At, Print, PrintString, MemberValue;
    MembersTailShape(ms);
    var key, colon := PrintString(ms.key), [COLON];
    AtSplit(d, i, ms.pre, key + (ms.mid + (colon + MemberValue(ms))));
    AtSplit(d, i + |ms.pre|, key, ms.mid + (colon + MemberValue(ms)));
    AtSplit(d, i + |ms.pre| + |key|, ms.mid, colon + MemberValue(ms));
    AtSplit(d, i + |ms.pre| + |key| + |ms.mid|, colon, MemberValue(ms));
  }

  lemma MemberValueStands(d: Doc, i: nat, ms: Members)
    requires ms.Member? && GrammaticalMembers(ms) && At(d, i, MemberValue(ms))
    ensures At(d, i, ms.gap)
    ensures var p := i + |ms.gap|;
            && p < |d.source| && StartsValue(d.source[p]) && At(d, p, Print(ms.value))
            && Delimited(d, p + |Print(ms.value)|)
            && At(d, p + |Print(ms.value)|, AfterMember(ms))
    ensures |MemberValue(ms)| == |ms.gap| + |Print(ms.value)| + |AfterMember(ms)|
  {
    hide At, Print, AfterMember, Delimited;
    AtSplit(d, i, ms.gap, Print(ms.value) + AfterMember(ms));
    var p := i + |ms.gap|;
    AtSplit(d, p, Print(ms.value), AfterMember(ms));
    ValueStart(ms.value);
    StartOf(d, p, Print(ms.value));
    var q := p + |Print(ms.value)|;
    AfterMemberStands(d, q, ms);
    FollowDelimits(d, q, ms.post, if ms.rest.NoMembers? then CLOSE_BRACE else COMMA);
  }

  lemma AfterMemberStands(d: Doc, q: nat, ms: Members)
    requires ms.Member? && At(d, q, AfterMember(ms))
    ensures At(d, q, ms.post)
    ensures ms.rest.NoMembers? ==> At(d, q + |ms.post|, [CLOSE_BRACE])
    ensures ms.rest.Member? ==> At(d, q + |ms.post|, [COMMA]) && At(d, q + |ms.post| + 1, MembersTail(ms.rest))
  {
    hide At;
    var next := if ms.rest.NoMembers? then [CLOSE_BRACE] else [COMMA] + MembersTail(ms.rest);
    AtSplit(d, q, ms.post, next);
    if ms.rest.Member? { AtSplit(d, q + |ms.post|, [COMMA], MembersTail(ms.rest)); }
  }

  /** The state after a key: its token, its budget unit, and the key recorded in the frame. */
  function AfterKey(s: State, ms: Members): State
    requires ms.Member? && ItemsOk(ms.key) && s.frames != [] && Top(s).ObjectFrame?
  {
    WithTop(s.(index := s.index + |ms.pre| + |PrintString(ms.key)|, tokens := s.tokens + 1, objectKeys := s.objectKeys + 1),
            Top(s).(keys := Top(s).keys + {Decode(ms.key)}, state := ColonNext))
  }

  lemma KeyStep(d: Doc, t: State, items: seq<Item>)
    requires t.frames != [] && t.index < |d.source| && Top(t).ObjectFrame? && Top(t).state == KeyOrEnd
    requires ItemsOk(items) && StringFits(d, items) && At(d, t.index, PrintString(items)) && Decode(items) !in Top(t).keys
    requires t.tokens + 1 <= d.limits.maxTokens && t.objectKeys + 1 <= d.limits.maxObjectKeys
    ensures d.source[t.index] == QUOTE
    ensures ScanTop(d, t) == Ok(WithTop(t.(index := t.index + |PrintString(items)|, tokens := t.tokens + 1, objectKeys := t.objectKeys + 1),
                                        Top(t).(keys := Top(t).keys + {Decode(items)}, state := ColonNext)))
  {
    hide ScanString, At, StringFits, PrintString;
    StringComplete(d, t.index, items);
  }

  lemma KeyComplete(d: Doc, s: State, ms: Members)
    requires ms.Member? && Whitespace(ms.pre) && ItemsOk(ms.key) && StringFits(d, ms.key)
    requires s.frames != [] && Top(s).ObjectFrame? && Top(s).state == KeyOrEnd && Decode(ms.key) !in Top(s).keys
    requires At(d, s.index, ms.pre) && At(d, s.index + |ms.pre|, PrintString(ms.key))
    requires s.tokens + 1 <= d.limits.maxTokens && s.objectKeys + 1 <= d.limits.maxObjectKeys
    ensures s.index <= |d.source| && AfterKey(s, ms).index <= |d.source|
    ensures Run(d, s) == Run(d, AfterKey(s, ms))
  {
    hide Run, ScanTop, At, ItemOk, Decode, StringFits, PrintItems;
    AtBound(d, s.index + |ms.pre|, PrintString(ms.key));
    StartOf(d, s.index + |ms.pre|, PrintString(ms.key));
    RunAt(d, s, ms.pre);
    KeyStep(d, s.(index := s.index + |ms.pre|), ms.key);
  }

  lemma ColonStep(d: Doc, t: State)
    requires t.frames != [] && t.index < |d.source| && d.source[t.index] == COLON
    requires Top(t).ObjectFrame? && Top(t).state == ColonNext && t.tokens + 1 <= d.limits.maxTokens
    ensures ScanTop(d, t) == Ok(WithTop(t.(index := t.index + 1, tokens := t.tokens + 1), Top(t).(state := ValueNext)))
  {
    hide ScanValue, ScanKey;
  }

  lemma ColonComplete(d: Doc, s: State, ws: Text)
    requires s.frames != [] && Top(s).ObjectFrame? && Top(s).state == ColonNext
    requires At(d, s.index, ws) && Whitespace(ws) && At(d, s.index + |ws|, [COLON]) && s.tokens + 1 <= d.limits.maxTokens
    ensures s.index + |ws| + 1 <= |d.source|
    ensures Run(d, s) == Run(d, WithTop(s.(index := s.index + |ws| + 1, tokens := s.tokens + 1), Top(s).(state := ValueNext)))
  {
    hide Run, ScanTop, At;
    AtUnit(d, s.index + |ws|, COLON);
    RunAt(d, s, ws);
    ColonStep(d, s.(index := s.index + |ws|));
  }

  lemma MemberValueStep(d: Doc, t: State)
    requires t.frames != [] && t.index < |d.source| && Top(t).ObjectFrame? && Top(t).state == ValueNext
    ensures ScanTop(d, t) == ScanValue(d, WithTop(t, Top(t).(state := MemberEnd)))
  {
    hide ScanValue;
  }

  function MembersDone(s: State, ms: Members): State
    requires s.frames != []
  {
    Pop(s).(index := s.index + |MembersTail(ms)|, tokens := s.tokens + TokensMembers(ms) + 1,
            objectKeys := s.objectKeys + KeysMembers(ms))
  }

  ghost predicate MembersFit(d: Doc, s: State, ms: Members) {
    && ms.Member? && GrammaticalMembers(ms)
    && s.frames != [] && Top(s).ObjectFrame? && Top(s).state == KeyOrEnd && FitsMembers(d, ms, Top(s).keys)
    && s.tokens + TokensMembers(ms) + 1 <= d.limits.maxTokens
    && s.objectKeys + KeysMembers(ms) <= d.limits.maxObjectKeys
    && |s.frames| + DepthMembers(ms) <= d.limits.maxDepth
    && At(d, s.index, MembersTail(ms))
  }

  lemma {:induction false} MembersComplete(d: Doc, s: State, ms: Members)
    requires MembersFit(d, s, ms)
    ensures s.index <= |d.source| && MembersDone(s, ms).index <= |d.source|
    ensures Run(d, s) == Run(d, MembersDone(s, ms))
    decreases ms, 0
  {
    hide Run, ScanTop, ScanValue, At, Print, PrintString, AfterMember, MemberValue, StringFits, ItemOk, Decode;
    AtBound(d, s.index, MembersTail(ms));
    MemberStands(d, s.index, ms);
    KeyComplete(d, s, ms);
    var k := AfterKey(s, ms);
    ColonComplete(d, k, ms.mid);
    var c := WithTop(k.(index := k.index + |ms.mid| + 1, tokens := k.tokens + 1), Top(k).(state := ValueNext));
    MemberValueStands(d, c.index, ms);
    RunAt(d, c, ms.gap);
    var t := c.(index := c.index + |ms.gap|);
    MemberValueStep(d, t);
    var u := WithTop(t, Top(t).(state := MemberEnd));
    ValueComplete(d, u, ms.value);
    var w := After(u, ms.value);
    AfterMemberStands(d, w.index, ms);
    if ms.rest.NoMembers? {
      CloseFrame(d, w, ms.post);
      MembersDoneLast(s, ms, w);
    } else {
      CommaInObject(d, w, ms.post);
      var x := WithTop(w.(index := w.index + |ms.post| + 1, tokens := w.tokens + 1), Top(w).(state := KeyOrEnd, allowEnd := false));
      MembersComplete(d, x, ms.rest);
      MembersDoneRest(s, ms, x);
    }
  }

  lemma MembersDoneLast(s: State, ms: Members, w: State)
    requires s.frames != [] && ms.Member? && ms.rest.NoMembers? && |w.frames| == |s.frames| && Pop(w).frames == Pop(s).frames
    requires w.tokens == s.tokens + 2 + Tokens(ms.value) && w.objectKeys == s.objectKeys + 1 + Keys(ms.value)
    requires w.index == s.index + |ms.pre| + |PrintString(ms.key)| + |ms.mid| + 1 + |ms.gap| + |Print(ms.value)|
    requires w.rootComplete == s.rootComplete
    ensures ClosedBy(w, ms.post) == MembersDone(s, ms)
  {
    hide Print, PrintString;
    MembersTailShape(ms);
    assert KeysMembers(ms.rest) == 0 && |AfterMember(ms)| == |ms.post| + 1;
  }

  lemma MembersDoneRest(s: State, ms: Members, x: State)
    requires s.frames != [] && ms.Member? && ms.rest.Member? && |x.frames| == |s.frames| && Pop(x).frames == Pop(s).frames
    requires x.tokens == s.tokens + 2 + Tokens(ms.value) + 1 && x.objectKeys == s.objectKeys + 1 + Keys(ms.value)
    requires x.index == s.index + |ms.pre| + |PrintString(ms.key)| + |ms.mid| + 1 + |ms.gap| + |Print(ms.value)| + |ms.post| + 1
    requires x.rootComplete == s.rootComplete
    ensures MembersDone(x, ms.rest) == MembersDone(s, ms)
  {
    hide Print, PrintString, MembersTail;
    MembersTailShape(ms);
    assert |AfterMember(ms)| == |ms.post| + 1 + |MembersTail(ms.rest)|;
  }

  lemma {:induction false} ObjectComplete(d: Doc, s: State, blank: Text, members: Members)
    requires var v := Obj(blank, members); Grammatical(v) && Fits(d, v) && Room(d, s, v) && At(d, s.index, Print(v))
    ensures s.index < |d.source| && ScanValue(d, s).Ok? && After(s, Obj(blank, members)).index <= |d.source|
    ensures Run(d, ScanValue(d, s).value) == Run(d, After(s, Obj(blank, members)))
    decreases members, 1
  {
    hide Run, ScanValue, At;
    var v := Obj(blank, members);
    AtBound(d, s.index, Print(v));
    var o := s.(index := s.index + 1, tokens := s.tokens + 1, frames := s.frames + [ObjectFrame(KeyOrEnd, true, {})]);
    assert Pop(o).frames == s.frames;
    if members.NoMembers? {
      assert Print(v) == [OPEN_BRACE] + (blank + [CLOSE_BRACE]);
      AtSplit(d, s.index, [OPEN_BRACE], blank + [CLOSE_BRACE]);
      AtUnit(d, s.index, OPEN_BRACE);
      AtSplit(d, o.index, blank, [CLOSE_BRACE]);
      OpenObject(d, s);
      CloseFrame(d, o, blank);
      assert |Print(v)| == |blank| + 2 && Tokens(v) == 2 && Keys(v) == 0;
      assert ClosedBy(o, blank) == After(s, v);
    } else {
      assert Print(v) == [OPEN_BRACE] + MembersTail(members);
      AtSplit(d, s.index, [OPEN_BRACE], MembersTail(members));
      AtUnit(d, s.index, OPEN_BRACE);
      OpenObject(d, s);
      MembersComplete(d, o, members);
      assert MembersDone(o, members) == After(s, v);
    }
  }
}
