/** The bounded scanner: its lexical functions, its explicit-stack step, and the class that runs them in place. */
module JsonScanner {
  import opened CodeUnits
  import opened Wrappers
  import opened JsonGrammar

  datatype Code =
    | InvalidJson | InvalidUnicode | TokenLimit | DepthLimit | ObjectKeyLimit | ArrayItemLimit
    | DecodedStringLimit | NumericTokenLimit | NumberRange | DuplicateKey

  // ----- lexical functions

  function SkipWs(src: Text, i: nat): (j: nat)
    requires i <= |src|
    ensures i <= j <= |src|
    ensures forall k :: i <= k < j ==> IsWhitespace(src[k])
    ensures j < |src| ==> !IsWhitespace(src[j])
    decreases |src| - i
  {
    if i < |src| && IsWhitespace(src[i]) then SkipWs(src, i + 1) else i
  }

  function DigitsEnd(src: Text, i: nat): (j: nat)
    requires i <= |src|
    ensures i <= j <= |src|
    ensures forall k :: i <= k < j ==> IsDigit(src[k])
    ensures j < |src| ==> !IsDigit(src[j])
    decreases |src| - i
  {
    if i < |src| && IsDigit(src[i]) then DigitsEnd(src, i + 1) else i
  }

  /** The character escape or hexadecimal escape after a backslash at i - 1. */
  function ScanEscape(src: Text, i: nat): (r: Result<(Item, nat), Code>)
    requires i <= |src|
    ensures r.Ok? ==> i < r.value.1 <= |src| && ItemOk(r.value.0)
  {
    if i >= |src| then Err(InvalidJson)
    else if src[i] in {0x22, 0x5c, 0x2f, 0x62, 0x66, 0x6e, 0x72, 0x74} then Ok((Escape(src[i]), i + 1))
    else if src[i] == 0x75 then
      if i + 4 >= |src| then Err(InvalidJson)
      else
        var x := Hex(src[i + 1], src[i + 2], src[i + 3], src[i + 4]);
        if ItemOk(x) then Ok((x, i + 5)) else Err(InvalidJson)
    else Err(InvalidJson)
  }

  /** Surrogate pairing, one decoded unit at a time; the value is the new pending flag. */
  function Pairing(pending: bool, u: Unit): Result<bool, Code> {
    if pending then (if IsLow(u) then Ok(false) else Err(InvalidUnicode))
    else if IsLow(u) then Err(InvalidUnicode)
    else Ok(IsHigh(u))
  }

  function Prepend(x: Item, r: Result<(nat, seq<Item>), Code>): (p: Result<(nat, seq<Item>), Code>)
    ensures r.Ok? <==> p.Ok?
    ensures r.Ok? ==> p.value.0 == r.value.0
    ensures r.Ok? && ItemOk(x) && ItemsOk(r.value.1) ==> ItemsOk(p.value.1)
  {
    if r.Err? then r else Ok((r.value.0, [x] + r.value.1))
  }

  /** The rest of a string from index i, after `units` decoded units. */
  function ScanItems(d: Doc, i: nat, units: nat, pending: bool): (r: Result<(nat, seq<Item>), Code>)
    requires i <= |d.source|
    ensures r.Ok? ==> i < r.value.0 <= |d.source| && ItemsOk(r.value.1)
    decreases |d.source| - i
  {
    if i >= |d.source| then Err(InvalidJson)
    else
      var u := d.source[i];
      if u == QUOTE then
        if pending then Err(InvalidUnicode) else Ok((i + 1, []))
      else if u < 0x20 then Err(InvalidJson)
      else if u != BACKSLASH then
        var next :- Pairing(pending, u);
        if units + 1 > d.limits.maxDecodedStringLength then Err(DecodedStringLimit)
        else Prepend(Plain(u), ScanItems(d, i + 1, units + 1, next))
      else
        var escape :- ScanEscape(d.source, i + 1);
        if units + 1 > d.limits.maxDecodedStringLength then Err(DecodedStringLimit)
        else
          var next :- Pairing(pending, DecodeItem(escape.0));
          Prepend(escape.0, ScanItems(d, escape.1, units + 1, next))
  }

  /** A string token whose opening quote is at i: the index after it and its decoded items. */
  function ScanString(d: Doc, i: nat): (r: Result<(nat, seq<Item>), Code>)
    requires i < |d.source|
    ensures r.Ok? ==> i < r.value.0 <= |d.source| && ItemsOk(r.value.1)
  {
    ScanItems(d, i + 1, 0, false)
  }

  /** One or more digits at i, each charged against the token length. */
  function ScanDigits(d: Doc, start: nat, i: nat): (r: Result<nat, Code>)
    requires start <= i <= |d.source|
    ensures r.Ok? ==> i < r.value <= |d.source|
  {
    var j := DigitsEnd(d.source, i);
    if j == i then Err(InvalidJson)
    else if j - start > d.limits.maxNumericTokenLength then Err(NumericTokenLimit)
    else Ok(j)
  }

  function Consume(d: Doc, start: nat, i: nat): (r: Result<nat, Code>)
    requires start <= i < |d.source|
    ensures r.Ok? ==> r.value == i + 1
  {
    if i + 1 - start > d.limits.maxNumericTokenLength then Err(NumericTokenLimit) else Ok(i + 1)
  }

  function ScanInteger(d: Doc, start: nat, i: nat): (r: Result<nat, Code>)
    requires start <= i <= |d.source|
    ensures r.Ok? ==> i < r.value <= |d.source|
  {
    if i >= |d.source| then Err(InvalidJson)
    else if d.source[i] == 0x30 then Consume(d, start, i)
    else if IsDigit(d.source[i]) then ScanDigits(d, start, i)
    else Err(InvalidJson)
  }

  function ScanFraction(d: Doc, start: nat, i: nat): (r: Result<nat, Code>)
    requires start <= i <= |d.source|
    ensures r.Ok? ==> i <= r.value <= |d.source|
  {
    if i < |d.source| && d.source[i] == 0x2e then
      var j :- Consume(d, start, i);
      ScanDigits(d, start, j)
    else Ok(i)
  }

  function ScanExponent(d: Doc, start: nat, i: nat): (r: Result<nat, Code>)
    requires start <= i <= |d.source|
    ensures r.Ok? ==> i <= r.value <= |d.source|
  {
    if i < |d.source| && (d.source[i] == 0x65 || d.source[i] == 0x45) then
      var j :- Consume(d, start, i);
      if j < |d.source| && (d.source[j] == 0x2b || d.source[j] == 0x2d) then
        var k :- Consume(d, start, j);
        ScanDigits(d, start, k)
      else ScanDigits(d, start, j)
    else Ok(i)
  }

  function ScanSign(d: Doc, i: nat): (r: Result<nat, Code>)
    requires i < |d.source|
    ensures r.Ok? ==> i <= r.value <= |d.source|
  {
    if d.source[i] == 0x2d then Consume(d, i, i) else Ok(i)
  }

  /** The end of the number token starting at i. */
  function ScanNumber(d: Doc, i: nat): (r: Result<nat, Code>)
    requires i < |d.source|
    ensures r.Ok? ==> i < r.value <= |d.source|
  {
    var a :- ScanSign(d, i);
    var b :- ScanInteger(d, i, a);
    var c :- ScanFraction(d, i, b);
    var e :- ScanExponent(d, i, c);
    if d.finite(d.source[i..e]) then Ok(e) else Err(NumberRange)
  }

  function ScanWord(d: Doc, i: nat, word: Text): (r: Result<nat, Code>)
    requires i < |d.source| && |word| > 0
    ensures r.Ok? ==> i < r.value <= |d.source|
  {
    if i + |word| <= |d.source| && d.source[i..i + |word|] == word then Ok(i + |word|) else Err(InvalidJson)
  }

  // ----- the explicit stack

  datatype ObjectState = KeyOrEnd | ColonNext | ValueNext | MemberEnd
  datatype Frame =
    | ObjectFrame(state: ObjectState, allowEnd: bool, keys: set<Text>)
    | ArrayFrame(atValue: bool, allowEnd: bool, items: nat)

  /** The scanner's mutable fields. */
  datatype State = State(index: nat, tokens: nat, objectKeys: nat, frames: seq<Frame>, rootComplete: bool)

  predicate InText(d: Doc, s: State) { s.index < |d.source| }

  function Top(s: State): Frame
    requires s.frames != []
  {
    s.frames[|s.frames| - 1]
  }

  function WithTop(s: State, f: Frame): State
    requires s.frames != []
  {
    s.(frames := s.frames[|s.frames| - 1 := f])
  }

  function Token(d: Doc, s: State): (r: Result<State, Code>)
    ensures r.Ok? ==> r.value == s.(tokens := s.tokens + 1)
  {
    if s.tokens + 1 > d.limits.maxTokens then Err(TokenLimit) else Ok(s.(tokens := s.tokens + 1))
  }

  function Punctuation(d: Doc, s: State, u: Unit): (r: Result<State, Code>)
    requires InText(d, s)
    ensures r.Ok? ==> r.value == s.(tokens := s.tokens + 1, index := s.index + 1)
  {
    if d.source[s.index] != u then Err(InvalidJson)
    else
      var t :- Token(d, s);
      Ok(t.(index := t.index + 1))
  }

  function Push(d: Doc, s: State, f: Frame): (r: Result<State, Code>)
    ensures r.Ok? ==> r.value == s.(frames := s.frames + [f])
  {
    if |s.frames| + 1 > d.limits.maxDepth then Err(DepthLimit) else Ok(s.(frames := s.frames + [f]))
  }

  function Pop(s: State): State
    requires s.frames != []
  {
    s.(frames := s.frames[..|s.frames| - 1])
  }

  /** scanValue: a scalar, or the opening of a container. */
  function ScanValue(d: Doc, s: State): (r: Result<State, Code>)
    requires InText(d, s)
    ensures r.Ok? ==> s.index < r.value.index <= |d.source|
    ensures r.Ok? && |s.frames| <= d.limits.maxDepth ==> |r.value.frames| <= d.limits.maxDepth
  {
    var u := d.source[s.index];
    var t :- Token(d, s);
    if u == OPEN_BRACE then Push(d, t.(index := t.index + 1), ObjectFrame(KeyOrEnd, true, {}))
    else if u == OPEN_BRACKET then Push(d, t.(index := t.index + 1), ArrayFrame(true, true, 0))
    else if u == QUOTE then
      var scanned :- ScanString(d, s.index);
      Ok(t.(index := scanned.0))
    else if u == 0x74 then
      var j :- ScanWord(d, s.index, TRUE);
      Ok(t.(index := j))
    else if u == 0x66 then
      var j :- ScanWord(d, s.index, FALSE);
      Ok(t.(index := j))
    else if u == 0x6e then
      var j :- ScanWord(d, s.index, NULL);
      Ok(t.(index := j))
    else if u == 0x2d || IsDigit(u) then
      var j :- ScanNumber(d, s.index);
      Ok(t.(index := j))
    else Err(InvalidJson)
  }

  /** The key branch of scanObject: token, string, key budget, duplicate check. */
  function ScanKey(d: Doc, s: State): (r: Result<State, Code>)
    requires InText(d, s) && s.frames != [] && Top(s).ObjectFrame?
    ensures r.Ok? ==> s.index < r.value.index <= |d.source| && |r.value.frames| == |s.frames|
  {
    if d.source[s.index] != QUOTE then Err(InvalidJson)
    else
      var t :- Token(d, s);
      var scanned :- ScanString(d, s.index);
      if s.objectKeys + 1 > d.limits.maxObjectKeys then Err(ObjectKeyLimit)
      else
        var key := Decode(scanned.1);
        var frame := Top(s);
        if key in frame.keys then Err(DuplicateKey)
        else
          Ok(WithTop(t.(index := scanned.0, objectKeys := s.objectKeys + 1),
                     frame.(keys := frame.keys + {key}, state := ColonNext)))
  }

  function ScanObject(d: Doc, s: State): (r: Result<State, Code>)
    requires InText(d, s) && s.frames != [] && Top(s).ObjectFrame?
    ensures r.Ok? ==> s.index < r.value.index <= |d.source|
    ensures r.Ok? && |s.frames| <= d.limits.maxDepth ==> |r.value.frames| <= d.limits.maxDepth
  {
    var frame := Top(s);
    match frame.state
    case KeyOrEnd =>
      if d.source[s.index] == CLOSE_BRACE then
        if !frame.allowEnd then Err(InvalidJson)
        else
          var t :- Punctuation(d, s, CLOSE_BRACE);
          Ok(Pop(t))
      else ScanKey(d, s)
    case ColonNext =>
      var t :- Punctuation(d, s, COLON);
      Ok(WithTop(t, frame.(state := ValueNext)))
    case ValueNext => ScanValue(d, WithTop(s, frame.(state := MemberEnd)))
    case MemberEnd =>
      if d.source[s.index] == COMMA then
        var t :- Punctuation(d, s, COMMA);
        Ok(WithTop(t, frame.(state := KeyOrEnd, allowEnd := false)))
      else if d.source[s.index] == CLOSE_BRACE then
        var t :- Punctuation(d, s, CLOSE_BRACE);
        Ok(Pop(t))
      else Err(InvalidJson)
  }

  function ScanArray(d: Doc, s: State): (r: Result<State, Code>)
    requires InText(d, s) && s.frames != [] && Top(s).ArrayFrame?
    ensures r.Ok? ==> s.index < r.value.index <= |d.source|
    ensures r.Ok? && |s.frames| <= d.limits.maxDepth ==> |r.value.frames| <= d.limits.maxDepth
  {
    var frame := Top(s);
    if frame.atValue then
      if d.source[s.index] == CLOSE_BRACKET then
        if !frame.allowEnd then Err(InvalidJson)
        else
          var t :- Punctuation(d, s, CLOSE_BRACKET);
          Ok(Pop(t))
      else if frame.items + 1 > d.limits.maxArrayItems then Err(ArrayItemLimit)
      else ScanValue(d, WithTop(s, frame.(items := frame.items + 1, atValue := false)))
    else if d.source[s.index] == COMMA then
      var t :- Punctuation(d, s, COMMA);
      Ok(WithTop(t, frame.(atValue := true, allowEnd := false)))
    else if d.source[s.index] == CLOSE_BRACKET then
      var t :- Punctuation(d, s, CLOSE_BRACKET);
      Ok(Pop(t))
    else Err(InvalidJson)
  }

  /** One loop iteration after white space, when the scan is not finished. */
  function Advance(d: Doc, s: State): (r: Result<State, Code>)
    requires s.index <= |d.source|
    ensures r.Ok? ==> s.index < r.value.index <= |d.source|
    ensures r.Ok? && |s.frames| <= d.limits.maxDepth ==> |r.value.frames| <= d.limits.maxDepth
  {
    if s.index >= |d.source| then Err(InvalidJson)
    else if s.frames == [] then
      if s.rootComplete then Err(InvalidJson) else ScanValue(d, s.(rootComplete := true))
    else if Top(s).ObjectFrame? then ScanObject(d, s)
    else ScanArray(d, s)
  }

  function Skipped(d: Doc, s: State): State
    requires s.index <= |d.source|
  {
    s.(index := SkipWs(d.source, s.index))
  }

  predicate Finished(d: Doc, s: State) {
    s.frames == [] && s.rootComplete && s.index == |d.source|
  }

  /** The whole loop of validateJsonGrammar. */
  function Run(d: Doc, s: State): Result<(), Code>
    requires s.index <= |d.source|
    decreases |d.source| - s.index
  {
    var t := Skipped(d, s);
    if Finished(d, t) then Ok(())
    else
      var next :- Advance(d, t);
      Run(d, next)
  }

  const INITIAL := State(0, 0, 0, [], false)

  function Validate(d: Doc): Result<(), Code> {
    Run(d, INITIAL)
  }
}
