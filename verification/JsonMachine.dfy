/** The scanner as the program runs it: one object whose index, budgets and frame stack are updated in place. */
module JsonMachine {
  import opened CodeUnits
  import opened Wrappers
  import opened JsonGrammar
  import opened JsonScanner
  import opened JsonSoundness

  /** A method outcome agrees with the functional step: same error, or the new fields. */
  predicate Agrees(expected: Result<State, Code>, outcome: Result<(), Code>, now: State) {
    if outcome.Ok? then expected == Ok(now) else expected == Err(outcome.error)
  }

  /** Items already decoded, in front of the rest of the string. */
  function Resume(done: seq<Item>, r: Result<(nat, seq<Item>), Code>): Result<(nat, seq<Item>), Code> {
    if r.Err? then r else Ok((r.value.0, done + r.value.1))
  }

  lemma ResumeStep(done: seq<Item>, x: Item, r: Result<(nat, seq<Item>), Code>)
    ensures Resume(done, Prepend(x, r)) == Resume(done + [x], r)
  {
    if r.Ok? { assert done + ([x] + r.value.1) == done + [x] + r.value.1; }
  }

  lemma ResumeNothing(r: Result<(nat, seq<Item>), Code>)
    ensures Resume([], r) == r
  {
    if r.Ok? { assert [] + r.value.1 == r.value.1; }
  }

  lemma {:induction false} DecodeAppend(done: seq<Item>, x: Item)
    requires ItemsOk(done) && ItemOk(x)
    ensures ItemsOk(done + [x]) && Decode(done + [x]) == Decode(done) + [DecodeItem(x)]
  {
    hide DecodeItem;
    if done == [] {
      assert [] + [x] == [x] && [x][1..] == [];
    } else {
      assert (done + [x])[1..] == done[1..] + [x];
      DecodeAppend(done[1..], x);
    }
  }

  class Scanner {
    const doc: Doc
    var index: nat
    var tokens: nat
    var objectKeys: nat
    var frames: seq<Frame>
    var rootComplete: bool

    constructor (d: Doc)
      ensures doc == d && Fields() == INITIAL
    {
      doc := d;
      index, tokens, objectKeys, frames, rootComplete := 0, 0, 0, [], false;
    }

    function Fields(): State
      reads this
    {
      State(index, tokens, objectKeys, frames, rootComplete)
    }

    predicate Reading()
      reads this
    {
      index < |doc.source|
    }

    method SkipWhitespace()
      requires index <= |doc.source|
      modifies this
      ensures Fields() == Skipped(doc, old(Fields()))
    {
      while index < |doc.source| && IsWhitespace(doc.source[index])
        invariant index <= |doc.source|
        invariant SkipWs(doc.source, index) == SkipWs(doc.source, old(index))
        invariant Fields() == old(Fields()).(index := index)
        decreases |doc.source| - index
      {
        index := index + 1;
      }
    }

    method ConsumeToken() returns (r: Result<(), Code>)
      modifies this`tokens
      ensures Agrees(Token(doc, old(Fields())), r, Fields())
    {
      tokens := tokens + 1;
      if tokens > doc.limits.maxTokens { return Err(TokenLimit); }
      return Ok(());
    }

    method ConsumePunctuation(expected: Unit) returns (r: Result<(), Code>)
      requires Reading()
      modifies this
      ensures Agrees(Punctuation(doc, old(Fields()), expected), r, Fields())
    {
      if doc.source[index] != expected { return Err(InvalidJson); }
      var token := ConsumeToken();
      if token.Err? { return token; }
      index := index + 1;
      return Ok(());
    }

    method PushFrame(frame: Frame) returns (r: Result<(), Code>)
      modifies this`frames
      ensures Agrees(Push(doc, old(Fields()), frame), r, Fields())
    {
      if |frames| + 1 > doc.limits.maxDepth { return Err(DepthLimit); }
      frames := frames + [frame];
      return Ok(());
    }

    method CompleteFrame()
      requires frames != []
      modifies this`frames
      ensures Fields() == Pop(old(Fields()))
    {
      frames := frames[..|frames| - 1];
    }

    /** Reads the string token at `index`; captured text is joined from verbatim segments and decoded escapes. */
    method ScanStringAt(capture: bool) returns (r: Result<(nat, Text), Code>)
      requires Reading()
      ensures match ScanString(doc, index)
              case Ok(scanned) => r == Ok((scanned.0, if capture then Decode(scanned.1) else []))
              case Err(code) => r == Err(code)
    {
      var source := doc.source;
      var i := index + 1;
      var decodedUnits: nat := 0;
      var segmentStart := i;
      var chunks: Text := [];
      var pending := false;
      ghost var done: seq<Item> := [];
      ResumeNothing(ScanItems(doc, i, 0, false));
      while i < |source|
        invariant index < segmentStart <= i <= |source|
        invariant ItemsOk(done)
        invariant ScanString(doc, index) == Resume(done, ScanItems(doc, i, decodedUnits, pending))
        invariant capture ==> chunks + source[segmentStart..i] == Decode(done)
        decreases |source| - i
      {
        var code := source[i];
        if code == QUOTE {
          if pending { return Err(InvalidUnicode); }
          if capture { chunks := chunks + source[segmentStart..i]; }
          assert done + [] == done;
          return Ok((i + 1, if capture then chunks else []));
        }
        if code < 0x20 { return Err(InvalidJson); }
        if code != BACKSLASH {
          var paired := Pairing(pending, code);
          if paired.Err? { return Err(paired.error); }
          if decodedUnits + 1 > doc.limits.maxDecodedStringLength { return Err(DecodedStringLimit); }
          ResumeStep(done, Plain(code), ScanItems(doc, i + 1, decodedUnits + 1, paired.value));
          DecodeAppend(done, Plain(code));
          assert source[segmentStart..i + 1] == source[segmentStart..i] + [code];
          pending, decodedUnits, i := paired.value, decodedUnits + 1, i + 1;
          done := done + [Plain(code)];
          continue;
        }
        if capture { chunks := chunks + source[segmentStart..i]; }
        var escape := ScanEscape(source, i + 1);
        if escape.Err? { return Err(escape.error); }
        var (item, next) := escape.value;
        if decodedUnits + 1 > doc.limits.maxDecodedStringLength { return Err(DecodedStringLimit); }
        var paired := Pairing(pending, DecodeItem(item));
        if paired.Err? { return Err(paired.error); }
        ResumeStep(done, item, ScanItems(doc, next, decodedUnits + 1, paired.value));
        DecodeAppend(done, item);
        if capture { chunks := chunks + [DecodeItem(item)]; }
        pending, decodedUnits, i, segmentStart := paired.value, decodedUnits + 1, next, next;
        assert source[segmentStart..i] == [];
        done := done + [item];
      }
      return Err(InvalidJson);
    }

    method ConsumeNumberCharacter(start: nat) returns (r: Result<(), Code>)
      requires start <= index && Reading()
      modifies this`index
      ensures index == old(index) + 1
      ensures r == if index - start > doc.limits.maxNumericTokenLength then Err(NumericTokenLimit) else Ok(())
    {
      index := index + 1;
      if index - start > doc.limits.maxNumericTokenLength { return Err(NumericTokenLimit); }
      return Ok(());
    }

    /** do consume while a digit follows. */
    method ConsumeDigits(start: nat) returns (r: Result<(), Code>)
      requires start <= index <= |doc.source|
      modifies this`index
      ensures match ScanDigits(doc, start, old(index)) case Ok(j) => r.Ok? && index == j case Err(code) => r == Err(code)
    {
      if index >= |doc.source| || !IsDigit(doc.source[index]) { return Err(InvalidJson); }
      var first := ConsumeNumberCharacter(start);
      if first.Err? { return first; }
      while index < |doc.source| && IsDigit(doc.source[index])
        invariant old(index) < index <= |doc.source|
        invariant DigitsEnd(doc.source, index) == DigitsEnd(doc.source, old(index))
        invariant index - start <= doc.limits.maxNumericTokenLength
        decreases |doc.source| - index
      {
        var more := ConsumeNumberCharacter(start);
        if more.Err? { return more; }
      }
      return Ok(());
    }

    method ScanNumberSign() returns (r: Result<(), Code>)
      requires Reading()
      modifies this`index
      ensures match ScanSign(doc, old(index)) case Ok(j) => r.Ok? && index == j case Err(code) => r == Err(code)
    {
      if doc.source[index] == 0x2d {
        r := ConsumeNumberCharacter(index);
      } else {
        r := Ok(());
      }
    }

    method ScanNumberInteger(start: nat) returns (r: Result<(), Code>)
      requires start <= index <= |doc.source|
      modifies this`index
      ensures match ScanInteger(doc, start, old(index)) case Ok(j) => r.Ok? && index == j case Err(code) => r == Err(code)
    {
      if index >= |doc.source| { return Err(InvalidJson); }
      if doc.source[index] == 0x30 {
        r := ConsumeNumberCharacter(start);
      } else {
        r := ConsumeDigits(start);
      }
    }

    method ScanNumberFraction(start: nat) returns (r: Result<(), Code>)
      requires start <= index <= |doc.source|
      modifies this`index
      ensures match ScanFraction(doc, start, old(index)) case Ok(j) => r.Ok? && index == j case Err(code) => r == Err(code)
    {
      r := Ok(());
      if index < |doc.source| && doc.source[index] == 0x2e {
        hide ScanDigits;
        r := ConsumeNumberCharacter(start);
        if r.Ok? { r := ConsumeDigits(start); }
      }
    }

    method ScanNumberExponent(start: nat) returns (r: Result<(), Code>)
      requires start <= index <= |doc.source|
      modifies this`index
      ensures match ScanExponent(doc, start, old(index)) case Ok(j) => r.Ok? && index == j case Err(code) => r == Err(code)
    {
      r := Ok(());
      if index < |doc.source| && (doc.source[index] == 0x65 || doc.source[index] == 0x45) {
        hide ScanDigits;
        r := ConsumeNumberCharacter(start);
        if r.Err? { return; }
        if index < |doc.source| && (doc.source[index] == 0x2b || doc.source[index] == 0x2d) {
          r := ConsumeNumberCharacter(start);
          if r.Err? { return; }
        }
        r := ConsumeDigits(start);
      }
    }

    method ScanNumberToken() returns (r: Result<(), Code>)
      requires Reading()
      modifies this`index
      ensures match ScanNumber(doc, old(index)) case Ok(j) => r.Ok? && index == j case Err(code) => r == Err(code)
    {
      hide ScanSign, ScanInteger, ScanFraction, ScanExponent;
      var start := index;
      r := ScanNumberSign();
      if r.Err? { return; }
      r := ScanNumberInteger(start);
      if r.Err? { return; }
      r := ScanNumberFraction(start);
      if r.Err? { return; }
      r := ScanNumberExponent(start);
      if r.Err? { return; }
      if !doc.finite(doc.source[start..index]) { return Err(NumberRange); }
    }

    method ScanLiteral(word: Text) returns (r: Result<(), Code>)
      requires Reading() && |word| > 0
      modifies this`index
      ensures match ScanWord(doc, old(index), word) case Ok(j) => r.Ok? && index == j case Err(code) => r == Err(code)
    {
      if !(index + |word| <= |doc.source| && doc.source[index..index + |word|] == word) { return Err(InvalidJson); }
      index := index + |word|;
      return Ok(());
    }

    method ScanAnyValue() returns (r: Result<(), Code>)
      requires Reading()
      modifies this
      ensures Agrees(ScanValue(doc, old(Fields())), r, Fields())
    {
      var code := doc.source[index];
      var token := ConsumeToken();
      if token.Err? { return token; }
      if code == OPEN_BRACE {
        index := index + 1;
        r := PushFrame(ObjectFrame(KeyOrEnd, true, {}));
      } else if code == OPEN_BRACKET {
        index := index + 1;
        r := PushFrame(ArrayFrame(true, true, 0));
      } else if code == QUOTE {
        var scanned := ScanStringAt(false);
        if scanned.Err? { return Err(scanned.error); }
        index := scanned.value.0;
        r := Ok(());
      } else if code == 0x74 {
        r := ScanLiteral(TRUE);
      } else if code == 0x66 {
        r := ScanLiteral(FALSE);
      } else if code == 0x6e {
        r := ScanLiteral(NULL);
      } else if code == 0x2d || IsDigit(code) {
        r := ScanNumberToken();
      } else {
        r := Err(InvalidJson);
      }
    }

    method SetTop(frame: Frame)
      requires frames != []
      modifies this`frames
      ensures Fields() == WithTop(old(Fields()), frame)
    {
      frames := frames[|frames| - 1 := frame];
    }

    method ScanObjectKey() returns (r: Result<(), Code>)
      requires Reading() && frames != [] && Top(Fields()).ObjectFrame?
      modifies this
      ensures Agrees(ScanKey(doc, old(Fields())), r, Fields())
    {
      if doc.source[index] != QUOTE { return Err(InvalidJson); }
      var token := ConsumeToken();
      if token.Err? { return token; }
      var scanned := ScanStringAt(true);
      if scanned.Err? { return Err(scanned.error); }
      index := scanned.value.0;
      objectKeys := objectKeys + 1;
      if objectKeys > doc.limits.maxObjectKeys { return Err(ObjectKeyLimit); }
      var frame := frames[|frames| - 1];
      if scanned.value.1 in frame.keys { return Err(DuplicateKey); }
      SetTop(frame.(keys := frame.keys + {scanned.value.1}, state := ColonNext));
      return Ok(());
    }

    method ScanObjectFrame() returns (r: Result<(), Code>)
      requires Reading() && frames != [] && Top(Fields()).ObjectFrame?
      modifies this
      ensures Agrees(ScanObject(doc, old(Fields())), r, Fields())
    {
      var frame := frames[|frames| - 1];
      match frame.state {
        case KeyOrEnd =>
          if doc.source[index] == CLOSE_BRACE {
            if !frame.allowEnd { return Err(InvalidJson); }
            r := ConsumePunctuation(CLOSE_BRACE);
            if r.Ok? { CompleteFrame(); }
          } else {
            r := ScanObjectKey();
          }
        case ColonNext =>
          r := ConsumePunctuation(COLON);
          if r.Ok? { SetTop(frame.(state := ValueNext)); }
        case ValueNext =>
          SetTop(frame.(state := MemberEnd));
          r := ScanAnyValue();
        case MemberEnd =>
          if doc.source[index] == COMMA {
            r := ConsumePunctuation(COMMA);
            if r.Ok? { SetTop(frame.(state := KeyOrEnd, allowEnd := false)); }
          } else if doc.source[index] == CLOSE_BRACE {
            r := ConsumePunctuation(CLOSE_BRACE);
            if r.Ok? { CompleteFrame(); }
          } else {
            r := Err(InvalidJson);
          }
      }
    }

    method ScanArrayFrame() returns (r: Result<(), Code>)
      requires Reading() && frames != [] && Top(Fields()).ArrayFrame?
      modifies this
      ensures Agrees(ScanArray(doc, old(Fields())), r, Fields())
    {
      var frame := frames[|frames| - 1];
      if frame.atValue {
        if doc.source[index] == CLOSE_BRACKET {
          if !frame.allowEnd { return Err(InvalidJson); }
          r := ConsumePunctuation(CLOSE_BRACKET);
          if r.Ok? { CompleteFrame(); }
        } else {
          if frame.items + 1 > doc.limits.maxArrayItems { return Err(ArrayItemLimit); }
          SetTop(frame.(items := frame.items + 1, atValue := false));
          r := ScanAnyValue();
        }
      } else if doc.source[index] == COMMA {
        r := ConsumePunctuation(COMMA);
        if r.Ok? { SetTop(frame.(atValue := true, allowEnd := false)); }
      } else if doc.source[index] == CLOSE_BRACKET {
        r := ConsumePunctuation(CLOSE_BRACKET);
        if r.Ok? { CompleteFrame(); }
      } else {
        r := Err(InvalidJson);
      }
    }
  }

  /** validateJsonGrammar: never more than maxDepth open frames, and acceptance exactly of bounded JSON texts. */
  method ValidateJsonGrammar(d: Doc) returns (r: Result<(), Code>)
    ensures r == Validate(d)
    ensures r.Ok? <==> IsBoundedJson(d)
  {
    ScannerDecides(d);
    hide IsBoundedJson, ScanObject, ScanArray, ScanValue;
    var scanner := new Scanner(d);
    while true
      invariant scanner.doc == d && fresh(scanner) && scanner.index <= |d.source|
      invariant Run(d, scanner.Fields()) == Validate(d)
      invariant |scanner.frames| <= d.limits.maxDepth
      decreases |d.source| - scanner.index
    {
      scanner.SkipWhitespace();
      if |scanner.frames| == 0 {
        if !scanner.rootComplete {
          if scanner.index >= |d.source| { return Err(InvalidJson); }
          scanner.rootComplete := true;
          var root := scanner.ScanAnyValue();
          if root.Err? { return root; }
          continue;
        }
        if scanner.index != |d.source| { return Err(InvalidJson); }
        return Ok(());
      }
      if scanner.index >= |d.source| { return Err(InvalidJson); }
      var step: Result<(), Code>;
      if scanner.frames[|scanner.frames| - 1].ObjectFrame? {
        step := scanner.ScanObjectFrame();
      } else {
        step := scanner.ScanArrayFrame();
      }
      if step.Err? { return step; }
    }
  }
}
