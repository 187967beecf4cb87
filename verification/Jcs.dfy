/** The canonical printer of RFC 8785 over JSON values, as a function and as the program's recursive method. */
module Jcs {
  import opened CodeUnits
  import opened Wrappers
  import opened Sorting
  import opened JsonGrammar

  // ----- numbers

  /** An IEEE 754 double by its bit pattern. */
  type Double = x: int | 0 <= x < 0x1_0000_0000_0000_0000

  const ZERO: Double := 0
  const NEGATIVE_ZERO: Double := 0x8000_0000_0000_0000

  /** The exponent field is not all ones: neither an infinity nor a NaN. */
  predicate IsFinite(x: Double) { (x / 0x10_0000_0000_0000) % 0x800 != 0x7ff }

  function Fold(x: Double): Double { if x == NEGATIVE_ZERO then ZERO else x }

  /** The host's number printing and reading. */
  datatype Codec = Codec(format: Double -> Text, parse: Text -> Double)

  /** What ECMA-262 promises of them: the shortest text that reads back, and "0" for both zeros. */
  ghost predicate Faithful(c: Codec) {
    && (forall x :: IsFinite(x) ==> IsNumber(c.format(x)) && c.parse(c.format(x)) == Fold(x))
    && c.format(NEGATIVE_ZERO) == c.format(ZERO)
  }

  // ----- values

  datatype Value =
    | Null
    | Boolean(b: bool)
    | Number(x: Double)
    | String(t: Text)
    | Array(items: seq<Value>)
    | Object(fields: seq<Field>)

  /** An own property; an object lists them in insertion order. */
  datatype Field = Field(key: Text, value: Value)

  function KeyOf(f: Field): Text { f.key }
  function KeysOf(fs: seq<Field>): (ks: seq<Text>)
    ensures |ks| == |fs| && forall i :: 0 <= i < |fs| ==> ks[i] == fs[i].key
  {
    Map(KeyOf, fs)
  }
  function FieldOrder(): (Field, Field) -> bool { ByKey(KeyOf) }

  /** An object has each key once, at every level. */
  predicate DistinctKeys(v: Value) {
    match v
    case Array(items) => forall i :: 0 <= i < |items| ==> DistinctKeys(items[i])
    case Object(fields) =>
      NoDuplicates(KeysOf(fields)) && forall i :: 0 <= i < |fields| ==> DistinctKeys(fields[i].value)
    case _ => true
  }

  /** I-JSON: well-formed strings and keys, finite numbers. */
  predicate Printable(v: Value) {
    match v
    case Number(x) => IsFinite(x)
    case String(t) => WellFormed(t)
    case Array(items) => forall i :: 0 <= i < |items| ==> Printable(items[i])
    case Object(fields) => forall i :: 0 <= i < |fields| ==> WellFormed(fields[i].key) && Printable(fields[i].value)
    case _ => true
  }

  // ----- strings

  const HEX_DIGITS: Text :=
    [0x30, 0x31, 0x32, 0x33, 0x34, 0x35, 0x36, 0x37, 0x38, 0x39, 0x61, 0x62, 0x63, 0x64, 0x65, 0x66]

  /** JSON.stringify on one unit of a well-formed string. */
  function EscapeUnit(u: Unit): Item {
    if u == QUOTE || u == BACKSLASH then Escape(u)
    else if u == 0x08 then Escape(0x62)
    else if u == 0x09 then Escape(0x74)
    else if u == 0x0a then Escape(0x6e)
    else if u == 0x0c then Escape(0x66)
    else if u == 0x0d then Escape(0x72)
    else if u < 0x20 then Hex(0x30, 0x30, HEX_DIGITS[u / 16], HEX_DIGITS[u % 16])
    else Plain(u)
  }

  function EscapeAll(t: Text): seq<Item> {
    if t == [] then [] else [EscapeUnit(t[0])] + EscapeAll(t[1..])
  }

  function Stringify(t: Text): Text { PrintString(EscapeAll(t)) }

  // ----- the printer

  datatype CanonicalError = BadUnicode | NotFinite

  function Join(parts: seq<Text>): Text {
    if parts == [] then [] else if |parts| == 1 then parts[0] else parts[0] + [COMMA] + Join(parts[1..])
  }

  /** A field key with the outcome of printing its value. */
  datatype Rendered = Rendered(key: Text, text: Result<Text, CanonicalError>)

  function RenderedKey(r: Rendered): Text { r.key }
  function RenderedOrder(): (Rendered, Rendered) -> bool { ByKey(RenderedKey) }

  function MemberText(r: Rendered): Result<Text, CanonicalError> {
    if !WellFormed(r.key) then Err(BadUnicode)
    else
      var text :- r.text;
      Ok(Stringify(r.key) + [COLON] + text)
  }

  function Collect(rs: seq<Rendered>): Result<seq<Text>, CanonicalError> {
    if rs == [] then Ok([])
    else
      var first :- MemberText(rs[0]);
      var rest :- Collect(rs[1..]);
      Ok([first] + rest)
  }

  function Canonical(c: Codec, v: Value): Result<Text, CanonicalError>
    decreases v
  {
    match v
    case Null => Ok(NULL)
    case Boolean(b) => Ok(if b then TRUE else FALSE)
    case Number(x) => if IsFinite(x) then Ok(c.format(x)) else Err(NotFinite)
    case String(t) => if WellFormed(t) then Ok(Stringify(t)) else Err(BadUnicode)
    case Array(items) =>
      var parts :- CanonicalItems(c, items);
      Ok([OPEN_BRACKET] + Join(parts) + [CLOSE_BRACKET])
    case Object(fields) =>
      var parts :- Collect(Sort(RenderFields(c, fields), RenderedOrder()));
      Ok([OPEN_BRACE] + Join(parts) + [CLOSE_BRACE])
  }

  function CanonicalItems(c: Codec, items: seq<Value>): Result<seq<Text>, CanonicalError>
    decreases items
  {
    if items == [] then Ok([])
    else
      var first :- Canonical(c, items[0]);
      var rest :- CanonicalItems(c, items[1..]);
      Ok([first] + rest)
  }

  function RenderFields(c: Codec, fields: seq<Field>): seq<Rendered>
    decreases fields
  {
    if fields == [] then []
    else [Rendered(fields[0].key, Canonical(c, fields[0].value))] + RenderFields(c, fields[1..])
  }

  // ----- the program's loops

  /** assertWellFormedUnicode: one pass with a look-ahead at each high surrogate. */
  method AssertWellFormedUnicode(value: Text) returns (ok: bool)
    ensures ok <==> WellFormed(value)
  {
    var index := 0;
    while index < |value|
      invariant 0 <= index <= |value|
      invariant WellFormed(value) <==> WellFormed(value[index..])
      decreases |value| - index
    {
      var codeUnit := value[index];
      if codeUnit < 0xd800 || codeUnit > 0xdfff {
        assert value[index..][1..] == value[index + 1..];
        index := index + 1;
        continue;
      }
      var hasMatchingPair := codeUnit <= 0xdbff && index + 1 < |value| && 0xdc00 <= value[index + 1] <= 0xdfff;
      if !hasMatchingPair { return false; }
      assert value[index..][2..] == value[index + 2..];
      index := index + 2;
    }
    return true;
  }

  function RenderField(c: Codec, f: Field): Rendered { Rendered(f.key, Canonical(c, f.value)) }

  function Renderer(c: Codec): Field -> Rendered { (f: Field) => RenderField(c, f) }

  lemma {:induction false} RenderIsMap(c: Codec, fields: seq<Field>)
    ensures RenderFields(c, fields) == Map(Renderer(c), fields)
  {
    if fields != [] {
      RenderIsMap(c, fields[1..]);
    }
  }

  /** Rendering every field and sorting the results is rendering the sorted fields. */
  lemma SortBeforeRendering(c: Codec, fields: seq<Field>)
    ensures Sort(RenderFields(c, fields), RenderedOrder()) == RenderFields(c, Sort(fields, FieldOrder()))
  {
    RenderIsMap(c, fields);
    RenderIsMap(c, Sort(fields, FieldOrder()));
    assert forall f :: RenderedKey(Renderer(c)(f)) == KeyOf(f);
    SortMap(Renderer(c), fields, FieldOrder(), RenderedOrder());
  }

  lemma SortedMembers<T>(xs: seq<T>, le: (T, T) -> bool, k: nat)
    requires k < |Sort(xs, le)|
    ensures |Sort(xs, le)| == |xs| && Sort(xs, le)[k] in xs
  {
    SortPermutes(xs, le);
    assert Sort(xs, le)[k] in multiset(Sort(xs, le));
  }

  /** Append the outcome of the rest to what has been pushed. */
  function Pushed(done: seq<Text>, rest: Result<seq<Text>, CanonicalError>): Result<seq<Text>, CanonicalError> {
    if rest.Err? then rest else Ok(done + rest.value)
  }

  lemma PushItem(c: Codec, done: seq<Text>, items: seq<Value>)
    requires items != []
    ensures var first := Canonical(c, items[0]);
            Pushed(done, CanonicalItems(c, items))
            == if first.Err? then Err(first.error) else Pushed(done + [first.value], CanonicalItems(c, items[1..]))
  {
    var first, rest := Canonical(c, items[0]), CanonicalItems(c, items[1..]);
    if first.Ok? && rest.Ok? { assert done + ([first.value] + rest.value) == done + [first.value] + rest.value; }
  }

  lemma PushMember(c: Codec, done: seq<Text>, fields: seq<Field>)
    requires fields != []
    ensures var first := MemberText(RenderField(c, fields[0]));
            Pushed(done, Collect(RenderFields(c, fields)))
            == if first.Err? then Err(first.error) else Pushed(done + [first.value], Collect(RenderFields(c, fields[1..])))
  {
    hide MemberText;
    var rs := RenderFields(c, fields);
    assert rs[0] == RenderField(c, fields[0]) && rs[1..] == RenderFields(c, fields[1..]);
    var first, rest := MemberText(rs[0]), Collect(rs[1..]);
    if first.Ok? && rest.Ok? { assert done + ([first.value] + rest.value) == done + [first.value] + rest.value; }
  }

  lemma PushStart(rest: Result<seq<Text>, CanonicalError>)
    ensures Pushed([], rest) == rest
  {
    if rest.Ok? { assert [] + rest.value == rest.value; }
  }

  /** canonicalize: keys are sorted first and each value is printed in that order. */
  method Canonicalize(c: Codec, v: Value) returns (r: Result<Text, CanonicalError>)
    ensures r == Canonical(c, v)
    decreases v
  {
    match v {
      case Null => r := Ok(NULL);
      case Boolean(b) => r := Ok(if b then TRUE else FALSE);
      case Number(x) => r := if IsFinite(x) then Ok(c.format(x)) else Err(NotFinite);
      case String(t) =>
        var ok := AssertWellFormedUnicode(t);
        r := if ok then Ok(Stringify(t)) else Err(BadUnicode);
      case Array(items) => r := CanonicalizeArray(c, items);
      case Object(fields) => r := CanonicalizeObject(c, fields);
    }
  }

  method CanonicalizeArray(c: Codec, items: seq<Value>) returns (r: Result<Text, CanonicalError>)
    ensures r == Canonical(c, Array(items))
    decreases items
  {
    hide Join;
    var elements: seq<Text> := [];
    var index := 0;
    PushStart(CanonicalItems(c, items));
    assert items[0..] == items;
    while index < |items|
      invariant 0 <= index <= |items|
      invariant Pushed(elements, CanonicalItems(c, items[index..])) == CanonicalItems(c, items)
    {
      PushItem(c, elements, items[index..]);
      assert items[index..][1..] == items[index + 1..];
      var element := Canonicalize(c, items[index]);
      if element.Err? { return element; }
      elements := elements + [element.value];
      index := index + 1;
    }
    assert elements + [] == elements;
    return Ok([OPEN_BRACKET] + Join(elements) + [CLOSE_BRACKET]);
  }

  method CanonicalizeObject(c: Codec, fields: seq<Field>) returns (r: Result<Text, CanonicalError>)
    ensures r == Canonical(c, Object(fields))
    decreases fields
  {
    hide Join, Sort, Stringify;
    var sorted := Sort(fields, FieldOrder());
    var members: seq<Text> := [];
    var index := 0;
    SortBeforeRendering(c, fields);
    PushStart(Collect(RenderFields(c, sorted)));
    assert sorted[0..] == sorted;
    while index < |sorted|
      invariant 0 <= index <= |sorted|
      invariant Pushed(members, Collect(RenderFields(c, sorted[index..]))) == Collect(RenderFields(c, sorted))
    {
      PushMember(c, members, sorted[index..]);
      assert sorted[index..][1..] == sorted[index + 1..] && sorted[index..][0] == sorted[index];
      SortedMembers(fields, FieldOrder(), index);
      var field := sorted[index];
      var ok := AssertWellFormedUnicode(field.key);
      if !ok { return Err(BadUnicode); }
      var value := Canonicalize(c, field.value);
      if value.Err? { return value; }
      members := members + [Stringify(field.key) + [COLON] + value.value];
      index := index + 1;
    }
    assert members + [] == members;
    return Ok([OPEN_BRACE] + Join(members) + [CLOSE_BRACE]);
  }
}
