/** RFC 8259 JSON texts (sections 2 to 7) as concrete syntax trees, and what the bounded scanner asks of them. */
module JsonGrammar {
  import opened CodeUnits

  // ----- characters

  predicate IsWhitespace(u: Unit) { u == 0x20 || u == 0x09 || u == 0x0a || u == 0x0d }
  predicate IsDigit(u: Unit) { 0x30 <= u <= 0x39 }
  predicate IsHigh(u: Unit) { 0xd800 <= u <= 0xdbff }
  predicate IsLow(u: Unit) { 0xdc00 <= u <= 0xdfff }

  function HexValue(u: Unit): int {
    if 0x30 <= u <= 0x39 then u - 0x30
    else if 0x41 <= u <= 0x46 then u - 0x41 + 10
    else if 0x61 <= u <= 0x66 then u - 0x61 + 10
    else -1
  }

  predicate Whitespace(t: Text) { forall i :: 0 <= i < |t| ==> IsWhitespace(t[i]) }
  predicate Digits(t: Text) { forall i :: 0 <= i < |t| ==> IsDigit(t[i]) }

  const QUOTE: Unit := 0x22
  const BACKSLASH: Unit := 0x5c
  const COMMA: Unit := 0x2c
  const COLON: Unit := 0x3a
  const OPEN_BRACKET: Unit := 0x5b
  const CLOSE_BRACKET: Unit := 0x5d
  const OPEN_BRACE: Unit := 0x7b
  const CLOSE_BRACE: Unit := 0x7d

  const TRUE: Text := [0x74, 0x72, 0x75, 0x65]
  const FALSE: Text := [0x66, 0x61, 0x6c, 0x73, 0x65]
  const NULL: Text := [0x6e, 0x75, 0x6c, 0x6c]

  // ----- strings

  /** One string character: verbatim, a two-unit escape, or a hexadecimal escape. */
  datatype Item = Plain(u: Unit) | Escape(c: Unit) | Hex(a: Unit, b: Unit, c: Unit, d: Unit)

  predicate ItemOk(x: Item) {
    match x
    case Plain(u) => u >= 0x20 && u != QUOTE && u != BACKSLASH
    case Escape(c) => c in {0x22, 0x5c, 0x2f, 0x62, 0x66, 0x6e, 0x72, 0x74}
    case Hex(a, b, c, d) => HexValue(a) >= 0 && HexValue(b) >= 0 && HexValue(c) >= 0 && HexValue(d) >= 0
  }

  function PrintItem(x: Item): Text {
    match x
    case Plain(u) => [u]
    case Escape(c) => [BACKSLASH, c]
    case Hex(a, b, c, d) => [BACKSLASH, 0x75, a, b, c, d]
  }

  function DecodeItem(x: Item): Unit
    requires ItemOk(x)
  {
    match x
    case Plain(u) => u
    case Escape(c) =>
      if c == 0x62 then 0x08 else if c == 0x66 then 0x0c else if c == 0x6e then 0x0a
      else if c == 0x72 then 0x0d else if c == 0x74 then 0x09 else c
    case Hex(a, b, c, d) => ((HexValue(a) * 16 + HexValue(b)) * 16 + HexValue(c)) * 16 + HexValue(d)
  }

  predicate ItemsOk(xs: seq<Item>) { forall i :: 0 <= i < |xs| ==> ItemOk(xs[i]) }

  function PrintItems(xs: seq<Item>): Text {
    if xs == [] then [] else PrintItem(xs[0]) + PrintItems(xs[1..])
  }

  function Decode(xs: seq<Item>): (t: Text)
    requires ItemsOk(xs)
    ensures |t| == |xs|
  {
    if xs == [] then [] else [DecodeItem(xs[0])] + Decode(xs[1..])
  }

  function PrintString(xs: seq<Item>): Text { [QUOTE] + PrintItems(xs) + [QUOTE] }

  /** Every surrogate belongs to a high-low pair. */
  predicate WellFormed(t: Text) {
    if t == [] then true
    else if IsHigh(t[0]) then |t| >= 2 && IsLow(t[1]) && WellFormed(t[2..])
    else !IsLow(t[0]) && WellFormed(t[1..])
  }

  // ----- numbers

  predicate IntegerPart(t: Text) {
    |t| >= 1 && Digits(t) && (|t| > 1 ==> t[0] != 0x30)
  }

  predicate FractionPart(t: Text) {
    t == [] || (|t| >= 2 && t[0] == 0x2e && Digits(t[1..]))
  }

  predicate ExponentPart(t: Text) {
    t == [] ||
    (|t| >= 2 && (t[0] == 0x65 || t[0] == 0x45) &&
     (Digits(t[1..]) || (|t| >= 3 && (t[1] == 0x2b || t[1] == 0x2d) && Digits(t[2..]))))
  }

  predicate SignPart(t: Text) { t == [] || t == [0x2d] }

  /** number = [ minus ] int [ frac ] [ exp ] */
  ghost predicate IsNumber(t: Text) {
    exists sign, whole, fraction, exponent :: NumberParts(t, sign, whole, fraction, exponent)
  }

  predicate NumberParts(t: Text, sign: Text, whole: Text, fraction: Text, exponent: Text) {
    && SignPart(sign) && IntegerPart(whole) && FractionPart(fraction) && ExponentPart(exponent)
    && t == sign + whole + fraction + exponent
  }

  // ----- values

  /** Concrete syntax: every derivation keeps its white space, so printing gives back the text. */
  datatype Cst =
    | Lit(word: Text)
    | Num(lexeme: Text)
    | Str(items: seq<Item>)
    | Arr(blank: Text, elems: Elems)
    | Obj(blank: Text, members: Members)

  datatype Elems = NoElems | Elem(pre: Text, value: Cst, post: Text, rest: Elems)

  datatype Members =
    | NoMembers
    | Member(pre: Text, key: seq<Item>, mid: Text, gap: Text, value: Cst, post: Text, rest: Members)

  function Print(v: Cst): Text {
    match v
    case Lit(word) => word
    case Num(lexeme) => lexeme
    case Str(items) => PrintString(items)
    case Arr(blank, elems) => [OPEN_BRACKET] + blank + PrintElems(elems) + [CLOSE_BRACKET]
    case Obj(blank, members) => [OPEN_BRACE] + blank + PrintMembers(members) + [CLOSE_BRACE]
  }

  function PrintElems(es: Elems): Text {
    match es
    case NoElems => []
    case Elem(pre, value, post, rest) =>
      pre + Print(value) + post + (if rest.NoElems? then [] else [COMMA] + PrintElems(rest))
  }

  function PrintMembers(ms: Members): Text {
    match ms
    case NoMembers => []
    case Member(pre, key, mid, gap, value, post, rest) =>
      pre + PrintString(key) + mid + [COLON] + gap + Print(value) + post
      + (if rest.NoMembers? then [] else [COMMA] + PrintMembers(rest))
  }

  /** The tree is a derivation of the RFC 8259 grammar. */
  ghost predicate Grammatical(v: Cst) {
    match v
    case Lit(word) => word in {TRUE, FALSE, NULL}
    case Num(lexeme) => IsNumber(lexeme)
    case Str(items) => ItemsOk(items)
    case Arr(blank, elems) => Whitespace(blank) && (elems.Elem? ==> blank == []) && GrammaticalElems(elems)
    case Obj(blank, members) => Whitespace(blank) && (members.Member? ==> blank == []) && GrammaticalMembers(members)
  }

  ghost predicate GrammaticalElems(es: Elems) {
    match es
    case NoElems => true
    case Elem(pre, value, post, rest) =>
      Whitespace(pre) && Grammatical(value) && Whitespace(post) && GrammaticalElems(rest)
  }

  ghost predicate GrammaticalMembers(ms: Members) {
    match ms
    case NoMembers => true
    case Member(pre, key, mid, gap, value, post, rest) =>
      && Whitespace(pre) && ItemsOk(key) && Whitespace(mid) && Whitespace(gap)
      && Grammatical(value) && Whitespace(post) && GrammaticalMembers(rest)
  }

  // ----- budgets

  datatype Limits = Limits(
    maxDepth: nat, maxObjectKeys: nat, maxArrayItems: nat, maxTokens: nat,
    maxDecodedStringLength: nat, maxNumericTokenLength: nat)

  /** Source text, caller limits, and whether a number token is finite once rounded to a double. */
  datatype Doc = Doc(source: Text, limits: Limits, finite: Text -> bool)

  function Max(a: nat, b: nat): nat { if a < b then b else a }

  /** Open containers at the deepest point. */
  function Depth(v: Cst): nat {
    match v
    case Arr(_, elems) => 1 + DepthElems(elems)
    case Obj(_, members) => 1 + DepthMembers(members)
    case _ => 0
  }

  function DepthElems(es: Elems): nat {
    match es
    case NoElems => 0
    case Elem(_, value, _, rest) => Max(Depth(value), DepthElems(rest))
  }

  function DepthMembers(ms: Members): nat {
    match ms
    case NoMembers => 0
    case Member(_, _, _, _, value, _, rest) => Max(Depth(value), DepthMembers(rest))
  }

  /** Object members in the whole value. */
  function Keys(v: Cst): nat {
    match v
    case Arr(_, elems) => KeysElems(elems)
    case Obj(_, members) => KeysMembers(members)
    case _ => 0
  }

  function KeysElems(es: Elems): nat {
    match es
    case NoElems => 0
    case Elem(_, value, _, rest) => Keys(value) + KeysElems(rest)
  }

  function KeysMembers(ms: Members): nat {
    match ms
    case NoMembers => 0
    case Member(_, _, _, _, value, _, rest) => 1 + Keys(value) + KeysMembers(rest)
  }

  /** Lexical tokens, punctuation included. */
  function Tokens(v: Cst): nat {
    match v
    case Arr(_, elems) => 2 + TokensElems(elems)
    case Obj(_, members) => 2 + TokensMembers(members)
    case _ => 1
  }

  function TokensElems(es: Elems): nat {
    match es
    case NoElems => 0
    case Elem(_, value, _, rest) => Tokens(value) + (if rest.NoElems? then 0 else 1 + TokensElems(rest))
  }

  function TokensMembers(ms: Members): nat {
    match ms
    case NoMembers => 0
    case Member(_, _, _, _, value, _, rest) => 2 + Tokens(value) + (if rest.NoMembers? then 0 else 1 + TokensMembers(rest))
  }

  function Count(es: Elems): nat {
    match es case NoElems => 0 case Elem(_, _, _, rest) => 1 + Count(rest)
  }

  predicate StringFits(d: Doc, items: seq<Item>)
    requires ItemsOk(items)
  {
    |items| <= d.limits.maxDecodedStringLength && WellFormed(Decode(items))
  }

  /** Limits and semantic rules that hold value by value: strings, numbers, array sizes, distinct keys. */
  ghost predicate Fits(d: Doc, v: Cst)
    requires Grammatical(v)
  {
    match v
    case Lit(_) => true
    case Num(lexeme) => |lexeme| <= d.limits.maxNumericTokenLength && d.finite(lexeme)
    case Str(items) => StringFits(d, items)
    case Arr(_, elems) => Count(elems) <= d.limits.maxArrayItems && FitsElems(d, elems)
    case Obj(_, members) => FitsMembers(d, members, {})
  }

  ghost predicate FitsElems(d: Doc, es: Elems)
    requires GrammaticalElems(es)
  {
    match es
    case NoElems => true
    case Elem(_, value, _, rest) => Fits(d, value) && FitsElems(d, rest)
  }

  /** No decoded key repeats, given the keys already seen in the same object. */
  ghost predicate FitsMembers(d: Doc, ms: Members, seen: set<Text>)
    requires GrammaticalMembers(ms)
  {
    match ms
    case NoMembers => true
    case Member(_, key, _, _, value, _, rest) =>
      && StringFits(d, key) && Decode(key) !in seen && Fits(d, value)
      && FitsMembers(d, rest, seen + {Decode(key)})
  }

  /** JSON-text = ws value ws */
  ghost predicate Derives(d: Doc, before: Text, v: Cst, after: Text) {
    && Whitespace(before) && Grammatical(v) && Whitespace(after)
    && d.source == before + Print(v) + after
  }

  ghost predicate WithinBudget(d: Doc, v: Cst)
    requires Grammatical(v)
  {
    && Fits(d, v)
    && Depth(v) <= d.limits.maxDepth && Keys(v) <= d.limits.maxObjectKeys && Tokens(v) <= d.limits.maxTokens
  }

  /** Exactly one RFC 8259 text with distinct keys, paired surrogates, finite numbers, and all limits met. */
  ghost predicate IsBoundedJson(d: Doc) {
    exists before, v, after :: Derives(d, before, v, after) && WithinBudget(d, v)
  }
}
