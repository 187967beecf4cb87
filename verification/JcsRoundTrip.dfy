/** Canonical JSON round-trips: the printed text has one derivation, which denotes the printed value in normal form. */
module JcsRoundTrip {
  import opened CodeUnits
  import opened Wrappers
  import opened Sorting
  import opened JsonGrammar
  import opened JsonScanner
  import opened JsonSoundness
  import opened JsonUnambiguous
  import opened Jcs

  // ----- meaning

  /** The value a derivation denotes: what parsing returns for a text with distinct keys. */
  function Denote(c: Codec, v: Cst): Value
    requires ItemsDecodable(v)
  {
    match v
    case Lit(word) => if word == TRUE then Boolean(true) else if word == FALSE then Boolean(false) else Null
    case Num(lexeme) => Number(c.parse(lexeme))
    case Str(items) => String(Decode(items))
    case Arr(_, elems) => Array(DenoteElems(c, elems))
    case Obj(_, members) => Object(DenoteMembers(c, members))
  }

  function DenoteElems(c: Codec, es: Elems): seq<Value>
    requires ElemsDecodable(es)
  {
    match es case NoElems => [] case Elem(_, value, _, rest) => [Denote(c, value)] + DenoteElems(c, rest)
  }

  function DenoteMembers(c: Codec, ms: Members): seq<Field>
    requires MembersDecodable(ms)
  {
    match ms
    case NoMembers => []
    case Member(_, key, _, _, value, _, rest) => [Field(Decode(key), Denote(c, value))] + DenoteMembers(c, rest)
  }

  /** Every string of the tree has valid escapes: the part of Grammatical that decoding needs. */
  predicate ItemsDecodable(v: Cst) {
    match v
    case Str(items) => ItemsOk(items)
    case Arr(_, elems) => ElemsDecodable(elems)
    case Obj(_, members) => MembersDecodable(members)
    case _ => true
  }

  predicate ElemsDecodable(es: Elems) {
    match es case NoElems => true case Elem(_, value, _, rest) => ItemsDecodable(value) && ElemsDecodable(rest)
  }

  predicate MembersDecodable(ms: Members) {
    match ms
    case NoMembers => true
    case Member(_, key, _, _, value, _, rest) => ItemsOk(key) && ItemsDecodable(value) && MembersDecodable(rest)
  }

  lemma {:induction false} GrammaticalDecodes(v: Cst)
    requires Grammatical(v)
    ensures ItemsDecodable(v)
  {
    match v {
      case Arr(_, elems) => GrammaticalElemsDecode(elems);
      case Obj(_, members) => GrammaticalMembersDecode(members);
      case _ =>
    }
  }

  lemma {:induction false} GrammaticalElemsDecode(es: Elems)
    requires GrammaticalElems(es)
    ensures ElemsDecodable(es)
  {
    if es.Elem? { GrammaticalDecodes(es.value); GrammaticalElemsDecode(es.rest); }
  }

  lemma {:induction false} GrammaticalMembersDecode(ms: Members)
    requires GrammaticalMembers(ms)
    ensures MembersDecodable(ms)
  {
    if ms.Member? { GrammaticalDecodes(ms.value); GrammaticalMembersDecode(ms.rest); }
  }

  // ----- normal form: keys in code-unit order, one zero

  function Normal(v: Value): Value
    decreases v
  {
    match v
    case Number(x) => Number(Fold(x))
    case Array(items) => Array(NormalItems(items))
    case Object(fields) => Object(Sort(NormalFields(fields), FieldOrder()))
    case _ => v
  }

  function NormalItems(items: seq<Value>): (r: seq<Value>)
    ensures |r| == |items| && forall i :: 0 <= i < |items| ==> r[i] == Normal(items[i])
    decreases items
  {
    if items == [] then [] else [Normal(items[0])] + NormalItems(items[1..])
  }

  function NormalFields(fields: seq<Field>): (r: seq<Field>)
    ensures |r| == |fields| && forall i :: 0 <= i < |fields| ==> r[i] == Field(fields[i].key, Normal(fields[i].value))
    decreases fields
  {
    if fields == [] then [] else [Field(fields[0].key, Normal(fields[0].value))] + NormalFields(fields[1..])
  }

  function NormalField(f: Field): Field { Field(f.key, Normal(f.value)) }

  lemma NormalIsMap(fields: seq<Field>)
    ensures NormalFields(fields) == Map(NormalField, fields)
  {
    hide Normal;
    forall i | 0 <= i < |fields| ensures NormalFields(fields)[i] == Map(NormalField, fields)[i] {
      assert NormalField(fields[i]) == Field(fields[i].key, Normal(fields[i].value));
    }
  }

  lemma NormalSorts(fields: seq<Field>)
    ensures Sort(NormalFields(fields), FieldOrder()) == NormalFields(Sort(fields, FieldOrder()))
  {
    NormalIsMap(fields);
    NormalIsMap(Sort(fields, FieldOrder()));
    hide Normal;
    assert forall f :: KeyOf(NormalField(f)) == KeyOf(f);
    SortMap(NormalField, fields, FieldOrder(), FieldOrder());
  }

  lemma SortedKeys(fields: seq<Field>)
    ensures KeysOf(Sort(fields, FieldOrder())) == Sort(KeysOf(fields), ByKey((t: Text) => t))
  {
    SortMap(KeyOf, fields, FieldOrder(), ByKey((t: Text) => t));
  }

  // ----- the tree the printer prints

  function Tree(c: Codec, v: Value): Cst
    decreases v
  {
    match v
    case Null => Lit(NULL)
    case Boolean(b) => Lit(if b then TRUE else FALSE)
    case Number(x) => Num(c.format(x))
    case String(t) => Str(EscapeAll(t))
    case Array(items) => Arr([], TreeItems(c, items))
    case Object(fields) => Obj([], TreeFields(c, fields))
  }

  function TreeItems(c: Codec, items: seq<Value>): Elems
    decreases items
  {
    if items == [] then NoElems else Elem([], Tree(c, items[0]), [], TreeItems(c, items[1..]))
  }

  function TreeFields(c: Codec, fields: seq<Field>): Members
    decreases fields
  {
    if fields == [] then NoMembers
    else Member([], EscapeAll(fields[0].key), [], [], Tree(c, fields[0].value), [], TreeFields(c, fields[1..]))
  }

  lemma {:induction false} EscapesDecode(t: Text)
    ensures ItemsOk(EscapeAll(t)) && Decode(EscapeAll(t)) == t
  {
    if t != [] {
      EscapesDecode(t[1..]);
      EscapeDecodes(t[0]);
      hide EscapeUnit, DecodeItem;
      assert EscapeAll(t)[0] == EscapeUnit(t[0]) && EscapeAll(t)[1..] == EscapeAll(t[1..]);
      assert t == [t[0]] + t[1..];
    }
  }

  lemma EscapeDecodes(u: Unit)
    ensures ItemOk(EscapeUnit(u)) && DecodeItem(EscapeUnit(u)) == u
  {
    if u < 0x20 {
      HexDigit(u / 16);
      HexDigit(u % 16);
    }
  }

  lemma HexDigit(n: nat)
    requires n < 16
    ensures HexValue(HEX_DIGITS[n]) == n
  {
  }

  /** Printing v succeeds exactly on I-JSON values, and prints the tree of the normal form. */
  predicate PrintsTree(c: Codec, v: Value) {
    && (Canonical(c, v).Ok? <==> Printable(v))
    && (Printable(v) ==> Canonical(c, v).value == Print(Tree(c, Normal(v))))
  }

  lemma {:induction false} CanonicalIsPrint(c: Codec, v: Value)
    requires c.format(NEGATIVE_ZERO) == c.format(ZERO)
    ensures PrintsTree(c, v)
    decreases v
  {
    match v {
      case Array(items) =>
        forall i | 0 <= i < |items| ensures PrintsTree(c, items[i]) { CanonicalIsPrint(c, items[i]); }
        ArrayPrints(c, items);
      case Object(fields) =>
        forall i | 0 <= i < |fields| ensures PrintsTree(c, fields[i].value) { CanonicalIsPrint(c, fields[i].value); }
        ObjectPrints(c, fields);
      case _ =>
    }
  }

  lemma {:induction false} ItemsPrint(c: Codec, items: seq<Value>)
    requires forall i :: 0 <= i < |items| ==> PrintsTree(c, items[i])
    ensures var r := CanonicalItems(c, items);
            && (r.Ok? <==> forall i :: 0 <= i < |items| ==> Printable(items[i]))
            && (r.Ok? ==> Join(r.value) == PrintElems(TreeItems(c, NormalItems(items))) && |r.value| == |items|)
  {
    hide Canonical, Printable, Normal, Tree, Print;
    if items != [] {
      ItemsPrint(c, items[1..]);
      assert items == [items[0]] + items[1..];
      var r := CanonicalItems(c, items);
      if r.Ok? {
        assert r.value[1..] == CanonicalItems(c, items[1..]).value;
        assert NormalItems(items)[1..] == NormalItems(items[1..]);
        BareElem(Tree(c, Normal(items[0])), TreeItems(c, NormalItems(items[1..])));
      }
    }
  }

  lemma BareElem(v: Cst, rest: Elems)
    ensures PrintElems(Elem([], v, [], rest)) == Print(v) + (if rest.NoElems? then [] else [COMMA] + PrintElems(rest))
  {
    hide Print;
    assert [] + Print(v) + [] == Print(v);
  }

  lemma ArrayPrints(c: Codec, items: seq<Value>)
    requires forall i :: 0 <= i < |items| ==> PrintsTree(c, items[i])
    ensures PrintsTree(c, Array(items))
  {
    ItemsPrint(c, items);
    var inner := PrintElems(TreeItems(c, NormalItems(items)));
    assert [OPEN_BRACKET] + [] + inner == [OPEN_BRACKET] + inner;
  }

  predicate FieldPrintable(f: Field) { WellFormed(f.key) && Printable(f.value) }

  lemma {:induction false} FieldsPrint(c: Codec, fields: seq<Field>)
    requires forall i :: 0 <= i < |fields| ==> PrintsTree(c, fields[i].value)
    ensures var r := Collect(RenderFields(c, fields));
            && (r.Ok? <==> forall i :: 0 <= i < |fields| ==> FieldPrintable(fields[i]))
            && (r.Ok? ==> Join(r.value) == PrintMembers(TreeFields(c, NormalFields(fields))) && |r.value| == |fields|)
  {
    hide Canonical, Printable, Normal, Tree, Print, PrintString;
    if fields != [] {
      FieldsPrint(c, fields[1..]);
      assert fields == [fields[0]] + fields[1..];
      var rs := RenderFields(c, fields);
      assert rs[1..] == RenderFields(c, fields[1..]);
      var r := Collect(rs);
      if r.Ok? {
        assert r.value[1..] == Collect(rs[1..]).value;
        assert NormalFields(fields)[1..] == NormalFields(fields[1..]);
        BareMember(EscapeAll(fields[0].key), Tree(c, Normal(fields[0].value)), TreeFields(c, NormalFields(fields[1..])));
      }
    }
  }

  lemma BareMember(key: seq<Item>, v: Cst, rest: Members)
    ensures PrintMembers(Member([], key, [], [], v, [], rest))
            == PrintString(key) + [COLON] + Print(v) + (if rest.NoMembers? then [] else [COMMA] + PrintMembers(rest))
  {
    hide Print, PrintString;
    assert [] + PrintString(key) + [] + [COLON] + [] + Print(v) + [] == PrintString(key) + [COLON] + Print(v);
  }

  lemma SortedFields(fields: seq<Field>)
    ensures |Sort(fields, FieldOrder())| == |fields|
    ensures forall f :: f in Sort(fields, FieldOrder()) <==> f in fields
  {
    var sorted := Sort(fields, FieldOrder());
    SortPermutes(fields, FieldOrder());
    assert forall f :: f in sorted <==> f in multiset(sorted);
  }

  lemma SameMembers(xs: seq<Field>, ys: seq<Field>)
    requires forall f :: f in xs <==> f in ys
    ensures (forall i :: 0 <= i < |xs| ==> FieldPrintable(xs[i])) <==> (forall i :: 0 <= i < |ys| ==> FieldPrintable(ys[i]))
  {
    hide FieldPrintable;
    assert (forall f :: f in xs ==> FieldPrintable(f)) <==> (forall f :: f in ys ==> FieldPrintable(f));
  }

  lemma ObjectPrints(c: Codec, fields: seq<Field>)
    requires forall i :: 0 <= i < |fields| ==> PrintsTree(c, fields[i].value)
    ensures PrintsTree(c, Object(fields))
  {
    hide PrintsTree, Sort, Collect, RenderFields, FieldPrintable, Normal, Join;
    var sorted := Sort(fields, FieldOrder());
    SortedFields(fields);
    assert forall f :: f in fields ==> PrintsTree(c, f.value);
    FieldsPrint(c, sorted);
    SortBeforeRendering(c, fields);
    NormalSorts(fields);
    SameMembers(sorted, fields);
    ObjectAssembles(c, fields);
  }

  lemma ObjectAssembles(c: Codec, fields: seq<Field>)
    requires var sorted := Sort(fields, FieldOrder());
             var r := Collect(RenderFields(c, sorted));
             && Sort(RenderFields(c, fields), RenderedOrder()) == RenderFields(c, sorted)
             && Sort(NormalFields(fields), FieldOrder()) == NormalFields(sorted)
             && (r.Ok? <==> forall i :: 0 <= i < |fields| ==> FieldPrintable(fields[i]))
             && (r.Ok? ==> Join(r.value) == PrintMembers(TreeFields(c, NormalFields(sorted))))
    ensures PrintsTree(c, Object(fields))
  {
    hide Sort, Join, PrintMembers, Collect, RenderFields;
    var v := Object(fields);
    assert Printable(v) <==> forall i :: 0 <= i < |fields| ==> FieldPrintable(fields[i]);
    if Printable(v) {
      var inner := PrintMembers(TreeFields(c, NormalFields(Sort(fields, FieldOrder()))));
      assert [OPEN_BRACE] + [] + inner == [OPEN_BRACE] + inner;
    }
  }

  // ----- what normal forms are

  /** I-JSON with distinct keys and a single zero: the values whose printed form denotes them exactly. */
  predicate Exact(v: Value) {
    match v
    case Number(x) => IsFinite(x) && x != NEGATIVE_ZERO
    case String(t) => WellFormed(t)
    case Array(items) => forall i :: 0 <= i < |items| ==> Exact(items[i])
    case Object(fields) =>
      NoDuplicates(KeysOf(fields)) && forall i :: 0 <= i < |fields| ==> WellFormed(fields[i].key) && Exact(fields[i].value)
    case _ => true
  }

  lemma {:induction false} NormalExact(v: Value)
    requires Printable(v) && DistinctKeys(v)
    ensures Exact(Normal(v))
    decreases v
  {
    match v {
      case Array(items) =>
        forall i | 0 <= i < |items| ensures Exact(Normal(items[i])) { NormalExact(items[i]); }
      case Object(fields) =>
        forall i | 0 <= i < |fields| ensures Exact(Normal(fields[i].value)) { NormalExact(fields[i].value); }
        ObjectExact(fields);
      case _ =>
    }
  }

  lemma NormalObject(fields: seq<Field>)
    ensures Normal(Object(fields)) == Object(Sort(NormalFields(fields), FieldOrder()))
  {
  }

  lemma ExactObject(fields: seq<Field>)
    requires NoDuplicates(KeysOf(fields)) && forall f :: f in fields ==> WellFormed(f.key) && Exact(f.value)
    ensures Exact(Object(fields))
  {
  }

  lemma ObjectExact(fields: seq<Field>)
    requires NoDuplicates(KeysOf(fields))
    requires forall i :: 0 <= i < |fields| ==> WellFormed(fields[i].key) && Exact(Normal(fields[i].value))
    ensures Exact(Normal(Object(fields)))
  {
    hide WellFormed, Exact, Normal, NoDuplicates, Sort;
    var normal := NormalFields(fields);
    SortedFields(normal);
    assert KeysOf(normal) == KeysOf(fields);
    SortedKeys(normal);
    SortNoDuplicates(KeysOf(normal), ByKey((t: Text) => t));
    assert forall f :: f in normal ==> WellFormed(f.key) && Exact(f.value);
    ExactObject(Sort(normal, FieldOrder()));
    NormalObject(fields);
  }

  /** The keys of a normal object stand in strictly increasing code-unit order. */
  lemma KeysStrictlyOrdered(fields: seq<Field>)
    requires NoDuplicates(KeysOf(fields))
    ensures Normal(Object(fields)).Object?
    ensures var fs := Normal(Object(fields)).fields;
            forall i, j :: 0 <= i < j < |fs| ==> Before(fs[i].key, fs[j].key)
  {
    hide Normal, NoDuplicates, Sort;
    var normal := NormalFields(fields);
    var sorted := Sort(normal, FieldOrder());
    NormalObject(fields);
    assert KeysOf(normal) == KeysOf(fields);
    SortedKeys(normal);
    SortNoDuplicates(KeysOf(normal), ByKey((t: Text) => t));
    ByKeyPreorder(KeyOf);
    SortSorts(normal, FieldOrder());
    StrictFromDistinct(sorted);
  }

  lemma StrictFromDistinct(fields: seq<Field>)
    requires Sorted(fields, FieldOrder()) && NoDuplicates(KeysOf(fields))
    ensures forall i, j :: 0 <= i < j < |fields| ==> Before(fields[i].key, fields[j].key)
  {
    forall i, j | 0 <= i < j < |fields| ensures Before(fields[i].key, fields[j].key) {
      assert FieldOrder()(fields[i], fields[j]) && KeysOf(fields)[i] != KeysOf(fields)[j];
      assert Compare(KeyOf(fields[i]), KeyOf(fields[j])) <= 0;
      CompareZero(fields[i].key, fields[j].key);
    }
  }

  /** The printed tree is a derivation, and it denotes the value it was printed from. */
  lemma {:induction false} TreeDenotes(c: Codec, v: Value)
    requires Faithful(c) && Exact(v)
    ensures Grammatical(Tree(c, v)) && ItemsDecodable(Tree(c, v)) && Denote(c, Tree(c, v)) == v
    decreases v
  {
    match v {
      case Number(x) => assert IsNumber(c.format(x)) && c.parse(c.format(x)) == Fold(x);
      case String(t) => EscapesDecode(t);
      case Array(items) => ItemsDenote(c, items);
      case Object(fields) => FieldsDenote(c, fields);
      case _ =>
    }
  }

  lemma {:induction false} ItemsDenote(c: Codec, items: seq<Value>)
    requires Faithful(c) && forall i :: 0 <= i < |items| ==> Exact(items[i])
    ensures var es := TreeItems(c, items);
            GrammaticalElems(es) && ElemsDecodable(es) && DenoteElems(c, es) == items
    decreases items
  {
    hide Exact, Faithful;
    if items != [] {
      TreeDenotes(c, items[0]);
      ItemsDenote(c, items[1..]);
      assert items == [items[0]] + items[1..];
    }
  }

  lemma {:induction false} FieldsDenote(c: Codec, fields: seq<Field>)
    requires Faithful(c) && forall i :: 0 <= i < |fields| ==> Exact(fields[i].value)
    ensures var ms := TreeFields(c, fields);
            GrammaticalMembers(ms) && MembersDecodable(ms) && DenoteMembers(c, ms) == fields
    decreases fields
  {
    hide Exact, Faithful;
    if fields != [] {
      EscapesDecode(fields[0].key);
      TreeDenotes(c, fields[0].value);
      FieldsDenote(c, fields[1..]);
      assert fields == [fields[0]] + fields[1..];
    }
  }

  // ----- sizes: no measure of a text exceeds its length

  lemma {:induction false} ValueSizes(v: Cst)
    requires Grammatical(v)
    ensures var n := |Print(v)|; Depth(v) <= n && Keys(v) <= n && 1 <= Tokens(v) <= n
  {
    match v {
      case Arr(_, elems) => ElemsSizes(elems);
      case Obj(_, members) => MembersSizes(members);
      case _ => Production(v);
    }
  }

  lemma {:induction false} ElemsSizes(es: Elems)
    requires GrammaticalElems(es)
    ensures var n := |PrintElems(es)|; DepthElems(es) <= n && KeysElems(es) <= n && TokensElems(es) <= n && Count(es) <= n
  {
    if es.Elem? {
      hide Print;
      ValueSizes(es.value);
      ElemsSizes(es.rest);
    }
  }

  lemma {:induction false} MembersSizes(ms: Members)
    requires GrammaticalMembers(ms)
    ensures var n := |PrintMembers(ms)|; DepthMembers(ms) <= n && KeysMembers(ms) <= n && TokensMembers(ms) <= n
  {
    if ms.Member? {
      hide Print, PrintItems;
      ValueSizes(ms.value);
      MembersSizes(ms.rest);
    }
  }

  /** The scanner's document for a text, with finiteness decided by the number reader. */
  function DocOf(c: Codec, text: Text, limits: Limits): Doc {
    Doc(text, limits, t => IsFinite(c.parse(t)))
  }

  predicate AllAtLeast(l: Limits, n: nat) {
    && n <= l.maxDepth && n <= l.maxObjectKeys && n <= l.maxArrayItems && n <= l.maxTokens
    && n <= l.maxDecodedStringLength && n <= l.maxNumericTokenLength
  }

  lemma {:induction false} ItemsSize(t: Text)
    ensures |EscapeAll(t)| == |t| <= |PrintItems(EscapeAll(t))|
  {
    if t != [] {
      hide EscapeUnit;
      ItemsSize(t[1..]);
      assert EscapeAll(t)[1..] == EscapeAll(t[1..]);
    }
  }

  lemma StringTreeFits(d: Doc, t: Text)
    requires WellFormed(t) && |PrintString(EscapeAll(t))| <= d.limits.maxDecodedStringLength
    ensures ItemsOk(EscapeAll(t)) && Decode(EscapeAll(t)) == t && StringFits(d, EscapeAll(t))
  {
    EscapesDecode(t);
    ItemsSize(t);
  }

  lemma {:induction false} TreeFits(c: Codec, d: Doc, v: Value)
    requires Faithful(c) && Exact(v) && d.finite == DocOf(c, [], d.limits).finite
    requires AllAtLeast(d.limits, |Print(Tree(c, v))|)
    ensures Grammatical(Tree(c, v)) && Fits(d, Tree(c, v))
    decreases v
  {
    TreeDenotes(c, v);
    match v {
      case Number(x) => assert c.parse(c.format(x)) == Fold(x);
      case String(t) => StringTreeFits(d, t);
      case Array(items) => ElemsSizes(TreeItems(c, items)); ItemsFit(c, d, items);
      case Object(fields) => FieldsFit(c, d, fields, {});
      case _ =>
    }
  }

  lemma {:induction false} ItemsFit(c: Codec, d: Doc, items: seq<Value>)
    requires Faithful(c) && (forall i :: 0 <= i < |items| ==> Exact(items[i])) && d.finite == DocOf(c, [], d.limits).finite
    requires AllAtLeast(d.limits, |PrintElems(TreeItems(c, items))|)
    ensures GrammaticalElems(TreeItems(c, items)) && FitsElems(d, TreeItems(c, items))
    decreases items
  {
    hide Exact, Faithful, Print, DocOf;
    ItemsDenote(c, items);
    if items != [] {
      TreeFits(c, d, items[0]);
      ItemsFit(c, d, items[1..]);
    }
  }

  lemma RestDistinct(fields: seq<Field>)
    requires fields != [] && NoDuplicates(KeysOf(fields))
    ensures NoDuplicates(KeysOf(fields[1..])) && forall i :: 0 <= i < |fields| - 1 ==> fields[1..][i].key != fields[0].key
  {
    var ks := KeysOf(fields);
    assert KeysOf(fields[1..]) == ks[1..];
    forall i | 0 <= i < |fields| - 1 ensures fields[1..][i].key != fields[0].key {
      assert ks[i + 1] != ks[0];
    }
  }

  lemma {:induction false} FieldsFit(c: Codec, d: Doc, fields: seq<Field>, seen: set<Text>)
    requires Faithful(c) && d.finite == DocOf(c, [], d.limits).finite && NoDuplicates(KeysOf(fields))
    requires forall i :: 0 <= i < |fields| ==> WellFormed(fields[i].key) && Exact(fields[i].value) && fields[i].key !in seen
    requires AllAtLeast(d.limits, |PrintMembers(TreeFields(c, fields))|)
    ensures GrammaticalMembers(TreeFields(c, fields)) && FitsMembers(d, TreeFields(c, fields), seen)
    decreases fields
  {
    hide Exact, Faithful, Print, PrintItems, DocOf, WellFormed, StringFits, NoDuplicates;
    FieldsDenote(c, fields);
    if fields != [] {
      StringTreeFits(d, fields[0].key);
      TreeFits(c, d, fields[0].value);
      RestDistinct(fields);
      FieldsFit(c, d, fields[1..], seen + {fields[0].key});
    }
  }

  // ----- main results

  lemma PrintedText(c: Codec, v: Value)
    requires Faithful(c) && DistinctKeys(v) && Canonical(c, v).Ok?
    ensures Printable(v) && Exact(Normal(v)) && Canonical(c, v).value == Print(Tree(c, Normal(v)))
    ensures Grammatical(Tree(c, Normal(v))) && ItemsDecodable(Tree(c, Normal(v)))
    ensures Denote(c, Tree(c, Normal(v))) == Normal(v)
  {
    CanonicalIsPrint(c, v);
    NormalExact(v);
    TreeDenotes(c, Normal(v));
  }

  lemma BareText(d: Doc, t: Cst)
    requires Grammatical(t) && d.source == Print(t)
    ensures Derives(d, [], t, [])
  {
    assert [] + Print(t) + [] == Print(t);
  }

  /** parse(print(v)) is v up to key order and negative zero: every derivation of the text denotes the normal form. */
  lemma RoundTrip(c: Codec, v: Value, limits: Limits)
    requires Faithful(c) && DistinctKeys(v) && Canonical(c, v).Ok?
    ensures var d := DocOf(c, Canonical(c, v).value, limits);
            && Derives(d, [], Tree(c, Normal(v)), [])
            && forall before, t, after :: Derives(d, before, t, after) ==>
                 before == [] && after == [] && ItemsDecodable(t) && Denote(c, t) == Normal(v)
  {
    hide Denote, Tree, Normal, Canonical;
    var d := DocOf(c, Canonical(c, v).value, limits);
    PrintedText(c, v);
    var tree := Tree(c, Normal(v));
    BareText(d, tree);
    forall before, t, after | Derives(d, before, t, after)
      ensures before == [] && after == [] && t == tree
    {
      DerivationUnique(d, before, t, after, [], tree, []);
    }
  }

  /** Equal output means equal value, and nothing but key order and the sign of zero is forgotten. */
  lemma EqualTextEqualValue(c: Codec, v: Value, w: Value)
    requires Faithful(c) && DistinctKeys(v) && DistinctKeys(w) && Canonical(c, v).Ok? && Canonical(c, w).Ok?
    ensures Canonical(c, v) == Canonical(c, w) <==> Normal(v) == Normal(w)
  {
    hide Denote, Tree, Normal, Canonical;
    PrintedText(c, v);
    PrintedText(c, w);
    if Canonical(c, v) == Canonical(c, w) {
      var d := DocOf(c, Canonical(c, v).value, Limits(0, 0, 0, 0, 0, 0));
      BareText(d, Tree(c, Normal(v)));
      BareText(d, Tree(c, Normal(w)));
      DerivationUnique(d, [], Tree(c, Normal(v)), [], [], Tree(c, Normal(w)), []);
    }
  }

  /** The bounded scanner accepts a printed value exactly within its budget; limits of the text's length suffice. */
  lemma ScannerAcceptsPrinted(c: Codec, v: Value, limits: Limits)
    requires Faithful(c) && DistinctKeys(v) && Canonical(c, v).Ok?
    ensures Grammatical(Tree(c, Normal(v)))
    ensures var d := DocOf(c, Canonical(c, v).value, limits);
            && (Validate(d).Ok? <==> WithinBudget(d, Tree(c, Normal(v))))
            && (AllAtLeast(limits, |d.source|) ==> Validate(d).Ok?)
  {
    hide Denote, Tree, Normal, Canonical, Validate, Fits, Depth, Keys, Tokens;
    var d := DocOf(c, Canonical(c, v).value, limits);
    PrintedText(c, v);
    var tree := Tree(c, Normal(v));
    BareText(d, tree);
    VerdictByDerivation(d, [], tree, []);
    if AllAtLeast(limits, |d.source|) {
      SameFinite(c, d.source, limits);
      TreeFits(c, d, Normal(v));
      ValueSizes(tree);
    }
  }

  lemma SameFinite(c: Codec, text: Text, limits: Limits)
    ensures DocOf(c, text, limits).finite == DocOf(c, [], limits).finite
  {
  }

  /** Insertion order of the fields never shows, in output or error. */
  lemma FieldOrderForgotten(c: Codec, fs: seq<Field>, gs: seq<Field>)
    requires multiset(fs) == multiset(gs) && NoDuplicates(KeysOf(fs))
    ensures Canonical(c, Object(fs)) == Canonical(c, Object(gs)) && Normal(Object(fs)) == Normal(Object(gs))
  {
    hide Sort, Canonical, Normal, NoDuplicates;
    ByKeyPreorder(KeyOf);
    KeysTellApart(fs);
    ByKeyDistinguishes(KeyOf, fs);
    SortForgetsOrder(fs, gs, FieldOrder());
    SortedDecides(c, fs, gs);
  }

  lemma SortedDecides(c: Codec, fs: seq<Field>, gs: seq<Field>)
    requires Sort(fs, FieldOrder()) == Sort(gs, FieldOrder())
    ensures Canonical(c, Object(fs)) == Canonical(c, Object(gs)) && Normal(Object(fs)) == Normal(Object(gs))
  {
    hide Sort, RenderFields, Collect, Join, NormalFields;
    SortBeforeRendering(c, fs);
    SortBeforeRendering(c, gs);
    NormalSorts(fs);
    NormalSorts(gs);
  }

  lemma KeysTellApart(fs: seq<Field>)
    requires NoDuplicates(KeysOf(fs))
    ensures forall a, b :: a in fs && b in fs && KeyOf(a) == KeyOf(b) ==> a == b
  {
    forall a, b | a in fs && b in fs && KeyOf(a) == KeyOf(b) ensures a == b {
      var i :| 0 <= i < |fs| && fs[i] == a;
      var j :| 0 <= j < |fs| && fs[j] == b;
      assert KeysOf(fs)[i] == KeysOf(fs)[j];
    }
  }

  lemma {:induction false} NormalIdempotent(v: Value)
    ensures Normal(Normal(v)) == Normal(v)
    decreases v
  {
    match v {
      case Array(items) =>
        forall i | 0 <= i < |items| ensures Normal(Normal(items[i])) == Normal(items[i]) { NormalIdempotent(items[i]); }
        assert NormalItems(NormalItems(items)) == NormalItems(items);
      case Object(fields) =>
        forall i | 0 <= i < |fields| ensures Normal(Normal(fields[i].value)) == Normal(fields[i].value) {
          NormalIdempotent(fields[i].value);
        }
        NormalTwice(fields);
      case _ =>
    }
  }

  lemma NormalTwice(fields: seq<Field>)
    requires forall i :: 0 <= i < |fields| ==> Normal(Normal(fields[i].value)) == Normal(fields[i].value)
    ensures Normal(Normal(Object(fields))) == Normal(Object(fields))
  {
    hide Normal, Sort;
    var normal := NormalFields(fields);
    NormalObject(fields);
    NormalObject(Sort(normal, FieldOrder()));
    NormalSorts(normal);
    assert NormalFields(normal) == normal;
    ByKeyPreorder(KeyOf);
    SortSorts(normal, FieldOrder());
    SortOfSorted(Sort(normal, FieldOrder()), FieldOrder());
  }

  /** Printing what a canonical text denotes gives the same text back. */
  lemma ReprintIsFixed(c: Codec, v: Value)
    requires Faithful(c) && DistinctKeys(v) && Canonical(c, v).Ok?
    ensures ItemsDecodable(Tree(c, Normal(v)))
    ensures Canonical(c, Denote(c, Tree(c, Normal(v)))) == Canonical(c, v)
  {
    hide Canonical, Normal, Tree, Denote;
    PrintedText(c, v);
    NormalIdempotent(v);
    CanonicalIsPrint(c, Normal(v));
    ExactPrints(Normal(v));
  }

  lemma {:induction false} ExactPrints(v: Value)
    requires Exact(v)
    ensures Printable(v)
    decreases v
  {
    match v {
      case Array(items) => forall i | 0 <= i < |items| ensures Printable(items[i]) { ExactPrints(items[i]); }
      case Object(fields) => forall i | 0 <= i < |fields| ensures Printable(fields[i].value) { ExactPrints(fields[i].value); }
      case _ =>
    }
  }

  // ----- what the bounded parser returns can be printed

  lemma {:induction false} ParsedPrints(c: Codec, d: Doc, v: Cst)
    requires Grammatical(v) && Fits(d, v) && d.finite == DocOf(c, [], d.limits).finite
    ensures ItemsDecodable(v) && Printable(Denote(c, v)) && DistinctKeys(Denote(c, v))
  {
    GrammaticalDecodes(v);
    match v {
      case Arr(_, elems) => ParsedElems(c, d, elems);
      case Obj(_, members) => ParsedMembers(c, d, members, {});
      case _ =>
    }
  }

  lemma {:induction false} ParsedElems(c: Codec, d: Doc, es: Elems)
    requires GrammaticalElems(es) && FitsElems(d, es) && d.finite == DocOf(c, [], d.limits).finite
    ensures ElemsDecodable(es)
    ensures forall i :: 0 <= i < |DenoteElems(c, es)| ==>
              Printable(DenoteElems(c, es)[i]) && DistinctKeys(DenoteElems(c, es)[i])
  {
    hide Printable, DistinctKeys, DocOf;
    if es.Elem? { ParsedPrints(c, d, es.value); ParsedElems(c, d, es.rest); }
  }

  lemma {:induction false} ParsedMembers(c: Codec, d: Doc, ms: Members, seen: set<Text>)
    requires GrammaticalMembers(ms) && FitsMembers(d, ms, seen) && d.finite == DocOf(c, [], d.limits).finite
    ensures MembersDecodable(ms)
    ensures var fs := DenoteMembers(c, ms);
            && NoDuplicates(KeysOf(fs))
            && forall i :: 0 <= i < |fs| ==>
                 fs[i].key !in seen && WellFormed(fs[i].key) && Printable(fs[i].value) && DistinctKeys(fs[i].value)
  {
    hide Printable, DistinctKeys, DocOf, WellFormed;
    if ms.Member? {
      ParsedPrints(c, d, ms.value);
      ParsedMembers(c, d, ms.rest, seen + {Decode(ms.key)});
    }
  }

  /** Every text the bounded scanner accepts denotes a value that canonicalizes. */
  lemma AcceptedCanonicalizes(c: Codec, text: Text, limits: Limits) returns (t: Cst)
    requires Faithful(c) && Validate(DocOf(c, text, limits)).Ok?
    ensures exists before, after :: Derives(DocOf(c, text, limits), before, t, after)
    ensures ItemsDecodable(t) && DistinctKeys(Denote(c, t)) && Canonical(c, Denote(c, t)).Ok?
  {
    hide Validate, Canonical, Denote, Printable, DistinctKeys;
    var d := DocOf(c, text, limits);
    ScannerDecides(d);
    var before, v, after :| Derives(d, before, v, after) && WithinBudget(d, v);
    t := v;
    SameFinite(c, text, limits);
    ParsedPrints(c, d, v);
    CanonicalIsPrint(c, Denote(c, v));
  }
}
