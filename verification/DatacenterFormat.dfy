/** The binary format of a datacenter: what is written for each entity, and that loading it gives the
    entity back. */
module DatacenterFormat {
  import opened Arithmetic
  import opened Wrappers
  import opened ByteStreams
  import opened Serialization

  const INVALID_INDEX := 0xFFFF
  const INVALID_STRING := 0xFFFF_FFFF

  type u16 = x: int | 0 <= x < 0x1_0000
  type u32 = x: int | 0 <= x < 0x1_0000_0000
  type i16 = x: int | -0x8000 <= x < 0x8000

  /** A block and a position in it. */
  datatype Indices = Indices(first: u16, second: u16)

  const INVALID: Indices := Indices(INVALID_INDEX, INVALID_INDEX)

  datatype Attribute = Attribute(name: u32, value: Indices)

  datatype Element = Element(
    name: u32, attributesCount: u16, attributeIndices: Indices,
    childrenCount: u16, childrenIndices: Indices, valueIndices: Indices)

  /** `text` has the block's total size; its first `used` characters are in use. */
  datatype StringBlock = StringBlock(used: u16, text: seq<u16>)

  datatype StringMap = StringMap(blocks: seq<StringBlock>, entries: seq<Indices>)

  datatype Datacenter = Datacenter(
    version: u32, formatVersion: u32, language: i16,
    attributes: seq<BlockArray<Attribute>>, elements: seq<BlockArray<Element>>,
    values: StringMap, names: StringMap)

  // ---- fields

  function EncodeIndices(i: Indices): seq<byte> {
    Bytes(i.first, 2) + Bytes(i.second, 2)
  }

  function DecodeU16(buf: seq<byte>, pos: nat): Option<(u16, nat)> {
    PowerOf2And4();
    match ValueAt(buf, pos, 2)
    case None => None
    case Some((n, end)) => Some((n, end))
  }

  function DecodeU32(buf: seq<byte>, pos: nat): Option<(u32, nat)> {
    PowerOf2And4();
    match ValueAt(buf, pos, 4)
    case None => None
    case Some((n, end)) => Some((n, end))
  }

  lemma U16ReadsBack(buf: seq<byte>, pos: nat, n: u16)
    requires At(buf, pos, Bytes(n, 2))
    ensures DecodeU16(buf, pos) == Some((n, pos + 2))
  {
    PowerOf2And4();
    ReadsBack(buf, pos, n, 2);
  }

  lemma U32ReadsBack(buf: seq<byte>, pos: nat, n: u32)
    requires At(buf, pos, Bytes(n, 4))
    ensures DecodeU32(buf, pos) == Some((n, pos + 4))
  {
    PowerOf2And4();
    ReadsBack(buf, pos, n, 4);
  }

  function DecodeIndices(buf: seq<byte>, pos: nat): Option<(Indices, nat)> {
    match DecodeU16(buf, pos)
    case None => None
    case Some((first, p)) =>
      match DecodeU16(buf, p)
      case None => None
      case Some((second, end)) => Some((Indices(first, second), end))
  }

  lemma IndicesReadBack(buf: seq<byte>, pos: nat, i: Indices)
    requires At(buf, pos, EncodeIndices(i))
    ensures DecodeIndices(buf, pos) == Some((i, pos + 4))
  {
    AtConcat(buf, pos, Bytes(i.first, 2), Bytes(i.second, 2));
    U16ReadsBack(buf, pos, i.first);
    U16ReadsBack(buf, pos + 2, i.second);
  }

  // ---- attributes and elements

  function EncodeAttribute(a: Attribute): seq<byte> {
    Bytes(a.name, 4) + EncodeIndices(a.value)
  }

  function DecodeAttribute(buf: seq<byte>, pos: nat): Option<(Attribute, nat)> {
    match DecodeU32(buf, pos)
    case None => None
    case Some((name, p)) =>
      match DecodeIndices(buf, p)
      case None => None
      case Some((value, end)) => Some((Attribute(name, value), end))
  }

  function EncodeElement(e: Element): seq<byte> {
    Bytes(e.name, 4) + (EncodeIndices(e.valueIndices) + (Bytes(e.attributesCount, 2) + (EncodeIndices(e.attributeIndices)
    + (Bytes(e.childrenCount, 2) + EncodeIndices(e.childrenIndices)))))
  }

  function DecodeElement(buf: seq<byte>, pos: nat): Option<(Element, nat)> {
    match DecodeU32(buf, pos)
    case None => None
    case Some((name, p1)) =>
      match DecodeIndices(buf, p1)
      case None => None
      case Some((value, p2)) =>
        match DecodeU16(buf, p2)
        case None => None
        case Some((attributesCount, p3)) =>
          match DecodeIndices(buf, p3)
          case None => None
          case Some((attributes, p4)) =>
            match DecodeU16(buf, p4)
            case None => None
            case Some((childrenCount, p5)) =>
              match DecodeIndices(buf, p5)
              case None => None
              case Some((children, end)) =>
                Some((Element(name, attributesCount, attributes, childrenCount, children, value), end))
  }

  const AttributeCodec: Codec<Attribute> := Codec((a: Attribute) => EncodeAttribute(a), (buf: seq<byte>, pos: nat) => DecodeAttribute(buf, pos))
  const ElementCodec: Codec<Element> := Codec((e: Element) => EncodeElement(e), (buf: seq<byte>, pos: nat) => DecodeElement(buf, pos))

  /** `GetAttributeSerialSize` and `GetElementSerialSize`: the sums of the sizes of the fields. */
  const ATTRIBUTE_SIZE := 4 + 4
  const ELEMENT_SIZE := 4 + 4 + 2 + 4 + 2 + 4

  const AttributeLayout: Layout<Attribute> := Layout(AttributeCodec, ATTRIBUTE_SIZE, Attribute(INVALID_STRING, INVALID))
  const ElementLayout: Layout<Element> := Layout(ElementCodec, ELEMENT_SIZE, Element(INVALID_STRING, 0, INVALID, 0, INVALID, INVALID))

  /** The declared serial sizes are the sizes that are written. */
  lemma DeclaredSizesAreTrue(as_: seq<Attribute>, es: seq<Element>)
    ensures SizeIsTrue(AttributeLayout, as_) && SizeIsTrue(ElementLayout, es)
  {
  }

  lemma AttributeInverts(a: Attribute)
    ensures Inverts(AttributeCodec, a, 0)
  {
    forall buf: seq<byte>, pos: nat | |buf| < LIMIT && At(buf, pos, EncodeAttribute(a))
      ensures DecodeAttribute(buf, pos) == Some((a, pos + |EncodeAttribute(a)|))
    {
      AtConcat(buf, pos, Bytes(a.name, 4), EncodeIndices(a.value));
      U32ReadsBack(buf, pos, a.name);
      IndicesReadBack(buf, pos + 4, a.value);
    }
  }

  lemma ElementReadsBack(buf: seq<byte>, pos: nat, e: Element)
    requires At(buf, pos, EncodeElement(e))
    ensures DecodeElement(buf, pos) == Some((e, pos + 20))
  {
    hide DecodeU16, DecodeU32, DecodeIndices, EncodeIndices;
    assert |EncodeIndices(e.valueIndices)| == 4 && |EncodeIndices(e.attributeIndices)| == 4 by { IndicesSize(); }
    var f5 := Bytes(e.childrenCount, 2) + EncodeIndices(e.childrenIndices);
    var f4 := EncodeIndices(e.attributeIndices) + f5;
    var f3 := Bytes(e.attributesCount, 2) + f4;
    var f2 := EncodeIndices(e.valueIndices) + f3;
    AtConcat(buf, pos, Bytes(e.name, 4), f2);
    AtConcat(buf, pos + 4, EncodeIndices(e.valueIndices), f3);
    AtConcat(buf, pos + 8, Bytes(e.attributesCount, 2), f4);
    AtConcat(buf, pos + 10, EncodeIndices(e.attributeIndices), f5);
    AtConcat(buf, pos + 14, Bytes(e.childrenCount, 2), EncodeIndices(e.childrenIndices));
    U32ReadsBack(buf, pos, e.name);
    IndicesReadBack(buf, pos + 4, e.valueIndices);
    U16ReadsBack(buf, pos + 8, e.attributesCount);
    IndicesReadBack(buf, pos + 10, e.attributeIndices);
    U16ReadsBack(buf, pos + 14, e.childrenCount);
    IndicesReadBack(buf, pos + 16, e.childrenIndices);
  }

  lemma IndicesSize()
    ensures forall i :: |EncodeIndices(i)| == 4
  {
  }

  lemma ElementInverts(e: Element)
    ensures Inverts(ElementCodec, e, 0)
  {
    hide DecodeElement;
    forall buf: seq<byte>, pos: nat | |buf| < LIMIT && At(buf, pos, EncodeElement(e))
      ensures DecodeElement(buf, pos) == Some((e, pos + |EncodeElement(e)|))
    {
      ElementReadsBack(buf, pos, e);
    }
  }

  // ---- strings

  const CharCodec: Codec<u16> := Codec((c: u16) => Bytes(c, 2), (buf: seq<byte>, pos: nat) => DecodeU16(buf, pos))
  const IndicesCodec: Codec<Indices> := Codec((i: Indices) => EncodeIndices(i), (buf: seq<byte>, pos: nat) => DecodeIndices(buf, pos))

  function EncodeStringBlock(b: StringBlock): seq<byte> {
    Bytes(|b.text|, 2) + (Bytes(b.used, 2) + EncodeAll(CharCodec, b.text))
  }

  function DecodeStringBlock(buf: seq<byte>, pos: nat): Option<(StringBlock, nat)> {
    match DecodeU16(buf, pos)
    case None => None
    case Some((total, p)) =>
      match DecodeU16(buf, p)
      case None => None
      case Some((used, q)) =>
        match DecodeAll(CharCodec, buf, q, total)
        case None => None
        case Some((text, end)) => Some((StringBlock(used, text), end))
  }

  const StringBlockCodec: Codec<StringBlock> :=
    Codec((b: StringBlock) => EncodeStringBlock(b), (buf: seq<byte>, pos: nat) => DecodeStringBlock(buf, pos))

  predicate StringBlockOk(b: StringBlock) {
    0 < |b.text| < 0x1_0000
  }

  lemma CharInverts(c: u16)
    ensures Inverts(CharCodec, c, 0)
  {
    forall buf: seq<byte>, pos: nat | |buf| < LIMIT && At(buf, pos, Bytes(c, 2)) ensures DecodeU16(buf, pos) == Some((c, pos + 2)) {
      U16ReadsBack(buf, pos, c);
    }
  }

  lemma IndicesInvert(i: Indices)
    ensures Inverts(IndicesCodec, i, 0)
  {
    forall buf: seq<byte>, pos: nat | |buf| < LIMIT && At(buf, pos, EncodeIndices(i)) ensures DecodeIndices(buf, pos) == Some((i, pos + 4)) {
      IndicesReadBack(buf, pos, i);
    }
  }

  lemma StringBlockReadsBack(b: StringBlock, buf: seq<byte>, pos: nat)
    requires StringBlockOk(b) && |buf| < LIMIT && At(buf, pos, EncodeStringBlock(b))
    ensures DecodeStringBlock(buf, pos) == Some((b, pos + |EncodeStringBlock(b)|))
  {
    hide At, DecodeU16, EncodeAll, DecodeAll, Inverts;
    AtConcat(buf, pos, Bytes(|b.text|, 2), Bytes(b.used, 2) + EncodeAll(CharCodec, b.text));
    AtConcat(buf, pos + 2, Bytes(b.used, 2), EncodeAll(CharCodec, b.text));
    U16ReadsBack(buf, pos, |b.text|);
    U16ReadsBack(buf, pos + 2, b.used);
    AtFits(buf, pos + 4, EncodeAll(CharCodec, b.text));
    forall c | c in b.text ensures Inverts(CharCodec, c, 0) {
      CharInverts(c);
    }
    AllReadBack(CharCodec, b.text, 0, buf, pos + 4);
  }

  lemma StringBlockInverts(b: StringBlock)
    requires StringBlockOk(b)
    ensures Inverts(StringBlockCodec, b, 0)
  {
    forall buf: seq<byte>, pos: nat | |buf| < LIMIT && At(buf, pos, EncodeStringBlock(b))
      ensures DecodeStringBlock(buf, pos) == Some((b, pos + |EncodeStringBlock(b)|))
    {
      StringBlockReadsBack(b, buf, pos);
    }
  }

  function EncodeStringMap(m: StringMap): seq<byte> {
    EncodeArray(StringBlockCodec, m.blocks) + EncodeArray(IndicesCodec, m.entries)
  }

  function DecodeStringMap(buf: seq<byte>, pos: nat): Option<(StringMap, nat)> {
    match DecodeArray(StringBlockCodec, buf, pos)
    case None => None
    case Some((blocks, p)) =>
      match DecodeArray(IndicesCodec, buf, p)
      case None => None
      case Some((entries, end)) => Some((StringMap(blocks, entries), end))
  }

  predicate StringMapOk(m: StringMap) {
    |m.blocks| < LIMIT && |m.entries| < LIMIT && forall b :: b in m.blocks ==> StringBlockOk(b)
  }

  lemma AtFits(buf: seq<byte>, pos: nat, bs: seq<byte>)
    requires At(buf, pos, bs)
    ensures pos + |bs| <= |buf|
  {
  }

  lemma StringMapReadsBack(m: StringMap, buf: seq<byte>, pos: nat)
    requires StringMapOk(m) && |buf| < LIMIT && At(buf, pos, EncodeStringMap(m))
    ensures DecodeStringMap(buf, pos) == Some((m, pos + |EncodeStringMap(m)|))
  {
    hide At, EncodeArray, DecodeArray, EncodeStringBlock, DecodeStringBlock, EncodeIndices, DecodeIndices, Inverts;
    AtConcat(buf, pos, EncodeArray(StringBlockCodec, m.blocks), EncodeArray(IndicesCodec, m.entries));
    AtFits(buf, pos, EncodeArray(StringBlockCodec, m.blocks));
    AtFits(buf, pos + |EncodeArray(StringBlockCodec, m.blocks)|, EncodeArray(IndicesCodec, m.entries));
    forall b | b in m.blocks ensures Inverts(StringBlockCodec, b, 0) {
      StringBlockInverts(b);
    }
    forall i | i in m.entries ensures Inverts(IndicesCodec, i, 0) {
      IndicesInvert(i);
    }
    ArrayReadsBack(StringBlockCodec, m.blocks, 0, buf, pos);
    ArrayReadsBack(IndicesCodec, m.entries, 0, buf, pos + |EncodeArray(StringBlockCodec, m.blocks)|);
  }

  // ---- the datacenter

  /** The two's complement of a language. */
  function Unsigned(n: i16): u16 {
    if n < 0 then n + 0x1_0000 else n
  }

  function Signed(n: u16): i16 {
    if n >= 0x8000 then n - 0x1_0000 else n
  }

  const AttributesCodec := BlockArrayCodec(AttributeLayout)
  const ElementsCodec := BlockArrayCodec(ElementLayout)

  function EncodeHeader(d: Datacenter): seq<byte> {
    Bytes(d.version, 4) + (Bytes(d.formatVersion, 4) + Bytes(Unsigned(d.language), 2))
  }

  function EncodeBody(d: Datacenter): seq<byte> {
    EncodeArray(AttributesCodec, d.attributes)
    + (EncodeArray(ElementsCodec, d.elements) + (EncodeStringMap(d.values) + EncodeStringMap(d.names)))
  }

  function Encode(d: Datacenter): seq<byte> {
    EncodeHeader(d) + EncodeBody(d)
  }

  function DecodeHeader(buf: seq<byte>, pos: nat): Option<((u32, u32, i16), nat)> {
    match DecodeU32(buf, pos)
    case None => None
    case Some((version, p)) =>
      match DecodeU32(buf, p)
      case None => None
      case Some((formatVersion, q)) =>
        match DecodeU16(buf, q)
        case None => None
        case Some((language, end)) => Some(((version, formatVersion, Signed(language)), end))
  }

  function Decode(buf: seq<byte>, pos: nat): Option<(Datacenter, nat)> {
    match DecodeHeader(buf, pos)
    case None => None
    case Some((header, p1)) =>
      match DecodeArray(AttributesCodec, buf, p1)
      case None => None
      case Some((attributes, p2)) =>
        match DecodeArray(ElementsCodec, buf, p2)
        case None => None
        case Some((elements, p3)) =>
          match DecodeStringMap(buf, p3)
          case None => None
          case Some((values, p4)) =>
            match DecodeStringMap(buf, p4)
            case None => None
            case Some((names, end)) =>
              Some((Datacenter(header.0, header.1, header.2, attributes, elements, values, names), end))
  }

  /** What the types and the assertions of the original demand of a datacenter that is saved. */
  ghost predicate WellFormed(d: Datacenter) {
    && |d.attributes| < LIMIT && |d.elements| < LIMIT
    && (forall b :: b in d.attributes ==> |b.items| <= b.capacity < LIMIT)
    && (forall b :: b in d.elements ==> |b.items| <= b.capacity < LIMIT)
    && StringMapOk(d.values) && StringMapOk(d.names)
  }

  lemma HeaderReadsBack(d: Datacenter, buf: seq<byte>, pos: nat)
    requires At(buf, pos, EncodeHeader(d))
    ensures DecodeHeader(buf, pos) == Some(((d.version, d.formatVersion, d.language), pos + 10))
  {
    AtConcat(buf, pos, Bytes(d.version, 4), Bytes(d.formatVersion, 4) + Bytes(Unsigned(d.language), 2));
    AtConcat(buf, pos + 4, Bytes(d.formatVersion, 4), Bytes(Unsigned(d.language), 2));
    U32ReadsBack(buf, pos, d.version);
    U32ReadsBack(buf, pos + 4, d.formatVersion);
    U16ReadsBack(buf, pos + 8, Unsigned(d.language));
  }

  lemma AttributeBlockInverts(d: Datacenter, b: BlockArray<Attribute>)
    requires WellFormed(d) && b in d.attributes
    ensures Inverts(AttributesCodec, b, 1)
  {
    hide Inverts;
    forall a | a in b.items ensures Inverts(AttributeCodec, a, 0) {
      AttributeInverts(a);
    }
    BlockArrayInverts(AttributeLayout, b);
  }

  lemma ElementBlockInverts(d: Datacenter, b: BlockArray<Element>)
    requires WellFormed(d) && b in d.elements
    ensures Inverts(ElementsCodec, b, 1)
  {
    hide Inverts;
    forall e | e in b.items ensures Inverts(ElementCodec, e, 0) {
      ElementInverts(e);
    }
    BlockArrayInverts(ElementLayout, b);
  }

  lemma AttributesReadBack(d: Datacenter, buf: seq<byte>, pos: nat)
    requires WellFormed(d) && |buf| < LIMIT && At(buf, pos, EncodeArray(AttributesCodec, d.attributes))
    requires pos + |EncodeArray(AttributesCodec, d.attributes)| < |buf|
    ensures DecodeArray(AttributesCodec, buf, pos) == Some((d.attributes, pos + |EncodeArray(AttributesCodec, d.attributes)|))
  {
    hide At, Inverts, EncodeArray, DecodeArray;
    forall b | b in d.attributes ensures Inverts(AttributesCodec, b, 1) {
      AttributeBlockInverts(d, b);
    }
    ArrayReadsBack(AttributesCodec, d.attributes, 1, buf, pos);
  }

  lemma ElementsReadBack(d: Datacenter, buf: seq<byte>, pos: nat)
    requires WellFormed(d) && |buf| < LIMIT && At(buf, pos, EncodeArray(ElementsCodec, d.elements))
    requires pos + |EncodeArray(ElementsCodec, d.elements)| < |buf|
    ensures DecodeArray(ElementsCodec, buf, pos) == Some((d.elements, pos + |EncodeArray(ElementsCodec, d.elements)|))
  {
    hide At, Inverts, EncodeArray, DecodeArray;
    forall b | b in d.elements ensures Inverts(ElementsCodec, b, 1) {
      ElementBlockInverts(d, b);
    }
    ArrayReadsBack(ElementsCodec, d.elements, 1, buf, pos);
  }

  /** Every well-formed datacenter that was saved anywhere in a buffer, up to its very end, is loaded
      from there unchanged: versions, language, capacities and items of all block arrays, string
      blocks and entries; and exactly the bytes that were written are consumed. */
  lemma LoadsWhatWasSaved(d: Datacenter, buf: seq<byte>, pos: nat)
    requires WellFormed(d) && |buf| < LIMIT && At(buf, pos, Encode(d))
    ensures Decode(buf, pos) == Some((d, pos + |Encode(d)|))
  {
    hide At, EncodeHeader, DecodeHeader, EncodeArray, DecodeArray, EncodeStringMap, DecodeStringMap, WellFormed;
    var as_, es, vs, ns := EncodeArray(AttributesCodec, d.attributes), EncodeArray(ElementsCodec, d.elements),
      EncodeStringMap(d.values), EncodeStringMap(d.names);
    AtConcat(buf, pos, EncodeHeader(d), EncodeBody(d));
    HeaderReadsBack(d, buf, pos);
    var p1 := pos + |EncodeHeader(d)|;
    Sizes(d);
    AtConcat(buf, p1, as_, es + (vs + ns));
    AtConcat(buf, p1 + |as_|, es, vs + ns);
    AtConcat(buf, p1 + |as_| + |es|, vs, ns);
    AtFits(buf, p1 + |as_| + |es|, vs);
    AttributesReadBack(d, buf, p1);
    ElementsReadBack(d, buf, p1 + |as_|);
    MapsAreOk(d);
    StringMapReadsBack(d.values, buf, p1 + |as_| + |es|);
    StringMapReadsBack(d.names, buf, p1 + |as_| + |es| + |vs|);
  }

  lemma Sizes(d: Datacenter)
    ensures |EncodeHeader(d)| == 10 && |EncodeStringMap(d.values)| >= 8
  {
    hide Bytes, EncodeAll;
  }

  lemma MapsAreOk(d: Datacenter)
    requires WellFormed(d)
    ensures StringMapOk(d.values) && StringMapOk(d.names)
  {
  }

  /** So the bytes determine the datacenter. */
  lemma {:induction false} EncodingsDiffer(d: Datacenter, e: Datacenter)
    requires WellFormed(d) && WellFormed(e) && |Encode(d)| < LIMIT && Encode(d) == Encode(e)
    ensures d == e
  {
    hide Encode, Decode, WellFormed;
    assert At(Encode(d), 0, Encode(d)) && At(Encode(d), 0, Encode(e));
    LoadsWhatWasSaved(d, Encode(d), 0);
    LoadsWhatWasSaved(e, Encode(d), 0);
  }
}
