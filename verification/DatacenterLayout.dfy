/** What is at which offset of a saved datacenter, in numbers. */
module DatacenterLayout {
  import opened Arithmetic
  import opened Wrappers
  import opened ByteStreams
  import opened Serialization
  import opened DatacenterFormat

  // ---- numbers in a buffer, low byte first

  ghost predicate HasU16(buf: seq<byte>, p: nat, n: int) {
    p + 2 <= |buf| && n == buf[p] as int + buf[p + 1] as int * 0x100
  }

  ghost predicate HasU32(buf: seq<byte>, p: nat, n: int) {
    p + 4 <= |buf| && n == buf[p] as int + buf[p + 1] as int * 0x100 + buf[p + 2] as int * 0x1_0000 + buf[p + 3] as int * 0x100_0000
  }

  lemma U16Iff(buf: seq<byte>, p: nat, n: u16)
    ensures At(buf, p, Bytes(n, 2)) <==> HasU16(buf, p, n)
  {
    assert Bytes(n, 2) == [n % 256, n / 256];
    if p + 2 <= |buf| {
      assert buf[p..p + 2] == [buf[p], buf[p + 1]];
    }
  }

  lemma U32Iff(buf: seq<byte>, p: nat, n: u32)
    ensures At(buf, p, Bytes(n, 4)) <==> HasU32(buf, p, n)
  {
    var a, b := n % 0x1_0000, n / 0x1_0000;
    BytesOfHalves(n);
    AtConcat(buf, p, Bytes(a, 2), Bytes(b, 2));
    U16Iff(buf, p, a);
    U16Iff(buf, p + 2, b);
    if p + 4 <= |buf| {
      var x, y: int := buf[p] as int + buf[p + 1] as int * 0x100, buf[p + 2] as int + buf[p + 3] as int * 0x100;
      assert 0 <= x < 0x1_0000;
      assert n == a + 0x1_0000 * b;
    }
  }

  lemma BytesOfHalves(n: u32)
    ensures Bytes(n, 4) == Bytes(n % 0x1_0000, 2) + Bytes(n / 0x1_0000, 2)
  {
    assert Bytes(n / 256 / 256, 2) == Bytes(n / 0x1_0000, 2);
    assert Bytes(n, 4) == [n % 256] + Bytes(n / 256, 3) && Bytes(n / 256, 3) == [n / 256 % 256] + Bytes(n / 256 / 256, 2);
    assert Bytes(n % 0x1_0000, 2) == [n % 256, n / 256 % 256];
  }

  // ---- records

  ghost predicate IndicesAt(buf: seq<byte>, p: nat, i: Indices) {
    HasU16(buf, p, i.first) && HasU16(buf, p + 2, i.second)
  }

  ghost predicate AttributeAt(buf: seq<byte>, p: nat, a: Attribute) {
    HasU32(buf, p, a.name) && IndicesAt(buf, p + 4, a.value)
  }

  ghost predicate ElementAt(buf: seq<byte>, p: nat, e: Element) {
    && HasU32(buf, p, e.name) && IndicesAt(buf, p + 4, e.valueIndices)
    && HasU16(buf, p + 8, e.attributesCount) && IndicesAt(buf, p + 10, e.attributeIndices)
    && HasU16(buf, p + 14, e.childrenCount) && IndicesAt(buf, p + 16, e.childrenIndices)
  }

  lemma IndicesIff(buf: seq<byte>, p: nat, i: Indices)
    ensures At(buf, p, EncodeIndices(i)) <==> IndicesAt(buf, p, i)
    ensures |EncodeIndices(i)| == 4
  {
    hide At, HasU16;
    AtConcat(buf, p, Bytes(i.first, 2), Bytes(i.second, 2));
    U16Iff(buf, p, i.first);
    U16Iff(buf, p + 2, i.second);
  }

  lemma AttributeIff(buf: seq<byte>, p: nat, a: Attribute)
    ensures At(buf, p, EncodeAttribute(a)) <==> AttributeAt(buf, p, a)
    ensures |EncodeAttribute(a)| == 8
  {
    hide At, HasU32, EncodeIndices, IndicesAt;
    AtConcat(buf, p, Bytes(a.name, 4), EncodeIndices(a.value));
    U32Iff(buf, p, a.name);
    IndicesIff(buf, p + 4, a.value);
  }

  lemma ElementIff(buf: seq<byte>, p: nat, e: Element)
    ensures At(buf, p, EncodeElement(e)) <==> ElementAt(buf, p, e)
    ensures |EncodeElement(e)| == 20
  {
    hide At, HasU16, HasU32, EncodeIndices, IndicesAt;
    var f5 := Bytes(e.childrenCount, 2) + EncodeIndices(e.childrenIndices);
    var f4 := EncodeIndices(e.attributeIndices) + f5;
    var f3 := Bytes(e.attributesCount, 2) + f4;
    var f2 := EncodeIndices(e.valueIndices) + f3;
    U32Iff(buf, p, e.name);
    IndicesIff(buf, p + 4, e.valueIndices);
    U16Iff(buf, p + 8, e.attributesCount);
    IndicesIff(buf, p + 10, e.attributeIndices);
    U16Iff(buf, p + 14, e.childrenCount);
    IndicesIff(buf, p + 16, e.childrenIndices);
    AtConcat(buf, p, Bytes(e.name, 4), f2);
    AtConcat(buf, p + 4, EncodeIndices(e.valueIndices), f3);
    AtConcat(buf, p + 8, Bytes(e.attributesCount, 2), f4);
    AtConcat(buf, p + 10, EncodeIndices(e.attributeIndices), f5);
    AtConcat(buf, p + 14, Bytes(e.childrenCount, 2), EncodeIndices(e.childrenIndices));
  }

  // ---- items one after the other

  /** Item `i` begins where those before it end. */
  lemma {:induction false} AllAtIff<T(!new)>(c: Codec<T>, items: seq<T>, buf: seq<byte>, p: nat)
    ensures At(buf, p, EncodeAll(c, items)) <==>
            p + |EncodeAll(c, items)| <= |buf| && forall i :: 0 <= i < |items| ==> At(buf, p + |EncodeAll(c, items[..i])|, c.encode(items[i]))
  {
    hide At, EncodeAll;
    if items == [] {
      NothingReadsBack(c, buf, p);
      NothingAt(buf, p);
    } else {
      var front, last := items[..|items| - 1], items[|items| - 1];
      assert items == front + [last];
      EncodeAllStep(c, front, last);
      AllAtIff(c, front, buf, p);
      AtConcat(buf, p, EncodeAll(c, front), c.encode(last));
      AtInside(buf, p + |EncodeAll(c, front)|, c.encode(last));
      assert forall i :: 0 <= i <= |front| ==> front[..i] == items[..i];
    }
  }

  lemma NothingAt(buf: seq<byte>, p: nat)
    ensures At(buf, p, []) <==> p <= |buf|
  {
  }

  lemma AtInside(buf: seq<byte>, p: nat, bs: seq<byte>)
    ensures At(buf, p, bs) ==> p + |bs| <= |buf|
  {
  }

  /** Items of one size are that far apart. */
  lemma {:induction false} EqualSizes<T(!new)>(c: Codec<T>, items: seq<T>, size: nat)
    requires forall x :: x in items ==> |c.encode(x)| == size
    ensures |EncodeAll(c, items)| == size * |items|
  {
    if items != [] {
      var front := items[..|items| - 1];
      EqualSizes(c, front, size);
      MulDistributes(|front|, 1, size);
    }
  }

  ghost predicate EachAt<T>(c: Codec<T>, items: seq<T>, size: nat, buf: seq<byte>, p: nat) {
    p + size * |items| <= |buf| && forall i :: 0 <= i < |items| ==> At(buf, p + size * i, c.encode(items[i]))
  }

  lemma AllAtIffEach<T(!new)>(c: Codec<T>, items: seq<T>, size: nat, buf: seq<byte>, p: nat)
    requires forall x :: x in items ==> |c.encode(x)| == size
    ensures At(buf, p, EncodeAll(c, items)) <==> EachAt(c, items, size, buf, p)
    ensures |EncodeAll(c, items)| == size * |items|
  {
    hide At, EncodeAll;
    AllAtIff(c, items, buf, p);
    assert items[..|items|] == items;
    forall i | 0 <= i <= |items| ensures |EncodeAll(c, items[..i])| == size * i {
      EqualSizes(c, items[..i], size);
    }
  }

  // ---- block arrays

  /** The item at `i`; beyond those in use it is the one that pads. */
  ghost predicate SlotAt<T>(l: Layout<T>, b: BlockArray<T>, buf: seq<byte>, p: nat, i: nat) {
    At(buf, p + 8 + l.size * i, l.codec.encode(if i < |b.items| then b.items[i] else l.fallback))
  }

  ghost predicate BlockAt<T>(l: Layout<T>, b: BlockArray<T>, buf: seq<byte>, p: nat) {
    && At(buf, p, Bytes(b.capacity, 4)) && At(buf, p + 4, Bytes(|b.items|, 4)) && p + 8 + l.size * b.capacity <= |buf|
    && forall i :: 0 <= i < b.capacity ==> SlotAt(l, b, buf, p, i)
  }

  lemma BlockIff<T(!new)>(l: Layout<T>, b: BlockArray<T>, buf: seq<byte>, p: nat)
    requires |b.items| <= b.capacity < LIMIT && SizeIsTrue(l, b.items)
    ensures At(buf, p, EncodeBlockArray(l, b)) <==> BlockAt(l, b, buf, p)
    ensures |EncodeBlockArray(l, b)| == 8 + l.size * b.capacity
  {
    hide At, EncodeAll, Bytes;
    var rest := b.capacity - |b.items|;
    Remainder(rest, LIMIT, 0, rest);
    var pads := seq(rest, _ => l.fallback);
    var all := b.items + pads;
    EncodeAllConcat(l.codec, b.items, pads);
    var c, u, xs := Bytes(b.capacity, 4), Bytes(|b.items|, 4), EncodeAll(l.codec, all);
    assert EncodeBlockArray(l, b) == c + u + xs;
    AtConcat(buf, p, c + u, xs);
    AtConcat(buf, p, c, u);
    AllAtIffEach(l.codec, all, l.size, buf, p + 8);
    forall i | 0 <= i < b.capacity ensures SlotAt(l, b, buf, p, i) <==> At(buf, p + 8 + l.size * i, l.codec.encode(all[i])) {
    }
  }

  ghost predicate AttributeSlotAt(buf: seq<byte>, p: nat, items: seq<Attribute>, i: nat) {
    AttributeAt(buf, p + 8 + 8 * i, if i < |items| then items[i] else Attribute(0xFFFF_FFFF, Indices(0xFFFF, 0xFFFF)))
  }

  ghost predicate AttributeBlockAt(buf: seq<byte>, p: nat, b: BlockArray<Attribute>) {
    && HasU32(buf, p, b.capacity) && HasU32(buf, p + 4, |b.items|) && p + 8 + 8 * b.capacity <= |buf|
    && forall i :: 0 <= i < b.capacity ==> AttributeSlotAt(buf, p, b.items, i)
  }

  /** The element that pads. */
  const NOTHING := Element(
    name := 0xFFFF_FFFF, attributesCount := 0, attributeIndices := Indices(0xFFFF, 0xFFFF),
    childrenCount := 0, childrenIndices := Indices(0xFFFF, 0xFFFF), valueIndices := Indices(0xFFFF, 0xFFFF))

  ghost predicate ElementSlotAt(buf: seq<byte>, p: nat, items: seq<Element>, i: nat) {
    ElementAt(buf, p + 8 + 20 * i, if i < |items| then items[i] else NOTHING)
  }

  ghost predicate ElementBlockAt(buf: seq<byte>, p: nat, b: BlockArray<Element>) {
    && HasU32(buf, p, b.capacity) && HasU32(buf, p + 4, |b.items|) && p + 8 + 20 * b.capacity <= |buf|
    && forall i :: 0 <= i < b.capacity ==> ElementSlotAt(buf, p, b.items, i)
  }

  lemma AttributeBlockIff(buf: seq<byte>, p: nat, b: BlockArray<Attribute>)
    requires |b.items| <= b.capacity < LIMIT
    ensures At(buf, p, EncodeBlockArray(AttributeLayout, b)) <==> AttributeBlockAt(buf, p, b)
    ensures |EncodeBlockArray(AttributeLayout, b)| == 8 + 8 * b.capacity
  {
    hide At, HasU32, EncodeBlockArray, EncodeAttribute, AttributeAt;
    forall a ensures |EncodeAttribute(a)| == 8 {
      AttributeIff(buf, p, a);
    }
    BlockIff(AttributeLayout, b, buf, p);
    U32Iff(buf, p, b.capacity);
    U32Iff(buf, p + 4, |b.items|);
    forall i | 0 <= i < b.capacity ensures SlotAt(AttributeLayout, b, buf, p, i) <==> AttributeSlotAt(buf, p, b.items, i) {
      AttributeIff(buf, p + 8 + 8 * i, if i < |b.items| then b.items[i] else AttributeLayout.fallback);
    }
  }

  lemma ElementBlockIff(buf: seq<byte>, p: nat, b: BlockArray<Element>)
    requires |b.items| <= b.capacity < LIMIT
    ensures At(buf, p, EncodeBlockArray(ElementLayout, b)) <==> ElementBlockAt(buf, p, b)
    ensures |EncodeBlockArray(ElementLayout, b)| == 8 + 20 * b.capacity
  {
    hide At, HasU32, EncodeBlockArray, EncodeElement, ElementAt;
    forall e ensures |EncodeElement(e)| == 20 {
      ElementIff(buf, p, e);
    }
    BlockIff(ElementLayout, b, buf, p);
    U32Iff(buf, p, b.capacity);
    U32Iff(buf, p + 4, |b.items|);
    forall i | 0 <= i < b.capacity ensures SlotAt(ElementLayout, b, buf, p, i) <==> ElementSlotAt(buf, p, b.items, i) {
      ElementIff(buf, p + 8 + 20 * i, if i < |b.items| then b.items[i] else ElementLayout.fallback);
    }
  }

  // ---- arrays of block arrays

  /** What the blocks take together if a record takes `size` bytes. */
  function BlocksSize<T>(blocks: seq<BlockArray<T>>, size: nat): nat {
    if blocks == [] then 0 else BlocksSize(blocks[..|blocks| - 1], size) + 8 + size * blocks[|blocks| - 1].capacity
  }

  lemma {:induction false} BlocksSizeIsWritten<T(!new)>(l: Layout<T>, blocks: seq<BlockArray<T>>)
    requires forall b :: b in blocks ==> |EncodeBlockArray(l, b)| == 8 + l.size * b.capacity
    ensures |EncodeAll(BlockArrayCodec(l), blocks)| == BlocksSize(blocks, l.size)
  {
    hide EncodeBlockArray;
    if blocks != [] {
      BlocksSizeIsWritten(l, blocks[..|blocks| - 1]);
    }
  }

  ghost predicate BlocksAt<T>(l: Layout<T>, blocks: seq<BlockArray<T>>, buf: seq<byte>, p: nat) {
    && At(buf, p, Bytes(|blocks|, 4)) && p + 4 + BlocksSize(blocks, l.size) <= |buf|
    && forall i :: 0 <= i < |blocks| ==> At(buf, p + 4 + BlocksSize(blocks[..i], l.size), EncodeBlockArray(l, blocks[i]))
  }

  lemma BlocksIff<T(!new)>(l: Layout<T>, blocks: seq<BlockArray<T>>, buf: seq<byte>, p: nat)
    requires forall b :: b in blocks ==> |EncodeBlockArray(l, b)| == 8 + l.size * b.capacity
    ensures At(buf, p, EncodeArray(BlockArrayCodec(l), blocks)) <==> BlocksAt(l, blocks, buf, p)
    ensures |EncodeArray(BlockArrayCodec(l), blocks)| == 4 + BlocksSize(blocks, l.size)
  {
    hide At, EncodeAll, EncodeBlockArray, BlocksSize, Bytes;
    AtConcat(buf, p, Bytes(|blocks|, 4), EncodeAll(BlockArrayCodec(l), blocks));
    AllAtIff(BlockArrayCodec(l), blocks, buf, p + 4);
    BlocksSizeIsWritten(l, blocks);
    forall i | 0 <= i < |blocks| ensures |EncodeAll(BlockArrayCodec(l), blocks[..i])| == BlocksSize(blocks[..i], l.size) {
      BlocksSizeIsWritten(l, blocks[..i]);
    }
  }

  ghost predicate AttributesAt(buf: seq<byte>, p: nat, blocks: seq<BlockArray<Attribute>>) {
    && HasU32(buf, p, |blocks|) && p + 4 + BlocksSize(blocks, 8) <= |buf|
    && forall i :: 0 <= i < |blocks| ==> AttributeBlockAt(buf, p + 4 + BlocksSize(blocks[..i], 8), blocks[i])
  }

  ghost predicate ElementsAt(buf: seq<byte>, p: nat, blocks: seq<BlockArray<Element>>) {
    && HasU32(buf, p, |blocks|) && p + 4 + BlocksSize(blocks, 20) <= |buf|
    && forall i :: 0 <= i < |blocks| ==> ElementBlockAt(buf, p + 4 + BlocksSize(blocks[..i], 20), blocks[i])
  }

  lemma AttributesIff(buf: seq<byte>, p: nat, blocks: seq<BlockArray<Attribute>>)
    requires |blocks| < LIMIT && forall b :: b in blocks ==> |b.items| <= b.capacity < LIMIT
    ensures At(buf, p, EncodeArray(AttributesCodec, blocks)) <==> AttributesAt(buf, p, blocks)
    ensures |EncodeArray(AttributesCodec, blocks)| == 4 + BlocksSize(blocks, 8)
  {
    hide At, HasU32, EncodeArray, EncodeBlockArray, AttributeBlockAt, BlocksSize;
    forall b | b in blocks ensures |EncodeBlockArray(AttributeLayout, b)| == 8 + 8 * b.capacity {
      AttributeBlockIff(buf, p, b);
    }
    BlocksIff(AttributeLayout, blocks, buf, p);
    U32Iff(buf, p, |blocks|);
    forall i | 0 <= i < |blocks|
      ensures At(buf, p + 4 + BlocksSize(blocks[..i], 8), EncodeBlockArray(AttributeLayout, blocks[i]))
              <==> AttributeBlockAt(buf, p + 4 + BlocksSize(blocks[..i], 8), blocks[i])
    {
      AttributeBlockIff(buf, p + 4 + BlocksSize(blocks[..i], 8), blocks[i]);
    }
  }

  lemma ElementsIff(buf: seq<byte>, p: nat, blocks: seq<BlockArray<Element>>)
    requires |blocks| < LIMIT && forall b :: b in blocks ==> |b.items| <= b.capacity < LIMIT
    ensures At(buf, p, EncodeArray(ElementsCodec, blocks)) <==> ElementsAt(buf, p, blocks)
    ensures |EncodeArray(ElementsCodec, blocks)| == 4 + BlocksSize(blocks, 20)
  {
    hide At, HasU32, EncodeArray, EncodeBlockArray, ElementBlockAt, BlocksSize;
    forall b | b in blocks ensures |EncodeBlockArray(ElementLayout, b)| == 8 + 20 * b.capacity {
      ElementBlockIff(buf, p, b);
    }
    BlocksIff(ElementLayout, blocks, buf, p);
    U32Iff(buf, p, |blocks|);
    forall i | 0 <= i < |blocks|
      ensures At(buf, p + 4 + BlocksSize(blocks[..i], 20), EncodeBlockArray(ElementLayout, blocks[i]))
              <==> ElementBlockAt(buf, p + 4 + BlocksSize(blocks[..i], 20), blocks[i])
    {
      ElementBlockIff(buf, p + 4 + BlocksSize(blocks[..i], 20), blocks[i]);
    }
  }

  // ---- strings

  ghost predicate StringBlockAt(buf: seq<byte>, p: nat, b: StringBlock) {
    && HasU16(buf, p, |b.text|) && HasU16(buf, p + 2, b.used) && p + 4 + 2 * |b.text| <= |buf|
    && forall i :: 0 <= i < |b.text| ==> HasU16(buf, p + 4 + 2 * i, b.text[i])
  }

  lemma StringBlockIff(buf: seq<byte>, p: nat, b: StringBlock)
    requires StringBlockOk(b)
    ensures At(buf, p, EncodeStringBlock(b)) <==> StringBlockAt(buf, p, b)
    ensures |EncodeStringBlock(b)| == 4 + 2 * |b.text|
  {
    hide At, HasU16, EncodeAll, Bytes;
    AtConcat(buf, p, Bytes(|b.text|, 2), Bytes(b.used, 2) + EncodeAll(CharCodec, b.text));
    AtConcat(buf, p + 2, Bytes(b.used, 2), EncodeAll(CharCodec, b.text));
    U16Iff(buf, p, |b.text|);
    U16Iff(buf, p + 2, b.used);
    AllAtIffEach(CharCodec, b.text, 2, buf, p + 4);
    forall i | 0 <= i < |b.text| ensures At(buf, p + 4 + 2 * i, Bytes(b.text[i], 2)) <==> HasU16(buf, p + 4 + 2 * i, b.text[i]) {
      U16Iff(buf, p + 4 + 2 * i, b.text[i]);
    }
  }

  function StringBlocksSize(blocks: seq<StringBlock>): nat {
    if blocks == [] then 0 else StringBlocksSize(blocks[..|blocks| - 1]) + 4 + 2 * |blocks[|blocks| - 1].text|
  }

  lemma {:induction false} StringBlocksSizeIsWritten(blocks: seq<StringBlock>)
    requires forall b :: b in blocks ==> StringBlockOk(b)
    ensures |EncodeAll(StringBlockCodec, blocks)| == StringBlocksSize(blocks)
  {
    hide EncodeStringBlock;
    if blocks != [] {
      StringBlocksSizeIsWritten(blocks[..|blocks| - 1]);
      StringBlockIff([], 0, blocks[|blocks| - 1]);
    }
  }

  ghost predicate StringBlocksAt(buf: seq<byte>, p: nat, blocks: seq<StringBlock>) {
    && HasU32(buf, p, |blocks|) && p + 4 + StringBlocksSize(blocks) <= |buf|
    && forall i :: 0 <= i < |blocks| ==> StringBlockAt(buf, p + 4 + StringBlocksSize(blocks[..i]), blocks[i])
  }

  lemma StringBlocksIff(buf: seq<byte>, p: nat, blocks: seq<StringBlock>)
    requires |blocks| < LIMIT && forall b :: b in blocks ==> StringBlockOk(b)
    ensures At(buf, p, EncodeArray(StringBlockCodec, blocks)) <==> StringBlocksAt(buf, p, blocks)
    ensures |EncodeArray(StringBlockCodec, blocks)| == 4 + StringBlocksSize(blocks)
  {
    hide At, HasU32, EncodeAll, EncodeStringBlock, StringBlockAt, StringBlocksSize, Bytes;
    AtConcat(buf, p, Bytes(|blocks|, 4), EncodeAll(StringBlockCodec, blocks));
    U32Iff(buf, p, |blocks|);
    AllAtIff(StringBlockCodec, blocks, buf, p + 4);
    StringBlocksSizeIsWritten(blocks);
    forall i | 0 <= i < |blocks|
      ensures |EncodeAll(StringBlockCodec, blocks[..i])| == StringBlocksSize(blocks[..i])
      ensures At(buf, p + 4 + StringBlocksSize(blocks[..i]), EncodeStringBlock(blocks[i]))
              <==> StringBlockAt(buf, p + 4 + StringBlocksSize(blocks[..i]), blocks[i])
    {
      StringBlocksSizeIsWritten(blocks[..i]);
      StringBlockIff(buf, p + 4 + StringBlocksSize(blocks[..i]), blocks[i]);
    }
  }

  ghost predicate EntriesAt(buf: seq<byte>, p: nat, entries: seq<Indices>) {
    && HasU32(buf, p, |entries|) && p + 4 + 4 * |entries| <= |buf|
    && forall i :: 0 <= i < |entries| ==> IndicesAt(buf, p + 4 + 4 * i, entries[i])
  }

  lemma EntriesIff(buf: seq<byte>, p: nat, entries: seq<Indices>)
    requires |entries| < LIMIT
    ensures At(buf, p, EncodeArray(IndicesCodec, entries)) <==> EntriesAt(buf, p, entries)
    ensures |EncodeArray(IndicesCodec, entries)| == 4 + 4 * |entries|
  {
    hide At, HasU32, EncodeAll, EncodeIndices, IndicesAt, Bytes;
    forall x ensures |EncodeIndices(x)| == 4 {
      IndicesIff(buf, p, x);
    }
    AtConcat(buf, p, Bytes(|entries|, 4), EncodeAll(IndicesCodec, entries));
    U32Iff(buf, p, |entries|);
    AllAtIffEach(IndicesCodec, entries, 4, buf, p + 4);
    forall i | 0 <= i < |entries| ensures At(buf, p + 4 + 4 * i, EncodeIndices(entries[i])) <==> IndicesAt(buf, p + 4 + 4 * i, entries[i]) {
      IndicesIff(buf, p + 4 + 4 * i, entries[i]);
    }
  }

  function StringMapSize(m: StringMap): nat {
    4 + StringBlocksSize(m.blocks) + 4 + 4 * |m.entries|
  }

  ghost predicate StringMapAt(buf: seq<byte>, p: nat, m: StringMap) {
    StringBlocksAt(buf, p, m.blocks) && EntriesAt(buf, p + 4 + StringBlocksSize(m.blocks), m.entries)
  }

  lemma StringMapIff(buf: seq<byte>, p: nat, m: StringMap)
    requires StringMapOk(m)
    ensures At(buf, p, EncodeStringMap(m)) <==> StringMapAt(buf, p, m)
    ensures |EncodeStringMap(m)| == StringMapSize(m)
  {
    hide At, EncodeArray, StringBlocksAt, EntriesAt, StringBlockOk, StringBlocksSize;
    AtConcat(buf, p, EncodeArray(StringBlockCodec, m.blocks), EncodeArray(IndicesCodec, m.entries));
    StringBlocksIff(buf, p, m.blocks);
    EntriesIff(buf, p + 4 + StringBlocksSize(m.blocks), m.entries);
  }

  // ---- the datacenter

  /** A language is a signed number of 16 bits. */
  ghost predicate HeaderAt(buf: seq<byte>, p: nat, d: Datacenter) {
    && HasU32(buf, p, d.version) && HasU32(buf, p + 4, d.formatVersion)
    && HasU16(buf, p + 8, if d.language < 0 then 0x1_0000 + d.language else d.language)
  }

  ghost predicate BodyAt(buf: seq<byte>, p: nat, d: Datacenter) {
    var q := p + 4 + BlocksSize(d.attributes, 8);
    var r := q + 4 + BlocksSize(d.elements, 20);
    && AttributesAt(buf, p, d.attributes) && ElementsAt(buf, q, d.elements)
    && StringMapAt(buf, r, d.values) && StringMapAt(buf, r + StringMapSize(d.values), d.names)
  }

  ghost predicate DatacenterAt(buf: seq<byte>, p: nat, d: Datacenter) {
    HeaderAt(buf, p, d) && BodyAt(buf, p + 10, d)
  }

  function DatacenterSize(d: Datacenter): nat {
    10 + 4 + BlocksSize(d.attributes, 8) + 4 + BlocksSize(d.elements, 20) + StringMapSize(d.values) + StringMapSize(d.names)
  }

  lemma HeaderIff(buf: seq<byte>, p: nat, d: Datacenter)
    ensures At(buf, p, EncodeHeader(d)) <==> HeaderAt(buf, p, d)
    ensures |EncodeHeader(d)| == 10
  {
    hide At, HasU32, HasU16, Bytes;
    AtConcat(buf, p, Bytes(d.version, 4), Bytes(d.formatVersion, 4) + Bytes(Unsigned(d.language), 2));
    AtConcat(buf, p + 4, Bytes(d.formatVersion, 4), Bytes(Unsigned(d.language), 2));
    U32Iff(buf, p, d.version);
    U32Iff(buf, p + 4, d.formatVersion);
    U16Iff(buf, p + 8, Unsigned(d.language));
  }

  lemma BodyIff(buf: seq<byte>, p: nat, d: Datacenter)
    requires WellFormed(d)
    ensures At(buf, p, EncodeBody(d)) <==> BodyAt(buf, p, d)
    ensures 10 + |EncodeBody(d)| == DatacenterSize(d)
  {
    hide At, EncodeArray, EncodeStringMap, AttributesAt, ElementsAt, StringMapAt, BlocksSize, StringMapSize, StringMapOk;
    var as_, es, vs, ns := EncodeArray(AttributesCodec, d.attributes), EncodeArray(ElementsCodec, d.elements),
      EncodeStringMap(d.values), EncodeStringMap(d.names);
    AttributesIff(buf, p, d.attributes);
    ElementsIff(buf, p + |as_|, d.elements);
    StringMapIff(buf, p + |as_| + |es|, d.values);
    StringMapIff(buf, p + |as_| + |es| + |vs|, d.names);
    AtConcat(buf, p, as_, es + (vs + ns));
    AtConcat(buf, p + |as_|, es, vs + ns);
    AtConcat(buf, p + |as_| + |es|, vs, ns);
  }

  /** The bytes that `Encode` describes are at a position exactly if every field of the datacenter is
      at its offset. */
  lemma DatacenterIff(buf: seq<byte>, p: nat, d: Datacenter)
    requires WellFormed(d)
    ensures At(buf, p, Encode(d)) <==> DatacenterAt(buf, p, d)
    ensures |Encode(d)| == DatacenterSize(d)
  {
    hide At, EncodeHeader, EncodeBody, HeaderAt, BodyAt, WellFormed, DatacenterSize;
    AtConcat(buf, p, EncodeHeader(d), EncodeBody(d));
    HeaderIff(buf, p, d);
    BodyIff(buf, p + 10, d);
  }
}
