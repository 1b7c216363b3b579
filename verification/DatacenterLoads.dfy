/** What loading makes of any bytes: it succeeds exactly if there is a datacenter whose fields are found at the
    offsets at which the loader looks for them. */
module DatacenterLoads {
  import opened Arithmetic
  import opened Wrappers
  import opened ByteStreams
  import opened Serialization
  import opened DatacenterFormat
  import opened DatacenterLayout

  // ---- numbers and records

  lemma U16Exact(buf: seq<byte>, p: nat, n: u16, end: nat)
    ensures DecodeU16(buf, p) == Some((n, end)) <==> HasU16(buf, p, n) && end == p + 2
  {
    U16Iff(buf, p, n);
    if HasU16(buf, p, n) {
      U16ReadsBack(buf, p, n);
    }
    if DecodeU16(buf, p) == Some((n, end)) {
      BytesOfNumber(buf[p..p + 2]);
    }
  }

  lemma U32Exact(buf: seq<byte>, p: nat, n: u32, end: nat)
    ensures DecodeU32(buf, p) == Some((n, end)) <==> HasU32(buf, p, n) && end == p + 4
  {
    U32Iff(buf, p, n);
    if HasU32(buf, p, n) {
      U32ReadsBack(buf, p, n);
    }
    if DecodeU32(buf, p) == Some((n, end)) {
      BytesOfNumber(buf[p..p + 4]);
    }
  }

  lemma ValueExact(buf: seq<byte>, p: nat, n: nat, end: nat)
    ensures ValueAt(buf, p, 4) == Some((n, end)) <==> n < LIMIT && HasU32(buf, p, n) && end == p + 4
  {
    PowerOf2And4();
    if n < LIMIT {
      U32Exact(buf, p, n, end);
    }
  }

  lemma IndicesExact(buf: seq<byte>, p: nat, i: Indices, end: nat)
    ensures DecodeIndices(buf, p) == Some((i, end)) <==> IndicesAt(buf, p, i) && end == p + 4
  {
    hide DecodeU16, HasU16;
    U16Exact(buf, p, i.first, p + 2);
    U16Exact(buf, p + 2, i.second, end);
    if DecodeIndices(buf, p) == Some((i, end)) {
      U16Exact(buf, p, i.first, DecodeU16(buf, p).value.1);
    }
  }

  lemma AttributeExact(buf: seq<byte>, p: nat, a: Attribute, end: nat)
    ensures DecodeAttribute(buf, p) == Some((a, end)) <==> AttributeAt(buf, p, a) && end == p + 8
  {
    hide DecodeU32, DecodeIndices, HasU32, IndicesAt;
    U32Exact(buf, p, a.name, p + 4);
    IndicesExact(buf, p + 4, a.value, end);
    if DecodeAttribute(buf, p) == Some((a, end)) {
      U32Exact(buf, p, a.name, DecodeU32(buf, p).value.1);
    }
  }

  lemma ElementExact(buf: seq<byte>, p: nat, e: Element, end: nat)
    ensures DecodeElement(buf, p) == Some((e, end)) <==> ElementAt(buf, p, e) && end == p + 20
  {
    hide DecodeU16, DecodeU32, DecodeIndices, HasU16, HasU32, IndicesAt;
    if ElementAt(buf, p, e) {
      ElementIff(buf, p, e);
      ElementReadsBack(buf, p, e);
    }
    if DecodeElement(buf, p) == Some((e, end)) {
      U32Exact(buf, p, e.name, DecodeU32(buf, p).value.1);
      IndicesExact(buf, p + 4, e.valueIndices, DecodeIndices(buf, p + 4).value.1);
      U16Exact(buf, p + 8, e.attributesCount, DecodeU16(buf, p + 8).value.1);
      IndicesExact(buf, p + 10, e.attributeIndices, DecodeIndices(buf, p + 10).value.1);
      U16Exact(buf, p + 14, e.childrenCount, DecodeU16(buf, p + 14).value.1);
      IndicesExact(buf, p + 16, e.childrenIndices, end);
    }
  }

  // ---- items of one size

  /** An item is read wherever its bytes are, and nowhere else. */
  ghost predicate Exact<T(!new)>(c: Codec<T>, size: nat) {
    && (forall x :: |c.encode(x)| == size)
    && forall buf, pos: nat, x, end :: c.decode(buf, pos) == Some((x, end)) <==> At(buf, pos, c.encode(x)) && end == pos + size
  }

  lemma CharsAreExact()
    ensures Exact(CharCodec, 2)
  {
    forall buf, pos: nat, c: u16, end ensures DecodeU16(buf, pos) == Some((c, end)) <==> At(buf, pos, Bytes(c, 2)) && end == pos + 2 {
      U16Exact(buf, pos, c, end);
      U16Iff(buf, pos, c);
    }
  }

  lemma IndicesAreExact()
    ensures Exact(IndicesCodec, 4)
  {
    hide DecodeIndices, IndicesAt;
    forall buf, pos: nat, i, end ensures DecodeIndices(buf, pos) == Some((i, end)) <==> At(buf, pos, EncodeIndices(i)) && end == pos + 4 {
      IndicesExact(buf, pos, i, end);
      IndicesIff(buf, pos, i);
    }
  }

  lemma AttributesAreExact()
    ensures Exact(AttributeCodec, 8)
  {
    hide DecodeAttribute, AttributeAt;
    forall buf, pos: nat, a, end ensures DecodeAttribute(buf, pos) == Some((a, end)) <==> At(buf, pos, EncodeAttribute(a)) && end == pos + 8 {
      AttributeExact(buf, pos, a, end);
      AttributeIff(buf, pos, a);
    }
  }

  lemma ElementsAreExact()
    ensures Exact(ElementCodec, 20)
  {
    hide DecodeElement, EncodeElement, ElementAt;
    forall e ensures |EncodeElement(e)| == 20 {
      ElementIff([], 0, e);
    }
    forall buf, pos: nat, e, end ensures DecodeElement(buf, pos) == Some((e, end)) <==> At(buf, pos, EncodeElement(e)) && end == pos + 20 {
      ElementExact(buf, pos, e, end);
      ElementIff(buf, pos, e);
    }
  }

  lemma NextEach<T(!new)>(c: Codec<T>, items: seq<T>, x: T, size: nat, buf: seq<byte>, p: nat)
    requires |c.encode(x)| == size
    ensures EachAt(c, items + [x], size, buf, p) <==> EachAt(c, items, size, buf, p) && At(buf, p + size * |items|, c.encode(x))
  {
    hide At;
    AtInside(buf, p + size * |items|, c.encode(x));
    MulDistributes(|items|, 1, size);
    var all := items + [x];
    if EachAt(c, all, size, buf, p) {
      forall i | 0 <= i < |items| ensures At(buf, p + size * i, c.encode(items[i])) {
        assert all[i] == items[i];
      }
      assert all[|items|] == x;
    }
  }

  lemma {:induction false} AllExact<T(!new)>(c: Codec<T>, size: nat, buf: seq<byte>, p: nat, n: nat, items: seq<T>, end: nat)
    requires Exact(c, size) && p <= |buf|
    ensures DecodeAll(c, buf, p, n) == Some((items, end)) <==> |items| == n && EachAt(c, items, size, buf, p) && end == p + size * n
  {
    hide At, Exact, EachAt;
    if n == 0 {
      NoneToRead(c, size, buf, p);
    } else if |items| == n {
      var front, last := items[..n - 1], items[n - 1];
      assert items == front + [last];
      AllExact(c, size, buf, p, n - 1, front, p + size * (n - 1));
      OneExact(c, size, buf, p + size * (n - 1), last, end);
      NextEach(c, front, last, size, buf, p);
      MulDistributes(n - 1, 1, size);
      if DecodeAll(c, buf, p, n) == Some((items, end)) {
        AllExact(c, size, buf, p, n - 1, front, DecodeAll(c, buf, p, n - 1).value.1);
      }
    }
  }

  lemma NoneToRead<T(!new)>(c: Codec<T>, size: nat, buf: seq<byte>, p: nat)
    requires p <= |buf|
    ensures DecodeAll(c, buf, p, 0) == Some(([], p)) && EachAt(c, [], size, buf, p)
  {
  }

  lemma OneExact<T(!new)>(c: Codec<T>, size: nat, buf: seq<byte>, p: nat, x: T, end: nat)
    requires Exact(c, size)
    ensures c.decode(buf, p) == Some((x, end)) <==> At(buf, p, c.encode(x)) && end == p + size
    ensures |c.encode(x)| == size
  {
  }

  // ---- block arrays

  /** The items of a block array are there, and it ends, in 32 bits, where its capacity does. */
  ghost predicate BlockFrom<T>(l: Layout<T>, buf: seq<byte>, p: nat, b: BlockArray<T>, end: nat) {
    && HasU32(buf, p, b.capacity) && HasU32(buf, p + 4, |b.items|) && EachAt(l.codec, b.items, l.size, buf, p + 8)
    && end == (p + 8 + l.size * b.capacity) % LIMIT && end < |buf|
  }

  lemma SkipIs<T>(l: Layout<T>, buf: seq<byte>, p: nat, capacity: nat, used: nat)
    requires capacity < LIMIT && used < LIMIT
    ensures Skipped(buf, p + l.size * used, Remaining(capacity, used) * l.size % LIMIT)
            == if (p + l.size * capacity) % LIMIT < |buf| then Some((p + l.size * capacity) % LIMIT) else None
  {
    SkipOfPadding(capacity, used, l.size, p);
  }

  /** A block array is loaded exactly if its items are there and its capacity ends inside the buffer. */
  lemma BlockExact<T(!new)>(l: Layout<T>, buf: seq<byte>, p: nat, b: BlockArray<T>, end: nat)
    requires Exact(l.codec, l.size)
    ensures DecodeBlockArray(l, buf, p) == Some((b, end)) <==> BlockFrom(l, buf, p, b, end)
  {
    hide Exact, EachAt, HasU32, ValueAt, Skipped, Remaining;
    ValueExact(buf, p, b.capacity, p + 4);
    ValueExact(buf, p + 4, |b.items|, p + 8);
    U32InRange(buf, p, b.capacity);
    U32InRange(buf, p + 4, |b.items|);
    if b.capacity < LIMIT && |b.items| < LIMIT && p + 8 <= |buf| {
      AllExact(l.codec, l.size, buf, p + 8, |b.items|, b.items, p + 8 + l.size * |b.items|);
      SkipIs(l, buf, p + 8, b.capacity, |b.items|);
      if DecodeBlockArray(l, buf, p) == Some((b, end)) {
        BlockSteps(l, buf, p, b, end);
      }
    } else if DecodeBlockArray(l, buf, p) == Some((b, end)) {
      BlockSteps(l, buf, p, b, end);
    }
  }

  lemma U32InRange(buf: seq<byte>, p: nat, n: nat)
    ensures HasU32(buf, p, n) ==> n < LIMIT && p + 4 <= |buf|
  {
  }

  /** What a successful load of a block array has read. */
  lemma BlockSteps<T(!new)>(l: Layout<T>, buf: seq<byte>, p: nat, b: BlockArray<T>, end: nat)
    requires Exact(l.codec, l.size) && DecodeBlockArray(l, buf, p) == Some((b, end))
    ensures b.capacity < LIMIT && |b.items| < LIMIT && p + 8 <= |buf|
    ensures ValueAt(buf, p, 4) == Some((b.capacity, p + 4)) && ValueAt(buf, p + 4, 4) == Some((|b.items|, p + 8))
    ensures DecodeAll(l.codec, buf, p + 8, |b.items|) == Some((b.items, p + 8 + l.size * |b.items|))
    ensures Skipped(buf, p + 8 + l.size * |b.items|, Remaining(b.capacity, |b.items|) * l.size % LIMIT) == Some(end)
  {
    hide Exact, EachAt, HasU32, Skipped, Remaining;
    PowerOf2And4();
    var used := ValueAt(buf, p + 4, 4).value.0;
    var r := DecodeAll(l.codec, buf, p + 8, used).value.1;
    AllExact(l.codec, l.size, buf, p + 8, used, b.items, r);
  }

  // ---- arrays of block arrays

  /** One block array after the other, from `p` to `end`. */
  ghost predicate BlocksFrom<T>(l: Layout<T>, buf: seq<byte>, p: nat, blocks: seq<BlockArray<T>>, end: nat) {
    if blocks == [] then end == p
    else
      var front, last := blocks[..|blocks| - 1], blocks[|blocks| - 1];
      exists q: nat :: BlocksFrom(l, buf, p, front, q) && BlockFrom(l, buf, q, last, end)
  }

  lemma {:induction false} BlocksExact<T(!new)>(l: Layout<T>, buf: seq<byte>, p: nat, n: nat, blocks: seq<BlockArray<T>>, end: nat)
    requires Exact(l.codec, l.size)
    ensures DecodeAll(BlockArrayCodec(l), buf, p, n) == Some((blocks, end)) <==> |blocks| == n && BlocksFrom(l, buf, p, blocks, end)
  {
    hide Exact, BlockFrom, DecodeBlockArray;
    if n > 0 && |blocks| == n {
      var front, last := blocks[..n - 1], blocks[n - 1];
      assert blocks == front + [last];
      if DecodeAll(BlockArrayCodec(l), buf, p, n) == Some((blocks, end)) {
        var q := DecodeAll(BlockArrayCodec(l), buf, p, n - 1).value.1;
        BlocksExact(l, buf, p, n - 1, front, q);
        BlockExact(l, buf, q, last, end);
      }
      if BlocksFrom(l, buf, p, blocks, end) {
        var q: nat :| BlocksFrom(l, buf, p, front, q) && BlockFrom(l, buf, q, last, end);
        BlocksExact(l, buf, p, n - 1, front, q);
        BlockExact(l, buf, q, last, end);
      }
    }
  }

  lemma BlockArraysExact<T(!new)>(l: Layout<T>, buf: seq<byte>, p: nat, blocks: seq<BlockArray<T>>, end: nat)
    requires Exact(l.codec, l.size)
    ensures DecodeArray(BlockArrayCodec(l), buf, p) == Some((blocks, end)) <==>
            HasU32(buf, p, |blocks|) && BlocksFrom(l, buf, p + 4, blocks, end)
  {
    hide Exact, BlocksFrom, HasU32, ValueAt, DecodeAll;
    ValueExact(buf, p, |blocks|, p + 4);
    U32InRange(buf, p, |blocks|);
    BlocksExact(l, buf, p + 4, |blocks|, blocks, end);
    if DecodeArray(BlockArrayCodec(l), buf, p) == Some((blocks, end)) {
      ValueExact(buf, p, |blocks|, ValueAt(buf, p, 4).value.1);
    }
  }

  // ---- strings

  lemma StringBlockExact(buf: seq<byte>, p: nat, b: StringBlock, end: nat)
    ensures DecodeStringBlock(buf, p) == Some((b, end)) <==> StringBlockAt(buf, p, b) && end == p + 4 + 2 * |b.text|
  {
    hide Exact, DecodeU16, HasU16, DecodeAll, EachAt;
    if DecodeStringBlock(buf, p) == Some((b, end)) {
      U16Exact(buf, p, |b.text|, DecodeU16(buf, p).value.1);
      U16Exact(buf, p + 2, b.used, DecodeU16(buf, p + 2).value.1);
      U16InRange(buf, p + 2, b.used);
      CharsExact(buf, p + 4, b.text, end);
    }
    if StringBlockAt(buf, p, b) {
      U16InRange(buf, p, |b.text|);
      U16Exact(buf, p, |b.text|, p + 2);
      U16Exact(buf, p + 2, b.used, p + 4);
      CharsExact(buf, p + 4, b.text, end);
    }
  }

  lemma U16InRange(buf: seq<byte>, p: nat, n: nat)
    ensures HasU16(buf, p, n) ==> n < 0x1_0000 && p + 2 <= |buf|
  {
  }

  lemma CharsExact(buf: seq<byte>, p: nat, text: seq<u16>, end: nat)
    requires p <= |buf|
    ensures DecodeAll(CharCodec, buf, p, |text|) == Some((text, end)) <==>
            p + 2 * |text| <= |buf| && end == p + 2 * |text| && forall i :: 0 <= i < |text| ==> HasU16(buf, p + 2 * i, text[i])
  {
    hide Exact, HasU16, DecodeAll;
    CharsAreExact();
    AllExact(CharCodec, 2, buf, p, |text|, text, end);
    forall i | 0 <= i < |text| ensures At(buf, p + 2 * i, Bytes(text[i], 2)) <==> HasU16(buf, p + 2 * i, text[i]) {
      U16Iff(buf, p + 2 * i, text[i]);
    }
  }

  ghost predicate StringBlocksFrom(buf: seq<byte>, p: nat, blocks: seq<StringBlock>) {
    p + StringBlocksSize(blocks) <= |buf| && forall i :: 0 <= i < |blocks| ==> StringBlockAt(buf, p + StringBlocksSize(blocks[..i]), blocks[i])
  }

  lemma NextStringBlock(buf: seq<byte>, p: nat, front: seq<StringBlock>, last: StringBlock)
    ensures StringBlocksSize(front + [last]) == StringBlocksSize(front) + 4 + 2 * |last.text|
    ensures StringBlocksFrom(buf, p, front + [last]) <==>
            StringBlocksFrom(buf, p, front) && StringBlockAt(buf, p + StringBlocksSize(front), last)
  {
    hide StringBlocksSize;
    assert StringBlocksSize(front + [last]) == StringBlocksSize(front) + 4 + 2 * |last.text| by { SizeOfNext(front, last); }
    var all := front + [last];
    assert all[..|front|] == front && forall i :: 0 <= i < |front| ==> all[..i] == front[..i];
    StringBlockInside(buf, p + StringBlocksSize(front), last);
    hide StringBlockAt;
    if StringBlocksFrom(buf, p, all) {
      assert StringBlockAt(buf, p + StringBlocksSize(all[..|front|]), all[|front|]);
      forall i | 0 <= i < |front| ensures StringBlockAt(buf, p + StringBlocksSize(front[..i]), front[i]) {
        assert StringBlockAt(buf, p + StringBlocksSize(all[..i]), all[i]);
      }
    }
  }

  lemma SizeOfNext(front: seq<StringBlock>, last: StringBlock)
    ensures StringBlocksSize(front + [last]) == StringBlocksSize(front) + 4 + 2 * |last.text|
  {
    assert (front + [last])[..|front|] == front;
  }

  lemma StringBlockInside(buf: seq<byte>, p: nat, b: StringBlock)
    ensures StringBlockAt(buf, p, b) ==> p + 4 + 2 * |b.text| <= |buf|
  {
  }

  lemma {:induction false} StringBlocksExact(buf: seq<byte>, p: nat, n: nat, blocks: seq<StringBlock>, end: nat)
    requires p <= |buf|
    ensures DecodeAll(StringBlockCodec, buf, p, n) == Some((blocks, end)) <==>
            |blocks| == n && StringBlocksFrom(buf, p, blocks) && end == p + StringBlocksSize(blocks)
  {
    hide DecodeStringBlock, StringBlockAt, StringBlocksFrom, StringBlocksSize;
    if n == 0 {
      NoStringBlocks(buf, p);
    } else if |blocks| == n {
      var front, last := blocks[..n - 1], blocks[n - 1];
      assert blocks == front + [last];
      NextStringBlock(buf, p, front, last);
      StringBlocksExact(buf, p, n - 1, front, p + StringBlocksSize(front));
      StringBlockExact(buf, p + StringBlocksSize(front), last, end);
      if DecodeAll(StringBlockCodec, buf, p, n) == Some((blocks, end)) {
        StringBlocksExact(buf, p, n - 1, front, DecodeAll(StringBlockCodec, buf, p, n - 1).value.1);
      }
    }
  }

  lemma NoStringBlocks(buf: seq<byte>, p: nat)
    requires p <= |buf|
    ensures StringBlocksFrom(buf, p, []) && StringBlocksSize([]) == 0
  {
  }

  lemma StringArrayExact(buf: seq<byte>, p: nat, blocks: seq<StringBlock>, end: nat)
    ensures DecodeArray(StringBlockCodec, buf, p) == Some((blocks, end)) <==> StringBlocksAt(buf, p, blocks) && end == p + 4 + StringBlocksSize(blocks)
  {
    hide HasU32, ValueAt, DecodeAll, StringBlockAt, StringBlocksSize;
    ValueExact(buf, p, |blocks|, p + 4);
    U32InRange(buf, p, |blocks|);
    if p + 4 <= |buf| {
      StringBlocksExact(buf, p + 4, |blocks|, blocks, end);
    }
    if DecodeArray(StringBlockCodec, buf, p) == Some((blocks, end)) {
      ValueInside(buf, p);
      StringBlocksExact(buf, p + 4, ValueAt(buf, p, 4).value.0, blocks, end);
      ValueExact(buf, p, |blocks|, ValueAt(buf, p, 4).value.1);
    }
  }

  lemma ValueInside(buf: seq<byte>, p: nat)
    ensures ValueAt(buf, p, 4).Some? ==> p + 4 <= |buf| && ValueAt(buf, p, 4).value.1 == p + 4
  {
  }

  lemma EntriesExact(buf: seq<byte>, p: nat, entries: seq<Indices>, end: nat)
    ensures DecodeArray(IndicesCodec, buf, p) == Some((entries, end)) <==> EntriesAt(buf, p, entries) && end == p + 4 + 4 * |entries|
  {
    hide HasU32, ValueAt, DecodeAll, IndicesAt, Exact, DecodeIndices, EncodeIndices;
    IndicesAreExact();
    ValueExact(buf, p, |entries|, p + 4);
    U32InRange(buf, p, |entries|);
    forall i | 0 <= i < |entries| ensures At(buf, p + 4 + 4 * i, EncodeIndices(entries[i])) <==> IndicesAt(buf, p + 4 + 4 * i, entries[i]) {
      IndicesIff(buf, p + 4 + 4 * i, entries[i]);
    }
    if p + 4 <= |buf| {
      AllExact(IndicesCodec, 4, buf, p + 4, |entries|, entries, end);
    }
    if DecodeArray(IndicesCodec, buf, p) == Some((entries, end)) {
      ValueInside(buf, p);
      AllExact(IndicesCodec, 4, buf, p + 4, ValueAt(buf, p, 4).value.0, entries, end);
      ValueExact(buf, p, |entries|, ValueAt(buf, p, 4).value.1);
    }
  }

  lemma StringMapExact(buf: seq<byte>, p: nat, m: StringMap, end: nat)
    ensures DecodeStringMap(buf, p) == Some((m, end)) <==> StringMapAt(buf, p, m) && end == p + StringMapSize(m)
  {
    hide DecodeArray, StringBlocksAt, EntriesAt, StringBlocksSize;
    StringArrayExact(buf, p, m.blocks, p + 4 + StringBlocksSize(m.blocks));
    EntriesExact(buf, p + 4 + StringBlocksSize(m.blocks), m.entries, end);
    if DecodeStringMap(buf, p) == Some((m, end)) {
      StringArrayExact(buf, p, m.blocks, DecodeArray(StringBlockCodec, buf, p).value.1);
    }
  }

  // ---- the datacenter

  lemma HeaderExact(buf: seq<byte>, p: nat, d: Datacenter, end: nat)
    ensures DecodeHeader(buf, p) == Some(((d.version, d.formatVersion, d.language), end)) <==> HeaderAt(buf, p, d) && end == p + 10
  {
    hide DecodeU16, DecodeU32, HasU16, HasU32;
    U32Exact(buf, p, d.version, p + 4);
    U32Exact(buf, p + 4, d.formatVersion, p + 8);
    U16Exact(buf, p + 8, Unsigned(d.language), p + 10);
    if DecodeHeader(buf, p) == Some(((d.version, d.formatVersion, d.language), end)) {
      U32Exact(buf, p, d.version, DecodeU32(buf, p).value.1);
      U32Exact(buf, p + 4, d.formatVersion, DecodeU32(buf, p + 4).value.1);
      U16Exact(buf, p + 8, DecodeU16(buf, p + 8).value.0, DecodeU16(buf, p + 8).value.1);
    }
  }

  /** Every field of `d` is where the loader looks for it, from `p` to `end`; what pads is not looked at. */
  ghost predicate DatacenterFrom(buf: seq<byte>, p: nat, d: Datacenter, end: nat) {
    && HeaderAt(buf, p, d)
    && exists q: nat, r: nat ::
         && HasU32(buf, p + 10, |d.attributes|) && BlocksFrom(AttributeLayout, buf, p + 14, d.attributes, q)
         && HasU32(buf, q, |d.elements|) && BlocksFrom(ElementLayout, buf, q + 4, d.elements, r)
         && StringMapAt(buf, r, d.values) && StringMapAt(buf, r + StringMapSize(d.values), d.names)
         && end == r + StringMapSize(d.values) + StringMapSize(d.names)
  }

  /** Loading gives a datacenter exactly if its fields are there. */
  lemma LoadsIff(buf: seq<byte>, p: nat, d: Datacenter, end: nat)
    ensures Decode(buf, p) == Some((d, end)) <==> DatacenterFrom(buf, p, d, end)
  {
    hide DecodeHeader, DecodeArray, DecodeStringMap, HeaderAt, HasU32, BlocksFrom, StringMapAt, StringMapSize, Exact;
    AttributesAreExact();
    ElementsAreExact();
    if Decode(buf, p) == Some((d, end)) {
      var q := DecodeArray(AttributesCodec, buf, DecodeHeader(buf, p).value.1).value.1;
      var r := DecodeArray(ElementsCodec, buf, q).value.1;
      HeaderExact(buf, p, d, DecodeHeader(buf, p).value.1);
      BlockArraysExact(AttributeLayout, buf, p + 10, d.attributes, q);
      BlockArraysExact(ElementLayout, buf, q, d.elements, r);
      StringMapExact(buf, r, d.values, DecodeStringMap(buf, r).value.1);
      StringMapExact(buf, r + StringMapSize(d.values), d.names, end);
    }
    if DatacenterFrom(buf, p, d, end) {
      var q: nat, r: nat :|
        && HasU32(buf, p + 10, |d.attributes|) && BlocksFrom(AttributeLayout, buf, p + 14, d.attributes, q)
        && HasU32(buf, q, |d.elements|) && BlocksFrom(ElementLayout, buf, q + 4, d.elements, r)
        && StringMapAt(buf, r, d.values) && StringMapAt(buf, r + StringMapSize(d.values), d.names)
        && end == r + StringMapSize(d.values) + StringMapSize(d.names);
      HeaderExact(buf, p, d, p + 10);
      BlockArraysExact(AttributeLayout, buf, p + 10, d.attributes, q);
      BlockArraysExact(ElementLayout, buf, q, d.elements, r);
      StringMapExact(buf, r, d.values, r + StringMapSize(d.values));
      StringMapExact(buf, r + StringMapSize(d.values), d.names, end);
    }
  }
}
