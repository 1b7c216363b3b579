/** `Datacenter::Serialize` as a method of the object it saves and loads. */
module DatacenterFile {
  import opened Wrappers
  import opened ByteStreams
  import opened Serialization
  import opened SerializedArrays
  import opened DatacenterFormat
  import opened DatacenterLayout
  import opened DatacenterLoads

  lemma CodecsStayInside()
    ensures StaysInside(AttributesCodec) && StaysInside(ElementsCodec) && StaysInside(StringBlockCodec) && StaysInside(IndicesCodec)
  {
    BlockArrayStaysInside(AttributeLayout);
    BlockArrayStaysInside(ElementLayout);
    forall buf: seq<byte>, pos: nat | pos <= |buf| < LIMIT && DecodeStringBlock(buf, pos).Some?
      ensures DecodeStringBlock(buf, pos).value.1 <= |buf|
    {
      var q := DecodeU16(buf, DecodeU16(buf, pos).value.1).value.1;
      AllStaysInside(CharCodec, buf, q, DecodeU16(buf, pos).value.0);
    }
  }

  /** Bytes that have every field of a well-formed datacenter at its offset decode to it. */
  lemma DecodesWhatIsThere(buf: seq<byte>, pos: nat)
    requires |buf| < LIMIT
    ensures forall d :: WellFormed(d) && DatacenterAt(buf, pos, d) ==> Decode(buf, pos) == Some((d, pos + DatacenterSize(d)))
    ensures forall d, end: nat :: DatacenterFrom(buf, pos, d, end) <==> Decode(buf, pos) == Some((d, end))
  {
    hide Encode, Decode, WellFormed, DatacenterAt, DatacenterSize, DatacenterFrom, At;
    forall d, end: nat ensures DatacenterFrom(buf, pos, d, end) <==> Decode(buf, pos) == Some((d, end)) {
      LoadsIff(buf, pos, d, end);
    }
    forall d | WellFormed(d) && DatacenterAt(buf, pos, d) ensures Decode(buf, pos) == Some((d, pos + DatacenterSize(d))) {
      DatacenterIff(buf, pos, d);
      LoadsWhatWasSaved(d, buf, pos);
    }
  }

  /** Only bytes from `from` up to `to` differ. */
  ghost predicate OutsideKept(before: seq<byte>, after: seq<byte>, from: nat, to: nat) {
    |after| == |before| && forall i :: 0 <= i < |before| && !(from <= i < to) ==> after[i] == before[i]
  }

  lemma SavedAt(buf: seq<byte>, pos: nat, d: Datacenter)
    requires pos + |Encode(d)| <= |buf|
    ensures OutsideKept(buf, Put(buf, pos, Encode(d)), pos, pos + |Encode(d)|)
    ensures WellFormed(d) ==> DatacenterAt(Put(buf, pos, Encode(d)), pos, d) && |Encode(d)| == DatacenterSize(d)
  {
    hide Encode, WellFormed, DatacenterAt, DatacenterSize;
    PutAside(buf, pos, Encode(d));
    if WellFormed(d) {
      DatacenterIff(Put(buf, pos, Encode(d)), pos, d);
    }
  }

  class DatacenterObject {
    var version: u32
    var formatVersion: u32
    var language: i16
    const attributes: SerializedArray<BlockArray<Attribute>>
    const elements: SerializedArray<BlockArray<Element>>
    const valueBlocks: SerializedArray<StringBlock>
    const valueEntries: SerializedArray<Indices>
    const nameBlocks: SerializedArray<StringBlock>
    const nameEntries: SerializedArray<Indices>

    ghost function Parts(): set<object> {
      {attributes, elements, valueBlocks, valueEntries, nameBlocks, nameEntries}
    }

    /** The members are objects of their own, none of them the stream. */
    ghost predicate Shape(s: Stream)
    {
      && attributes as object !in {elements, valueBlocks, valueEntries, nameBlocks, nameEntries, this, s, s.buffer}
      && elements as object !in {valueBlocks, valueEntries, nameBlocks, nameEntries, this, s, s.buffer}
      && valueBlocks as object !in {valueEntries, nameBlocks, nameEntries, this, s, s.buffer}
      && valueEntries as object !in {nameBlocks, nameEntries, this, s, s.buffer}
      && nameBlocks as object !in {nameEntries, this, s, s.buffer}
      && nameEntries as object !in {this, s, s.buffer} && this as object !in {s, s.buffer}
      && attributes.codec == AttributesCodec && elements.codec == ElementsCodec
      && valueBlocks.codec == StringBlockCodec && nameBlocks.codec == StringBlockCodec
      && valueEntries.codec == IndicesCodec && nameEntries.codec == IndicesCodec
    }

    ghost predicate Valid()
      reads attributes, elements, valueBlocks, valueEntries, nameBlocks, nameEntries
    {
      && attributes.Valid() && elements.Valid() && valueBlocks.Valid() && valueEntries.Valid()
      && nameBlocks.Valid() && nameEntries.Valid()
    }

    ghost function Value(): Datacenter
      reads this, attributes, elements, valueBlocks, valueEntries, nameBlocks, nameEntries
    {
      Datacenter(version, formatVersion, language, attributes.data, elements.data,
                 StringMap(valueBlocks.data, valueEntries.data), StringMap(nameBlocks.data, nameEntries.data))
    }

    constructor ()
      ensures Valid() && fresh(Parts())
      ensures Cleared()
      ensures forall s: Stream :: s !in Parts() && s.buffer !in Parts() && s as object != this && s.buffer as object != this ==> Shape(s)
    {
      CodecsStayInside();
      version, formatVersion, language := 0, 0, 0;
      attributes := new SerializedArray(AttributesCodec);
      elements := new SerializedArray(ElementsCodec);
      valueBlocks := new SerializedArray(StringBlockCodec);
      valueEntries := new SerializedArray(IndicesCodec);
      nameBlocks := new SerializedArray(StringBlockCodec);
      nameEntries := new SerializedArray(IndicesCodec);
    }

    ghost predicate Cleared()
      reads attributes, elements, valueBlocks, valueEntries, nameBlocks, nameEntries
    {
      && attributes.data == [] && elements.data == [] && valueBlocks.data == [] && valueEntries.data == []
      && nameBlocks.data == [] && nameEntries.data == []
    }

    /** `Clear` leaves the language as it was. */
    method Clear()
      requires Valid()
      modifies this, attributes, elements, valueBlocks, valueEntries, nameBlocks, nameEntries
      ensures Valid() && Cleared() && version == 0 && formatVersion == 0 && language == old(language)
    {
      version, formatVersion := 0, 0;
      attributes.Clear();
      elements.Clear();
      valueBlocks.Clear();
      valueEntries.Clear();
      nameBlocks.Clear();
      nameEntries.Clear();
    }

    /** Saving: the bytes of the whole datacenter are put at the position, if there is room for them,
        every field at its offset. */
    method Save(s: Stream)
      requires Shape(s) && Valid() && s.Valid() && s.position + |Encode(Value())| <= s.buffer.Length
      modifies s, s.buffer
      ensures s.Valid() && s.position == old(s.position) + |Encode(Value())|
      ensures s.buffer[..] == Put(old(s.buffer[..]), old(s.position), Encode(Value()))
      ensures OutsideKept(old(s.buffer[..]), s.buffer[..], old(s.position), s.position)
      ensures WellFormed(Value()) ==>
              DatacenterAt(s.buffer[..], old(s.position), Value()) && s.position == old(s.position) + DatacenterSize(Value())
    {
      hide Encode, EncodeHeader, EncodeArray, EncodeStringMap, Put, WellFormed, DatacenterAt, DatacenterSize, OutsideKept;
      ghost var d, buf, pos := Value(), s.buffer[..], s.position;
      ghost var front, vs, ns := EncodeHeader(d) + EncodeArray(AttributesCodec, d.attributes) + EncodeArray(ElementsCodec, d.elements),
                                 EncodeStringMap(d.values), EncodeStringMap(d.names);
      EncodeInOrder(d);
      SaveArrays(s);
      SaveStringMap(valueBlocks, valueEntries, s);
      PutTwice(buf, pos, front, vs);
      SaveStringMap(nameBlocks, nameEntries, s);
      PutTwice(buf, pos, front + vs, ns);
      SavedAt(buf, pos, d);
    }

    /** ... the header, the attributes and the elements. */
    method SaveArrays(s: Stream)
      requires Shape(s) && Valid() && s.Valid()
      requires s.position + 10 + |EncodeArray(AttributesCodec, attributes.data)| + |EncodeArray(ElementsCodec, elements.data)| <= s.buffer.Length
      modifies s, s.buffer
      ensures |EncodeHeader(Value())| == 10
      ensures var front := EncodeHeader(Value()) + EncodeArray(AttributesCodec, attributes.data) + EncodeArray(ElementsCodec, elements.data);
              && s.Valid() && s.position == old(s.position) + |front|
              && s.buffer[..] == Put(old(s.buffer[..]), old(s.position), front)
    {
      hide EncodeHeader, EncodeArray, Put;
      ghost var d, buf, pos := Value(), s.buffer[..], s.position;
      ghost var h, as_, es := EncodeHeader(d), EncodeArray(AttributesCodec, d.attributes), EncodeArray(ElementsCodec, d.elements);
      SaveHeader(s);
      attributes.Save(s);
      PutTwice(buf, pos, h, as_);
      elements.Save(s);
      PutTwice(buf, pos, h + as_, es);
    }

    lemma EncodeInOrder(d: Datacenter)
      ensures Encode(d) == EncodeHeader(d) + EncodeArray(AttributesCodec, d.attributes) + EncodeArray(ElementsCodec, d.elements)
                           + EncodeStringMap(d.values) + EncodeStringMap(d.names)
      ensures |EncodeHeader(d)| == 10
    {
      hide EncodeArray, EncodeStringMap;
    }

    /** `StringMap::Serialize`. */
    method SaveStringMap(blocks: SerializedArray<StringBlock>, entries: SerializedArray<Indices>, s: Stream)
      requires blocks.Valid() && entries.Valid() && blocks.codec == StringBlockCodec && entries.codec == IndicesCodec && s.Valid()
      requires blocks as object !in {s, s.buffer} && entries as object !in {s, s.buffer}
      requires s.position + |EncodeStringMap(StringMap(blocks.data, entries.data))| <= s.buffer.Length
      modifies s, s.buffer
      ensures s.Valid() && s.position == old(s.position) + |EncodeStringMap(StringMap(blocks.data, entries.data))|
      ensures s.buffer[..] == Put(old(s.buffer[..]), old(s.position), EncodeStringMap(StringMap(blocks.data, entries.data)))
    {
      hide EncodeArray, Put;
      PutTwice(s.buffer[..], s.position, EncodeArray(StringBlockCodec, blocks.data), EncodeArray(IndicesCodec, entries.data));
      blocks.Save(s);
      entries.Save(s);
    }

    method SaveHeader(s: Stream)
      requires Shape(s) && s.Valid() && s.position + 10 <= s.buffer.Length
      modifies s, s.buffer
      ensures s.Valid() && s.position == old(s.position) + 10
      ensures |EncodeHeader(Value())| == 10 && s.buffer[..] == Put(old(s.buffer[..]), old(s.position), EncodeHeader(Value()))
    {
      hide Bytes, Put;
      ghost var buf, pos := s.buffer[..], s.position;
      ghost var v, f, l := Bytes(version, 4), Bytes(formatVersion, 4), Bytes(Unsigned(language), 2);
      s.WriteT(version, 4);
      s.WriteT(formatVersion, 4);
      s.WriteT(Unsigned(language), 2);
      PutTwice(buf, pos, v, f);
      PutTwice(buf, pos, v + f, l);
      assert v + f + l == EncodeHeader(Value());
    }

    method LoadHeader(s: Stream) returns (ok: bool)
      requires Shape(s) && s.Valid()
      modifies this, s`position
      ensures s.Valid()
      ensures match DecodeHeader(s.buffer[..], old(s.position))
              case None => !ok
              case Some((h, end)) => ok && s.position == end && (version, formatVersion, language) == h
    {
      PowerOf2And4();
      var v := s.ReadT(4);
      if v == None {
        return false;
      }
      version := v.value;
      var f := s.ReadT(4);
      if f == None {
        return false;
      }
      formatVersion := f.value;
      var l := s.ReadT(2);
      if l == None {
        return false;
      }
      language := Signed(l.value);
      return true;
    }

    /** `StringMap::Serialize`. */
    method LoadStringMap(blocks: SerializedArray<StringBlock>, entries: SerializedArray<Indices>, s: Stream) returns (ok: bool)
      requires blocks.Valid() && entries.Valid() && blocks.codec == StringBlockCodec && entries.codec == IndicesCodec && s.Valid()
      requires blocks as object !in {s, s.buffer, entries} && entries as object !in {s, s.buffer}
      requires blocks.data == [] && entries.data == []
      modifies blocks, entries, s`position
      ensures s.Valid()
      ensures match DecodeStringMap(s.buffer[..], old(s.position))
              case None => !ok
              case Some((m, end)) => ok && s.position == end && StringMap(blocks.data, entries.data) == m
    {
      hide DecodeArray;
      ok := blocks.Load(s);
      if ok {
        ok := entries.Load(s);
      }
    }

    /** Loading into a cleared object succeeds exactly if there is a datacenter whose fields are at the offsets
        that follow from the position; it becomes that datacenter, and the position moves to its end. Bytes
        with the fields of a well-formed datacenter, wherever they come from, give that datacenter. */
    method Load(s: Stream) returns (ok: bool)
      requires Shape(s) && Valid() && Cleared() && s.Valid()
      modifies this, attributes, elements, valueBlocks, valueEntries, nameBlocks, nameEntries, s`position
      ensures s.Valid()
      ensures match Decode(s.buffer[..], old(s.position))
              case None => !ok
              case Some((d, end)) => ok && s.position == end && Value() == d
      ensures ok ==> DatacenterFrom(s.buffer[..], old(s.position), Value(), s.position)
      ensures !ok ==> forall d, end: nat :: !DatacenterFrom(s.buffer[..], old(s.position), d, end)
      ensures forall d :: WellFormed(d) && DatacenterAt(s.buffer[..], old(s.position), d) ==>
              ok && Value() == d && s.position == old(s.position) + DatacenterSize(d)
    {
      hide Decode, WellFormed, DatacenterAt, DatacenterSize, DatacenterFrom, Shape, Cleared;
      DecodesWhatIsThere(s.buffer[..], s.position);
      ok := LoadFields(s);
    }

    method LoadFields(s: Stream) returns (ok: bool)
      requires Shape(s) && Valid() && Cleared() && s.Valid()
      modifies this, attributes, elements, valueBlocks, valueEntries, nameBlocks, nameEntries, s`position
      ensures s.Valid()
      ensures match Decode(s.buffer[..], old(s.position))
              case None => !ok
              case Some((d, end)) => ok && s.position == end && Value() == d
    {
      hide DecodeHeader, DecodeArray, DecodeStringMap;
      ok := LoadHeader(s);
      if ok {
        ok := attributes.Load(s);
      }
      if ok {
        ok := elements.Load(s);
      }
      if ok {
        ok := LoadStringMap(valueBlocks, valueEntries, s);
      }
      if ok {
        ok := LoadStringMap(nameBlocks, nameEntries, s);
      }
    }
  }

  /** Saving one object and loading another, cleared one from where it was saved gives an equal object. */
  method SaveThenLoad(d: DatacenterObject, e: DatacenterObject, s: Stream) returns (ok: bool)
    requires d.Valid() && e.Valid() && s.Valid() && d.Shape(s) && e.Shape(s) && e.Cleared() && WellFormed(d.Value())
    requires d !in e.Parts() && e !in d.Parts() && d.Parts() !! e.Parts() && d != e
    requires s.position + |Encode(d.Value())| <= s.buffer.Length
    modifies s, s.buffer, e, e.Parts()
    ensures ok && e.Value() == d.Value() && d.Value() == old(d.Value())
    ensures s.position == old(s.position) + |Encode(d.Value())|
  {
    hide Encode, Decode, WellFormed, DatacenterAt, DatacenterSize, DatacenterFrom, Put;
    var start := s.position;
    d.Save(s);
    s.position := start;
    ok := e.Load(s);
  }
}
