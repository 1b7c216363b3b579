/** `Array` and `BlockArray` as the objects whose `Serialize` saves to and loads from a stream. */
module SerializedArrays {
  import opened Arithmetic
  import opened Wrappers
  import opened ByteStreams
  import opened Serialization

  lemma {:induction false} OnceNoneAlwaysNone<T>(c: Codec<T>, buf: seq<byte>, pos: nat, m: nat, n: nat)
    requires m <= n && DecodeAll(c, buf, pos, m) == None
    ensures DecodeAll(c, buf, pos, n) == None
  {
    if m < n {
      OnceNoneAlwaysNone(c, buf, pos, m, n - 1);
    }
  }

  lemma {:induction false} SavedSize<T>(c: Codec<T>, items: seq<T>, i: nat)
    requires i <= |items|
    ensures |EncodeAll(c, items[..i])| <= |EncodeAll(c, items)|
    ensures i < |items| ==> EncodeAll(c, items[..i + 1]) == EncodeAll(c, items[..i]) + c.encode(items[i])
  {
    assert items == items[..i] + items[i..];
    EncodeAllConcat(c, items[..i], items[i..]);
    if i < |items| {
      assert items[..i + 1][..i] == items[..i];
    }
  }

  lemma NothingSaved<T>(c: Codec<T>, buf: seq<byte>, pos: nat)
    requires pos <= |buf|
    ensures EncodeAll(c, []) == [] && Put(buf, pos, []) == buf
  {
  }

  /** The loop that saves the items; the caller sees to it that they fit. */
  method SaveAll<T>(c: Codec<T>, items: seq<T>, s: Stream)
    requires s.Valid() && s.position + |EncodeAll(c, items)| <= s.buffer.Length
    modifies s, s.buffer
    ensures s.Valid() && s.position == old(s.position) + |EncodeAll(c, items)|
    ensures s.buffer[..] == Put(old(s.buffer[..]), old(s.position), EncodeAll(c, items))
  {
    hide EncodeAll, Put;
    NothingSaved(c, s.buffer[..], s.position);
    assert items[..0] == [];
    for i := 0 to |items|
      invariant s.Valid() && s.position == old(s.position) + |EncodeAll(c, items[..i])|
      invariant s.position <= old(s.position) + |EncodeAll(c, items)|
      invariant s.buffer[..] == Put(old(s.buffer[..]), old(s.position), EncodeAll(c, items[..i]))
    {
      SavedSize(c, items, i);
      SavedSize(c, items, i + 1);
      PutTwice(old(s.buffer[..]), old(s.position), EncodeAll(c, items[..i]), c.encode(items[i]));
      s.Store(c.encode(items[i]));
    }
    assert items[..|items|] == items;
  }

  /** The loop that loads `n` items. */
  method LoadAll<T>(c: Codec<T>, n: nat, s: Stream) returns (r: Option<seq<T>>)
    requires s.Valid() && StaysInside(c)
    modifies s`position
    ensures s.Valid()
    ensures match DecodeAll(c, s.buffer[..], old(s.position), n)
            case None => r == None
            case Some((items, end)) => r == Some(items) && s.position == end
  {
    var items: seq<T> := [];
    for i := 0 to n
      invariant s.Valid() && DecodeAll(c, s.buffer[..], old(s.position), i) == Some((items, s.position))
    {
      var next := c.decode(s.buffer[..], s.position);
      if next == None {
        OnceNoneAlwaysNone(c, s.buffer[..], old(s.position), i + 1, n);
        return None;
      }
      items := items + [next.value.0];
      s.position := next.value.1;
    }
    r := Some(items);
  }

  /** `Array<T>`; `count` is kept beside the vector. */
  class SerializedArray<T(!new)> {
    const codec: Codec<T>
    var count: nat
    var data: seq<T>

    ghost predicate Valid()
      reads this
    {
      count == |data| < LIMIT && StaysInside(codec)
    }

    constructor (codec: Codec<T>)
      requires StaysInside(codec)
      ensures Valid() && this.codec == codec && data == []
    {
      this.codec, count, data := codec, 0, [];
    }

    method Clear()
      modifies this
      ensures count == 0 && data == [] && (StaysInside(codec) ==> Valid())
    {
      data, count := [], 0;
    }

    method AddItem(x: T)
      requires Valid()
      modifies this
      ensures data == old(data) + [x] && count == (old(count) + 1) % LIMIT
      ensures old(count) + 1 < LIMIT ==> Valid()
    {
      data := data + [x];
      count := (count + 1) % LIMIT;
    }

    method Save(s: Stream)
      requires Valid() && s.Valid() && s.position + |EncodeArray(codec, data)| <= s.buffer.Length
      modifies s, s.buffer
      ensures s.Valid() && s.position == old(s.position) + |EncodeArray(codec, data)|
      ensures s.buffer[..] == Put(old(s.buffer[..]), old(s.position), EncodeArray(codec, data))
    {
      PutTwice(s.buffer[..], s.position, Bytes(count, 4), EncodeAll(codec, data));
      s.WriteT(count, 4);
      SaveAll(codec, data, s);
    }

    /** The loaded items go behind those that are there: only a cleared array becomes what was saved. */
    method Load(s: Stream) returns (ok: bool)
      requires s.Valid() && StaysInside(codec)
      modifies this, s`position
      ensures s.Valid()
      ensures match DecodeArray(codec, s.buffer[..], old(s.position))
              case None => !ok
              case Some((items, end)) => ok && s.position == end && count == |items| && data == old(data) + items
    {
      var n := s.ReadT(4);
      if n == None {
        return false;
      }
      count := n.value;
      var items := LoadAll(codec, count, s);
      if items == None {
        return false;
      }
      data := data + items.value;
      return true;
    }
  }

  /** `BlockArray<T>`: an array that is padded up to its capacity. */
  class SerializedBlockArray<T(!new)> {
    const layout: Layout<T>
    var totalBlockCount: nat
    var totalUsedBlockCount: nat
    var data: seq<T>

    ghost predicate Valid()
      reads this
    {
      && totalUsedBlockCount == |data| <= totalBlockCount < LIMIT
      && StaysInside(layout.codec) && |layout.codec.encode(layout.fallback)| == layout.size
    }

    ghost function Value(): BlockArray<T>
      reads this
    {
      BlockArray(totalBlockCount, data)
    }

    constructor (layout: Layout<T>)
      requires StaysInside(layout.codec) && |layout.codec.encode(layout.fallback)| == layout.size
      ensures Valid() && this.layout == layout && Value() == BlockArray(0, [])
    {
      this.layout, totalBlockCount, totalUsedBlockCount, data := layout, 0, 0, [];
    }

    method Clear()
      modifies this
      ensures Value() == BlockArray(0, []) && totalUsedBlockCount == 0
    {
      data, totalBlockCount, totalUsedBlockCount := [], 0, 0;
    }

    method SetMaxSize(n: nat)
      requires Valid() && data == [] && n < LIMIT
      modifies this
      ensures Valid() && Value() == BlockArray(n, [])
    {
      totalBlockCount := n;
    }

    function CanFit(n: nat): (r: bool)
      requires Valid()
      reads this
      ensures r <==> |data| + n <= totalBlockCount
    {
      totalBlockCount - totalUsedBlockCount >= n
    }

    /** An item is refused exactly when the capacity is used up, unless the used count is the largest
        32-bit number, where the sum wraps. */
    method AddItem(x: T) returns (ok: bool)
      requires Valid()
      modifies this
      ensures ok <==> old(CanFit(1)) || old(totalUsedBlockCount) == LIMIT - 1
      ensures Value() == if ok then BlockArray(totalBlockCount, old(data) + [x]) else old(Value())
      ensures totalBlockCount == old(totalBlockCount)
      ensures old(totalUsedBlockCount) < LIMIT - 1 ==> Valid()
    {
      if (totalUsedBlockCount + 1) % LIMIT > totalBlockCount {
        return false;
      }
      data := data + [x];
      totalUsedBlockCount := (totalUsedBlockCount + 1) % LIMIT;
      return true;
    }

    method Save(s: Stream)
      requires Valid() && s.Valid() && s.position + |EncodeBlockArray(layout, Value())| <= s.buffer.Length
      modifies s, s.buffer
      ensures s.Valid() && s.position == old(s.position) + |EncodeBlockArray(layout, Value())|
      ensures s.buffer[..] == Put(old(s.buffer[..]), old(s.position), EncodeBlockArray(layout, Value()))
    {
      var rest := Remaining(totalBlockCount, totalUsedBlockCount);
      ghost var buf, pos := s.buffer[..], s.position;
      ghost var c, u, xs, pad := Bytes(totalBlockCount, 4), Bytes(totalUsedBlockCount, 4), EncodeAll(layout.codec, data), Padding(layout, rest);
      PutTwice(buf, pos, c, u);
      PutTwice(buf, pos, c + u, xs);
      PutTwice(buf, pos, c + u + xs, pad);
      s.WriteT(totalBlockCount, 4);
      s.WriteT(totalUsedBlockCount, 4);
      SaveAll(layout.codec, data, s);
      SaveAll(layout.codec, seq(rest, _ => layout.fallback), s);
    }

    method Load(s: Stream) returns (ok: bool)
      requires s.Valid() && StaysInside(layout.codec)
      modifies this, s`position
      ensures s.Valid()
      ensures match DecodeBlockArray(layout, s.buffer[..], old(s.position))
              case None => !ok
              case Some((b, end)) =>
                ok && s.position == end && totalUsedBlockCount == |b.items| && Value() == BlockArray(b.capacity, old(data) + b.items)
    {
      var total := s.ReadT(4);
      if total == None {
        return false;
      }
      totalBlockCount := total.value;
      var used := s.ReadT(4);
      if used == None {
        return false;
      }
      totalUsedBlockCount := used.value;
      var items := LoadAll(layout.codec, totalUsedBlockCount, s);
      if items == None {
        return false;
      }
      data := data + items.value;
      var rest := Remaining(totalBlockCount, totalUsedBlockCount);
      ok := s.TryForward(rest * layout.size % LIMIT);
    }
  }
}
