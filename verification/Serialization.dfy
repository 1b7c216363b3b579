/** Arrays and block arrays of the binary format, for any kind of item. */
module Serialization {
  import opened Arithmetic
  import opened Wrappers
  import opened ByteStreams

  /** How an item is written, and how it is read at a position; reading says where it ends. */
  datatype Codec<!T> = Codec(encode: T -> seq<byte>, decode: (seq<byte>, nat) -> Option<(T, nat)>)

  /** Wherever `x` was written, it is read back from there, if `slack` more bytes follow. */
  ghost predicate Inverts<T(!new)>(c: Codec<T>, x: T, slack: nat) {
    forall buf: seq<byte>, pos: nat :: |buf| < LIMIT && At(buf, pos, c.encode(x)) && pos + |c.encode(x)| + slack <= |buf| ==>
      c.decode(buf, pos) == Some((x, pos + |c.encode(x)|))
  }

  /** Reading never leaves the buffer. */
  ghost predicate StaysInside<T>(c: Codec<T>) {
    forall buf: seq<byte>, pos: nat :: pos <= |buf| < LIMIT && c.decode(buf, pos).Some? ==> c.decode(buf, pos).value.1 <= |buf|
  }

  // ---- items one after the other

  function EncodeAll<T>(c: Codec<T>, items: seq<T>): seq<byte> {
    if items == [] then [] else EncodeAll(c, items[..|items| - 1]) + c.encode(items[|items| - 1])
  }

  function DecodeAll<T>(c: Codec<T>, buf: seq<byte>, pos: nat, n: nat): (r: Option<(seq<T>, nat)>)
    ensures r.Some? ==> |r.value.0| == n
  {
    if n == 0 then Some(([], pos))
    else match DecodeAll(c, buf, pos, n - 1)
      case None => None
      case Some((items, p)) =>
        match c.decode(buf, p)
        case None => None
        case Some((x, end)) => Some((items + [x], end))
  }

  lemma {:induction false} AllReadBack<T(!new)>(c: Codec<T>, items: seq<T>, slack: nat, buf: seq<byte>, pos: nat)
    requires |buf| < LIMIT && At(buf, pos, EncodeAll(c, items)) && pos + |EncodeAll(c, items)| + slack <= |buf|
    requires forall x :: x in items ==> Inverts(c, x, slack)
    ensures DecodeAll(c, buf, pos, |items|) == Some((items, pos + |EncodeAll(c, items)|))
  {
    hide At, Inverts, EncodeAll, DecodeAll;
    if items == [] {
      NothingReadsBack(c, buf, pos);
    } else {
      var front, last := items[..|items| - 1], items[|items| - 1];
      assert items == front + [last];
      EncodeAllStep(c, front, last);
      AtConcat(buf, pos, EncodeAll(c, front), c.encode(last));
      AllReadBack(c, front, slack, buf, pos);
      OneReadsBack(c, last, slack, buf, pos + |EncodeAll(c, front)|);
      DecodeAllStep(c, buf, pos, front, pos + |EncodeAll(c, front)|, last, pos + |EncodeAll(c, items)|);
    }
  }

  lemma NothingReadsBack<T>(c: Codec<T>, buf: seq<byte>, pos: nat)
    ensures EncodeAll(c, []) == [] && DecodeAll(c, buf, pos, 0) == Some(([], pos))
  {
  }

  lemma EncodeAllStep<T>(c: Codec<T>, front: seq<T>, last: T)
    ensures EncodeAll(c, front + [last]) == EncodeAll(c, front) + c.encode(last)
  {
    assert (front + [last])[..|front|] == front;
  }

  lemma DecodeAllStep<T>(c: Codec<T>, buf: seq<byte>, pos: nat, front: seq<T>, p: nat, last: T, end: nat)
    requires DecodeAll(c, buf, pos, |front|) == Some((front, p)) && c.decode(buf, p) == Some((last, end))
    ensures DecodeAll(c, buf, pos, |front + [last]|) == Some((front + [last], end))
  {
  }

  lemma OneReadsBack<T(!new)>(c: Codec<T>, x: T, slack: nat, buf: seq<byte>, pos: nat)
    requires |buf| < LIMIT && At(buf, pos, c.encode(x)) && pos + |c.encode(x)| + slack <= |buf| && Inverts(c, x, slack)
    ensures c.decode(buf, pos) == Some((x, pos + |c.encode(x)|))
  {
  }

  lemma {:induction false} EncodeAllConcat<T>(c: Codec<T>, a: seq<T>, b: seq<T>)
    ensures EncodeAll(c, a + b) == EncodeAll(c, a) + EncodeAll(c, b)
  {
    if b == [] {
      assert a + b == a;
    } else {
      assert (a + b)[..|a + b| - 1] == a + b[..|b| - 1];
      EncodeAllConcat(c, a, b[..|b| - 1]);
    }
  }

  // ---- arrays

  function EncodeArray<T>(c: Codec<T>, items: seq<T>): seq<byte> {
    Bytes(|items|, 4) + EncodeAll(c, items)
  }

  function DecodeArray<T>(c: Codec<T>, buf: seq<byte>, pos: nat): Option<(seq<T>, nat)> {
    match ValueAt(buf, pos, 4)
    case None => None
    case Some((count, p)) => DecodeAll(c, buf, p, count)
  }

  lemma ArrayReadsBack<T(!new)>(c: Codec<T>, items: seq<T>, slack: nat, buf: seq<byte>, pos: nat)
    requires |buf| < LIMIT && At(buf, pos, EncodeArray(c, items)) && pos + |EncodeArray(c, items)| + slack <= |buf|
    requires |items| < LIMIT && forall x :: x in items ==> Inverts(c, x, slack)
    ensures DecodeArray(c, buf, pos) == Some((items, pos + |EncodeArray(c, items)|))
  {
    PowerOf2And4();
    AtConcat(buf, pos, Bytes(|items|, 4), EncodeAll(c, items));
    ReadsBack(buf, pos, |items|, 4);
    AllReadBack(c, items, slack, buf, pos + 4);
  }

  // ---- block arrays

  /** `capacity` is `TotalBlockCount`; `TotalUsedBlockCount` is the number of items. */
  datatype BlockArray<T> = BlockArray(capacity: nat, items: seq<T>)

  /** What a block array needs to know of its items: the codec, the size of a serialized item that is
      declared, and the item that pads. */
  datatype Layout<!T> = Layout(codec: Codec<T>, size: nat, fallback: T)

  /** The declared size is the size of every item that is written. */
  ghost predicate SizeIsTrue<T>(l: Layout<T>, items: seq<T>) {
    |l.codec.encode(l.fallback)| == l.size && forall x :: x in items ==> |l.codec.encode(x)| == l.size
  }

  /** `TotalBlockCount - TotalUsedBlockCount` in 32 bits. */
  function Remaining(capacity: nat, used: nat): nat {
    (capacity - used) % LIMIT
  }

  function Padding<T>(l: Layout<T>, n: nat): seq<byte> {
    EncodeAll(l.codec, seq(n, _ => l.fallback))
  }

  function EncodeBlockArray<T>(l: Layout<T>, b: BlockArray<T>): seq<byte> {
    Bytes(b.capacity, 4) + Bytes(|b.items|, 4) + EncodeAll(l.codec, b.items) + Padding(l, Remaining(b.capacity, |b.items|))
  }

  /** The padding is not read but skipped, by the declared size. */
  function DecodeBlockArray<T>(l: Layout<T>, buf: seq<byte>, pos: nat): Option<(BlockArray<T>, nat)> {
    match ValueAt(buf, pos, 4)
    case None => None
    case Some((capacity, p)) =>
      match ValueAt(buf, p, 4)
      case None => None
      case Some((used, q)) =>
        match DecodeAll(l.codec, buf, q, used)
        case None => None
        case Some((items, r)) =>
          match Skipped(buf, r, Remaining(capacity, used) * l.size % LIMIT)
          case None => None
          case Some(end) => Some((BlockArray(capacity, items), end))
  }

  lemma {:induction false} PaddingSize<T>(l: Layout<T>, n: nat)
    requires |l.codec.encode(l.fallback)| == l.size
    ensures |Padding(l, n)| == n * l.size
  {
    if n > 0 {
      PaddingSize(l, n - 1);
      assert seq(n, _ => l.fallback)[..n - 1] == seq(n - 1, _ => l.fallback);
      MulDistributes(n - 1, 1, l.size);
    }
  }

  ghost predicate BlockArrayOk<T(!new)>(l: Layout<T>, b: BlockArray<T>) {
    && |b.items| <= b.capacity < LIMIT
    && |l.codec.encode(l.fallback)| == l.size
    && forall x :: x in b.items ==> Inverts(l.codec, x, 0)
  }

  /** Before its last step the loader has read back the capacity and the items. */
  lemma ReadsUpToPadding<T(!new)>(l: Layout<T>, b: BlockArray<T>, buf: seq<byte>, pos: nat) returns (r: nat)
    requires BlockArrayOk(l, b) && |buf| < LIMIT && At(buf, pos, EncodeBlockArray(l, b))
    ensures r == pos + 8 + |EncodeAll(l.codec, b.items)| <= |buf|
    ensures r + (b.capacity - |b.items|) * l.size == pos + |EncodeBlockArray(l, b)| <= |buf|
    ensures DecodeBlockArray(l, buf, pos) ==
            (match Skipped(buf, r, (b.capacity - |b.items|) * l.size % LIMIT)
             case None => None
             case Some(end) => Some((b, end)))
  {
    PowerOf2And4();
    var c, u, xs, rest := Bytes(b.capacity, 4), Bytes(|b.items|, 4), EncodeAll(l.codec, b.items), b.capacity - |b.items|;
    Remainder(rest, LIMIT, 0, rest);
    PaddingSize(l, rest);
    AtConcat(buf, pos, c + u + xs, Padding(l, rest));
    AtConcat(buf, pos, c + u, xs);
    AtConcat(buf, pos, c, u);
    ReadsBack(buf, pos, b.capacity, 4);
    ReadsBack(buf, pos + 4, |b.items|, 4);
    AllReadBack(l.codec, b.items, 0, buf, pos + 8);
    r := pos + 8 + |xs|;
  }

  /** A block array that was saved is loaded again, and exactly its bytes are consumed, if and only if
      something follows it in the buffer: at the end of the buffer the skip over the padding fails. */
  lemma BlockArrayReadsBackIff<T(!new)>(l: Layout<T>, b: BlockArray<T>, buf: seq<byte>, pos: nat)
    requires BlockArrayOk(l, b) && |buf| < LIMIT && At(buf, pos, EncodeBlockArray(l, b))
    ensures DecodeBlockArray(l, buf, pos) == Some((b, pos + |EncodeBlockArray(l, b)|)) <==> pos + |EncodeBlockArray(l, b)| < |buf|
    ensures pos + |EncodeBlockArray(l, b)| == |buf| ==> DecodeBlockArray(l, buf, pos) == None
  {
    var r := ReadsUpToPadding(l, b, buf, pos);
    var amount := (b.capacity - |b.items|) * l.size;
    MulGrows(0, b.capacity - |b.items|, l.size);
    Remainder(amount, LIMIT, 0, amount);
    TryForwardWithinTheBuffer(buf, r, amount);
  }

  /** From behind `used` items the skip over the padding leads, in 32 bits, to where the capacity ends; if more
      items are in use than the capacity allows, it leads back. */
  lemma SkipOfPadding(capacity: nat, used: nat, size: nat, pos: nat)
    requires capacity < LIMIT && used < LIMIT
    ensures (pos + size * used + Remaining(capacity, used) * size % LIMIT) % LIMIT == (pos + size * capacity) % LIMIT
  {
    var k := if used <= capacity then 0 else 1;
    Remainder(capacity - used, LIMIT, -k, capacity - used + k * LIMIT);
    var rest := Remaining(capacity, used);
    assert rest == capacity - used + k * LIMIT;
    MulDistributes(capacity - used, k * LIMIT, size);
    var u: int := used;
    MulDistributes(capacity, -u, size);
    MulAssoc(size, k, LIMIT);
    var q, r := rest * size / LIMIT, rest * size % LIMIT;
    assert rest * size == q * LIMIT + r;
    var a, b := (pos + size * capacity) / LIMIT, (pos + size * capacity) % LIMIT;
    assert pos + size * capacity == a * LIMIT + b;
    assert pos + size * used + rest * size == a * LIMIT + b + size * k * LIMIT;
    MulDistributes(size * k, -q, LIMIT);
    MulDistributes(size * k - q, a, LIMIT);
    Remainder(pos + size * used + r, LIMIT, size * k - q + a, b);
  }

  function BlockArrayCodec<T>(l: Layout<T>): Codec<BlockArray<T>> {
    Codec((b: BlockArray<T>) => EncodeBlockArray(l, b), (buf: seq<byte>, pos: nat) => DecodeBlockArray(l, buf, pos))
  }

  lemma BlockArrayInverts<T(!new)>(l: Layout<T>, b: BlockArray<T>)
    requires BlockArrayOk(l, b)
    ensures Inverts(BlockArrayCodec(l), b, 1)
  {
    forall buf: seq<byte>, pos: nat | |buf| < LIMIT && At(buf, pos, EncodeBlockArray(l, b)) && pos + |EncodeBlockArray(l, b)| + 1 <= |buf|
      ensures DecodeBlockArray(l, buf, pos) == Some((b, pos + |EncodeBlockArray(l, b)|))
    {
      BlockArrayReadsBackIff(l, b, buf, pos);
    }
  }

  lemma {:induction false} AllStaysInside<T>(c: Codec<T>, buf: seq<byte>, pos: nat, n: nat)
    requires StaysInside(c) && pos <= |buf| < LIMIT && DecodeAll(c, buf, pos, n).Some?
    ensures DecodeAll(c, buf, pos, n).value.1 <= |buf|
  {
    if n > 0 {
      AllStaysInside(c, buf, pos, n - 1);
    }
  }

  lemma BlockArrayStaysInside<T>(l: Layout<T>)
    ensures StaysInside(BlockArrayCodec(l))
  {
  }
}
