/** A buffer with a position: what `WriteT` puts at the position, `ReadT` reads back from there. */
module ByteStreams {
  import opened Arithmetic
  import opened Wrappers

  type byte = x: int | 0 <= x < 256

  /** Positions and lengths are 32 bits wide. */
  const LIMIT := 0x1_0000_0000

  function Power(width: nat): (p: nat)
    ensures p > 0
  {
    if width == 0 then 1 else 256 * Power(width - 1)
  }

  /** The `width` low bytes of a number, low byte first. */
  function Bytes(n: nat, width: nat): (bs: seq<byte>)
    ensures |bs| == width
  {
    if width == 0 then [] else [n % 256] + Bytes(n / 256, width - 1)
  }

  function Number(bs: seq<byte>): (n: nat)
    ensures n < Power(|bs|)
  {
    if bs == [] then 0 else bs[0] + 256 * Number(bs[1..])
  }

  lemma {:induction false} NumberOfBytes(n: nat, width: nat)
    ensures Number(Bytes(n, width)) == n % Power(width)
  {
    if width > 0 {
      NumberOfBytes(n / 256, width - 1);
      LowByte(n, Power(width - 1));
      assert Bytes(n, width)[1..] == Bytes(n / 256, width - 1);
    }
  }

  lemma LowByte(n: nat, p: nat)
    requires p > 0
    ensures n % (256 * p) == n % 256 + 256 * (n / 256 % p)
  {
    var q, r := n / 256 / p, n / 256 % p;
    assert n / 256 == q * p + r;
    assert q * (256 * p) == 256 * (q * p);
    Remainder(n, 256 * p, q, 256 * r + n % 256);
  }

  /** The byte at `i` is the digit of weight 256 to the power of `i`. */
  lemma {:induction false} ByteAt(n: nat, width: nat, i: nat)
    requires i < width
    ensures Bytes(n, width)[i] == n / Power(i) % 256
  {
    if i > 0 {
      ByteAt(n / 256, width - 1, i - 1);
      DivTwice(n, Power(i - 1));
    }
  }

  lemma DivTwice(n: nat, p: nat)
    requires p > 0
    ensures n / 256 / p == n / (256 * p)
  {
    var q, r := n / 256 / p, n / 256 % p;
    assert n / 256 == q * p + r;
    assert q * (256 * p) == 256 * (q * p);
    Remainder(n, 256 * p, q, 256 * r + n % 256);
  }

  /** Reading determines the number: it has the bytes as its digits. */
  lemma {:induction false} BytesOfNumber(bs: seq<byte>)
    ensures Bytes(Number(bs), |bs|) == bs
  {
    if bs != [] {
      BytesOfNumber(bs[1..]);
      Remainder(Number(bs), 256, Number(bs[1..]), bs[0]);
      assert bs == [bs[0]] + bs[1..];
    }
  }

  lemma Digits(bs: seq<byte>)
    ensures forall i :: 0 <= i < |bs| ==> bs[i] == Number(bs) / Power(i) % 256
  {
    hide Number, Power, Bytes;
    BytesOfNumber(bs);
    forall i | 0 <= i < |bs| ensures bs[i] == Number(bs) / Power(i) % 256 {
      ByteAt(Number(bs), |bs|, i);
    }
  }

  lemma PowerOf2And4()
    ensures Power(2) == 0x1_0000 && Power(4) == LIMIT
  {
    assert Power(3) == 0x100_0000;
  }

  // ---- reading at a position

  /** The bytes `bs` are in the buffer at `pos`. */
  ghost predicate At(buf: seq<byte>, pos: nat, bs: seq<byte>) {
    pos + |bs| <= |buf| && buf[pos..pos + |bs|] == bs
  }

  /** `ReadT` of a type of `width` bytes; beyond the end its assertion stops the program. */
  function ValueAt(buf: seq<byte>, pos: nat, width: nat): Option<(nat, nat)> {
    if pos + width <= |buf| then Some((Number(buf[pos..pos + width]), pos + width)) else None
  }

  /** `TryForward`: the sum wraps, and a skip that ends exactly at the end of the buffer fails. */
  function Skipped(buf: seq<byte>, pos: nat, amount: nat): Option<nat> {
    var result := (pos + amount) % LIMIT;
    if result < |buf| then Some(result) else None
  }

  function BytesAt(buf: seq<byte>, pos: nat, size: nat): Option<(seq<byte>, nat)> {
    if pos + size <= |buf| then Some((buf[pos..pos + size], pos + size)) else None
  }

  lemma ReadsBack(buf: seq<byte>, pos: nat, n: nat, width: nat)
    requires At(buf, pos, Bytes(n, width)) && n < Power(width)
    ensures ValueAt(buf, pos, width) == Some((n, pos + width))
  {
    NumberOfBytes(n, width);
    Remainder(n, Power(width), 0, n);
  }

  /** Consecutive pieces are where one expects them. */
  lemma AtConcat(buf: seq<byte>, pos: nat, a: seq<byte>, b: seq<byte>)
    ensures At(buf, pos, a + b) <==> At(buf, pos, a) && At(buf, pos + |a|, b)
  {
    if At(buf, pos, a + b) {
      assert buf[pos..pos + |a|] == (a + b)[..|a|];
      assert buf[pos + |a|..pos + |a| + |b|] == (a + b)[|a|..];
    }
    if At(buf, pos, a) && At(buf, pos + |a|, b) {
      assert buf[pos..pos + |a + b|] == buf[pos..pos + |a|] + buf[pos + |a|..pos + |a| + |b|];
    }
  }

  /** `buf` with `bs` put at `pos`. */
  function Put(buf: seq<byte>, pos: nat, bs: seq<byte>): (r: seq<byte>)
    requires pos + |bs| <= |buf|
    ensures |r| == |buf| && r[pos..pos + |bs|] == bs
  {
    buf[..pos] + bs + buf[pos + |bs|..]
  }

  lemma PutTwice(buf: seq<byte>, pos: nat, a: seq<byte>, b: seq<byte>)
    requires pos + |a| + |b| <= |buf|
    ensures Put(Put(buf, pos, a), pos + |a|, b) == Put(buf, pos, a + b)
  {
  }

  lemma PutAside(buf: seq<byte>, pos: nat, bs: seq<byte>)
    requires pos + |bs| <= |buf|
    ensures forall i :: 0 <= i < |buf| && !(pos <= i < pos + |bs|) ==> Put(buf, pos, bs)[i] == buf[i]
    ensures At(Put(buf, pos, bs), pos, bs)
  {
  }

  /** The stream object; `buffer` is the memory behind it. */
  class Stream {
    const buffer: array<byte>
    var position: nat

    ghost predicate Valid()
      reads this, buffer
    {
      position <= buffer.Length < LIMIT
    }

    constructor (buffer: array<byte>)
      requires buffer.Length < LIMIT
      ensures Valid() && this.buffer == buffer && position == 0
    {
      this.buffer, position := buffer, 0;
    }

    /** `WriteT`; the caller sees to it that the value fits. */
    method WriteT(n: nat, width: nat)
      requires Valid() && position + width <= buffer.Length
      modifies this, buffer
      ensures Valid() && position == old(position) + width
      ensures buffer[..] == Put(old(buffer[..]), old(position), Bytes(n, width))
      ensures forall i :: 0 <= i < buffer.Length ==>
              buffer[i] == if old(position) <= i < position then n / Power(i - old(position)) % 256 else old(buffer[i])
    {
      Store(Bytes(n, width));
      forall i | 0 <= i < width ensures Bytes(n, width)[i] == n / Power(i) % 256 {
        ByteAt(n, width, i);
      }
      assert forall i :: 0 <= i < buffer.Length ==> buffer[i] == buffer[..][i];
    }

    method Store(bs: seq<byte>)
      requires Valid() && position + |bs| <= buffer.Length
      modifies this, buffer
      ensures Valid() && position == old(position) + |bs|
      ensures buffer[..] == Put(old(buffer[..]), old(position), bs)
    {
      for i := 0 to |bs|
        invariant Valid() && position == old(position)
        invariant buffer[..] == Put(old(buffer[..]), position, bs[..i])
      {
        assert bs[..i + 1] == bs[..i] + [bs[i]];
        buffer[position + i] := bs[i];
      }
      assert bs[..|bs|] == bs;
      position := position + |bs|;
    }

    /** `Write`: all of the bytes, or none; at the end of the buffer it reports success all the same. */
    method Write(bs: seq<byte>) returns (ok: bool)
      requires Valid() && bs != []
      modifies this, buffer
      ensures Valid() && (ok <==> old(position) + |bs| <= buffer.Length || old(position) == buffer.Length)
      ensures if old(position) + |bs| <= buffer.Length
              then position == old(position) + |bs| && buffer[..] == Put(old(buffer[..]), old(position), bs)
              else position == old(position) && buffer[..] == old(buffer[..])
    {
      if position == buffer.Length {
        return true;
      }
      if |bs| > buffer.Length - position {
        return false;
      }
      Store(bs);
      return true;
    }

    method ReadT(width: nat) returns (r: Option<nat>)
      requires Valid()
      modifies this`position
      ensures Valid()
      ensures match ValueAt(buffer[..], old(position), width)
              case None => r == None && position == old(position)
              case Some((n, end)) => r == Some(n) && position == end
      ensures r.Some? <==> old(position) + width <= buffer.Length
      ensures r.Some? ==> r.value < Power(width)
                          && forall i :: 0 <= i < width ==> buffer[old(position) + i] == r.value / Power(i) % 256
    {
      hide Number, Power;
      if position + width > buffer.Length {
        return None;
      }
      position := position + width;
      r := Some(Number(buffer[position - width..position]));
      assert buffer[..][position - width..position] == buffer[position - width..position];
      Digits(buffer[position - width..position]);
    }

    method TryForward(amount: nat) returns (fits: bool)
      requires Valid() && amount < LIMIT
      modifies this`position
      ensures Valid()
      ensures match Skipped(buffer[..], old(position), amount)
              case None => !fits && position == old(position)
              case Some(end) => fits && position == end
      ensures old(position) + amount < LIMIT ==>
              (fits <==> amount < buffer.Length - old(position)) && (fits ==> position == old(position) + amount)
      ensures old(position) + amount >= LIMIT ==>
              (fits <==> old(position) + amount - LIMIT < buffer.Length) && (fits ==> position == old(position) + amount - LIMIT)
    {
      ghost var wraps := if position + amount < LIMIT then 0 else 1;
      Remainder(position + amount, LIMIT, wraps, position + amount - wraps * LIMIT);
      var result := (position + amount) % LIMIT;
      fits := result < buffer.Length;
      if fits {
        position := result;
      }
    }

    method Read(size: nat) returns (r: Option<seq<byte>>)
      requires Valid()
      modifies this`position
      ensures Valid()
      ensures match BytesAt(buffer[..], old(position), size)
              case None => r == None && position == old(position)
              case Some((bs, end)) => r == Some(bs) && position == end
      ensures r.Some? <==> old(position) + size <= buffer.Length
      ensures r.Some? ==> position == old(position) + size && |r.value| == size && forall i :: 0 <= i < size ==> r.value[i] == buffer[old(position) + i]
    {
      if position + size > buffer.Length {
        return None;
      }
      r := Some(buffer[position..position + size]);
      position := position + size;
      assert buffer[..][position - size..position] == buffer[position - size..position];
    }
  }

  /** `TryForward` promises to fail when less than the amount remains; it also fails when exactly the
      amount remains, and only then differs from its promise. */
  lemma TryForwardWithinTheBuffer(buf: seq<byte>, pos: nat, amount: nat)
    requires pos <= |buf| < LIMIT && pos + amount < LIMIT
    ensures Skipped(buf, pos, amount) == (if amount < |buf| - pos then Some(pos + amount) else None)
  {
    Remainder(pos + amount, LIMIT, 0, pos + amount);
  }
}
