/** `LocalObjectPool` and `ObjectPool` in their locked and unsynchronised variants: a ring of blocks
    from which `Allocate` takes at `HeadPosition` and to which `Deallocate` returns at `TailPosition`. */
module ObjectPool {
  import opened Arithmetic
  import opened Masks
  import opened Wrappers

  /** The address of a block. */
  type Block = nat

  /** After `a` allocations and `d` deallocations: the empty slots are exactly the positions from `d` up
      to `a`, and the others hold, each once, the blocks that no caller has. */
  ghost predicate ExactRing(slots: seq<Option<Block>>, a: nat, d: nat, owned: set<Block>, outstanding: set<Block>) {
    && |slots| > 0 && |owned| == |slots| && outstanding <= owned
    && d <= a == d + |outstanding| <= d + |slots|
    && (forall n: nat :: d <= n < a ==> slots[n % |slots|] == None)
    && (forall n: nat :: a <= n < d + |slots| ==> slots[n % |slots|].Some?)
    && (forall i :: 0 <= i < |slots| && slots[i].Some? ==> slots[i].value in owned - outstanding)
    && (forall i, j :: 0 <= i < j < |slots| && slots[i].Some? ==> slots[i] != slots[j])
  }

  lemma EmptyWhenAllAreOut(slots: seq<Option<Block>>, a: nat, d: nat, owned: set<Block>, outstanding: set<Block>)
    requires ExactRing(slots, a, d, owned, outstanding)
    ensures |slots| > 0 && (slots[a % |slots|] == None <==> |outstanding| == |slots|)
    ensures |outstanding| < |slots| ==> a < d + |slots|
    ensures slots[a % |slots|].Some? ==> |outstanding| < |slots|
  {
    if a == d + |slots| {
      Remainder(a, |slots|, d / |slots| + 1, d % |slots|);
    }
  }

  lemma RingSize(slots: seq<Option<Block>>, a: nat, d: nat, owned: set<Block>, outstanding: set<Block>)
    requires ExactRing(slots, a, d, owned, outstanding)
    ensures |slots| > 0 && d <= a == d + |outstanding| <= d + |slots|
  {
  }

  lemma TakingKeepsExact(slots: seq<Option<Block>>, a: nat, d: nat, owned: set<Block>, outstanding: set<Block>)
    requires ExactRing(slots, a, d, owned, outstanding) && a < d + |slots|
    ensures slots[a % |slots|].Some? && slots[a % |slots|].value in owned - outstanding
    ensures ExactRing(slots[a % |slots| := None], a + 1, d, owned, outstanding + {slots[a % |slots|].value})
  {
    var i := a % |slots|;
    forall n: nat | a < n < d + |slots| ensures n % |slots| != i {
      DistinctRemainders(a, n, |slots|);
    }
  }

  lemma ReturningKeepsExact(slots: seq<Option<Block>>, a: nat, d: nat, owned: set<Block>, outstanding: set<Block>, block: Block)
    requires ExactRing(slots, a, d, owned, outstanding) && block in outstanding
    ensures slots[d % |slots|] == None
    ensures ExactRing(slots[d % |slots| := Some(block)], a, d + 1, owned, outstanding - {block})
  {
    var i := d % |slots|;
    assert outstanding != {};
    forall n: nat | d < n < d + |slots| ensures n % |slots| != i {
      DistinctRemainders(d, n, |slots|);
    }
    Remainder(d + |slots|, |slots|, d / |slots| + 1, i);
  }

  /** The bound is needed: after one allocation too many and one deallocation the next allocation
      asks the OS although the pool holds a block. */
  lemma OverflowIsNotForgotten(slots: seq<Option<Block>>, a: nat, d: nat, owned: set<Block>, outstanding: set<Block>, block: Block)
    requires ExactRing(slots, a, d, owned, outstanding) && |outstanding| == |slots| >= 2
    ensures var after := slots[a % |slots| := None][d % |slots| := Some(block)];
            Some(block) in after && after[(a + 1) % |slots|] == None
  {
    EmptyWhenAllAreOut(slots, a, d, owned, outstanding);
    Remainder(a + 1, |slots|, (d + 1) / |slots| + 1, (d + 1) % |slots|);
    DistinctRemainders(d, d + 1, |slots|);
    assert d < d + 1 < a;
    var after := slots[a % |slots| := None][d % |slots| := Some(block)];
    assert after[d % |slots|] == Some(block);
  }

  function Members(xs: seq<Block>): set<Block> {
    set x | x in xs
  }

  lemma {:induction false} SetOfValues(slots: seq<Option<Block>>)
    requires forall i :: 0 <= i < |slots| ==> slots[i].Some?
    requires forall i, j :: 0 <= i < j < |slots| ==> slots[i] != slots[j]
    ensures |Members(Values(slots))| == |slots|
  {
    if slots != [] {
      var front, last := slots[..|slots| - 1], slots[|slots| - 1];
      SetOfValues(front);
      ValuesContain(front, last.value);
      assert last !in front;
      assert Members(Values(slots)) == Members(Values(front)) + {last.value};
    }
  }

  lemma NextPosition(n: nat)
    ensures (n % WORD + 1) % WORD == (n + 1) % WORD
  {
  }

  lemma FullIsExact(slots: seq<Option<Block>>, a: nat)
    requires |slots| > 0 && forall i :: 0 <= i < |slots| ==> slots[i].Some?
    requires forall i, j :: 0 <= i < j < |slots| ==> slots[i] != slots[j]
    ensures ExactRing(slots, a, a, Members(Values(slots)), {})
  {
    SetOfValues(slots);
    forall i | 0 <= i < |slots| ensures slots[i].value in Values(slots) {
      ValuesContain(slots, slots[i].value);
    }
  }

  class Pool {
    const bits: nat
    const mask: nat
    const pool: array<Option<Block>>
    var headPosition: nat
    var tailPosition: nat
    /** Since the pool was preallocated: how often `Allocate` and `Deallocate` were called, and the
        blocks that were preallocated and that are with callers. */
    ghost var allocations: nat
    ghost var deallocations: nat
    ghost var owned: set<Block>
    ghost var outstanding: set<Block>

    function Size(): (n: nat)
      ensures n > 0
    {
      Pow2(bits)
    }

    /** The counters are 64 bits wide. */
    ghost predicate Shape()
      reads this, pool
    {
      && bits <= 64 && pool.Length == Size() && mask == Size() - 1
      && headPosition == allocations % WORD && tailPosition == deallocations % WORD
    }

    ghost predicate Exact()
      reads this, pool
    {
      Shape() && ExactRing(pool[..], allocations, deallocations, owned, outstanding)
    }

    constructor (bits: nat)
      requires bits <= 64
      ensures Shape() && this.bits == bits && headPosition == 0 && tailPosition == 0
      ensures forall i :: 0 <= i < pool.Length ==> pool[i] == None
      ensures fresh(pool) && allocations == 0 && deallocations == 0
    {
      this.bits, mask := bits, Pow2(bits) - 1;
      pool := new Option<Block>[Pow2(bits)](_ => None);
      headPosition, tailPosition, allocations, deallocations, owned, outstanding := 0, 0, 0, 0, {}, {};
    }

    /** The position `Pos & MyPoolMask`, also when the counter has wrapped. */
    function Position(counter: nat, ghost n: nat): (i: nat)
      requires Shape() && counter == n % WORD
      reads this, pool
      ensures i < pool.Length && i == n % Size()
    {
      MaskIsModulo(counter, bits);
      WrapKeepsPosition(n, bits);
      And(counter, mask)
    }

    /** The blocks up to the first one that is missing were put into the pool. */
    static ghost predicate FailedAt(before: seq<Option<Block>>, after: seq<Option<Block>>, blocks: seq<Option<Block>>, k: nat) {
      && |before| == |after| == |blocks| && k < |blocks| && blocks[k] == None && (forall i :: 0 <= i < k ==> blocks[i].Some?)
      && forall i :: 0 <= i < |after| ==> after[i] == if i <= k then blocks[i] else before[i]
    }

    /** `Preallocate`, given what the allocations return: the pool is filled, unless one fails. */
    method Preallocate(blocks: seq<Option<Block>>) returns (ok: bool)
      requires Shape() && headPosition == tailPosition && |blocks| == Size()
      requires forall i, j :: 0 <= i < j < |blocks| && blocks[i].Some? ==> blocks[i] != blocks[j]
      modifies this`allocations, this`deallocations, this`owned, this`outstanding, pool
      ensures ok <==> forall i :: 0 <= i < |blocks| ==> blocks[i].Some?
      ensures Shape() && (!ok ==> exists k :: FailedAt(old(pool[..]), pool[..], blocks, k))
      ensures ok ==> Exact() && outstanding == {} && pool[..] == blocks && owned == Members(Values(blocks))
    {
      hide ExactRing, Values, Members;
      for i := 0 to pool.Length
        invariant pool[..i] == blocks[..i] && forall j :: 0 <= j < i ==> blocks[j].Some?
        invariant pool[i..] == old(pool[..])[i..] && Shape()
      {
        pool[i] := blocks[i];
        if pool[i] == None {
          assert FailedAt(old(pool[..]), pool[..], blocks, i);
          return false;
        }
      }
      allocations, deallocations := headPosition, tailPosition;
      outstanding := {};
      owned := Members(Values(blocks));
      FullIsExact(blocks, allocations);
      assert pool[..] == blocks;
      return true;
    }

    /** `AllocateImpl`, given what an allocation from the OS would return: the block at the head is taken, and
        the OS is asked if there is none. While the ring is exact it asks the OS exactly when all the
        pool's blocks are outstanding; otherwise it gives a block that no other caller has. */
    method Allocate(fromOs: Option<Block>) returns (block: Option<Block>, ghost askedOs: bool)
      requires Shape()
      modifies this`headPosition, this`allocations, this`outstanding, pool
      ensures Shape() && allocations == old(allocations) + 1 && pool[..] == old(pool[..])[old(allocations) % Size() := None]
      ensures askedOs <==> old(pool[..])[old(allocations) % Size()] == None
      ensures block == if askedOs then fromOs else old(pool[..])[old(allocations) % Size()]
      ensures outstanding == if askedOs then old(outstanding) else old(outstanding) + {block.value}
      ensures old(Exact()) ==> (askedOs <==> |old(outstanding)| == Size())
      ensures old(Exact()) && !askedOs ==> Exact() && block.value in owned - old(outstanding)
    {
      hide ExactRing;
      NextPosition(allocations);
      var i := Position(headPosition, allocations);
      ghost var before := pool[..];
      block := pool[i];
      headPosition := (headPosition + 1) % WORD;
      allocations := allocations + 1;
      pool[i] := None;
      assert pool[..] == before[i := None];
      askedOs := block == None;
      if block == None {
        block := fromOs;
      } else {
        outstanding := outstanding + {block.value};
      }
      if old(Exact()) {
        EmptyWhenAllAreOut(before, allocations - 1, deallocations, owned, old(outstanding));
        if !askedOs {
          TakingKeepsExact(before, allocations - 1, deallocations, owned, old(outstanding));
        }
      }
    }

    /** `Deallocate`: the block goes to the tail, and what was there goes to the OS. While the ring is exact a
        block of the pool finds an empty slot. */
    method Deallocate(block: Block) returns (stomped: Option<Block>)
      requires Shape()
      modifies this`tailPosition, this`deallocations, this`outstanding, pool
      ensures Shape() && deallocations == old(deallocations) + 1 && outstanding == old(outstanding) - {block}
      ensures stomped == old(pool[..])[old(deallocations) % Size()]
      ensures pool[..] == old(pool[..])[old(deallocations) % Size() := Some(block)]
      ensures old(Exact()) && block in old(outstanding) ==> Exact() && stomped == None
    {
      hide ExactRing;
      NextPosition(deallocations);
      var i := Position(tailPosition, deallocations);
      ghost var before := pool[..];
      tailPosition := (tailPosition + 1) % WORD;
      deallocations := deallocations + 1;
      stomped := pool[i];
      pool[i] := Some(block);
      assert pool[..] == before[i := Some(block)];
      outstanding := outstanding - {block};
      if old(Exact()) && block in old(outstanding) {
        RingSize(before, allocations, deallocations - 1, owned, old(outstanding));
        ReturningKeepsExact(before, allocations, deallocations - 1, owned, old(outstanding), block);
      }
    }

    /** `FreePool`: every block in the pool is freed once. */
    method FreePool() returns (freed: seq<Block>)
      requires Shape()
      modifies pool
      ensures Shape() && freed == Values(old(pool[..])) && forall i :: 0 <= i < pool.Length ==> pool[i] == None
    {
      freed := [];
      for i := 0 to pool.Length
        invariant forall j :: 0 <= j < i ==> pool[j] == None
        invariant forall j :: i <= j < pool.Length ==> pool[j] == old(pool[j])
        invariant freed == Values(old(pool[..])[..i])
      {
        assert old(pool[..])[..i + 1][..i] == old(pool[..])[..i];
        var popValue := pool[i];
        pool[i] := None;
        if popValue.Some? {
          freed := freed + [popValue.value];
        }
      }
      assert old(pool[..])[..pool.Length] == old(pool[..]);
    }
  }

  /** Calls that take every block of a full pool. */
  method TakeAll(pool: Pool) returns (taken: Block)
    requires pool.Exact() && pool.outstanding == {}
    modifies pool, pool.pool
    ensures pool.Exact() && |pool.outstanding| == pool.Size() && taken in pool.outstanding
  {
    hide ExactRing;
    taken := 0;
    for n := 0 to pool.mask + 1
      invariant pool.Exact() && |pool.outstanding| == n && (n > 0 ==> taken in pool.outstanding)
    {
      var block, askedOs := pool.Allocate(None);
      taken := block.value;
    }
  }

  /** A run that reaches it: all blocks of a new pool are allocated, one more is asked for, one is returned; and
      then the OS is asked again, with that block in the pool. */
  method AskedWithABlockInThePool(bits: nat, blocks: seq<Option<Block>>) returns (pool: Pool, ghost askedOs: bool, block: Block)
    requires 1 <= bits <= 64 && |blocks| == Pow2(bits)
    requires (forall i :: 0 <= i < |blocks| ==> blocks[i].Some?) && forall i, j :: 0 <= i < j < |blocks| ==> blocks[i] != blocks[j]
    ensures fresh(pool) && fresh(pool.pool) && askedOs && Some(block) in pool.pool[..]
  {
    hide ExactRing;
    pool := new Pool(bits);
    var ok := pool.Preallocate(blocks);
    block := TakeAll(pool);
    askedOs := AskAgain(pool, block);
  }

  method AskAgain(pool: Pool, block: Block) returns (ghost askedOs: bool)
    requires pool.Exact() && |pool.outstanding| == pool.Size() >= 2 && block in pool.outstanding
    modifies pool, pool.pool
    ensures askedOs && Some(block) in pool.pool[..]
  {
    hide ExactRing, Pool.Exact;
    ghost var full, a, d := pool.pool[..], pool.allocations, pool.deallocations;
    FullPool(pool);
    OverflowIsNotForgotten(full, a, d, pool.owned, pool.outstanding, block);
    var none: Option<Block>;
    none, askedOs := pool.Allocate(None);
    var stomped := pool.Deallocate(block);
    ghost var after := pool.pool[..];
    none, askedOs := pool.Allocate(None);
    assert pool.pool[..] == after;
  }

  lemma FullPool(pool: Pool)
    requires pool.Exact()
    ensures pool.Shape() && ExactRing(pool.pool[..], pool.allocations, pool.deallocations, pool.owned, pool.outstanding)
    ensures |pool.pool[..]| == pool.Size()
  {
    hide ExactRing;
  }
}
