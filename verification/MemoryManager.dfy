/** The memory managers: six pools of blocks of different sizes, with lock-free rings, shared by any
    number of threads, one step per `fetch_add` or `exchange`. */
module MemoryManager {
  import opened Arithmetic
  import opened Wrappers

  type Tid = nat
  type Block = nat

  /** The block sizes of the pools, in the order of the branches. */
  const LIMITS: seq<nat> := [64, 128, 512, 1024, 1024 * 512, 1024 * 1024 * 2]

  /** The first branch that a size takes: the number of a pool, or `|limits|` for the OS. */
  function ClassOf(limits: seq<nat>, size: nat): (c: nat)
    ensures c <= |limits|
    ensures c < |limits| ==> size <= limits[c]
    ensures forall i :: 0 <= i < c ==> size > limits[i]
  {
    if limits == [] || size <= limits[0] then 0
    else
      var c := ClassOf(limits[1..], size);
      assert forall i :: 0 < i < c + 1 ==> limits[i] == limits[1..][i - 1];
      c + 1
  }

  /** `MemoryBlockSize` in the result of an allocation. */
  function Reported(limits: seq<nat>, size: nat): nat {
    var c := ClassOf(limits, size);
    if c < |limits| then limits[c] else size
  }

  /** A block goes back to the pool that issued it, whether it is freed by the requested or by the
      reported size; whatever the block sizes are. */
  lemma SameClass(limits: seq<nat>, size: nat)
    ensures ClassOf(limits, Reported(limits, size)) == ClassOf(limits, size)
    ensures Reported(limits, Reported(limits, size)) == Reported(limits, size)
  {
  }

  /** The chain of branches in `Allocate` and `Deallocate`: pools are numbered from 0, and 6 is the OS. */
  method Branch(allocateSize: nat) returns (pool: nat, memoryBlockSize: nat)
    ensures pool == ClassOf(LIMITS, allocateSize) && memoryBlockSize == Reported(LIMITS, allocateSize)
    ensures allocateSize <= memoryBlockSize && (allocateSize > 2097152 ==> pool == 6 && memoryBlockSize == allocateSize)
    ensures allocateSize <= 2097152 ==>
            && (pool, memoryBlockSize) in {(0, 64), (1, 128), (2, 512), (3, 1024), (4, 524288), (5, 2097152)}
            && (pool > 0 ==> allocateSize > [64, 128, 512, 1024, 524288][pool - 1])
  {
    if allocateSize <= 64 {
      pool, memoryBlockSize := 0, 64;
    } else if allocateSize <= 128 {
      pool, memoryBlockSize := 1, 128;
    } else if allocateSize <= 512 {
      pool, memoryBlockSize := 2, 512;
    } else if allocateSize <= 1024 {
      pool, memoryBlockSize := 3, 1024;
    } else if allocateSize <= 1024 * 512 {
      pool, memoryBlockSize := 4, 1024 * 512;
    } else if allocateSize <= 1024 * 1024 * 2 {
      pool, memoryBlockSize := 5, 1024 * 1024 * 2;
    } else {
      pool, memoryBlockSize := 6, allocateSize;
    }
    OnlyClass(LIMITS, allocateSize, pool);
  }

  /** The class is the only number with the properties of a first branch. */
  lemma OnlyClass(limits: seq<nat>, size: nat, c: nat)
    requires c <= |limits| && (c < |limits| ==> size <= limits[c]) && forall i :: 0 <= i < c ==> size > limits[i]
    ensures c == ClassOf(limits, size)
  {
  }

  // ---- the machine

  datatype Ring = Ring(slots: seq<Option<Block>>, head: nat, tail: nat)

  /** Where a thread stands: outside, before the exchange of an allocation, with an empty hand, with a
      block before the exchange of a deallocation, or with a block to give to the OS. */
  datatype Pc =
    | Idle
    | Taking(c: nat, pos: nat, size: nat)
    | NeedsOs(size: nat)
    | Storing(block: Block, c: nat, pos: nat)
    | Dropping(block: Block, size: nat)

  /** History: where a live block is. */
  datatype Place = InSlot(c: nat, i: nat) | WithCaller | InStore(t: Tid) | InDrop(t: Tid)

  /** `held` counts how often a block is with a caller. The rest is history: `sizes` are the sizes with
      which the live blocks were obtained from the OS, `asked` the sizes that were asked for. */
  datatype State = State(
    limits: seq<nat>, rings: seq<Ring>, threads: map<Tid, Pc>, held: multiset<Block>,
    sizes: map<Block, nat>, asked: map<Block, nat>, at: map<Block, Place>)

  datatype Action =
    | BeginAllocate(t: Tid, size: nat)
    | TakeSlot(t: Tid)                        // exchange( nullptr )
    | FromOs(t: Tid, got: Option<Block>)      // SKL_MALLOC_ALIGNED
    | BeginFree(t: Tid, block: Block, size: nat)
    | StoreSlot(t: Tid)                       // exchange( Obj )
    | DropBlock(t: Tid)                       // SKL_FREE_SIZE_ALIGNED
    | FreePoolSlot(t: Tid, c: nat, i: nat)    // one turn of FreePool
    | FillSlot(c: nat, i: nat, block: Block)  // one turn of Preallocate

  function PcOf(s: State, t: Tid): Pc {
    if t in s.threads then s.threads[t] else Idle
  }

  predicate InRing(s: State, c: nat, i: nat) {
    c < |s.rings| && i < |s.rings[c].slots|
  }

  function SlotAt(s: State, c: nat, i: nat): Option<Block> {
    if InRing(s, c, i) then s.rings[c].slots[i] else None
  }

  function SetSlot(s: State, c: nat, i: nat, v: Option<Block>): State
    requires InRing(s, c, i)
  {
    s.(rings := s.rings[c := s.rings[c].(slots := s.rings[c].slots[i := v])])
  }

  predicate Shape(s: State) {
    && |s.rings| == |s.limits|
    && (forall c :: 0 <= c < |s.rings| ==> |s.rings[c].slots| > 0)
    && forall t :: t in s.threads ==> match s.threads[t]
         case Taking(c, pos, size) => c < |s.limits| && c == ClassOf(s.limits, size)
         case Storing(_, c, _) => c < |s.limits|
         case _ => true
  }

  /** The callers' part: a block is freed by one that has it, by the size asked for or reported. */
  ghost predicate Enabled(s: State, a: Action) {
    match a
    case BeginAllocate(t, _) => PcOf(s, t) == Idle
    case TakeSlot(t) => PcOf(s, t).Taking?
    case FromOs(t, got) => PcOf(s, t).NeedsOs? && (got.Some? ==> got.value !in s.sizes)
    case BeginFree(t, block, size) =>
      PcOf(s, t) == Idle && block in s.held && block in s.asked && (size == s.asked[block] || size == Reported(s.limits, s.asked[block]))
    case StoreSlot(t) => PcOf(s, t).Storing?
    case DropBlock(t) => PcOf(s, t).Dropping?
    case FreePoolSlot(t, c, i) => PcOf(s, t) == Idle && InRing(s, c, i)
    case FillSlot(c, i, block) => InRing(s, c, i) && SlotAt(s, c, i) == None && block !in s.sizes
  }

  function SetPc(s: State, t: Tid, pc: Pc): State {
    s.(threads := s.threads[t := pc])
  }

  /** A caller gets a block for the size it asked for. */
  function Hand(s: State, t: Tid, block: Block, size: nat): State {
    SetPc(s, t, Idle).(held := s.held + multiset{block}, asked := s.asked[block := size], at := s.at[block := WithCaller])
  }

  // ---- one function for each step

  function DoBeginAllocate(s: State, t: Tid, size: nat): State
    requires Shape(s)
  {
    var c := ClassOf(s.limits, size);
    if c == |s.limits| then SetPc(s, t, NeedsOs(size))
    else SetPc(s.(rings := s.rings[c := s.rings[c].(head := (s.rings[c].head + 1) % WORD)]), t, Taking(c, s.rings[c].head, size))
  }

  function DoTakeSlot(s: State, t: Tid): State
    requires Shape(s) && PcOf(s, t).Taking?
  {
    var pc := PcOf(s, t);
    var i := pc.pos % |s.rings[pc.c].slots|;
    match s.rings[pc.c].slots[i]
    case None => SetPc(s, t, NeedsOs(pc.size))
    case Some(block) => Hand(SetSlot(s, pc.c, i, None), t, block, pc.size)
  }

  function DoFromOs(s: State, t: Tid, got: Option<Block>): State
    requires PcOf(s, t).NeedsOs?
  {
    match got
    case None => SetPc(s, t, Idle)
    case Some(b) => Hand(s.(sizes := s.sizes[b := Reported(s.limits, PcOf(s, t).size)]), t, b, PcOf(s, t).size)
  }

  function DoBeginFree(s: State, t: Tid, block: Block, size: nat): State
    requires Shape(s)
  {
    var c := ClassOf(s.limits, size);
    var s1 := s.(held := s.held - multiset{block});
    if c == |s.limits| then SetPc(s1, t, Dropping(block, size)).(at := s.at[block := InDrop(t)])
    else SetPc(s1.(rings := s.rings[c := s.rings[c].(tail := (s.rings[c].tail + 1) % WORD)]), t, Storing(block, c, s.rings[c].tail))
         .(at := s.at[block := InStore(t)])
  }

  function DoStoreSlot(s: State, t: Tid): State
    requires Shape(s) && PcOf(s, t).Storing?
  {
    var pc := PcOf(s, t);
    var i := pc.pos % |s.rings[pc.c].slots|;
    var s1 := SetSlot(s, pc.c, i, Some(pc.block)).(at := s.at[pc.block := InSlot(pc.c, i)]);
    match s.rings[pc.c].slots[i]
    case None => SetPc(s1, t, Idle)
    case Some(was) => SetPc(s1, t, Dropping(was, s.limits[pc.c])).(at := s1.at[was := InDrop(t)])
  }

  function DoDropBlock(s: State, t: Tid): State
    requires PcOf(s, t).Dropping?
  {
    var b := PcOf(s, t).block;
    SetPc(s, t, Idle).(sizes := s.sizes - {b}, at := s.at - {b})
  }

  function DoFreePoolSlot(s: State, t: Tid, c: nat, i: nat): State
    requires Shape(s) && InRing(s, c, i)
  {
    match s.rings[c].slots[i]
    case None => s
    case Some(block) => SetPc(SetSlot(s, c, i, None), t, Dropping(block, s.limits[c])).(at := s.at[block := InDrop(t)])
  }

  function DoFillSlot(s: State, c: nat, i: nat, block: Block): State
    requires Shape(s) && InRing(s, c, i)
  {
    SetSlot(s, c, i, Some(block)).(sizes := s.sizes[block := s.limits[c]], at := s.at[block := InSlot(c, i)])
  }

  function Step(s: State, a: Action): State
    requires Shape(s) && Enabled(s, a)
  {
    match a
    case BeginAllocate(t, size) => DoBeginAllocate(s, t, size)
    case TakeSlot(t) => DoTakeSlot(s, t)
    case FromOs(t, got) => DoFromOs(s, t, got)
    case BeginFree(t, block, size) => DoBeginFree(s, t, block, size)
    case StoreSlot(t) => DoStoreSlot(s, t)
    case DropBlock(t) => DoDropBlock(s, t)
    case FreePoolSlot(t, c, i) => DoFreePoolSlot(s, t, c, i)
    case FillSlot(c, i, block) => DoFillSlot(s, c, i, block)
  }

  // ---- the invariant

  predicate IsAt(s: State, b: Block, p: Place) {
    b in s.at && s.at[b] == p
  }

  function StoredBy(s: State, t: Tid): Option<Block> {
    if PcOf(s, t).Storing? then Some(PcOf(s, t).block) else None
  }

  function DroppedBy(s: State, t: Tid): Option<Block> {
    if PcOf(s, t).Dropping? then Some(PcOf(s, t).block) else None
  }

  /** Where the blocks are, and where the history says they are, agree. */
  ghost predicate InSlots(s: State) {
    forall c: nat, i: nat, b: Block :: SlotAt(s, c, i) == Some(b) <==> IsAt(s, b, InSlot(c, i))
  }

  ghost predicate WithCallers(s: State) {
    forall b: Block :: s.held[b] == if IsAt(s, b, WithCaller) then 1 else 0
  }

  ghost predicate InThreads(s: State) {
    && (forall t: Tid, b: Block :: StoredBy(s, t) == Some(b) <==> IsAt(s, b, InStore(t)))
    && (forall t: Tid, b: Block :: DroppedBy(s, t) == Some(b) <==> IsAt(s, b, InDrop(t)))
  }

  /** The size that a block has, by where it is. */
  ghost predicate Sized(s: State, b: Block)
    requires b in s.at
  {
    b in s.sizes && match s.at[b]
      case InSlot(c, _) => c < |s.limits| && s.sizes[b] == s.limits[c]
      case WithCaller => b in s.asked && s.sizes[b] == Reported(s.limits, s.asked[b])
      case InStore(t) => PcOf(s, t).Storing? && PcOf(s, t).c < |s.limits| && s.sizes[b] == s.limits[PcOf(s, t).c]
      case InDrop(t) => PcOf(s, t).Dropping? && s.sizes[b] == PcOf(s, t).size
  }

  ghost predicate Sizes(s: State) {
    && (forall b: Block :: b in s.at <==> b in s.sizes)
    && (forall b: Block :: b in s.at ==> Sized(s, b))
  }

  ghost predicate Inv(s: State) {
    Shape(s) && InSlots(s) && WithCallers(s) && InThreads(s) && Sizes(s)
  }

  // ---- what a step leaves alone

  lemma ThreadsKept(s: State, s': State, t: Tid)
    requires InThreads(s) && s'.at == s.at
    requires forall u: Tid :: u != t ==> PcOf(s', u) == PcOf(s, u)
    requires StoredBy(s, t) == StoredBy(s', t) && DroppedBy(s, t) == DroppedBy(s', t)
    ensures InThreads(s')
  {
    assert forall u: Tid :: StoredBy(s', u) == StoredBy(s, u) && DroppedBy(s', u) == DroppedBy(s, u);
    assert forall b: Block, p: Place :: IsAt(s', b, p) <==> IsAt(s, b, p);
  }

  lemma SlotsKept(s: State, s': State)
    requires InSlots(s) && forall c: nat, i: nat :: SlotAt(s', c, i) == SlotAt(s, c, i)
    requires forall b: Block, c: nat, i: nat :: IsAt(s', b, InSlot(c, i)) <==> IsAt(s, b, InSlot(c, i))
    ensures InSlots(s')
  {
  }

  lemma CallersKept(s: State, s': State)
    requires WithCallers(s) && s'.held == s.held
    requires forall b: Block :: IsAt(s', b, WithCaller) <==> IsAt(s, b, WithCaller)
    ensures WithCallers(s')
  {
  }

  /** Only the blocks in `moved` change their places; thread `t` had or has no others in hand. */
  lemma SizesKept(s: State, s': State, t: Tid, moved: set<Block>)
    requires Sizes(s) && s'.limits == s.limits
    requires forall x: Block :: x !in moved ==> (x in s'.at <==> x in s.at) && (x in s.at ==> s'.at[x] == s.at[x])
    requires forall x: Block :: x !in moved ==> (x in s'.sizes <==> x in s.sizes) && (x in s.sizes ==> s'.sizes[x] == s.sizes[x])
    requires forall x: Block :: x !in moved && x in s.asked ==> x in s'.asked && s'.asked[x] == s.asked[x]
    requires forall u: Tid :: u != t ==> PcOf(s', u) == PcOf(s, u)
    requires forall x: Block :: x !in moved ==> !IsAt(s, x, InStore(t)) && !IsAt(s, x, InDrop(t))
    requires forall x: Block :: x in moved ==> (x in s'.at <==> x in s'.sizes) && (x in s'.at ==> Sized(s', x))
    ensures Sizes(s')
  {
    forall x | x in s'.at ensures Sized(s', x) {
      if x !in moved {
        assert Sized(s, x);
      }
    }
  }

  lemma EmptyHanded(s: State, t: Tid)
    requires InThreads(s) && !PcOf(s, t).Storing? && !PcOf(s, t).Dropping?
    ensures forall x: Block :: !IsAt(s, x, InStore(t)) && !IsAt(s, x, InDrop(t))
  {
    forall x: Block ensures !IsAt(s, x, InStore(t)) && !IsAt(s, x, InDrop(t)) {
      assert StoredBy(s, t) != Some(x) && DroppedBy(s, t) != Some(x);
    }
  }

  // ---- every step keeps the invariant

  lemma BeginAllocateKeepsInv(s: State, t: Tid, size: nat)
    requires Inv(s) && PcOf(s, t) == Idle
    ensures Inv(DoBeginAllocate(s, t, size))
  {
    hide InSlots, WithCallers, InThreads, Sizes, Sized, ClassOf;
    var s' := DoBeginAllocate(s, t, size);
    EmptyHanded(s, t);
    SlotsKept(s, s');
    CallersKept(s, s');
    ThreadsKept(s, s', t);
    SizesKept(s, s', t, {});
  }

  /** A caller gets block `b`, which was nowhere or in the slot `i` of pool `c`. */
  lemma HandKeepsCallers(s: State, s': State, t: Tid, b: Block, size: nat)
    requires WithCallers(s) && !IsAt(s, b, WithCaller)
    requires s'.held == s.held + multiset{b} && s'.at == s.at[b := WithCaller]
    ensures WithCallers(s')
  {
  }

  lemma HandKeepsThreads(s: State, s': State, t: Tid, b: Block)
    requires InThreads(s) && s'.at == s.at[b := WithCaller] && !PcOf(s, t).Storing? && !PcOf(s, t).Dropping?
    requires forall u: Tid :: !IsAt(s, b, InStore(u)) && !IsAt(s, b, InDrop(u))
    requires s'.threads == s.threads[t := Idle]
    ensures InThreads(s')
  {
    assert forall u: Tid :: StoredBy(s', u) == StoredBy(s, u) && DroppedBy(s', u) == DroppedBy(s, u);
  }

  lemma InThatSlot(s: State, c: nat, i: nat, b: Block)
    requires InSlots(s) && Sizes(s) && SlotAt(s, c, i) == Some(b)
    ensures IsAt(s, b, InSlot(c, i)) && c < |s.limits| && b in s.sizes && s.sizes[b] == s.limits[c]
  {
    assert IsAt(s, b, InSlot(c, i));
    assert Sized(s, b);
  }

  /** The block leaves its slot. */
  lemma LeavesSlot(s: State, s': State, c: nat, i: nat, b: Block)
    requires InSlots(s) && IsAt(s, b, InSlot(c, i)) && SlotAt(s', c, i) == None
    requires forall d: nat, j: nat :: (d, j) != (c, i) ==> SlotAt(s', d, j) == SlotAt(s, d, j)
    requires forall x: Block, p: Place :: x != b ==> (IsAt(s', x, p) <==> IsAt(s, x, p))
    requires forall d: nat, j: nat :: !IsAt(s', b, InSlot(d, j))
    ensures InSlots(s')
  {
    forall d: nat, j: nat, x: Block ensures SlotAt(s', d, j) == Some(x) <==> IsAt(s', x, InSlot(d, j)) {
      assert SlotAt(s, d, j) == Some(x) <==> IsAt(s, x, InSlot(d, j));
      assert SlotAt(s, c, i) == Some(b);
    }
  }

  lemma SlotsAfterSet(s: State, c: nat, i: nat, v: Option<Block>)
    requires InRing(s, c, i)
    ensures SlotAt(SetSlot(s, c, i, v), c, i) == v
    ensures forall d: nat, j: nat :: (d, j) != (c, i) ==> SlotAt(SetSlot(s, c, i, v), d, j) == SlotAt(s, d, j)
  {
  }

  lemma TakeSlotKeepsInv(s: State, t: Tid)
    requires Inv(s) && PcOf(s, t).Taking?
    ensures Inv(DoTakeSlot(s, t))
  {
    hide InSlots, WithCallers, InThreads, Sizes;
    var s' := DoTakeSlot(s, t);
    var pc := PcOf(s, t);
    var i := pc.pos % |s.rings[pc.c].slots|;
    EmptyHanded(s, t);
    match SlotAt(s, pc.c, i)
    case None =>
      SlotsKept(s, s');
      CallersKept(s, s');
      ThreadsKept(s, s', t);
      SizesKept(s, s', t, {});
    case Some(b) =>
      InThatSlot(s, pc.c, i, b);
      SlotsAfterSet(s, pc.c, i, None);
      LeavesSlot(s, s', pc.c, i, b);
      HandKeepsCallers(s, s', t, b, pc.size);
      HandKeepsThreads(s, s', t, b);
      SizesKept(s, s', t, {b});
  }

  lemma FromOsKeepsInv(s: State, t: Tid, got: Option<Block>)
    requires Inv(s) && PcOf(s, t).NeedsOs? && (got.Some? ==> got.value !in s.sizes)
    ensures Inv(DoFromOs(s, t, got))
  {
    hide InSlots, WithCallers, InThreads;
    var s' := DoFromOs(s, t, got);
    EmptyHanded(s, t);
    assert got.Some? ==> got.value !in s.at;
    hide Sizes;
    SlotsKept(s, s');
    match got
    case None =>
      CallersKept(s, s');
      ThreadsKept(s, s', t);
      SizesKept(s, s', t, {});
    case Some(b) =>
      HandKeepsCallers(s, s', t, b, PcOf(s, t).size);
      HandKeepsThreads(s, s', t, b);
      SizesKept(s, s', t, {b});
  }

  lemma WithThatCaller(s: State, b: Block)
    requires WithCallers(s) && Sizes(s) && b in s.held
    ensures IsAt(s, b, WithCaller) && b in s.asked && b in s.sizes && s.sizes[b] == Reported(s.limits, s.asked[b])
  {
    assert s.held[b] == 1;
    assert Sized(s, b);
  }

  lemma BeginFreeKeepsCallers(s: State, s': State, b: Block, p: Place)
    requires WithCallers(s) && IsAt(s, b, WithCaller) && p != WithCaller
    requires s'.held == s.held - multiset{b} && s'.at == s.at[b := p]
    ensures WithCallers(s')
  {
    assert s.held[b] == 1;
  }

  /** Block `b` comes into the hand of thread `t`. */
  lemma IntoHand(s: State, s': State, t: Tid, b: Block)
    requires InThreads(s) && !PcOf(s, t).Storing? && !PcOf(s, t).Dropping?
    requires forall u: Tid :: !IsAt(s, b, InStore(u)) && !IsAt(s, b, InDrop(u))
    requires forall u: Tid :: u != t ==> PcOf(s', u) == PcOf(s, u)
    requires if PcOf(s', t).Storing? then PcOf(s', t).block == b && s'.at == s.at[b := InStore(t)]
             else PcOf(s', t).Dropping? && PcOf(s', t).block == b && s'.at == s.at[b := InDrop(t)]
    ensures InThreads(s')
  {
    EmptyHanded(s, t);
    assert forall u: Tid :: u != t ==> StoredBy(s', u) == StoredBy(s, u) && DroppedBy(s', u) == DroppedBy(s, u);
  }

  lemma BeginFreeKeepsPlaces(s: State, t: Tid, b: Block, size: nat)
    requires Inv(s) && PcOf(s, t) == Idle && b in s.held && b in s.asked && (size == s.asked[b] || size == Reported(s.limits, s.asked[b])) && IsAt(s, b, WithCaller)
    ensures var s' := DoBeginFree(s, t, b, size); InSlots(s') && WithCallers(s') && InThreads(s')
  {
    hide InSlots, WithCallers, InThreads, Sizes, ClassOf;
    var s' := DoBeginFree(s, t, b, size);
    assert forall c: nat, i: nat :: SlotAt(s', c, i) == SlotAt(s, c, i);
    SlotsKept(s, s');
    BeginFreeKeepsCallers(s, s', b, s'.at[b]);
    IntoHand(s, s', t, b);
  }

  lemma BeginFreeKeepsSizes(s: State, t: Tid, b: Block, size: nat)
    requires Inv(s) && PcOf(s, t) == Idle && b in s.held && b in s.asked && (size == s.asked[b] || size == Reported(s.limits, s.asked[b]))
    ensures var s' := DoBeginFree(s, t, b, size); Shape(s') && Sizes(s')
  {
    hide InSlots, WithCallers, InThreads, Sizes, ClassOf;
    EmptyHanded(s, t);
    WithThatCaller(s, b);
    SameClass(s.limits, s.asked[b]);
    SizesKept(s, DoBeginFree(s, t, b, size), t, {b});
  }

  lemma BeginFreeKeepsInv(s: State, t: Tid, b: Block, size: nat)
    requires Inv(s) && PcOf(s, t) == Idle && b in s.held && b in s.asked && (size == s.asked[b] || size == Reported(s.limits, s.asked[b]))
    ensures Inv(DoBeginFree(s, t, b, size))
  {
    hide InSlots, WithCallers, InThreads, Sizes, Shape, Step;
    WithThatCaller(s, b);
    BeginFreeKeepsPlaces(s, t, b, size);
    BeginFreeKeepsSizes(s, t, b, size);
  }

  /** Block `b` comes from the hand of thread `t` into slot `i` of pool `c`; what was there comes into
      the hand. */
  lemma StoreKeepsSlots(s: State, s': State, t: Tid, c: nat, i: nat, b: Block)
    requires InSlots(s) && IsAt(s, b, InStore(t)) && SlotAt(s', c, i) == Some(b)
    requires forall d: nat, j: nat :: (d, j) != (c, i) ==> SlotAt(s', d, j) == SlotAt(s, d, j)
    requires match SlotAt(s, c, i)
             case None => s'.at == s.at[b := InSlot(c, i)]
             case Some(x) => s'.at == s.at[b := InSlot(c, i)][x := InDrop(t)]
    ensures InSlots(s')
  {
    match SlotAt(s, c, i)
    case None =>
    case Some(x) => assert IsAt(s, x, InSlot(c, i));
  }

  lemma StoreKeepsThreads(s: State, s': State, t: Tid, c: nat, i: nat, b: Block)
    requires InThreads(s) && StoredBy(s, t) == Some(b)
    requires forall u: Tid :: u != t ==> PcOf(s', u) == PcOf(s, u)
    requires match SlotAt(s, c, i)
             case None => s'.at == s.at[b := InSlot(c, i)] && PcOf(s', t) == Idle
             case Some(x) => s'.at == s.at[b := InSlot(c, i)][x := InDrop(t)] && PcOf(s', t).Dropping? && PcOf(s', t).block == x
                             && IsAt(s, x, InSlot(c, i))
    ensures InThreads(s')
  {
    assert IsAt(s, b, InStore(t));
    assert DroppedBy(s, t) == None;
    assert forall u: Tid :: u != t ==> StoredBy(s', u) == StoredBy(s, u) && DroppedBy(s', u) == DroppedBy(s, u);
  }

  lemma InThatStore(s: State, t: Tid)
    requires InThreads(s) && Sizes(s) && PcOf(s, t).Storing?
    ensures IsAt(s, PcOf(s, t).block, InStore(t)) && PcOf(s, t).c < |s.limits|
    ensures PcOf(s, t).block in s.sizes && s.sizes[PcOf(s, t).block] == s.limits[PcOf(s, t).c]
    ensures forall x: Block :: x != PcOf(s, t).block ==> !IsAt(s, x, InStore(t)) && !IsAt(s, x, InDrop(t))
  {
    var b := PcOf(s, t).block;
    assert StoredBy(s, t) == Some(b);
    assert Sized(s, b);
    forall x: Block | x != b ensures !IsAt(s, x, InStore(t)) && !IsAt(s, x, InDrop(t)) {
      assert StoredBy(s, t) != Some(x) && DroppedBy(s, t) != Some(x);
    }
  }

  lemma StoreSlotKeepsInv(s: State, t: Tid)
    requires Inv(s) && PcOf(s, t).Storing?
    ensures Inv(DoStoreSlot(s, t))
  {
    hide InSlots, WithCallers, InThreads, Sizes;
    var s' := DoStoreSlot(s, t);
    var pc := PcOf(s, t);
    var i := pc.pos % |s.rings[pc.c].slots|;
    InThatStore(s, t);
    SlotsAfterSet(s, pc.c, i, Some(pc.block));
    match SlotAt(s, pc.c, i) {
      case None =>
      case Some(x) => InThatSlot(s, pc.c, i, x);
    }
    StoreKeepsSlots(s, s', t, pc.c, i, pc.block);
    CallersKept(s, s');
    StoreKeepsThreads(s, s', t, pc.c, i, pc.block);
    SizesKept(s, s', t, {pc.block} + if SlotAt(s, pc.c, i).Some? then {SlotAt(s, pc.c, i).value} else {});
  }

  lemma InThatDrop(s: State, t: Tid)
    requires InThreads(s) && Sizes(s) && PcOf(s, t).Dropping?
    ensures IsAt(s, PcOf(s, t).block, InDrop(t)) && PcOf(s, t).block in s.sizes && s.sizes[PcOf(s, t).block] == PcOf(s, t).size
    ensures forall x: Block :: x != PcOf(s, t).block ==> !IsAt(s, x, InStore(t)) && !IsAt(s, x, InDrop(t))
  {
    var b := PcOf(s, t).block;
    assert DroppedBy(s, t) == Some(b);
    assert Sized(s, b);
    forall x: Block | x != b ensures !IsAt(s, x, InStore(t)) && !IsAt(s, x, InDrop(t)) {
      assert StoredBy(s, t) != Some(x) && DroppedBy(s, t) != Some(x);
    }
  }

  lemma DropKeepsThreads(s: State, s': State, t: Tid)
    requires InThreads(s) && DroppedBy(s, t).Some? && s'.threads == s.threads[t := Idle] && s'.at == s.at - {DroppedBy(s, t).value}
    ensures InThreads(s')
  {
    var b := DroppedBy(s, t).value;
    assert IsAt(s, b, InDrop(t));
    assert StoredBy(s, t) == None;
    assert forall u: Tid :: u != t ==> StoredBy(s', u) == StoredBy(s, u) && DroppedBy(s', u) == DroppedBy(s, u);
  }

  lemma DropBlockKeepsInv(s: State, t: Tid)
    requires Inv(s) && PcOf(s, t).Dropping?
    ensures Inv(DoDropBlock(s, t))
  {
    hide InSlots, WithCallers, InThreads, Sizes;
    var s' := DoDropBlock(s, t);
    InThatDrop(s, t);
    SlotsKept(s, s');
    CallersKept(s, s');
    DropKeepsThreads(s, s', t);
    SizesKept(s, s', t, {PcOf(s, t).block});
  }

  lemma FreePoolSlotKeepsInv(s: State, t: Tid, c: nat, i: nat)
    requires Inv(s) && PcOf(s, t) == Idle && InRing(s, c, i)
    ensures Inv(DoFreePoolSlot(s, t, c, i))
  {
    hide InSlots, WithCallers, InThreads, Sizes;
    var s' := DoFreePoolSlot(s, t, c, i);
    if b: Block :| SlotAt(s, c, i) == Some(b) {
      EmptyHanded(s, t);
      InThatSlot(s, c, i, b);
      SlotsAfterSet(s, c, i, None);
      LeavesSlot(s, s', c, i, b);
      CallersKept(s, s');
      IntoHand(s, s', t, b);
      SizesKept(s, s', t, {b});
    }
  }

  lemma FillSlotKeepsInv(s: State, c: nat, i: nat, b: Block)
    requires Inv(s) && InRing(s, c, i) && SlotAt(s, c, i) == None && b !in s.sizes
    ensures Inv(DoFillSlot(s, c, i, b))
  {
    hide WithCallers, InThreads;
    var s' := DoFillSlot(s, c, i, b);
    assert b !in s.at;
    SlotsAfterSet(s, c, i, Some(b));
    FillKeepsSlots(s, s', c, i, b);
    hide InSlots, Sizes;
    CallersKept(s, s');
    FillKeepsThreads(s, s', b);
    FillKeepsSizes(s, s', b);
  }

  lemma FillKeepsSlots(s: State, s': State, c: nat, i: nat, b: Block)
    requires InSlots(s) && SlotAt(s, c, i) == None && SlotAt(s', c, i) == Some(b) && b !in s.at && s'.at == s.at[b := InSlot(c, i)]
    requires forall d: nat, j: nat :: (d, j) != (c, i) ==> SlotAt(s', d, j) == SlotAt(s, d, j)
    ensures InSlots(s')
  {
    forall d: nat, j: nat, x: Block ensures SlotAt(s', d, j) == Some(x) <==> IsAt(s', x, InSlot(d, j)) {
      assert SlotAt(s, d, j) == Some(x) <==> IsAt(s, x, InSlot(d, j));
    }
  }

  lemma FillKeepsThreads(s: State, s': State, b: Block)
    requires InThreads(s) && s'.threads == s.threads && b !in s.at
    requires b in s'.at && s'.at[b].InSlot? && s'.at == s.at[b := s'.at[b]]
    ensures InThreads(s')
  {
    assert forall u: Tid :: StoredBy(s', u) == StoredBy(s, u) && DroppedBy(s', u) == DroppedBy(s, u);
    assert forall x: Block, u: Tid :: (IsAt(s', x, InStore(u)) <==> IsAt(s, x, InStore(u))) && (IsAt(s', x, InDrop(u)) <==> IsAt(s, x, InDrop(u)));
  }

  lemma FillKeepsSizes(s: State, s': State, b: Block)
    requires Sizes(s) && s'.threads == s.threads && s'.limits == s.limits && s'.asked == s.asked && b !in s.at
    requires b in s'.at && b in s'.sizes && s'.at == s.at[b := s'.at[b]] && s'.sizes == s.sizes[b := s'.sizes[b]]
    requires Sized(s', b)
    ensures Sizes(s')
  {
    forall x | x in s'.at ensures Sized(s', x) {
      if x != b {
        assert Sized(s, x);
      }
    }
  }

  // ---- what a step does to the counters

  /** The two ends of a ring: allocations take at the head, deallocations store at the tail. */
  datatype End = Head | Tail

  /** A call begins at end `e` of pool `c`. */
  predicate Begins(limits: seq<nat>, a: Action, c: nat, e: End) {
    match e
    case Head => a.BeginAllocate? && ClassOf(limits, a.size) == c
    case Tail => a.BeginFree? && ClassOf(limits, a.size) == c
  }

  function Counter(s: State, c: nat, e: End): nat
    requires c < |s.rings|
  {
    match e
    case Head => s.rings[c].head
    case Tail => s.rings[c].tail
  }

  /** What thread `a.t` is about to do when its call has taken a position. */
  function Standing(a: Action, c: nat, pos: nat): Pc {
    match a
    case BeginAllocate(_, size) => Taking(c, pos, size)
    case BeginFree(_, block, _) => Storing(block, c, pos)
    case _ => Idle
  }

  /** The rings keep their number and their sizes, and a counter goes up with the calls, which get the
      positions. */
  ghost predicate Counts(s: State, a: Action, s': State, c: nat, e: End)
    requires c < |s.rings|
  {
    && s'.limits == s.limits && |s'.rings| == |s.rings| && |s'.rings[c].slots| == |s.rings[c].slots|
    && Counter(s', c, e) == (if Begins(s.limits, a, c, e) then (Counter(s, c, e) + 1) % WORD else Counter(s, c, e))
    && (Begins(s.limits, a, c, e) ==> PcOf(s', a.t) == Standing(a, c, Counter(s, c, e)))
  }

  lemma AllocatingCounts(s: State, t: Tid, size: nat, c: nat, e: End)
    requires Shape(s) && c < |s.rings|
    ensures Counts(s, BeginAllocate(t, size), DoBeginAllocate(s, t, size), c, e)
  {
    hide ClassOf;
  }

  lemma FreeingCounts(s: State, t: Tid, block: Block, size: nat, c: nat, e: End)
    requires Shape(s) && c < |s.rings|
    ensures Counts(s, BeginFree(t, block, size), DoBeginFree(s, t, block, size), c, e)
  {
    hide ClassOf;
  }

  lemma ExchangesDoNotCount(s: State, t: Tid, c: nat, e: End)
    requires Shape(s) && c < |s.rings|
    ensures PcOf(s, t).Taking? ==> Counts(s, TakeSlot(t), DoTakeSlot(s, t), c, e)
    ensures PcOf(s, t).Storing? ==> Counts(s, StoreSlot(t), DoStoreSlot(s, t), c, e)
  {
  }

  lemma FillsDoNotCount(s: State, t: Tid, d: nat, i: nat, block: Block, c: nat, e: End)
    requires Shape(s) && c < |s.rings| && InRing(s, d, i)
    ensures Counts(s, FreePoolSlot(t, d, i), DoFreePoolSlot(s, t, d, i), c, e)
    ensures Counts(s, FillSlot(d, i, block), DoFillSlot(s, d, i, block), c, e)
  {
  }

  lemma OsDoesNotCount(s: State, t: Tid, got: Option<Block>, c: nat, e: End)
    requires Shape(s) && c < |s.rings|
    ensures PcOf(s, t).NeedsOs? ==> Counts(s, FromOs(t, got), DoFromOs(s, t, got), c, e)
    ensures PcOf(s, t).Dropping? ==> Counts(s, DropBlock(t), DoDropBlock(s, t), c, e)
  {
    hide ClassOf;
  }

  lemma StepCounts(s: State, a: Action, c: nat, e: End)
    requires Shape(s) && Enabled(s, a) && c < |s.rings|
    ensures Counts(s, a, Step(s, a), c, e)
  {
    hide Shape, Counts, DoBeginAllocate, DoTakeSlot, DoFromOs, DoBeginFree, DoStoreSlot, DoDropBlock, DoFreePoolSlot, DoFillSlot;
    match a
    case BeginAllocate(t, size) => AllocatingCounts(s, t, size, c, e);
    case TakeSlot(t) => ExchangesDoNotCount(s, t, c, e);
    case FromOs(t, got) => OsDoesNotCount(s, t, got, c, e);
    case BeginFree(t, b, size) => FreeingCounts(s, t, b, size, c, e);
    case StoreSlot(t) => ExchangesDoNotCount(s, t, c, e);
    case DropBlock(t) => OsDoesNotCount(s, t, None, c, e);
    case FreePoolSlot(t, d, i) => FillsDoNotCount(s, t, d, i, 0, c, e);
    case FillSlot(d, i, b) => FillsDoNotCount(s, 0, d, i, b, c, e);
  }

  /** Every step keeps the invariant, and a counter goes up exactly with the calls that begin at its end, which get
      the position that it was at. */
  lemma StepKeepsInv(s: State, a: Action)
    requires Inv(s) && Enabled(s, a)
    ensures Inv(Step(s, a))
    ensures forall c: nat, e :: c < |s.rings| ==> Counts(s, a, Step(s, a), c, e)
  {
    forall c: nat, e | c < |s.rings| ensures Counts(s, a, Step(s, a), c, e) {
      StepCounts(s, a, c, e);
    }
    hide Inv, DoBeginAllocate, DoTakeSlot, DoFromOs, DoBeginFree, DoStoreSlot, DoDropBlock, DoFreePoolSlot, DoFillSlot;
    match a
    case BeginAllocate(t, size) => BeginAllocateKeepsInv(s, t, size);
    case TakeSlot(t) => TakeSlotKeepsInv(s, t);
    case FromOs(t, got) => FromOsKeepsInv(s, t, got);
    case BeginFree(t, b, size) => BeginFreeKeepsInv(s, t, b, size);
    case StoreSlot(t) => StoreSlotKeepsInv(s, t);
    case DropBlock(t) => DropBlockKeepsInv(s, t);
    case FreePoolSlot(t, c, i) => FreePoolSlotKeepsInv(s, t, c, i);
    case FillSlot(c, i, b) => FillSlotKeepsInv(s, c, i, b);
  }

  // ---- runs

  function Init(limits: seq<nat>, lengths: seq<nat>): State {
    State(limits, seq(|lengths|, c requires 0 <= c < |lengths| => Ring(seq(lengths[c], _ => None), 0, 0)), map[], multiset{}, map[], map[], map[])
  }

  ghost predicate IsRun(run: seq<State>, acts: seq<Action>) {
    && |run| == |acts| + 1
    && (exists limits, lengths :: |limits| == |lengths| && (forall n :: n in lengths ==> n > 0) && run[0] == Init(limits, lengths))
    && forall i :: 0 <= i < |acts| ==> Shape(run[i]) && Enabled(run[i], acts[i]) && run[i + 1] == Step(run[i], acts[i])
  }

  lemma InitHolds(limits: seq<nat>, lengths: seq<nat>)
    requires |limits| == |lengths| && forall n :: n in lengths ==> n > 0
    ensures Inv(Init(limits, lengths))
  {
    assert forall c :: 0 <= c < |lengths| ==> lengths[c] in lengths;
  }

  lemma {:induction false} RunKeepsInv(run: seq<State>, acts: seq<Action>, k: nat)
    requires IsRun(run, acts) && k < |run|
    ensures Inv(run[k])
  {
    hide Inv, Step;
    if k == 0 {
      var limits, lengths :| |limits| == |lengths| && (forall n :: n in lengths ==> n > 0) && run[0] == Init(limits, lengths);
      InitHolds(limits, lengths);
    } else {
      RunKeepsInv(run, acts, k - 1);
      StepKeepsInv(run[k - 1], acts[k - 1]);
    }
  }

  /** Block `b` is at the place `p`. */
  ghost predicate Occupies(s: State, b: Block, p: Place) {
    match p
    case InSlot(c, i) => SlotAt(s, c, i) == Some(b)
    case WithCaller => b in s.held
    case InStore(t) => StoredBy(s, t) == Some(b)
    case InDrop(t) => DroppedBy(s, t) == Some(b)
  }

  /** Over any run, a block that was obtained from the OS and not given back is in exactly one place:
      one slot of one pool, with one caller, or in the hand of one thread; no other block is
      anywhere. So no two callers ever hold the same block. */
  lemma EveryBlockInOnePlace(run: seq<State>, acts: seq<Action>, k: nat, b: Block)
    requires IsRun(run, acts) && k < |run|
    ensures b in run[k].sizes <==> exists p :: Occupies(run[k], b, p)
    ensures forall p, p' :: Occupies(run[k], b, p) && Occupies(run[k], b, p') ==> p == p'
    ensures run[k].held[b] <= 1
  {
    hide Inv, Step, Enabled;
    RunKeepsInv(run, acts, k);
    OccupiesIsAt(run[k], b);
    if b in run[k].sizes {
      KnownPlace(run[k], b);
    }
  }

  lemma OccupiesIsAt(s: State, b: Block)
    requires Inv(s)
    ensures forall p :: Occupies(s, b, p) <==> IsAt(s, b, p)
    ensures s.held[b] <= 1 && (b in s.at <==> b in s.sizes)
  {
    forall p ensures Occupies(s, b, p) <==> IsAt(s, b, p) {
      match p
      case InSlot(c, i) => assert SlotAt(s, c, i) == Some(b) <==> IsAt(s, b, InSlot(c, i));
      case WithCaller =>
      case InStore(t) => assert StoredBy(s, t) == Some(b) <==> IsAt(s, b, InStore(t));
      case InDrop(t) => assert DroppedBy(s, t) == Some(b) <==> IsAt(s, b, InDrop(t));
    }
  }

  lemma KnownPlace(s: State, b: Block)
    requires Inv(s) && b in s.sizes
    ensures exists p :: Occupies(s, b, p)
  {
    OccupiesIsAt(s, b);
    assert IsAt(s, b, s.at[b]);
  }

  /** Every block in a pool has the pool's block size; a caller's block has the size that was reported
      to it, so at least what it asked for; and a block is given back to the OS with the size with
      which it was obtained. */
  lemma BlocksKeepTheirSizes(run: seq<State>, acts: seq<Action>, k: nat, b: Block)
    requires IsRun(run, acts) && k < |run|
    ensures forall c: nat, i: nat :: SlotAt(run[k], c, i) == Some(b) ==> c < |run[k].limits| && b in run[k].sizes && run[k].sizes[b] == run[k].limits[c]
    ensures b in run[k].held ==> b in run[k].sizes && b in run[k].asked && run[k].sizes[b] == Reported(run[k].limits, run[k].asked[b]) >= run[k].asked[b]
    ensures forall t: Tid :: PcOf(run[k], t).Dropping? && PcOf(run[k], t).block == b ==> b in run[k].sizes && PcOf(run[k], t).size == run[k].sizes[b]
  {
    hide Inv, Step, Enabled;
    RunKeepsInv(run, acts, k);
    SizesOf(run[k], b);
  }

  lemma SizesOf(s: State, b: Block)
    requires Inv(s)
    ensures forall c: nat, i: nat :: SlotAt(s, c, i) == Some(b) ==> c < |s.limits| && b in s.sizes && s.sizes[b] == s.limits[c]
    ensures b in s.held ==> b in s.sizes && b in s.asked && s.sizes[b] == Reported(s.limits, s.asked[b]) >= s.asked[b]
    ensures forall t: Tid :: PcOf(s, t).Dropping? && PcOf(s, t).block == b ==> b in s.sizes && PcOf(s, t).size == s.sizes[b]
  {
    forall c: nat, i: nat | SlotAt(s, c, i) == Some(b) ensures c < |s.limits| && b in s.sizes && s.sizes[b] == s.limits[c] {
      InThatSlot(s, c, i, b);
    }
    if b in s.held {
      WithThatCaller(s, b);
    }
    forall t: Tid | PcOf(s, t).Dropping? && PcOf(s, t).block == b ensures b in s.sizes && PcOf(s, t).size == s.sizes[b] {
      InThatDrop(s, t);
    }
  }
}
