/** The positions at which the memory managers' pools are accessed, and what follows for full and empty
    pools. */
module MemoryTickets {
  import opened Arithmetic
  import opened Wrappers
  import opened MemoryManager

  /** How many calls begin at end `e` of pool `c`. */
  function Calls(limits: seq<nat>, acts: seq<Action>, c: nat, e: End): nat {
    if acts == [] then 0
    else Calls(limits, acts[..|acts| - 1], c, e) + if Begins(limits, acts[|acts| - 1], c, e) then 1 else 0
  }

  lemma StepKeepsLimits(s: State, a: Action)
    requires Shape(s) && Enabled(s, a)
    ensures Step(s, a).limits == s.limits
  {
    hide ClassOf;
  }

  lemma NextTicket(n: nat)
    ensures (n % WORD + 1) % WORD == (n + 1) % WORD
  {
  }

  // ---- over a run

  lemma ShapeOf(s: State)
    requires Inv(s)
    ensures Shape(s) && |s.rings| == |s.limits|
  {
    hide InSlots, WithCallers, InThreads, Sizes;
  }

  lemma {:induction false} RunKeepsLimits(run: seq<State>, acts: seq<Action>, k: nat)
    requires IsRun(run, acts) && k < |run|
    ensures run[k].limits == run[0].limits && Shape(run[k]) && |run[k].rings| == |run[0].limits| && |run| == |acts| + 1
  {
    hide Inv, Step, Enabled, Shape;
    RunKeepsInv(run, acts, k);
    ShapeOf(run[k]);
    if k > 0 {
      RunKeepsLimits(run, acts, k - 1);
      StepKeepsLimits(run[k - 1], acts[k - 1]);
    }
  }

  lemma RunSteps(run: seq<State>, acts: seq<Action>, k: nat)
    requires IsRun(run, acts) && k < |acts|
    ensures |run| == |acts| + 1 && Shape(run[k]) && Enabled(run[k], acts[k]) && run[k + 1] == Step(run[k], acts[k])
  {
    hide Shape, Enabled, Step;
  }

  lemma NextCall(limits: seq<nat>, acts: seq<Action>, from: nat, k: nat, c: nat, e: End)
    requires from <= k < |acts|
    ensures Calls(limits, acts[from..k + 1], c, e) == Calls(limits, acts[from..k], c, e) + if Begins(limits, acts[k], c, e) then 1 else 0
  {
    hide Begins;
    assert acts[from..k + 1][..k - from] == acts[from..k] && acts[from..k + 1][k - from] == acts[k];
  }

  lemma {:induction false} RunTickets(run: seq<State>, acts: seq<Action>, k: nat, c: nat, e: End)
    requires IsRun(run, acts) && k < |run| && c < |run[0].limits|
    ensures c < |run[k].rings| && Counter(run[k], c, e) == Calls(run[0].limits, acts[..k], c, e) % WORD
  {
    hide IsRun, Step, Enabled, Shape, Begins, Calls;
    RunKeepsLimits(run, acts, k);
    if k == 0 {
      InitTickets(run, acts, c, e);
    } else {
      RunKeepsLimits(run, acts, k - 1);
      RunTickets(run, acts, k - 1, c, e);
      RunSteps(run, acts, k - 1);
      StepCounts(run[k - 1], acts[k - 1], c, e);
      NextCall(run[0].limits, acts, 0, k - 1, c, e);
      NextTicket(Calls(run[0].limits, acts[..k - 1], c, e));
      assert acts[0..k - 1] == acts[..k - 1] && acts[0..k] == acts[..k];
    }
  }

  lemma InitTickets(run: seq<State>, acts: seq<Action>, c: nat, e: End)
    requires IsRun(run, acts) && c < |run[0].limits|
    ensures c < |run[0].rings| && Counter(run[0], c, e) == 0 && Calls(run[0].limits, acts[..0], c, e) == 0
  {
    hide Step, Enabled, Shape;
  }

  /** Over any run, the allocations from a pool stand at the positions 0, 1, 2 and so on, modulo 2 to the
      power of 64, in the order in which they begin; and so do the deallocations to it. */
  lemma Tickets(run: seq<State>, acts: seq<Action>, k: nat, c: nat)
    requires IsRun(run, acts) && k < |acts| && c < |run[0].limits|
    ensures acts[k].BeginAllocate? && ClassOf(run[0].limits, acts[k].size) == c ==>
            PcOf(run[k + 1], acts[k].t) == Taking(c, Calls(run[0].limits, acts[..k], c, Head) % WORD, acts[k].size)
    ensures acts[k].BeginFree? && ClassOf(run[0].limits, acts[k].size) == c ==>
            PcOf(run[k + 1], acts[k].t) == Storing(acts[k].block, c, Calls(run[0].limits, acts[..k], c, Tail) % WORD)
  {
    hide Step, Enabled, Calls, Shape, ClassOf;
    RunKeepsLimits(run, acts, k);
    RunTickets(run, acts, k, c, Head);
    RunTickets(run, acts, k, c, Tail);
    StepCounts(run[k], acts[k], c, Head);
    StepCounts(run[k], acts[k], c, Tail);
  }

  // ---- the exchanges

  /** An allocation looks at one slot: the block in it goes to the caller and the slot becomes empty; if
      there is none the OS is asked, for what the caller asked for. */
  lemma TakesWhatIsThere(s: State, t: Tid)
    requires Shape(s) && PcOf(s, t).Taking?
    ensures var Taking(c, pos, size), s' := PcOf(s, t), Step(s, TakeSlot(t));
            && InRing(s, c, pos % |s.rings[c].slots|)
            && var i := pos % |s.rings[c].slots|;
            && SlotAt(s', c, i) == None
            && (forall d: nat, j: nat :: (d, j) != (c, i) ==> SlotAt(s', d, j) == SlotAt(s, d, j))
            && match SlotAt(s, c, i)
               case Some(b) => PcOf(s', t) == Idle && s'.held == s.held + multiset{b} && b in s'.asked && s'.asked[b] == size
               case None => PcOf(s', t) == NeedsOs(size) && s'.held == s.held
  {
    var pc := PcOf(s, t);
    SlotsAfterSet(s, pc.c, pc.pos % |s.rings[pc.c].slots|, None);
  }

  /** A deallocation puts the block into one slot; a block that was there is given to the OS, with the size
      of the pool's blocks. */
  lemma StoresTheBlock(s: State, t: Tid)
    requires Shape(s) && PcOf(s, t).Storing?
    ensures var Storing(b, c, pos), s' := PcOf(s, t), Step(s, StoreSlot(t));
            && InRing(s, c, pos % |s.rings[c].slots|)
            && var i := pos % |s.rings[c].slots|;
            && SlotAt(s', c, i) == Some(b) && s'.held == s.held
            && (forall d: nat, j: nat :: (d, j) != (c, i) ==> SlotAt(s', d, j) == SlotAt(s, d, j))
            && PcOf(s', t) == (match SlotAt(s, c, i)
                               case Some(was) => Dropping(was, s.limits[c])
                               case None => Idle)
  {
    var pc := PcOf(s, t);
    SlotsAfterSet(s, pc.c, pc.pos % |s.rings[pc.c].slots|, Some(pc.block));
  }

  /** One turn of `FreePool` empties the slot and gives its block to the OS; one turn of `Preallocate` puts a
      block of the pool's size into the slot. */
  lemma FreesAndFills(s: State, t: Tid, c: nat, i: nat, block: Block)
    requires Shape(s) && InRing(s, c, i) && PcOf(s, t) == Idle
    ensures var s' := Step(s, FreePoolSlot(t, c, i));
            && SlotAt(s', c, i) == None && (forall d: nat, j: nat :: (d, j) != (c, i) ==> SlotAt(s', d, j) == SlotAt(s, d, j))
            && PcOf(s', t) == (match SlotAt(s, c, i)
                               case Some(b) => Dropping(b, s.limits[c])
                               case None => Idle)
    ensures SlotAt(s, c, i) == None && block !in s.sizes ==>
            var s' := Step(s, FillSlot(c, i, block));
            && SlotAt(s', c, i) == Some(block) && (forall d: nat, j: nat :: (d, j) != (c, i) ==> SlotAt(s', d, j) == SlotAt(s, d, j))
            && block in s'.sizes && s'.sizes[block] == s.limits[c]
  {
    SlotsAfterSet(s, c, i, None);
    SlotsAfterSet(s, c, i, Some(block));
  }

  /** A block from the OS goes to the caller, with the size of the pool's blocks, or the requested size beyond the
      pools; one that is dropped is the OS's again. */
  lemma GetsAndDrops(s: State, t: Tid, got: Option<Block>)
    requires Shape(s)
    ensures PcOf(s, t).NeedsOs? && (got.Some? ==> got.value !in s.sizes) ==>
            var s', size := Step(s, FromOs(t, got)), PcOf(s, t).size;
            && PcOf(s', t) == Idle
            && match got
               case None => s'.held == s.held && s'.sizes == s.sizes
               case Some(b) => s'.held == s.held + multiset{b} && b in s'.sizes && s'.sizes[b] == Reported(s.limits, size)
    ensures PcOf(s, t).Dropping? ==>
            var s', b := Step(s, DropBlock(t)), PcOf(s, t).block;
            PcOf(s', t) == Idle && s'.held == s.held && forall x :: x in s'.sizes <==> x in s.sizes && x != b
  {
    hide ClassOf;
  }

  // ---- full and empty pools

  /** Thread `t` is between the counter and the exchange at end `e` of pool `c`. */
  predicate Inside(s: State, t: Tid, c: nat, e: End) {
    match e
    case Head => PcOf(s, t).Taking? && PcOf(s, t).c == c
    case Tail => PcOf(s, t).Storing? && PcOf(s, t).c == c
  }

  /** Its exchange. */
  predicate ExchangesAt(s: State, a: Action, c: nat, e: End) {
    match e
    case Head => a.TakeSlot? && Inside(s, a.t, c, e)
    case Tail => a.StoreSlot? && Inside(s, a.t, c, e)
  }

  /** The slot is as a call at end `e` hopes: with a block for an allocation, empty for a deallocation. */
  predicate Good(s: State, c: nat, i: nat, e: End) {
    InRing(s, c, i) && (s.rings[c].slots[i].Some? <==> e == Head)
  }

  /** One turn of `FreePool`, or of `Preallocate`, which spoils it. */
  predicate Spoils(a: Action, c: nat, e: End) {
    match e
    case Head => a.FreePoolSlot? && a.c == c
    case Tail => a.FillSlot? && a.c == c
  }

  /** No slot of pool `c` gets worse, and no thread comes to stand before one. */
  ghost predicate Spares(s: State, s': State, c: nat, e: End) {
    && (forall i: nat :: Good(s, c, i, e) ==> Good(s', c, i, e))
    && forall t: Tid :: Inside(s', t, c, e) ==> Inside(s, t, c, e) && PcOf(s', t) == PcOf(s, t)
  }

  lemma OnlyThread(s: State, s': State, t: Tid, c: nat, e: End)
    requires forall u: Tid :: u != t ==> PcOf(s', u) == PcOf(s, u)
    requires !Inside(s', t, c, e) && forall i: nat :: Good(s, c, i, e) ==> Good(s', c, i, e)
    ensures Spares(s, s', c, e)
  {
    forall u: Tid | Inside(s', u, c, e) ensures Inside(s, u, c, e) && PcOf(s', u) == PcOf(s, u) {
      assert u != t;
    }
  }

  lemma AllocatingSpares(s: State, t: Tid, size: nat, c: nat, e: End)
    requires Shape(s) && !Begins(s.limits, BeginAllocate(t, size), c, e)
    ensures Spares(s, DoBeginAllocate(s, t, size), c, e)
  {
    hide ClassOf;
    OnlyThread(s, DoBeginAllocate(s, t, size), t, c, e);
  }

  lemma FreeingSpares(s: State, t: Tid, b: Block, size: nat, c: nat, e: End)
    requires Shape(s) && !Begins(s.limits, BeginFree(t, b, size), c, e)
    ensures Spares(s, DoBeginFree(s, t, b, size), c, e)
  {
    hide ClassOf;
    OnlyThread(s, DoBeginFree(s, t, b, size), t, c, e);
  }

  lemma OsSpares(s: State, t: Tid, got: Option<Block>, c: nat, e: End)
    requires Shape(s)
    ensures PcOf(s, t).NeedsOs? ==> Spares(s, DoFromOs(s, t, got), c, e)
    ensures PcOf(s, t).Dropping? ==> Spares(s, DoDropBlock(s, t), c, e)
  {
    hide ClassOf, Spares;
    if PcOf(s, t).NeedsOs? {
      OnlyThread(s, DoFromOs(s, t, got), t, c, e);
    } else if PcOf(s, t).Dropping? {
      OnlyThread(s, DoDropBlock(s, t), t, c, e);
    }
  }

  lemma TakingSpares(s: State, t: Tid, c: nat, e: End)
    requires Shape(s) && PcOf(s, t).Taking? && !ExchangesAt(s, TakeSlot(t), c, e)
    ensures Spares(s, DoTakeSlot(s, t), c, e)
  {
    OnlyThread(s, DoTakeSlot(s, t), t, c, e);
  }

  lemma StoringSpares(s: State, t: Tid, c: nat, e: End)
    requires Shape(s) && PcOf(s, t).Storing? && !ExchangesAt(s, StoreSlot(t), c, e)
    ensures Spares(s, DoStoreSlot(s, t), c, e)
  {
    OnlyThread(s, DoStoreSlot(s, t), t, c, e);
  }

  lemma FreePoolSpares(s: State, t: Tid, d: nat, i: nat, c: nat, e: End)
    requires Shape(s) && InRing(s, d, i) && PcOf(s, t) == Idle && !Spoils(FreePoolSlot(t, d, i), c, e)
    ensures Spares(s, DoFreePoolSlot(s, t, d, i), c, e)
  {
    OnlyThread(s, DoFreePoolSlot(s, t, d, i), t, c, e);
  }

  lemma FillSpares(s: State, d: nat, i: nat, b: Block, c: nat, e: End)
    requires Shape(s) && InRing(s, d, i) && !Spoils(FillSlot(d, i, b), c, e)
    ensures Spares(s, DoFillSlot(s, d, i, b), c, e)
  {
  }

  /** Only the allocations from a pool and `FreePool` take blocks out of it; only the deallocations to it and
      `Preallocate` put blocks in. */
  lemma OthersSpare(s: State, a: Action, c: nat, e: End)
    requires Shape(s) && Enabled(s, a) && !Begins(s.limits, a, c, e) && !ExchangesAt(s, a, c, e) && !Spoils(a, c, e)
    ensures Spares(s, Step(s, a), c, e)
  {
    hide Shape, Begins, ExchangesAt, Spoils, Spares, ClassOf, DoBeginAllocate, DoTakeSlot, DoFromOs, DoBeginFree, DoStoreSlot, DoDropBlock,
         DoFreePoolSlot, DoFillSlot;
    match a
    case BeginAllocate(t, size) => AllocatingSpares(s, t, size, c, e);
    case TakeSlot(t) => TakingSpares(s, t, c, e);
    case FromOs(t, got) => OsSpares(s, t, got, c, e);
    case BeginFree(t, b, size) => FreeingSpares(s, t, b, size, c, e);
    case StoreSlot(t) => StoringSpares(s, t, c, e);
    case DropBlock(t) => OsSpares(s, t, None, c, e);
    case FreePoolSlot(t, d, i) => FreePoolSpares(s, t, d, i, c, e);
    case FillSlot(d, i, b) => FillSpares(s, d, i, b, c, e);
  }

  /** The slot of position `h + j`. */
  function Ahead(h: nat, j: nat, n: nat): nat
    requires n > 0
  {
    (h + j) % n
  }

  /** The slot before which a thread stands. */
  function SlotOf(s: State, t: Tid, n: nat): nat
    requires n > 0
  {
    var pc := PcOf(s, t);
    (if pc.Taking? || pc.Storing? then pc.pos else 0) % n
  }

  /** Every thread inside stands before a good slot of its own, and the positions from `m` to `n` after `h` are
      good and nobody's. */
  ghost predicate Queued(s: State, c: nat, e: End, n: nat, h: nat, m: nat)
    requires n > 0
  {
    && (forall j: nat :: m <= j < n ==> Good(s, c, Ahead(h, j, n), e))
    && (forall t: Tid :: Inside(s, t, c, e) ==> Good(s, c, SlotOf(s, t, n), e))
    && (forall t: Tid, j: nat :: Inside(s, t, c, e) && m <= j < n ==> SlotOf(s, t, n) != Ahead(h, j, n))
    && (forall t: Tid, u: Tid :: Inside(s, t, c, e) && Inside(s, u, c, e) && t != u ==> SlotOf(s, t, n) != SlotOf(s, u, n))
  }

  lemma PositionOf(h: nat, n: nat)
    requires n > 0 && WORD % n == 0
    ensures h % WORD % n == h % n
  {
    var w := WORD / n;
    assert WORD == w * n;
    RemainderOfRemainder(h, w, n);
  }

  lemma AheadApart(h: nat, m: nat, n: nat)
    requires n > 0
    ensures forall j: nat :: m < j < n ==> Ahead(h, j, n) != Ahead(h, m, n)
  {
    forall j: nat | m < j < n ensures Ahead(h, j, n) != Ahead(h, m, n) {
      DistinctRemainders(h + m, h + j, n);
    }
  }

  /** One more thread comes to stand, at the next position. */
  lemma EnterQueue(s: State, s': State, t: Tid, c: nat, e: End, n: nat, h: nat, m: nat)
    requires n > 0 && m < n && Queued(s, c, e, n, h, m) && SlotOf(s', t, n) == Ahead(h, m, n)
    requires forall i: nat :: Good(s', c, i, e) <==> Good(s, c, i, e)
    requires forall u: Tid :: u != t ==> PcOf(s', u) == PcOf(s, u)
    ensures Queued(s', c, e, n, h, m + 1)
  {
    hide Good, Ahead;
    AheadApart(h, m, n);
    assert forall u: Tid :: u != t ==> SlotOf(s', u, n) == SlotOf(s, u, n) && (Inside(s', u, c, e) <==> Inside(s, u, c, e));
  }

  /** A thread makes its exchange. */
  lemma LeaveQueue(s: State, s': State, t: Tid, c: nat, e: End, n: nat, h: nat, m: nat)
    requires n > 0 && Queued(s, c, e, n, h, m) && Inside(s, t, c, e) && PcOf(s', t) == Idle
    requires forall i: nat :: i != SlotOf(s, t, n) && Good(s, c, i, e) ==> Good(s', c, i, e)
    requires forall u: Tid :: u != t ==> PcOf(s', u) == PcOf(s, u)
    ensures Queued(s', c, e, n, h, m)
  {
    hide Good, Ahead;
    assert !Inside(s', t, c, e);
    assert forall u: Tid :: u != t ==> SlotOf(s', u, n) == SlotOf(s, u, n) && (Inside(s', u, c, e) <==> Inside(s, u, c, e));
  }

  lemma SpareQueue(s: State, s': State, c: nat, e: End, n: nat, h: nat, m: nat)
    requires n > 0 && Queued(s, c, e, n, h, m) && Spares(s, s', c, e)
    ensures Queued(s', c, e, n, h, m)
  {
    hide Good, Ahead, Inside;
    assert forall u: Tid :: Inside(s', u, c, e) ==> SlotOf(s', u, n) == SlotOf(s, u, n);
  }

  /** The ring has `n` slots, and its counter has gone `m` up from `h`. */
  ghost predicate Serves(s: State, c: nat, e: End, n: nat, h: nat, m: nat) {
    && c < |s.rings| && |s.rings[c].slots| == n > 0 && WORD % n == 0
    && Counter(s, c, e) == (h + m) % WORD && Queued(s, c, e, n, h, m)
  }

  lemma BeginServes(s: State, a: Action, c: nat, e: End, n: nat, h: nat, m: nat)
    requires Shape(s) && Enabled(s, a) && Serves(s, c, e, n, h, m) && Begins(s.limits, a, c, e) && m < n
    ensures Serves(Step(s, a), c, e, n, h, m + 1)
  {
    hide ClassOf, Queued;
    StepCounts(s, a, c, e);
    NextTicket(h + m);
    PositionOf(h + m, n);
    EnterQueue(s, Step(s, a), a.t, c, e, n, h, m);
  }

  lemma ExchangeServes(s: State, a: Action, c: nat, e: End, n: nat, h: nat, m: nat)
    requires Shape(s) && Serves(s, c, e, n, h, m) && ExchangesAt(s, a, c, e)
    ensures Enabled(s, a) && PcOf(Step(s, a), a.t) == Idle && Serves(Step(s, a), c, e, n, h, m)
  {
    assert Good(s, c, SlotOf(s, a.t, n), e);
    hide Queued;
    LeaveQueue(s, Step(s, a), a.t, c, e, n, h, m);
  }

  lemma OtherServes(s: State, a: Action, c: nat, e: End, n: nat, h: nat, m: nat)
    requires Shape(s) && Enabled(s, a) && Serves(s, c, e, n, h, m)
    requires !Begins(s.limits, a, c, e) && !ExchangesAt(s, a, c, e) && !Spoils(a, c, e)
    ensures Serves(Step(s, a), c, e, n, h, m)
  {
    hide Shape, Step, Enabled, Queued, Spares, Begins, ExchangesAt, Spoils;
    OthersSpare(s, a, c, e);
    StepCounts(s, a, c, e);
    SpareQueue(s, Step(s, a), c, e, n, h, m);
  }

  lemma StepServes(s: State, a: Action, c: nat, e: End, n: nat, h: nat, m: nat)
    requires Shape(s) && Enabled(s, a) && Serves(s, c, e, n, h, m) && !Spoils(a, c, e) && (Begins(s.limits, a, c, e) ==> m < n)
    ensures Serves(Step(s, a), c, e, n, h, if Begins(s.limits, a, c, e) then m + 1 else m)
    ensures ExchangesAt(s, a, c, e) ==> PcOf(Step(s, a), a.t) == Idle
  {
    hide Shape, Step, Enabled, Serves;
    if Begins(s.limits, a, c, e) {
      BeginServes(s, a, c, e, n, h, m);
    } else if ExchangesAt(s, a, c, e) {
      ExchangeServes(s, a, c, e, n, h, m);
    } else {
      OtherServes(s, a, c, e, n, h, m);
    }
  }

  /** All slots of pool `c` are good for end `e`, and no thread is inside. The length of a pool is a power of two,
      so it divides the number of values of a counter. */
  ghost predicate Ready(s: State, c: nat, e: End) {
    && c < |s.rings| && |s.rings[c].slots| > 0 && WORD % |s.rings[c].slots| == 0
    && (forall i: nat :: i < |s.rings[c].slots| ==> Good(s, c, i, e))
    && forall t: Tid :: !Inside(s, t, c, e)
  }

  lemma ReadyServes(s: State, c: nat, e: End)
    requires Ready(s, c, e) && Counter(s, c, e) < WORD
    ensures Serves(s, c, e, |s.rings[c].slots|, Counter(s, c, e), 0)
  {
    hide Good, Inside;
  }

  ghost predicate Unspoilt(acts: seq<Action>, c: nat, e: End) {
    forall a :: a in acts ==> !Spoils(a, c, e)
  }

  lemma {:induction false} RunServes(run: seq<State>, acts: seq<Action>, k: nat, i: nat, c: nat, e: End)
    requires IsRun(run, acts) && k <= i < |run| && Ready(run[k], c, e) && Unspoilt(acts[k..i], c, e)
    requires c < |run[k].rings| && Calls(run[0].limits, acts[k..i], c, e) <= |run[k].rings[c].slots|
    ensures Serves(run[i], c, e, |run[k].rings[c].slots|, Counter(run[k], c, e), Calls(run[0].limits, acts[k..i], c, e))
    decreases i
  {
    hide IsRun, Step, Enabled, Serves, Shape, Ready, Begins, Spoils, Calls, Counter;
    if i == k {
      ServesAtFirst(run, acts, k, c, e);
    } else {
      RunKeepsLimits(run, acts, i - 1);
      NextCall(run[0].limits, acts, k, i - 1, c, e);
      assert forall a :: a in acts[k..i - 1] ==> a in acts[k..i];
      assert acts[i - 1] == acts[k..i][i - 1 - k];
      RunServes(run, acts, k, i - 1, c, e);
      RunSteps(run, acts, i - 1);
      StepServes(run[i - 1], acts[i - 1], c, e, |run[k].rings[c].slots|, Counter(run[k], c, e), Calls(run[0].limits, acts[k..i - 1], c, e));
    }
  }

  lemma ServesAtFirst(run: seq<State>, acts: seq<Action>, k: nat, c: nat, e: End)
    requires IsRun(run, acts) && k < |run| && c < |run[k].rings| && Ready(run[k], c, e)
    ensures Serves(run[k], c, e, |run[k].rings[c].slots|, Counter(run[k], c, e), Calls(run[0].limits, acts[k..k], c, e))
  {
    hide IsRun, Serves, Shape, Ready, Counter;
    RunKeepsLimits(run, acts, k);
    RunTickets(run, acts, k, c, e);
    ReadyServes(run[k], c, e);
  }

  /** While no more calls began than there are slots, every exchange finds its slot good. */
  lemma ExchangesSucceed(run: seq<State>, acts: seq<Action>, k: nat, i: nat, c: nat, e: End)
    requires IsRun(run, acts) && k <= i < |acts| && Ready(run[k], c, e) && Unspoilt(acts[k..i], c, e)
    requires c < |run[k].rings| && Calls(run[0].limits, acts[k..i], c, e) <= |run[k].rings[c].slots|
    requires ExchangesAt(run[i], acts[i], c, e)
    ensures PcOf(run[i + 1], acts[i].t) == Idle
  {
    hide Inv, Step, Enabled, Serves, Shape, Ready, ExchangesAt;
    RunServes(run, acts, k, i, c, e);
    RunKeepsLimits(run, acts, i);
    ExchangeServes(run[i], acts[i], c, e, |run[k].rings[c].slots|, Counter(run[k], c, e), Calls(run[0].limits, acts[k..i], c, e));
  }

  /** Pool `c` has a block in every slot, and no thread is inside an allocation from it. */
  ghost predicate Full(s: State, c: nat) {
    && c < |s.rings| && |s.rings[c].slots| > 0 && WORD % |s.rings[c].slots| == 0
    && (forall i :: 0 <= i < |s.rings[c].slots| ==> s.rings[c].slots[i].Some?)
    && forall t: Tid :: !(PcOf(s, t).Taking? && PcOf(s, t).c == c)
  }

  /** Pool `c` has no block, and no thread is inside a deallocation to it. */
  ghost predicate Empty(s: State, c: nat) {
    && c < |s.rings| && |s.rings[c].slots| > 0 && WORD % |s.rings[c].slots| == 0
    && (forall i :: 0 <= i < |s.rings[c].slots| ==> s.rings[c].slots[i] == None)
    && forall t: Tid :: !(PcOf(s, t).Storing? && PcOf(s, t).c == c)
  }

  /** From a full pool, as many allocations as it has slots get a block of it each, without asking the OS:
      however they interleave with one another, with deallocations to the pool and with the other pools. */
  lemma FullPoolServes(run: seq<State>, acts: seq<Action>, k: nat, i: nat, c: nat)
    requires IsRun(run, acts) && k <= i < |acts| && Full(run[k], c)
    requires forall a :: a in acts[k..i] ==> !(a.FreePoolSlot? && a.c == c)
    requires Calls(run[0].limits, acts[k..i], c, Head) <= |run[k].rings[c].slots|
    requires acts[i].TakeSlot? && PcOf(run[i], acts[i].t).Taking? && PcOf(run[i], acts[i].t).c == c
    ensures PcOf(run[i + 1], acts[i].t) == Idle && |run[i + 1].held| == |run[i].held| + 1
  {
    hide Inv, Step, Shape, Enabled;
    assert Ready(run[k], c, Head);
    ExchangesSucceed(run, acts, k, i, c, Head);
    RunKeepsLimits(run, acts, i);
    TakesWhatIsThere(run[i], acts[i].t);
  }

  /** Into an empty pool, as many deallocations as it has slots put their blocks, and none goes to the OS:
      however they interleave with one another, with allocations from the pool and with the other pools. */
  lemma EmptyPoolKeeps(run: seq<State>, acts: seq<Action>, k: nat, i: nat, c: nat)
    requires IsRun(run, acts) && k <= i < |acts| && Empty(run[k], c)
    requires forall a :: a in acts[k..i] ==> !(a.FillSlot? && a.c == c)
    requires Calls(run[0].limits, acts[k..i], c, Tail) <= |run[k].rings[c].slots|
    requires acts[i].StoreSlot? && PcOf(run[i], acts[i].t).Storing? && PcOf(run[i], acts[i].t).c == c
    ensures PcOf(run[i + 1], acts[i].t) == Idle
  {
    hide Inv, Step, Shape, Enabled;
    assert Ready(run[k], c, Tail);
    ExchangesSucceed(run, acts, k, i, c, Tail);
  }
}
