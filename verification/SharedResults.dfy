/** What the operations on shared pointers return, and what a lock guarantees about it. */
module SharedResults {
  import opened Wrappers
  import opened SharedPointers

  function RawOf(s: State, r: nat): Option<Oid> {
    if r in s.raws then Some(s.raws[r]) else None
  }

  /** The operations on shared pointers and raw references alone. */
  predicate OnPointers(a: Action) {
    a.Make? || a.Copy? || a.Move? || a.Reset? || a.NewRaw? || a.GiveUp? || a.Adopt? || a.ResetRaw?
  }

  /** The shared pointer that an operation sets, and to what. */
  ghost predicate Sets(s: State, s': State, h: nat, p: Option<Oid>) {
    PointerOf(s', h) == p && forall x :: x != h ==> PointerOf(s', x) == PointerOf(s, x)
  }

  ghost predicate SetsRaw(s: State, s': State, r: nat, p: Option<Oid>) {
    RawOf(s', r) == p && forall x :: x != r ==> RawOf(s', x) == RawOf(s, x)
  }

  lemma MakeResult(s: State, o: Oid, h: nat)
    ensures var s' := DoMake(s, o, h); Sets(s, s', h, Some(o)) && s'.raws == s.raws && s'.cells == s.cells
  {
  }

  lemma CopyResult(s: State, h: nat, to: nat)
    ensures var s' := DoCopy(s, h, to); Sets(s, s', to, PointerOf(s, h)) && s'.raws == s.raws && s'.cells == s.cells
  {
  }

  lemma MoveResult(s: State, h: nat, to: nat)
    requires h != to
    ensures var s' := DoMove(s, h, to);
            && PointerOf(s', to) == PointerOf(s, h) && PointerOf(s', h) == None && s'.raws == s.raws && s'.cells == s.cells
            && forall x :: x != h && x != to ==> PointerOf(s', x) == PointerOf(s, x)
  {
  }

  lemma ResetResult(s: State, t: Tid, h: nat)
    ensures var s' := DoReset(s, t, h); Sets(s, s', h, None) && s'.raws == s.raws && s'.cells == s.cells
  {
  }

  lemma NewRawResult(s: State, h: nat, r: nat)
    requires PointerOf(s, h).Some?
    ensures var s' := DoNewRaw(s, h, r); s'.handles == s.handles && SetsRaw(s, s', r, PointerOf(s, h)) && s'.cells == s.cells
  {
  }

  lemma GiveUpResult(s: State, h: nat, r: nat)
    requires PointerOf(s, h).Some?
    ensures var s' := DoGiveUp(s, h, r); Sets(s, s', h, None) && SetsRaw(s, s', r, PointerOf(s, h)) && s'.cells == s.cells
  {
  }

  lemma AdoptResult(s: State, r: nat, h: nat)
    requires r in s.raws
    ensures var s' := DoAdopt(s, r, h); Sets(s, s', h, RawOf(s, r)) && SetsRaw(s, s', r, None) && s'.cells == s.cells
  {
  }

  lemma ResetRawResult(s: State, t: Tid, r: nat)
    requires r in s.raws
    ensures var s' := DoResetRaw(s, t, r); s'.handles == s.handles && SetsRaw(s, s', r, None) && s'.cells == s.cells
  {
  }

  /** What each of these operations leaves in the shared pointers and in the raw references: a copy and its
      original refer to the same, the source of a move to nothing. */
  lemma PointersAfter(s: State, a: Action, x: nat)
    requires Enabled(s, a) && OnPointers(a)
    ensures Step(s, a).cells == s.cells
    ensures PointerOf(Step(s, a), x) == match a
            case Make(o, h) => if x == h then Some(o) else PointerOf(s, x)
            case Copy(h, to) => if x == to then PointerOf(s, h) else PointerOf(s, x)
            case Move(h, to) => if x == to then PointerOf(s, h) else if x == h then None else PointerOf(s, x)
            case Reset(_, h) => if x == h then None else PointerOf(s, x)
            case GiveUp(h, _) => if x == h then None else PointerOf(s, x)
            case Adopt(r, h) => if x == h then RawOf(s, r) else PointerOf(s, x)
            case _ => PointerOf(s, x)
    ensures RawOf(Step(s, a), x) == match a
            case NewRaw(h, r) => if x == r then PointerOf(s, h) else RawOf(s, x)
            case GiveUp(h, r) => if x == r then PointerOf(s, h) else RawOf(s, x)
            case Adopt(r, _) => if x == r then None else RawOf(s, x)
            case ResetRaw(_, r) => if x == r then None else RawOf(s, x)
            case _ => RawOf(s, x)
  {
    hide DoMake, DoCopy, DoMove, DoReset, DoNewRaw, DoGiveUp, DoAdopt, DoResetRaw, DoDestroy, DoMakeCell, DoDropCell, DoLockShared, DoLoad,
         DoAcquire, DoUnlock, DoLockAlone, DoSwap, DoReleaseInReset, DoSetNull, DoTest, DoIncrement, DoReturn;
    match a {
      case Make(o, h) => MakeResult(s, o, h);
      case Copy(h, to) => CopyResult(s, h, to);
      case Move(h, to) => MoveResult(s, h, to);
      case Reset(t, h) => ResetResult(s, t, h);
      case NewRaw(h, r) => NewRawResult(s, h, r);
      case GiveUp(h, r) => GiveUpResult(s, h, r);
      case Adopt(r, h) => AdoptResult(s, r, h);
      case ResetRaw(t, r) => ResetRawResult(s, t, r);
      case _ =>
    }
  }

  /** The pointer in a locked shared pointer. */
  function CellPointer(s: State, l: nat): Option<Oid> {
    if l in s.cells then s.cells[l].pointer else None
  }

  /** `swap_ref` and `release` return what the locked shared pointer referred to, put the given reference in
      its place, or null, and give the lock back. */
  lemma SwapReturnsTheOld(s: State, t: Tid, l: nat, from: Option<nat>, h: nat)
    requires l in s.cells && (from.Some? ==> from.value in s.raws)
    ensures var s' := DoSwap(s, t, l, from, h);
            && Sets(s, s', h, s.cells[l].pointer) && PcOf(s', t) == Idle
            && l in s'.cells && s'.cells[l].writer == None && s'.cells[l].readers == s.cells[l].readers
            && s'.cells[l].pointer == (if from == None then None else RawOf(s, from.value))
            && (from.Some? ==> from.value !in s'.raws)
            && forall x :: x != l ==> (x in s'.cells <==> x in s.cells) && CellPointer(s', x) == CellPointer(s, x)
  {
    hide Rename;
    RenameKeeps(s, if s.cells[l].pointer.Some? then s.cells[l].pointer.value else 0, Locked(l), Handle(h));
    if from.Some? {
      RenameKeeps(Emptied(s, l, h), s.raws[from.value], Raw(from.value), Locked(l));
    }
  }

  lemma RenameKeeps(s: State, o: Oid, r: Ref, r': Ref)
    ensures var s' := Rename(s, o, r, r'); s'.handles == s.handles && s'.raws == s.raws && s'.cells == s.cells && s'.threads == s.threads
  {
  }

  /** `reset` releases the reference, destroys the object if it was the last one, and leaves null. */
  lemma ResetLeavesNull(s: State, t: Tid)
    requires Enabled(s, ReleaseInReset(t)) || Enabled(s, SetNull(t))
    ensures PcOf(s, t).Writing? ==>
            var s', l := Step(s, ReleaseInReset(t)), PcOf(s, t).l;
            match s.cells[l].pointer
            case None => PcOf(s', t) == Nulling(l)
            case Some(o) =>
              && PcOf(s', t) == (if o in s.objs && s.objs[o].count == 1 then DestroyingInReset(l, o) else Nulling(l))
              && (o in s.objs && s.objs[o].count > 0 ==> o in s'.objs && s'.objs[o].count == s.objs[o].count - 1)
    ensures PcOf(s, t).Nulling? ==>
            var s', l := Step(s, SetNull(t)), PcOf(s, t).l;
            l in s'.cells && s'.cells[l].pointer == None && s'.cells[l].writer == None && PcOf(s', t) == Idle
  {
  }

  /** A locked shared pointer takes over the raw reference that it is made from, and releases its reference at
      its end. */
  lemma CellsBeginAndEnd(s: State, t: Tid, l: nat, from: Option<nat>)
    ensures Enabled(s, MakeCell(l, from)) ==>
            var s' := Step(s, MakeCell(l, from));
            && l in s'.cells && s'.cells[l] == Cell(if from == None then None else RawOf(s, from.value), {}, None)
            && (from.Some? ==> from.value !in s'.raws)
    ensures Enabled(s, DropCell(t, l)) ==>
            var s' := Step(s, DropCell(t, l));
            && l !in s'.cells
            && match s.cells[l].pointer
               case None => s'.objs == s.objs && PcOf(s', t) == Idle
               case Some(o) =>
                 && PcOf(s', t) == (if o in s.objs && s.objs[o].count == 1 then Destroying(o) else Idle)
                 && (o in s.objs && s.objs[o].count > 0 ==> o in s'.objs && s'.objs[o].count == s.objs[o].count - 1)
  {
    hide NoCallOn;
  }

  // ---- under a lock

  lemma LocksKeepPointers(s: State, t: Tid, l: nat, h: nat, x: nat)
    ensures l in s.cells ==> CellPointer(DoLockShared(s, t, l), x) == CellPointer(s, x) && CellPointer(DoLoad(s, t, l), x) == CellPointer(s, x)
    ensures l in s.cells ==> CellPointer(DoUnlock(s, t, l), x) == CellPointer(s, x) && CellPointer(DoLockAlone(s, t, l), x) == CellPointer(s, x)
    ensures PcOf(s, t).Loaded? ==> CellPointer(DoAcquire(s, t, h), x) == CellPointer(s, x)
    ensures l in s.cells ==> CellPointer(DoReleaseInReset(s, t, l), x) == CellPointer(s, x)
  {
  }

  lemma UnguardedKeepPointers(s: State, t: Tid, l: nat, h: nat, x: nat)
    requires l in s.cells
    ensures CellPointer(DoTest(s, t, l), x) == CellPointer(s, x) && CellPointer(DoIncrement(s, t, l), x) == CellPointer(s, x)
    ensures PcOf(s, t).ToReturn? ==> CellPointer(DoReturn(s, t, l, h), x) == CellPointer(s, x)
  {
  }

  lemma OtherCellsKept(s: State, t: Tid, l: nat, from: Option<nat>, x: nat)
    requires x != l
    ensures l in s.cells ==> CellPointer(DoSetNull(s, t, l), x) == CellPointer(s, x) && CellPointer(DoDropCell(s, t, l), x) == CellPointer(s, x)
    ensures (from.Some? ==> from.value in s.raws) ==> CellPointer(DoMakeCell(s, l, from), x) == CellPointer(s, x)
  {
  }

  /** The operations that change the pointer in a locked shared pointer. */
  predicate Changes(s: State, a: Action, l: nat) {
    match a
    case MakeCell(x, _) => x == l
    case DropCell(_, x) => x == l
    case Swap(t, _, _) => PcOf(s, t) == Writing(l)
    case SetNull(t) => PcOf(s, t) == Nulling(l)
    case _ => false
  }

  lemma OthersKeepThePointer(s: State, a: Action, l: nat)
    requires Enabled(s, a) && !Changes(s, a, l)
    ensures CellPointer(Step(s, a), l) == CellPointer(s, l)
  {
    hide DoMake, DoCopy, DoMove, DoReset, DoNewRaw, DoGiveUp, DoAdopt, DoResetRaw, DoMakeCell, DoDropCell, DoLockShared, DoLoad,
         DoAcquire, DoUnlock, DoLockAlone, DoSwap, DoReleaseInReset, DoSetNull, DoTest, DoIncrement, DoReturn, NoCallOn;
    if OnPointers(a) {
      PointersAfter(s, a, 0);
    } else {
      match a
      case LockShared(t, x) => LocksKeepPointers(s, t, x, 0, l);
      case Load(t) => LocksKeepPointers(s, t, PcOf(s, t).l, 0, l);
      case Unlock(t) => LocksKeepPointers(s, t, PcOf(s, t).l, 0, l);
      case LockAlone(t, x) => LocksKeepPointers(s, t, x, 0, l);
      case Acquire(t, h) => LocksKeepPointers(s, t, 0, h, l);
      case ReleaseInReset(t) => LocksKeepPointers(s, t, PcOf(s, t).l, 0, l);
      case Destroy(_) =>
      case MakeCell(x, from) => OtherCellsKept(s, 0, x, from, l);
      case DropCell(t, x) => OtherCellsKept(s, t, x, None, l);
      case SetNull(t) => OtherCellsKept(s, t, PcOf(s, t).l, None, l);
      case Swap(t, from, h) => SwapReturnsTheOld(s, t, PcOf(s, t).l, from, h);
      case TestUnguarded(t, x) => UnguardedKeepPointers(s, t, x, 0, l);
      case IncrementUnguarded(t) => UnguardedKeepPointers(s, t, PcOf(s, t).l, 0, l);
      case ReturnUnguarded(t, h) => UnguardedKeepPointers(s, t, PcOf(s, t).l, h, l);
    }
  }

  /** Nobody changes the pointer while a thread has the lock shared. */
  lemma ReadersKeepThePointer(s: State, a: Action, t: Tid, l: nat)
    requires Inv(s) && Enabled(s, a) && HasShared(s, t, l)
    ensures CellPointer(Step(s, a), l) == CellPointer(s, l)
  {
    hide Refs, Deaths, Step, NoCallOn;
    assert forall u: Tid :: !HasAlone(s, u, l);
    assert forall u: Tid :: !Writes(PcOf(s, u), l);
    OthersKeepThePointer(s, a, l);
  }

  /** ... and nobody but the thread itself while it has the lock alone. */
  lemma WriterKeepsThePointer(s: State, a: Action, t: Tid, l: nat)
    requires Inv(s) && Enabled(s, a) && HasAlone(s, t, l) && !(a.Swap? && a.t == t) && !(a.SetNull? && a.t == t)
    ensures CellPointer(Step(s, a), l) == CellPointer(s, l)
  {
    hide Refs, Deaths, Step, NoCallOn;
    assert forall u: Tid :: u != t ==> !HasAlone(s, u, l);
    assert forall u: Tid :: u != t ==> !Writes(PcOf(s, u), l);
    OthersKeepThePointer(s, a, l);
  }

  lemma {:induction false} ReadersSeeOnePointer(run: seq<State>, acts: seq<Action>, i: nat, k: nat, t: Tid, l: nat)
    requires IsSafeRun(run, acts) && i <= k < |run| && forall m :: i <= m <= k ==> HasShared(run[m], t, l)
    ensures forall m :: i <= m <= k ==> CellPointer(run[m], l) == CellPointer(run[k], l)
  {
    hide Inv, Step, Enabled, Safe, CellPointer;
    if i < k {
      RunKeepsInv(run, acts, k - 1);
      ReadersSeeOnePointer(run, acts, i, k - 1, t, l);
      ReadersKeepThePointer(run[k - 1], acts[k - 1], t, l);
    }
  }

  lemma AcquireTakesThePointer(s: State, t: Tid, h: nat, l: nat)
    requires Inv(s) && Enabled(s, Acquire(t, h)) && HasShared(s, t, l)
    ensures Sets(s, DoAcquire(s, t, h), h, CellPointer(s, l))
  {
    hide Refs, Deaths;
    assert Reads(PcOf(s, t), l);
    assert LoadedOk(s, t);
  }

  /** `new_ref` returns what the locked shared pointer referred to at every moment at which it had the lock. */
  lemma NewRefReturnsThePointer(run: seq<State>, acts: seq<Action>, i: nat, k: nat, t: Tid, l: nat, h: nat)
    requires IsSafeRun(run, acts) && i <= k < |acts| && acts[k] == Acquire(t, h)
    requires forall m :: i <= m <= k ==> HasShared(run[m], t, l)
    ensures forall m :: i <= m <= k ==> PointerOf(run[k + 1], h) == CellPointer(run[m], l)
  {
    hide Inv, Enabled, Safe, CellPointer;
    RunKeepsInv(run, acts, k);
    ReadersSeeOnePointer(run, acts, i, k, t, l);
    assert Enabled(run[k], acts[k]);
    AcquireTakesThePointer(run[k], t, h, l);
  }

  // ---- whole calls

  lemma IdleHasNoLock(s: State, t: Tid, l: nat)
    requires Inv(s) && PcOf(s, t) == Idle
    ensures !HasShared(s, t, l) && !HasAlone(s, t, l)
  {
    hide Refs, Deaths;
    assert !Reads(PcOf(s, t), l) && !Writes(PcOf(s, t), l);
  }

  /** The objects and the pointers to them are left alone. */
  ghost predicate OnlyLocks(s: State, s': State) {
    s'.objs == s.objs && s'.handles == s.handles && s'.raws == s.raws && s'.destroyed == s.destroyed
  }

  lemma LockSharedStep(s: State, t: Tid, l: nat) returns (s': State)
    requires Enabled(s, LockShared(t, l))
    ensures s' == Step(s, LockShared(t, l)) && OnlyLocks(s, s') && PcOf(s', t) == Reading(l) && l in s.cells
    ensures s'.cells == s.cells[l := s.cells[l].(readers := s.cells[l].readers + {t})]
  {
    s' := Step(s, LockShared(t, l));
  }

  lemma LoadStep(s: State, t: Tid, l: nat) returns (s': State)
    requires PcOf(s, t) == Reading(l) && l in s.cells
    ensures Enabled(s, Load(t)) && s' == Step(s, Load(t)) && OnlyLocks(s, s') && s'.cells == s.cells
    ensures PcOf(s', t) == Loaded(l, s.cells[l].pointer)
  {
    s' := Step(s, Load(t));
  }

  lemma AcquireStep(s: State, t: Tid, l: nat, p: Option<Oid>, h: nat) returns (s': State)
    requires PcOf(s, t) == Loaded(l, p) && PointerOf(s, h) == None
    ensures Enabled(s, Acquire(t, h)) && s' == Step(s, Acquire(t, h)) && s'.cells == s.cells && s'.raws == s.raws && s'.destroyed == s.destroyed
    ensures PcOf(s', t) == Unlocking(l) && Sets(s, s', h, p)
    ensures match p
            case None => s'.objs == s.objs
            case Some(o) => o in s.objs ==> o in s'.objs && s'.objs[o].count == s.objs[o].count + 1
  {
    s' := Step(s, Acquire(t, h));
  }

  lemma UnlockStep(s: State, t: Tid, l: nat) returns (s': State)
    requires PcOf(s, t) == Unlocking(l) && l in s.cells
    ensures Enabled(s, Unlock(t)) && s' == Step(s, Unlock(t)) && OnlyLocks(s, s') && PcOf(s', t) == Idle
    ensures s'.cells == s.cells[l := s.cells[l].(readers := s.cells[l].readers - {t})]
  {
    s' := Step(s, Unlock(t));
  }

  lemma LockAloneStep(s: State, t: Tid, l: nat) returns (s': State)
    requires Enabled(s, LockAlone(t, l))
    ensures s' == Step(s, LockAlone(t, l)) && OnlyLocks(s, s') && PcOf(s', t) == Writing(l)
    ensures l in s.cells && s'.cells == s.cells[l := Cell(s.cells[l].pointer, {}, Some(t))]
  {
    s' := Step(s, LockAlone(t, l));
  }

  lemma SwapStep(s: State, t: Tid, l: nat, from: Option<nat>, h: nat) returns (s': State)
    requires PcOf(s, t) == Writing(l) && l in s.cells && (from.Some? ==> from.value in s.raws) && PointerOf(s, h) == None
    ensures Enabled(s, Swap(t, from, h)) && s' == Step(s, Swap(t, from, h)) && PcOf(s', t) == Idle && Sets(s, s', h, s.cells[l].pointer)
    ensures l in s'.cells && s'.cells[l] == Cell(if from == None then None else RawOf(s, from.value), s.cells[l].readers, None)
  {
    hide DoSwap;
    s' := Step(s, Swap(t, from, h));
    SwapReturnsTheOld(s, t, l, from, h);
  }

  lemma ReleaseStep(s: State, t: Tid, l: nat) returns (s': State)
    requires PcOf(s, t) == Writing(l) && l in s.cells
    ensures Enabled(s, ReleaseInReset(t)) && s' == Step(s, ReleaseInReset(t)) && s'.cells == s.cells && s'.destroyed == s.destroyed
    ensures PcOf(s', t) == if s.cells[l].pointer.Some? && IsLast(s, s.cells[l].pointer.value) then DestroyingInReset(l, s.cells[l].pointer.value)
                           else Nulling(l)
  {
    s' := Step(s, ReleaseInReset(t));
  }

  lemma DestroyStep(s: State, t: Tid, l: nat, o: Oid) returns (s': State)
    requires PcOf(s, t) == DestroyingInReset(l, o)
    ensures Enabled(s, Destroy(t)) && s' == Step(s, Destroy(t)) && s'.cells == s.cells && s'.destroyed == s.destroyed + [o]
    ensures PcOf(s', t) == Nulling(l)
  {
    s' := Step(s, Destroy(t));
  }

  lemma NullStep(s: State, t: Tid, l: nat) returns (s': State)
    requires PcOf(s, t) == Nulling(l) && l in s.cells
    ensures Enabled(s, SetNull(t)) && s' == Step(s, SetNull(t)) && OnlyLocks(s, s') && PcOf(s', t) == Idle
    ensures l in s'.cells && s'.cells[l] == Cell(None, s.cells[l].readers, None)
  {
    s' := Step(s, SetNull(t));
  }

  /** Four statements that nobody disturbs make a call of `new_ref`: it gives the lock back, leaves the locked
      shared pointer as it was, and counts the object that it returns once more. */
  lemma NewRefAlone(s: State, t: Tid, l: nat, h: nat) returns (s1: State, s2: State, s3: State, done: State)
    requires Inv(s) && Enabled(s, LockShared(t, l)) && PointerOf(s, h) == None
    ensures s1 == Step(s, LockShared(t, l))
    ensures Enabled(s1, Load(t)) && s2 == Step(s1, Load(t))
    ensures Enabled(s2, Acquire(t, h)) && s3 == Step(s2, Acquire(t, h))
    ensures Enabled(s3, Unlock(t)) && done == Step(s3, Unlock(t))
    ensures PcOf(done, t) == Idle && done.cells == s.cells && l in s.cells && PointerOf(done, h) == s.cells[l].pointer
    ensures match s.cells[l].pointer
            case None => done.objs == s.objs
            case Some(o) => o in s.objs ==> o in done.objs && done.objs[o].count == s.objs[o].count + 1
  {
    hide Inv, Step, Enabled;
    s1 := LockSharedStep(s, t, l);
    s2 := LoadStep(s1, t, l);
    s3 := AcquireStep(s2, t, l, s.cells[l].pointer, h);
    done := UnlockStep(s3, t, l);
    assert t !in s.cells[l].readers by { IdleReadsNothing(s, t, l); }
    assert s3.cells[l].readers - {t} == s.cells[l].readers;
  }

  lemma IdleReadsNothing(s: State, t: Tid, l: nat)
    requires Inv(s) && Enabled(s, LockShared(t, l))
    ensures l in s.cells && t !in s.cells[l].readers
  {
    IdleHasNoLock(s, t, l);
  }

  /** Two statements make a call of `swap_ref` or `release`, ... */
  lemma SwapAlone(s: State, t: Tid, l: nat, from: Option<nat>, h: nat) returns (s1: State, done: State)
    requires Enabled(s, LockAlone(t, l)) && PointerOf(s, h) == None && (from.Some? ==> from.value in s.raws)
    ensures s1 == Step(s, LockAlone(t, l))
    ensures Enabled(s1, Swap(t, from, h)) && done == Step(s1, Swap(t, from, h))
    ensures PcOf(done, t) == Idle && l in s.cells && PointerOf(done, h) == s.cells[l].pointer
    ensures l in done.cells && done.cells[l] == Cell(if from == None then None else RawOf(s, from.value), {}, None)
  {
    hide Step, Enabled;
    s1 := LockAloneStep(s, t, l);
    done := SwapStep(s1, t, l, from, h);
  }

  /** ... and three or four one of `reset`, which destroys the object if this was the last reference. */
  lemma ResetAlone(s: State, t: Tid, l: nat) returns (s1: State, s2: State, s3: State, done: State)
    requires Enabled(s, LockAlone(t, l))
    ensures s1 == Step(s, LockAlone(t, l))
    ensures Enabled(s1, ReleaseInReset(t)) && s2 == Step(s1, ReleaseInReset(t))
    ensures s3 == s2 || (Enabled(s2, Destroy(t)) && s3 == Step(s2, Destroy(t)))
    ensures Enabled(s3, SetNull(t)) && done == Step(s3, SetNull(t))
    ensures PcOf(done, t) == Idle && l in s.cells && l in done.cells && done.cells[l] == Cell(None, {}, None)
    ensures done.destroyed == s.destroyed + (match s.cells[l].pointer
                                             case None => []
                                             case Some(o) => if o in s.objs && s.objs[o].count == 1 then [o] else [])
  {
    hide Step, Enabled;
    s1 := LockAloneStep(s, t, l);
    s2 := ReleaseStep(s1, t, l);
    s3 := s2;
    if PcOf(s2, t).DestroyingInReset? {
      s3 := DestroyStep(s2, t, l, PcOf(s2, t).o);
    }
    done := NullStep(s3, t, l);
  }
}
