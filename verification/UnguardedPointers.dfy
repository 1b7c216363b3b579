/** `new_ref_unguarded`: what its three reads of the pointer must find for the counting to stay right. */
module UnguardedPointers {
  import opened Wrappers
  import opened SharedPointers

  // ---- a sound state, told without the history

  /** `rs` are all references to the object `o`. */
  ghost predicate Referrers(s: State, o: Oid, rs: set<Ref>) {
    forall r: Ref :: r in rs <==> Target(s, r) == Some(o)
  }

  ghost predicate CountRight(s: State, o: Oid)
    requires o in s.objs
  {
    exists rs: set<Ref> :: Referrers(s, o, rs) && |rs| == s.objs[o].count
  }

  ghost predicate Counts(s: State) {
    && (forall r: Ref, o: Oid :: Target(s, r) == Some(o) ==> o in s.objs)
    && (forall o :: o in s.objs ==> CountRight(s, o))
  }

  /** Every count is the number of references, no reference leads to an object that is destroyed or about
      to be, and no thread went through a null pointer. */
  ghost predicate Sound(s: State) {
    && Counts(s)
    && (forall r: Ref, o: Oid :: Target(s, r) == Some(o) ==> o !in s.destroyed && !Dying(s, o))
    && (forall t: Tid :: !PcOf(s, t).Faulted?)
  }

  /** Pointers lead to objects, and no thread went through a null pointer. */
  ghost predicate Known(s: State) {
    && (forall l :: l in s.cells && s.cells[l].pointer.Some? ==> s.cells[l].pointer.value in s.objs)
    && (forall t: Tid :: !PcOf(s, t).Faulted?)
  }

  lemma HoldersAreReferrers(s: State, o: Oid)
    requires Refs(s) && o in s.objs
    ensures Referrers(s, o, s.objs[o].holders) && |s.objs[o].holders| == s.objs[o].count
  {
    forall r: Ref ensures r in s.objs[o].holders <==> Target(s, r) == Some(o) {
      assert Target(s, r) == Some(o) <==> Holds(s, r, o);
    }
  }

  lemma InvIsSound(s: State)
    requires Inv(s) && Known(s)
    ensures Sound(s)
  {
    hide Locks, Target;
    forall o | o in s.objs ensures CountRight(s, o) {
      HoldersAreReferrers(s, o);
    }
    forall r: Ref, o: Oid | Target(s, r) == Some(o) ensures o in s.objs && o !in s.destroyed && !Dying(s, o) {
      Alive(s, r, o);
      assert !Dead(s, o);
    }
  }

  // ---- what a step leaves alone

  /** The thread that takes a step, and the cell whose pointer it may change. */
  function Actor(a: Action): Option<Tid> {
    if OnHandles(a) || a.MakeCell? then None else Some(a.t)
  }

  function Touched(s: State, a: Action): Option<nat> {
    match a
    case MakeCell(l, _) => Some(l)
    case DropCell(_, l) => Some(l)
    case Swap(t, _, _) => if PcOf(s, t).Writing? then Some(PcOf(s, t).l) else None
    case SetNull(t) => if PcOf(s, t).Nulling? then Some(PcOf(s, t).l) else None
    case _ => None
  }

  /** A step of `t` that touches the pointer of cell `l` only. */
  ghost predicate Local(s: State, s': State, t: Option<Tid>, l: Option<nat>) {
    && (forall o :: o in s.objs ==> o in s'.objs)
    && (forall u: Tid :: Some(u) != t ==> PcOf(s', u) == PcOf(s, u))
    && (forall u: Tid :: PcOf(s', u).Faulted? ==> PcOf(s, u).Faulted?)
    && (forall k :: Some(k) != l ==> (k in s'.cells <==> k in s.cells))
    && (forall k :: Some(k) != l && k in s.cells ==> s'.cells[k].pointer == s.cells[k].pointer)
  }

  lemma HandlesAreLocal(s: State, a: Action)
    requires Enabled(s, a) && OnHandles(a)
    ensures Local(s, Step(s, a), None, None)
  {
    hide Step;
    HandlesKeepRest(s, a);
  }

  lemma ResetIsLocal(s: State, t: Tid, h: nat)
    requires !PcOf(s, t).Faulted?
    ensures Local(s, DoReset(s, t, h), Some(t), None)
  {
  }

  lemma ResetRawIsLocal(s: State, t: Tid, r: nat)
    requires r in s.raws
    ensures Local(s, DoResetRaw(s, t, r), Some(t), None)
  {
  }

  lemma DestroyIsLocal(s: State, t: Tid)
    requires DestroyedBy(s, t).Some?
    ensures Local(s, DoDestroy(s, t), Some(t), None)
  {
  }

  lemma MakeCellIsLocal(s: State, l: nat, from: Option<nat>)
    requires from.Some? ==> from.value in s.raws
    ensures Local(s, DoMakeCell(s, l, from), None, Some(l))
  {
  }

  lemma DropCellIsLocal(s: State, t: Tid, l: nat)
    requires l in s.cells && !PcOf(s, t).Faulted?
    ensures Local(s, DoDropCell(s, t, l), Some(t), Some(l))
  {
  }

  lemma LockSharedIsLocal(s: State, t: Tid, l: nat)
    requires l in s.cells
    ensures Local(s, DoLockShared(s, t, l), Some(t), None)
  {
  }

  lemma LoadIsLocal(s: State, t: Tid, l: nat)
    requires l in s.cells
    ensures Local(s, DoLoad(s, t, l), Some(t), None)
  {
  }

  lemma AcquireIsLocal(s: State, t: Tid, h: nat)
    requires PcOf(s, t).Loaded?
    ensures Local(s, DoAcquire(s, t, h), Some(t), None)
  {
  }

  lemma UnlockIsLocal(s: State, t: Tid, l: nat)
    requires l in s.cells
    ensures Local(s, DoUnlock(s, t, l), Some(t), None)
  {
  }

  lemma LockAloneIsLocal(s: State, t: Tid, l: nat)
    requires l in s.cells
    ensures Local(s, DoLockAlone(s, t, l), Some(t), None)
  {
  }

  lemma SwapIsLocal(s: State, t: Tid, l: nat, from: Option<nat>, h: nat)
    requires l in s.cells && (from.Some? ==> from.value in s.raws)
    ensures Local(s, DoSwap(s, t, l, from, h), Some(t), Some(l))
  {
  }

  lemma ReleaseInResetIsLocal(s: State, t: Tid, l: nat)
    requires l in s.cells
    ensures Local(s, DoReleaseInReset(s, t, l), Some(t), None)
  {
  }

  lemma SetNullIsLocal(s: State, t: Tid, l: nat)
    requires l in s.cells
    ensures Local(s, DoSetNull(s, t, l), Some(t), Some(l))
  {
  }

  lemma TestIsLocal(s: State, t: Tid, l: nat)
    requires l in s.cells
    ensures Local(s, DoTest(s, t, l), Some(t), None)
  {
  }

  lemma IncrementIsLocal(s: State, t: Tid, l: nat)
    requires l in s.cells && s.cells[l].pointer.Some?
    ensures Local(s, DoIncrement(s, t, l), Some(t), None)
  {
  }

  lemma ReturnIsLocal(s: State, t: Tid, l: nat, h: nat)
    requires l in s.cells && PcOf(s, t).ToReturn?
    ensures Local(s, DoReturn(s, t, l, h), Some(t), None)
  {
  }

  lemma StepIsLocal(s: State, a: Action)
    requires Enabled(s, a) && Safe(s, a)
    ensures Local(s, Step(s, a), Actor(a), Touched(s, a))
  {
    hide Step, Enabled, Safe, Local;
    if OnHandles(a) {
      HandlesAreLocal(s, a);
    } else {
      OthersAreLocal(s, a);
    }
  }

  lemma OthersAreLocal(s: State, a: Action)
    requires Enabled(s, a) && Safe(s, a) && !OnHandles(a)
    ensures Local(s, Step(s, a), Actor(a), Touched(s, a))
  {
    hide Local, Referenced, DoMake, DoCopy, DoMove, DoReset, DoNewRaw, DoGiveUp, DoAdopt, DoResetRaw, DoDestroy, DoMakeCell, DoDropCell,
         DoLockShared, DoLoad, DoAcquire, DoUnlock, DoLockAlone, DoSwap, DoReleaseInReset, DoSetNull, DoTest, DoIncrement, DoReturn;
    match a {
      case Reset(t, h) => ResetIsLocal(s, t, h);
      case ResetRaw(t, r) => ResetRawIsLocal(s, t, r);
      case Destroy(t) => DestroyIsLocal(s, t);
      case MakeCell(l, from) => MakeCellIsLocal(s, l, from);
      case DropCell(t, l) => DropCellIsLocal(s, t, l);
      case LockShared(t, l) => LockSharedIsLocal(s, t, l);
      case Load(t) => LoadIsLocal(s, t, PcOf(s, t).l);
      case Acquire(t, h) => AcquireIsLocal(s, t, h);
      case Unlock(t) => UnlockIsLocal(s, t, PcOf(s, t).l);
      case LockAlone(t, l) => LockAloneIsLocal(s, t, l);
      case Swap(t, from, h) => SwapIsLocal(s, t, PcOf(s, t).l, from, h);
      case ReleaseInReset(t) => ReleaseInResetIsLocal(s, t, PcOf(s, t).l);
      case SetNull(t) => SetNullIsLocal(s, t, PcOf(s, t).l);
      case TestUnguarded(t, l) => TestIsLocal(s, t, l);
      case IncrementUnguarded(t) => IncrementIsLocal(s, t, PcOf(s, t).l);
      case ReturnUnguarded(t, h) => ReturnIsLocal(s, t, PcOf(s, t).l, h);
    }
  }

  // ---- pointers lead to objects

  lemma RawIsKnown(s: State, r: nat)
    requires Refs(s) && r in s.raws
    ensures s.raws[r] in s.objs
  {
    Alive(s, Raw(r), s.raws[r]);
  }

  lemma KnownAfter(s: State, s': State, t: Option<Tid>, l: Option<nat>)
    requires Known(s) && Local(s, s', t, l)
    requires l.Some? && l.value in s'.cells && s'.cells[l.value].pointer.Some? ==> s'.cells[l.value].pointer.value in s'.objs
    ensures Known(s')
  {
  }

  /** The pointer that a step stores leads to an object. */
  lemma TouchedIsKnown(s: State, a: Action)
    requires Inv(s) && Enabled(s, a) && (a.Swap? || a.MakeCell?) && a.from.Some?
    ensures s.raws[a.from.value] in s.objs
  {
    hide Refs, Locks, Deaths;
    RawIsKnown(s, a.from.value);
  }

  lemma SwapStores(s: State, t: Tid, l: nat, from: Option<nat>, h: nat)
    requires l in s.cells && (from.Some? ==> from.value in s.raws)
    ensures var s' := DoSwap(s, t, l, from, h); l in s'.cells && s'.cells[l].pointer == if from.Some? then Some(s.raws[from.value]) else None
  {
  }

  lemma StepKeepsKnown(s: State, a: Action)
    requires Inv(s) && Known(s) && Enabled(s, a) && Safe(s, a)
    ensures Known(Step(s, a))
  {
    hide Inv, Known, Safe, DoMake, DoCopy, DoMove, DoReset, DoNewRaw, DoGiveUp, DoAdopt, DoResetRaw, DoDestroy, DoLockShared,
         DoLoad, DoAcquire, DoUnlock, DoLockAlone, DoSwap, DoReleaseInReset, DoTest, DoIncrement, DoReturn;
    StepIsLocal(s, a);
    if (a.Swap? || a.MakeCell?) && a.from.Some? {
      TouchedIsKnown(s, a);
    }
    if a.Swap? {
      SwapStores(s, a.t, PcOf(s, a.t).l, a.from, a.h);
    }
    KnownAfter(s, Step(s, a), Actor(a), Touched(s, a));
  }

  ghost predicate SafeUpTo(run: seq<State>, acts: seq<Action>, k: nat)
    requires IsRun(run, acts) && k <= |acts|
  {
    forall i :: 0 <= i < k ==> Safe(run[i], acts[i])
  }

  lemma {:induction false} RunKeepsKnown(run: seq<State>, acts: seq<Action>, k: nat)
    requires IsRun(run, acts) && k <= |acts| && SafeUpTo(run, acts, k)
    ensures Inv(run[k]) && Known(run[k])
  {
    hide Inv, Known, Step, Enabled, Safe;
    if k == 0 {
      InitHolds();
      InitIsKnown();
    } else {
      RunKeepsKnown(run, acts, k - 1);
      StepKeepsInv(run[k - 1], acts[k - 1]);
      StepKeepsKnown(run[k - 1], acts[k - 1]);
    }
  }

  lemma InitIsKnown()
    ensures Known(Init)
  {
  }

  // ---- an unsafe read makes the state unsound at once

  /** One reference more or less than the count says. */
  lemma MiscountIsUnsound(s: State, s': State, o: Oid, r: Ref)
    requires Refs(s) && o in s.objs && o in s'.objs && s'.objs[o].count == s.objs[o].count
    requires (Target(s, r) == Some(o)) != (Target(s', r) == Some(o))
    requires forall q: Ref :: q != r ==> (Target(s', q) == Some(o) <==> Target(s, q) == Some(o))
    ensures !CountRight(s', o)
  {
    hide Target;
    HoldersAreReferrers(s, o);
    forall rs: set<Ref> | Referrers(s', o, rs) ensures |rs| != s'.objs[o].count {
      OneMoreOrLess(s.objs[o].holders, rs, r);
    }
  }

  lemma OneMoreOrLess(a: set<Ref>, b: set<Ref>, r: Ref)
    requires (r in a) != (r in b) && forall q :: q != r ==> (q in a <==> q in b)
    ensures |a| != |b|
  {
    assert if r in a then a == b + {r} else b == a + {r};
  }

  lemma NullIncrementIsUnsound(s: State, t: Tid, l: nat)
    requires l in s.cells && s.cells[l].pointer == None
    ensures !Sound(DoIncrement(s, t, l))
  {
    assert PcOf(DoIncrement(s, t, l), t).Faulted?;
  }

  /** A count that goes up from zero belongs to an object that is destroyed or about to be. */
  lemma RevivalIsUnsound(s: State, t: Tid, l: nat, o: Oid)
    requires Inv(s) && Known(s) && PcOf(s, t) == ToIncrement(l) && l in s.cells && s.cells[l].pointer == Some(o) && !Referenced(s, o)
    ensures !Sound(DoIncrement(s, t, l)) && Dead(s, o)
  {
    hide Refs, Locks;
    var s' := DoIncrement(s, t, l);
    Unreferenced(s, o);
    assert Target(s', InFlight(t)) == Some(o);
    if o !in s.destroyed {
      var u: Tid :| DestroyedBy(s, u) == Some(o);
      assert DestroyedBy(s', u) == Some(o);
    }
  }

  /** The result is not what was incremented. */
  lemma WrongReturnIsUnsound(s: State, t: Tid, l: nat, h: nat)
    requires Inv(s) && Known(s) && PcOf(s, t).ToReturn? && l in s.cells && s.cells[l].pointer != PcOf(s, t).p && PointerOf(s, h) == None
    ensures !Sound(DoReturn(s, t, l, h))
  {
    hide Refs, Locks, Deaths;
    var s', p, z := DoReturn(s, t, l, h), PcOf(s, t).p, s.cells[l].pointer;
    CellsSame(s, s', t);
    if p.Some? {
      Alive(s, InFlight(t), p.value);
      MiscountIsUnsound(s, s', p.value, InFlight(t));
    } else {
      MiscountIsUnsound(s, s', z.value, Handle(h));
    }
  }

  /** From a sound state the next step leads to a sound one if and only if its reads are safe. */
  lemma StepSoundIff(s: State, a: Action)
    requires Inv(s) && Known(s) && Enabled(s, a)
    ensures Sound(Step(s, a)) <==> Safe(s, a)
  {
    hide Inv, Known, Sound, DoMake, DoCopy, DoMove, DoReset, DoNewRaw, DoGiveUp, DoAdopt, DoResetRaw, DoDestroy, DoMakeCell, DoDropCell,
         DoLockShared, DoLoad, DoAcquire, DoUnlock, DoLockAlone, DoSwap, DoReleaseInReset, DoSetNull, DoTest, DoIncrement, DoReturn;
    if Safe(s, a) {
      StepKeepsInv(s, a);
      StepKeepsKnown(s, a);
      InvIsSound(Step(s, a));
    } else if a.IncrementUnguarded? {
      var l := PcOf(s, a.t).l;
      if s.cells[l].pointer == None {
        NullIncrementIsUnsound(s, a.t, l);
      } else {
        RevivalIsUnsound(s, a.t, l, s.cells[l].pointer.value);
      }
    } else {
      WrongReturnIsUnsound(s, a.t, PcOf(s, a.t).l, a.h);
    }
  }

  // ---- a whole call

  predicate CallStep(a: Action, t: Tid) {
    (a.IncrementUnguarded? || a.ReturnUnguarded?) && a.t == t
  }

  /** Steps `i`, `j` and `k` are the three reads of a call of `new_ref_unguarded` by thread `t` on cell `l`; when
      the first one finds null there is no second. */
  ghost predicate Call(run: seq<State>, acts: seq<Action>, i: nat, j: nat, k: nat, t: Tid, l: nat, h: nat) {
    && IsRun(run, acts) && i <= j < k < |acts| && acts[i] == TestUnguarded(t, l) && acts[k] == ReturnUnguarded(t, h)
    && l in run[i].cells
    && (if run[i].cells[l].pointer == None then j == i else i < j && acts[j] == IncrementUnguarded(t))
    && forall m :: i < m < k && m != j ==> !CallStep(acts[m], t)
  }

  /** What the call finds when it reads. */
  function ReadAt(run: seq<State>, m: nat, l: nat): Option<Oid>
    requires m < |run|
  {
    if l in run[m].cells then run[m].cells[l].pointer else None
  }

  /** Null at first and at last; or, once it was not null, at the second and the third read the same object,
      to which something refers at the second. */
  ghost predicate ReadsAgree(run: seq<State>, i: nat, j: nat, k: nat, l: nat)
    requires i <= j < k < |run|
  {
    if ReadAt(run, i, l) == None then ReadAt(run, k, l) == None
    else ReadAt(run, j, l).Some? && Referenced(run[j], ReadAt(run, j, l).value) && ReadAt(run, k, l) == ReadAt(run, j, l)
  }

  ghost predicate SoundUpTo(run: seq<State>, k: nat)
    requires k < |run|
  {
    forall m :: 0 <= m <= k ==> Sound(run[m])
  }

  /** Where the thread stands in its call. */
  ghost predicate InCall(run: seq<State>, i: nat, j: nat, m: nat, t: Tid, l: nat)
    requires i <= j < |run| && m < |run|
  {
    && l in run[m].cells
    && PcOf(run[m], t) == if ReadAt(run, i, l) == None then ToReturn(l, None)
                          else if m <= j then ToIncrement(l) else ToReturn(l, ReadAt(run, j, l))
  }

  lemma StepStays(s: State, a: Action, t: Tid, l: nat)
    requires Enabled(s, a) && Safe(s, a) && l in s.cells && (PcOf(s, t) == ToIncrement(l) || (PcOf(s, t).ToReturn? && PcOf(s, t).l == l))
    requires !CallStep(a, t)
    ensures l in Step(s, a).cells && PcOf(Step(s, a), t) == PcOf(s, t)
    ensures Touched(s, a) != Some(l) ==> Step(s, a).cells[l].pointer == s.cells[l].pointer
  {
    hide Safe, DoMake, DoCopy, DoMove, DoReset, DoNewRaw, DoGiveUp, DoAdopt, DoResetRaw, DoDestroy, DoMakeCell, DoDropCell,
         DoLockShared, DoLoad, DoAcquire, DoUnlock, DoLockAlone, DoSwap, DoReleaseInReset, DoTest, DoIncrement, DoReturn;
    StepIsLocal(s, a);
    assert Actor(a) != Some(t);
    if a.DropCell? {
      assert NoCallOn(s, a.l);
    } else if a.Swap? {
      SwapStores(s, a.t, PcOf(s, a.t).l, a.from, a.h);
    }
  }

  /** Up to its return, if all reads before were safe, the thread stands where its reads have brought it. */
  lemma {:induction false} CallGoesOn(run: seq<State>, acts: seq<Action>, i: nat, j: nat, k: nat, t: Tid, l: nat, h: nat, m: nat)
    requires Call(run, acts, i, j, k, t, l, h) && i < m <= k && SafeUpTo(run, acts, m)
    ensures InCall(run, i, j, m, t, l)
    decreases m
  {
    hide Step, Enabled, Safe;
    if m == i + 1 {
      TestStarts(run[i], t, l);
    } else {
      CallGoesOn(run, acts, i, j, k, t, l, h, m - 1);
      if m - 1 == j {
        IncrementStands(run[j], t, l);
      } else {
        StepStays(run[m - 1], acts[m - 1], t, l);
      }
    }
  }

  lemma TestStarts(s: State, t: Tid, l: nat)
    requires Enabled(s, TestUnguarded(t, l))
    ensures var s' := Step(s, TestUnguarded(t, l));
            l in s.cells && l in s'.cells && PcOf(s', t) == if s.cells[l].pointer == None then ToReturn(l, None) else ToIncrement(l)
  {
  }

  lemma IncrementStands(s: State, t: Tid, l: nat)
    requires Enabled(s, IncrementUnguarded(t)) && Safe(s, IncrementUnguarded(t)) && PcOf(s, t) == ToIncrement(l)
    ensures var s' := Step(s, IncrementUnguarded(t)); l in s.cells && l in s'.cells && PcOf(s', t) == ToReturn(l, s.cells[l].pointer)
  {
  }

  /** All steps but the second read of the call are safe up to its third. */
  ghost predicate OthersSafe(run: seq<State>, acts: seq<Action>, j: nat, k: nat)
    requires IsRun(run, acts) && k < |acts|
  {
    forall m :: 0 <= m < k && m != j ==> Safe(run[m], acts[m])
  }

  /** While all other operations are safe, the state stays sound throughout a call of `new_ref_unguarded` if and only
      if its reads agree. */
  lemma {:induction false} UnguardedSoundIff(run: seq<State>, acts: seq<Action>, i: nat, j: nat, k: nat, t: Tid, l: nat, h: nat)
    requires Call(run, acts, i, j, k, t, l, h) && OthersSafe(run, acts, j, k)
    ensures SoundUpTo(run, k + 1) <==> ReadsAgree(run, i, j, k, l)
  {
    hide Step, Enabled, Sound, Inv, Known, InCall, Referenced, Safe;
    SecondReadSafeIff(run, acts, i, j, k, t, l, h);
    RunKeepsKnown(run, acts, j);
    StepSoundIff(run[j], acts[j]);
    assert run[j + 1] == Step(run[j], acts[j]) && run[k + 1] == Step(run[k], acts[k]);
    if Safe(run[j], acts[j]) {
      assert SafeUpTo(run, acts, k);
      ThirdReadSafeIff(run, acts, i, j, k, t, l, h);
      SafeIsSound(run, acts, k);
      StepSoundIff(run[k], acts[k]);
    }
  }

  /** Every state up to the first unsafe step is sound, and the one after it is not. */
  lemma SafeIsSound(run: seq<State>, acts: seq<Action>, k: nat)
    requires IsRun(run, acts) && k < |acts| && SafeUpTo(run, acts, k)
    ensures SoundUpTo(run, k) && Inv(run[k]) && Known(run[k])
  {
    hide Step, Enabled, Sound, Inv, Known, Safe;
    forall m | 0 <= m <= k ensures Sound(run[m]) && Inv(run[m]) && Known(run[m]) {
      RunKeepsKnown(run, acts, m);
      InvIsSound(run[m]);
    }
  }

  lemma SecondReadSafeIff(run: seq<State>, acts: seq<Action>, i: nat, j: nat, k: nat, t: Tid, l: nat, h: nat)
    requires Call(run, acts, i, j, k, t, l, h) && OthersSafe(run, acts, j, k)
    ensures ReadAt(run, i, l) == None ==> Safe(run[j], acts[j])
    ensures ReadAt(run, i, l) != None ==>
              (Safe(run[j], acts[j]) <==> ReadAt(run, j, l).Some? && Referenced(run[j], ReadAt(run, j, l).value))
  {
    hide Step, Enabled, Referenced;
    if i < j {
      CallGoesOn(run, acts, i, j, k, t, l, h, j);
    }
  }

  lemma ThirdReadSafeIff(run: seq<State>, acts: seq<Action>, i: nat, j: nat, k: nat, t: Tid, l: nat, h: nat)
    requires Call(run, acts, i, j, k, t, l, h) && SafeUpTo(run, acts, k)
    ensures Safe(run[k], acts[k]) <==> ReadsAgree(run, i, j, k, l)
  {
    hide Step, Enabled;
    CallGoesOn(run, acts, i, j, k, t, l, h, k);
    SecondReadSafeIff(run, acts, i, j, k, t, l, h);
  }

  /** In particular if all three reads find the same object, to which something refers at the second, or all null. */
  lemma SameReadsAgree(run: seq<State>, acts: seq<Action>, i: nat, j: nat, k: nat, t: Tid, l: nat, h: nat)
    requires Call(run, acts, i, j, k, t, l, h) && OthersSafe(run, acts, j, k)
    requires ReadAt(run, j, l) == ReadAt(run, i, l) == ReadAt(run, k, l)
    requires ReadAt(run, i, l).Some? ==> Referenced(run[j], ReadAt(run, i, l).value)
    ensures SoundUpTo(run, k + 1)
  {
    hide Sound, Referenced, Call, OthersSafe;
    CallReads(run, acts, i, j, k, t, l, h);
    UnguardedSoundIff(run, acts, i, j, k, t, l, h);
  }

  lemma CallReads(run: seq<State>, acts: seq<Action>, i: nat, j: nat, k: nat, t: Tid, l: nat, h: nat)
    requires Call(run, acts, i, j, k, t, l, h)
    ensures IsRun(run, acts) && i <= j < k < |acts|
  {
    hide Step, Enabled;
  }

  // ---- what a caller can do

  /** Step `m` changes the pointer of cell `l`: a `swap_ref` or a `release` does, and the end of a `reset`. */
  predicate Changes(run: seq<State>, acts: seq<Action>, m: nat, l: nat)
    requires m < |run| && m < |acts|
  {
    Touched(run[m], acts[m]) == Some(l)
  }

  /** Handle `held` refers to what the cell's pointer was at step `i`, from then up to step `j`. */
  ghost predicate HeldFrom(run: seq<State>, i: nat, j: nat, l: nat, held: nat)
    requires i <= j < |run|
  {
    forall m :: i <= m <= j ==> PointerOf(run[m], held) == ReadAt(run, i, l)
  }

  lemma {:induction false} PointerStays(run: seq<State>, acts: seq<Action>, i: nat, j: nat, k: nat, t: Tid, l: nat, h: nat, m: nat)
    requires Call(run, acts, i, j, k, t, l, h) && i <= m <= k && SafeUpTo(run, acts, m)
    requires forall n :: i <= n < m ==> !Changes(run, acts, n, l)
    ensures l in run[m].cells && ReadAt(run, m, l) == ReadAt(run, i, l)
    decreases m
  {
    hide Enabled, Safe, Step, Touched;
    if m > i {
      PointerStays(run, acts, i, j, k, t, l, h, m - 1);
      StepIsLocal(run[m - 1], acts[m - 1]);
      assert run[m] == Step(run[m - 1], acts[m - 1]) && !Changes(run, acts, m - 1, l);
    }
  }

  /** `new_ref_unguarded` is safe for a caller that has a shared pointer to the cell's object from the first read to
      the second, if no other thread changes the cell's pointer before the third; and it returns that object. */
  lemma {:induction false} HeldHandleProtects(run: seq<State>, acts: seq<Action>, i: nat, j: nat, k: nat, t: Tid, l: nat, h: nat, held: nat)
    requires Call(run, acts, i, j, k, t, l, h) && OthersSafe(run, acts, j, k) && HeldFrom(run, i, j, l, held)
    requires forall m :: i <= m < k ==> !Changes(run, acts, m, l)
    ensures SoundUpTo(run, k + 1) && PointerOf(run[k + 1], h) == ReadAt(run, i, l)
  {
    hide Sound, Inv, Known, Enabled, Safe;
    PointerStays(run, acts, i, j, k, t, l, h, j);
    SecondReadSafeIff(run, acts, i, j, k, t, l, h);
    if ReadAt(run, i, l).Some? {
      assert Target(run[j], Handle(held)) == ReadAt(run, i, l);
    }
    PointerStays(run, acts, i, j, k, t, l, h, k);
    UnguardedSoundIff(run, acts, i, j, k, t, l, h);
    CallGoesOn(run, acts, i, j, k, t, l, h, k);
    ReturnGives(run[k], t, l, h);
  }

  lemma ReturnGives(s: State, t: Tid, l: nat, h: nat)
    requires Enabled(s, ReturnUnguarded(t, h)) && PcOf(s, t).l == l
    ensures l in s.cells && PointerOf(Step(s, ReturnUnguarded(t, h)), h) == s.cells[l].pointer
  {
  }
}
