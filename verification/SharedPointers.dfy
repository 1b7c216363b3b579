/** Shared pointers, raw references and locked shared pointers as a machine: any number of threads,
    one step per operation on a reference count, a lock or a guarded pointer. */
module SharedPointers {
  import opened Wrappers

  type Tid = nat
  type Oid = nat

  /** Who a reference belongs to: a `TSharedPtr`, a raw pointer that somebody answers for, a
      `TLockedSharedPtr`, or a thread that has incremented the count without the lock and not yet returned. */
  datatype Ref = Handle(h: nat) | Raw(r: nat) | Locked(l: nat) | InFlight(t: Tid)

  /** `count` is `ReferenceCount`; `holders` is history. */
  datatype Obj = Obj(count: nat, holders: set<Ref>)

  /** A `TLockedSharedPtr`: its pointer and who has its lock, shared or alone. */
  datatype Cell = Cell(pointer: Option<Oid>, readers: set<Tid>, writer: Option<Tid>)

  datatype Pc =
    | Idle
    | Destroying(o: Oid)                      // ReleaseReference returned true
    | Reading(l: nat)                         // new_ref: has the lock shared
    | Loaded(l: nat, p: Option<Oid>)          // ... and has read the pointer
    | Unlocking(l: nat)
    | Writing(l: nat)                         // swap_ref, release, reset: has the lock alone
    | DestroyingInReset(l: nat, o: Oid)
    | Nulling(l: nat)                         // reset: the reference is released, the pointer is not yet null
    | ToIncrement(l: nat)                     // new_ref_unguarded: the pointer was not null
    | ToReturn(l: nat, p: Option<Oid>)        // ... has incremented the count of p, or the pointer was null
    | Faulted                                 // ... has incremented through a null pointer

  /** `destroyed` is the history of destructions. */
  datatype State = State(
    objs: map<Oid, Obj>, handles: map<nat, Option<Oid>>, raws: map<nat, Oid>, cells: map<nat, Cell>,
    threads: map<Tid, Pc>, destroyed: seq<Oid>)

  const Init: State := State(map[], map[], map[], map[], map[], [])

  datatype Action =
    | Make(o: Oid, h: nat)                    // MakeShared
    | Copy(h: nat, to: nat)                   // copy construction, or assignment after reset
    | Move(h: nat, to: nat)                   // move construction, or assignment after reset
    | Reset(t: Tid, h: nat)                   // reset, destructor
    | NewRaw(h: nat, r: nat)                  // NewRefRaw, Static_NewRawRef
    | GiveUp(h: nat, r: nat)                  // ReleaseRawRef
    | Adopt(r: nat, h: nat)                   // construction from a raw pointer
    | ResetRaw(t: Tid, r: nat)                // Static_Reset
    | Destroy(t: Tid)                         // destructor and deallocation
    | MakeCell(l: nat, from: Option<nat>)     // construction of a TLockedSharedPtr
    | DropCell(t: Tid, l: nat)                // its destructor
    | LockShared(t: Tid, l: nat)
    | Load(t: Tid)
    | Acquire(t: Tid, h: nat)                 // AddReference, and the result
    | Unlock(t: Tid)
    | LockAlone(t: Tid, l: nat)
    | Swap(t: Tid, from: Option<nat>, h: nat) // swap_ref with a raw reference, or release
    | ReleaseInReset(t: Tid)
    | SetNull(t: Tid)
    | TestUnguarded(t: Tid, l: nat)           // new_ref_unguarded: nullptr != Pointer
    | IncrementUnguarded(t: Tid)              // Static_IncrementReference( Pointer )
    | ReturnUnguarded(t: Tid, h: nat)         // return Pointer

  function PcOf(s: State, t: Tid): Pc {
    if t in s.threads then s.threads[t] else Idle
  }

  function PointerOf(s: State, h: nat): Option<Oid> {
    if h in s.handles then s.handles[h] else None
  }

  function SetPc(s: State, t: Tid, pc: Pc): State {
    s.(threads := s.threads[t := pc])
  }

  function AddReference(s: State, o: Oid, r: Ref): State {
    if o in s.objs then s.(objs := s.objs[o := Obj(s.objs[o].count + 1, s.objs[o].holders + {r})]) else s
  }

  function DropReference(s: State, o: Oid, r: Ref): State {
    if o in s.objs && s.objs[o].count > 0
    then s.(objs := s.objs[o := Obj(s.objs[o].count - 1, s.objs[o].holders - {r})]) else s
  }

  /** The same reference under a new name. */
  function Rename(s: State, o: Oid, r: Ref, r': Ref): State {
    if o in s.objs then s.(objs := s.objs[o := s.objs[o].(holders := s.objs[o].holders - {r} + {r'})]) else s
  }

  function IsLast(s: State, o: Oid): bool {
    o in s.objs && s.objs[o].count == 1
  }

  /** No thread is in `new_ref_unguarded` of cell `l`. */
  ghost predicate NoCallOn(s: State, l: nat) {
    forall t: Tid :: (PcOf(s, t).ToIncrement? || PcOf(s, t).ToReturn?) ==> PcOf(s, t).l != l
  }

  /** The callers' part: new handles and raw references have new names, a target is empty, and only a
      thread that is outside begins something. */
  ghost predicate Enabled(s: State, a: Action) {
    match a
    case Make(o, h) => o !in s.objs && PointerOf(s, h) == None
    case Copy(h, to) => h in s.handles && PointerOf(s, to) == None
    case Move(h, to) => h in s.handles && PointerOf(s, to) == None && h != to
    case Reset(t, h) => h in s.handles && PcOf(s, t) == Idle
    case NewRaw(h, r) => PointerOf(s, h).Some? && r !in s.raws
    case GiveUp(h, r) => PointerOf(s, h).Some? && r !in s.raws
    case Adopt(r, h) => r in s.raws && PointerOf(s, h) == None
    case ResetRaw(t, r) => r in s.raws && PcOf(s, t) == Idle
    case Destroy(t) => PcOf(s, t).Destroying? || PcOf(s, t).DestroyingInReset?
    case MakeCell(l, r) => l !in s.cells && (r.Some? ==> r.value in s.raws)
    case DropCell(t, l) => PcOf(s, t) == Idle && l in s.cells && s.cells[l].writer == None && s.cells[l].readers == {} && NoCallOn(s, l)
    case LockShared(t, l) => PcOf(s, t) == Idle && l in s.cells && s.cells[l].writer == None
    case Load(t) => PcOf(s, t).Reading? && PcOf(s, t).l in s.cells
    case Acquire(t, h) => PcOf(s, t).Loaded? && PointerOf(s, h) == None
    case Unlock(t) => PcOf(s, t).Unlocking? && PcOf(s, t).l in s.cells
    case LockAlone(t, l) => PcOf(s, t) == Idle && l in s.cells && s.cells[l].writer == None && s.cells[l].readers == {}
    case Swap(t, r, h) => PcOf(s, t).Writing? && PcOf(s, t).l in s.cells && (r.Some? ==> r.value in s.raws) && PointerOf(s, h) == None
    case ReleaseInReset(t) => PcOf(s, t).Writing? && PcOf(s, t).l in s.cells
    case SetNull(t) => PcOf(s, t).Nulling? && PcOf(s, t).l in s.cells
    case TestUnguarded(t, l) => PcOf(s, t) == Idle && l in s.cells
    case IncrementUnguarded(t) => PcOf(s, t).ToIncrement? && PcOf(s, t).l in s.cells
    case ReturnUnguarded(t, h) => PcOf(s, t).ToReturn? && PcOf(s, t).l in s.cells && PointerOf(s, h) == None
  }

  function SetHandle(s: State, h: nat, p: Option<Oid>): State {
    s.(handles := s.handles[h := p])
  }

  function SetCell(s: State, l: nat, c: Cell): State {
    s.(cells := s.cells[l := c])
  }

  /** The first half of a swap: handle `h` has the cell's reference, the cell has none. */
  function Emptied(s: State, l: nat, h: nat): State
    requires l in s.cells
  {
    var was := s.cells[l].pointer;
    SetHandle(SetCell(if was.Some? then Rename(s, was.value, Locked(l), Handle(h)) else s, l, s.cells[l].(pointer := None)), h, was)
  }

  /** The second half: the cell gets a raw reference or none, and the lock is free. */
  function Refilled(s: State, t: Tid, l: nat, from: Option<nat>): State
    requires l in s.cells && (from.Some? ==> from.value in s.raws)
  {
    match from
    case None => SetPc(SetCell(s, l, Cell(None, s.cells[l].readers, None)), t, Idle)
    case Some(x) =>
      SetPc(SetCell(Rename(s, s.raws[x], Raw(x), Locked(l)), l, Cell(Some(s.raws[x]), s.cells[l].readers, None)), t, Idle)
      .(raws := s.raws - {x})
  }

  // ---- one function for each operation

  function DoMake(s: State, o: Oid, h: nat): State {
    SetHandle(s.(objs := s.objs[o := Obj(1, {Handle(h)})]), h, Some(o))
  }

  function DoCopy(s: State, h: nat, to: nat): State {
    match PointerOf(s, h)
    case None => SetHandle(s, to, None)
    case Some(o) => SetHandle(AddReference(s, o, Handle(to)), to, Some(o))
  }

  function DoMove(s: State, h: nat, to: nat): State {
    match PointerOf(s, h)
    case None => SetHandle(s, to, None)
    case Some(o) => SetHandle(SetHandle(Rename(s, o, Handle(h), Handle(to)), to, Some(o)), h, None)
  }

  /** Thread `t` destroys `o` if its reference was the last. */
  function AfterDrop(s: State, o: Oid): Pc {
    if IsLast(s, o) then Destroying(o) else Idle
  }

  function DoReset(s: State, t: Tid, h: nat): State {
    match PointerOf(s, h)
    case None => s
    case Some(o) => SetPc(SetHandle(DropReference(s, o, Handle(h)), h, None), t, AfterDrop(s, o))
  }

  function DoNewRaw(s: State, h: nat, r: nat): State
    requires PointerOf(s, h).Some?
  {
    AddReference(s, PointerOf(s, h).value, Raw(r)).(raws := s.raws[r := PointerOf(s, h).value])
  }

  function DoGiveUp(s: State, h: nat, r: nat): State
    requires PointerOf(s, h).Some?
  {
    SetHandle(Rename(s, PointerOf(s, h).value, Handle(h), Raw(r)), h, None).(raws := s.raws[r := PointerOf(s, h).value])
  }

  function DoAdopt(s: State, r: nat, h: nat): State
    requires r in s.raws
  {
    SetHandle(Rename(s, s.raws[r], Raw(r), Handle(h)), h, Some(s.raws[r])).(raws := s.raws - {r})
  }

  function DoResetRaw(s: State, t: Tid, r: nat): State
    requires r in s.raws
  {
    SetPc(DropReference(s, s.raws[r], Raw(r)).(raws := s.raws - {r}), t, AfterDrop(s, s.raws[r]))
  }

  function DoDestroy(s: State, t: Tid): State
    requires PcOf(s, t).Destroying? || PcOf(s, t).DestroyingInReset?
  {
    var pc := PcOf(s, t);
    SetPc(s, t, if pc.Destroying? then Idle else Nulling(pc.l)).(destroyed := s.destroyed + [pc.o])
  }

  function DoMakeCell(s: State, l: nat, from: Option<nat>): State
    requires from.Some? ==> from.value in s.raws
  {
    match from
    case None => SetCell(s, l, Cell(None, {}, None))
    case Some(x) => SetCell(Rename(s, s.raws[x], Raw(x), Locked(l)), l, Cell(Some(s.raws[x]), {}, None)).(raws := s.raws - {x})
  }

  function DoDropCell(s: State, t: Tid, l: nat): State
    requires l in s.cells
  {
    match s.cells[l].pointer
    case None => s.(cells := s.cells - {l})
    case Some(o) => SetPc(DropReference(s, o, Locked(l)).(cells := s.cells - {l}), t, AfterDrop(s, o))
  }

  function DoLockShared(s: State, t: Tid, l: nat): State
    requires l in s.cells
  {
    SetPc(SetCell(s, l, s.cells[l].(readers := s.cells[l].readers + {t})), t, Reading(l))
  }

  function DoLoad(s: State, t: Tid, l: nat): State
    requires l in s.cells
  {
    SetPc(s, t, Loaded(l, s.cells[l].pointer))
  }

  function DoAcquire(s: State, t: Tid, h: nat): State
    requires PcOf(s, t).Loaded?
  {
    var pc := PcOf(s, t);
    match pc.p
    case None => SetPc(SetHandle(s, h, None), t, Unlocking(pc.l))
    case Some(o) => SetPc(SetHandle(AddReference(s, o, Handle(h)), h, Some(o)), t, Unlocking(pc.l))
  }

  function DoUnlock(s: State, t: Tid, l: nat): State
    requires l in s.cells
  {
    SetPc(SetCell(s, l, s.cells[l].(readers := s.cells[l].readers - {t})), t, Idle)
  }

  function DoLockAlone(s: State, t: Tid, l: nat): State
    requires l in s.cells
  {
    SetPc(SetCell(s, l, s.cells[l].(writer := Some(t))), t, Writing(l))
  }

  function DoSwap(s: State, t: Tid, l: nat, from: Option<nat>, h: nat): State
    requires l in s.cells && (from.Some? ==> from.value in s.raws)
  {
    Refilled(Emptied(s, l, h), t, l, from)
  }

  function DoReleaseInReset(s: State, t: Tid, l: nat): State
    requires l in s.cells
  {
    match s.cells[l].pointer
    case None => SetPc(s, t, Nulling(l))
    case Some(o) => SetPc(DropReference(s, o, Locked(l)), t, if IsLast(s, o) then DestroyingInReset(l, o) else Nulling(l))
  }

  function DoSetNull(s: State, t: Tid, l: nat): State
    requires l in s.cells
  {
    SetPc(SetCell(s, l, Cell(None, s.cells[l].readers, None)), t, Idle)
  }

  /** `NewRefRaw` without the lock reads the pointer three times: to test it, to increment the count, and to
      return it. */
  function DoTest(s: State, t: Tid, l: nat): State
    requires l in s.cells
  {
    SetPc(s, t, if s.cells[l].pointer == None then ToReturn(l, None) else ToIncrement(l))
  }

  function DoIncrement(s: State, t: Tid, l: nat): State
    requires l in s.cells
  {
    match s.cells[l].pointer
    case None => SetPc(s, t, Faulted)
    case Some(o) => SetPc(AddReference(s, o, InFlight(t)), t, ToReturn(l, Some(o)))
  }

  function DoReturn(s: State, t: Tid, l: nat, h: nat): State
    requires l in s.cells && PcOf(s, t).ToReturn?
  {
    match PcOf(s, t).p
    case None => SetPc(SetHandle(s, h, s.cells[l].pointer), t, Idle)
    case Some(o) => SetPc(SetHandle(Rename(s, o, InFlight(t), Handle(h)), h, s.cells[l].pointer), t, Idle)
  }

  function Step(s: State, a: Action): State
    requires Enabled(s, a)
  {
    match a
    case Make(o, h) => DoMake(s, o, h)
    case Copy(h, to) => DoCopy(s, h, to)
    case Move(h, to) => DoMove(s, h, to)
    case Reset(t, h) => DoReset(s, t, h)
    case NewRaw(h, r) => DoNewRaw(s, h, r)
    case GiveUp(h, r) => DoGiveUp(s, h, r)
    case Adopt(r, h) => DoAdopt(s, r, h)
    case ResetRaw(t, r) => DoResetRaw(s, t, r)
    case Destroy(t) => DoDestroy(s, t)
    case MakeCell(l, r) => DoMakeCell(s, l, r)
    case DropCell(t, l) => DoDropCell(s, t, l)
    case LockShared(t, l) => DoLockShared(s, t, l)
    case Load(t) => DoLoad(s, t, PcOf(s, t).l)
    case Acquire(t, h) => DoAcquire(s, t, h)
    case Unlock(t) => DoUnlock(s, t, PcOf(s, t).l)
    case LockAlone(t, l) => DoLockAlone(s, t, l)
    case Swap(t, from, h) => DoSwap(s, t, PcOf(s, t).l, from, h)
    case ReleaseInReset(t) => DoReleaseInReset(s, t, PcOf(s, t).l)
    case SetNull(t) => DoSetNull(s, t, PcOf(s, t).l)
    case TestUnguarded(t, l) => DoTest(s, t, l)
    case IncrementUnguarded(t) => DoIncrement(s, t, PcOf(s, t).l)
    case ReturnUnguarded(t, h) => DoReturn(s, t, PcOf(s, t).l, h)
  }

  // ---- the invariant

  predicate InReset(pc: Pc, l: nat) {
    pc == Nulling(l) || (pc.DestroyingInReset? && pc.l == l)
  }

  /** The reference of cell `l` is gone although its pointer is not yet null. */
  predicate Released(s: State, l: nat) {
    l in s.cells && s.cells[l].writer.Some? && InReset(PcOf(s, s.cells[l].writer.value), l)
  }

  /** The object that a reference refers to. */
  function Target(s: State, r: Ref): Option<Oid> {
    match r
    case Handle(h) => PointerOf(s, h)
    case Raw(x) => if x in s.raws then Some(s.raws[x]) else None
    case Locked(l) => if l in s.cells && !Released(s, l) then s.cells[l].pointer else None
    case InFlight(t) => if PcOf(s, t).ToReturn? then PcOf(s, t).p else None
  }

  ghost predicate Holds(s: State, r: Ref, o: Oid) {
    o in s.objs && r in s.objs[o].holders
  }

  /** The count of an object is the number of the references to it. */
  ghost predicate Refs(s: State) {
    && (forall r: Ref, o: Oid :: Target(s, r) == Some(o) <==> Holds(s, r, o))
    && (forall o :: o in s.objs ==> s.objs[o].count == |s.objs[o].holders|)
  }

  predicate Reads(pc: Pc, l: nat) {
    (pc.Reading? || pc.Loaded? || pc.Unlocking?) && pc.l == l
  }

  predicate Writes(pc: Pc, l: nat) {
    (pc.Writing? || pc.DestroyingInReset? || pc.Nulling?) && pc.l == l
  }

  predicate HasShared(s: State, t: Tid, l: nat) {
    l in s.cells && t in s.cells[l].readers
  }

  predicate HasAlone(s: State, t: Tid, l: nat) {
    l in s.cells && s.cells[l].writer == Some(t)
  }

  /** A pointer that was loaded under the lock is still the cell's pointer. */
  predicate LoadedOk(s: State, t: Tid) {
    PcOf(s, t).Loaded? ==> PcOf(s, t).l in s.cells && s.cells[PcOf(s, t).l].pointer == PcOf(s, t).p
  }

  ghost predicate Locks(s: State) {
    && (forall t: Tid, l: nat :: HasShared(s, t, l) <==> Reads(PcOf(s, t), l))
    && (forall t: Tid, l: nat :: HasAlone(s, t, l) <==> Writes(PcOf(s, t), l))
    && (forall l :: l in s.cells && s.cells[l].writer.Some? ==> s.cells[l].readers == {})
    && (forall t: Tid :: LoadedOk(s, t))
  }

  function DestroyedBy(s: State, t: Tid): Option<Oid> {
    if PcOf(s, t).Destroying? || PcOf(s, t).DestroyingInReset? then Some(PcOf(s, t).o) else None
  }

  predicate Dead(s: State, o: Oid) {
    o in s.objs && s.objs[o].count == 0
  }

  ghost predicate Dying(s: State, o: Oid) {
    exists t: Tid :: DestroyedBy(s, t) == Some(o)
  }

  /** An object whose count is zero is destroyed, or about to be by exactly one thread. */
  ghost predicate Deaths(s: State) {
    && NoDup(s.destroyed)
    && (forall o :: o in s.destroyed ==> Dead(s, o))
    && (forall t: Tid :: DestroyedBy(s, t).Some? ==> Dead(s, DestroyedBy(s, t).value) && DestroyedBy(s, t).value !in s.destroyed)
    && (forall t: Tid, u: Tid :: DestroyedBy(s, t).Some? && DestroyedBy(s, t) == DestroyedBy(s, u) ==> t == u)
    && (forall o :: Dead(s, o) ==> o in s.destroyed || Dying(s, o))
  }

  ghost predicate Inv(s: State) {
    Refs(s) && Locks(s) && Deaths(s)
  }

  ghost predicate Referenced(s: State, o: Oid) {
    exists r: Ref :: Target(s, r) == Some(o)
  }

  /** An unguarded increment is safe if it reads a pointer, and something refers to the object; an unguarded
      return is safe if it reads what was incremented, or null again. All other operations are safe whatever
      the others do. */
  ghost predicate Safe(s: State, a: Action) {
    match a
    case IncrementUnguarded(t) =>
      var pc := PcOf(s, t);
      pc.ToIncrement? && pc.l in s.cells ==> s.cells[pc.l].pointer.Some? && Referenced(s, s.cells[pc.l].pointer.value)
    case ReturnUnguarded(t, _) =>
      var pc := PcOf(s, t);
      pc.ToReturn? && pc.l in s.cells ==> s.cells[pc.l].pointer == pc.p
    case _ => true
  }

  // ---- references

  lemma RefsSame(s: State, s': State)
    requires Refs(s) && s'.objs == s.objs && forall r :: Target(s', r) == Target(s, r)
    ensures Refs(s')
  {
    assert forall r, o :: Holds(s', r, o) <==> Holds(s, r, o);
  }

  lemma RefAdded(s: State, s': State, o: Oid, r: Ref)
    requires Refs(s) && o in s.objs && Target(s, r) == None && s'.objs == AddReference(s, o, r).objs
    requires Target(s', r) == Some(o) && forall q :: q != r ==> Target(s', q) == Target(s, q)
    ensures Refs(s')
  {
    assert !Holds(s, r, o);
    forall q: Ref, x: Oid ensures Target(s', q) == Some(x) <==> Holds(s', q, x) {
      assert Target(s, q) == Some(x) <==> Holds(s, q, x);
    }
  }

  lemma RefDropped(s: State, s': State, o: Oid, r: Ref)
    requires Refs(s) && Target(s, r) == Some(o) && s'.objs == DropReference(s, o, r).objs
    requires Target(s', r) == None && forall q :: q != r ==> Target(s', q) == Target(s, q)
    ensures Refs(s') && Holds(s, r, o) && s.objs[o].count > 0
  {
    assert Holds(s, r, o);
    assert |s.objs[o].holders| > 0;
    forall q: Ref, x: Oid ensures Target(s', q) == Some(x) <==> Holds(s', q, x) {
      assert Target(s, q) == Some(x) <==> Holds(s, q, x);
    }
  }

  lemma RefRenamed(s: State, s': State, o: Oid, r: Ref, r': Ref)
    requires Refs(s) && Target(s, r) == Some(o) && Target(s, r') == None && s'.objs == Rename(s, o, r, r').objs
    requires Target(s', r) == None && Target(s', r') == Some(o)
    requires forall q :: q != r && q != r' ==> Target(s', q) == Target(s, q)
    ensures Refs(s')
  {
    assert Holds(s, r, o) && !Holds(s, r', o);
    forall q: Ref, x: Oid ensures Target(s', q) == Some(x) <==> Holds(s', q, x) {
      assert Target(s, q) == Some(x) <==> Holds(s, q, x);
    }
  }

  /** A step of `t` that does not concern locks leaves the targets of the cells alone. */
  lemma CellsSame(s: State, s': State, t: Tid)
    requires s'.cells == s.cells && forall u: Tid :: u != t ==> PcOf(s', u) == PcOf(s, u)
    requires forall l: nat :: InReset(PcOf(s', t), l) <==> InReset(PcOf(s, t), l)
    ensures forall l :: Target(s', Locked(l)) == Target(s, Locked(l))
  {
  }

  // ---- deaths

  /** Counts that are zero stay zero, and no others become zero. */
  lemma DeathsSame(s: State, s': State)
    requires Deaths(s) && s'.destroyed == s.destroyed
    requires forall o :: Dead(s', o) <==> Dead(s, o)
    requires forall t: Tid :: DestroyedBy(s', t) == DestroyedBy(s, t)
    ensures Deaths(s')
  {
    forall o | Dead(s', o) && o !in s'.destroyed ensures Dying(s', o) {
      var t: Tid :| DestroyedBy(s, t) == Some(o);
      assert DestroyedBy(s', t) == Some(o);
    }
  }

  /** Thread `t` releases a reference to `o`; if it was the last, it is the one that destroys `o`. */
  lemma DeathsAfterDrop(s: State, s': State, t: Tid, o: Oid)
    requires Deaths(s) && s'.destroyed == s.destroyed && DestroyedBy(s, t) == None
    requires o in s.objs && s.objs[o].count > 0 && o in s'.objs && s'.objs[o].count == s.objs[o].count - 1
    requires forall x :: x != o ==> (Dead(s', x) <==> Dead(s, x))
    requires DestroyedBy(s', t) == if s.objs[o].count == 1 then Some(o) else None
    requires forall u: Tid :: u != t ==> DestroyedBy(s', u) == DestroyedBy(s, u)
    ensures Deaths(s')
  {
    assert !Dead(s, o);
    forall x | Dead(s', x) && x !in s'.destroyed ensures Dying(s', x) {
      if x == o {
        assert DestroyedBy(s', t) == Some(o);
      } else {
        var u: Tid :| DestroyedBy(s, u) == Some(x);
        assert DestroyedBy(s', u) == Some(x);
      }
    }
  }

  // ---- steps on handles and raw references

  lemma LocksSame(s: State, s': State)
    requires Locks(s) && s'.cells == s.cells && s'.threads == s.threads
    ensures Locks(s')
  {
    assert forall t: Tid, l: nat :: HasShared(s', t, l) == HasShared(s, t, l) && HasAlone(s', t, l) == HasAlone(s, t, l);
    assert forall t: Tid :: LoadedOk(s', t) == LoadedOk(s, t);
  }

  lemma Alive(s: State, r: Ref, o: Oid)
    requires Refs(s) && Target(s, r) == Some(o)
    ensures o in s.objs && s.objs[o].count > 0 && Holds(s, r, o)
  {
    assert Holds(s, r, o);
    assert s.objs[o].holders != {};
  }

  predicate OnHandles(a: Action) {
    a.Make? || a.Copy? || a.Move? || a.NewRaw? || a.GiveUp? || a.Adopt?
  }

  lemma CopyKeepsRefs(s: State, h: nat, to: nat)
    requires Refs(s) && h in s.handles && PointerOf(s, to) == None
    ensures Refs(DoCopy(s, h, to))
    ensures forall o :: Dead(DoCopy(s, h, to), o) <==> Dead(s, o)
  {
    hide Refs;
    if PointerOf(s, h) == None {
      RefsSame(s, DoCopy(s, h, to));
    } else {
      Alive(s, Handle(h), PointerOf(s, h).value);
      RefAdded(s, DoCopy(s, h, to), PointerOf(s, h).value, Handle(to));
    }
  }

  lemma MoveKeepsRefs(s: State, h: nat, to: nat)
    requires Refs(s) && h in s.handles && PointerOf(s, to) == None && h != to
    ensures Refs(DoMove(s, h, to))
    ensures forall o :: Dead(DoMove(s, h, to), o) <==> Dead(s, o)
  {
    hide Refs;
    if PointerOf(s, h) == None {
      RefsSame(s, DoMove(s, h, to));
    } else {
      Alive(s, Handle(h), PointerOf(s, h).value);
      RefRenamed(s, DoMove(s, h, to), PointerOf(s, h).value, Handle(h), Handle(to));
    }
  }

  lemma NewRawKeepsRefs(s: State, h: nat, r: nat)
    requires Refs(s) && PointerOf(s, h).Some? && r !in s.raws
    ensures Refs(DoNewRaw(s, h, r)) && forall o :: Dead(DoNewRaw(s, h, r), o) <==> Dead(s, o)
  {
    hide Refs;
    Alive(s, Handle(h), PointerOf(s, h).value);
    RefAdded(s, DoNewRaw(s, h, r), PointerOf(s, h).value, Raw(r));
  }

  lemma GiveUpKeepsRefs(s: State, h: nat, r: nat)
    requires Refs(s) && PointerOf(s, h).Some? && r !in s.raws
    ensures Refs(DoGiveUp(s, h, r)) && forall o :: Dead(DoGiveUp(s, h, r), o) <==> Dead(s, o)
  {
    hide Refs;
    Alive(s, Handle(h), PointerOf(s, h).value);
    RefRenamed(s, DoGiveUp(s, h, r), PointerOf(s, h).value, Handle(h), Raw(r));
  }

  lemma AdoptKeepsRefs(s: State, r: nat, h: nat)
    requires Refs(s) && r in s.raws && PointerOf(s, h) == None
    ensures Refs(DoAdopt(s, r, h)) && forall o :: Dead(DoAdopt(s, r, h), o) <==> Dead(s, o)
  {
    hide Refs;
    Alive(s, Raw(r), s.raws[r]);
    RefRenamed(s, DoAdopt(s, r, h), s.raws[r], Raw(r), Handle(h));
  }

  lemma MakeKeepsRefs(s: State, o: Oid, h: nat)
    requires Refs(s) && o !in s.objs && PointerOf(s, h) == None
    ensures Refs(DoMake(s, o, h))
    ensures forall x :: Dead(DoMake(s, o, h), x) <==> Dead(s, x)
  {
    var s' := DoMake(s, o, h);
    forall r: Ref, x: Oid ensures Target(s', r) == Some(x) <==> Holds(s', r, x) {
      assert Target(s, r) == Some(x) <==> Holds(s, r, x);
    }
  }

  lemma HandlesKeepRefs(s: State, a: Action)
    requires Refs(s) && Enabled(s, a) && OnHandles(a)
    ensures Refs(Step(s, a)) && forall o :: Dead(Step(s, a), o) <==> Dead(s, o)
  {
    hide Refs, Dead, DoMake, DoCopy, DoMove, DoReset, DoNewRaw, DoGiveUp, DoAdopt, DoResetRaw, DoDestroy, DoMakeCell, DoDropCell, DoLockShared, DoLoad,
         DoAcquire, DoUnlock, DoLockAlone, DoSwap, DoReleaseInReset, DoSetNull, DoTest, DoIncrement, DoReturn;
    match a {
      case Make(o, h) => MakeKeepsRefs(s, o, h);
      case Copy(h, to) => CopyKeepsRefs(s, h, to);
      case Move(h, to) => MoveKeepsRefs(s, h, to);
      case NewRaw(h, r) => NewRawKeepsRefs(s, h, r);
      case GiveUp(h, r) => GiveUpKeepsRefs(s, h, r);
      case Adopt(r, h) => AdoptKeepsRefs(s, r, h);
    }
  }

  /** Operations on handles and raw references concern neither locks nor destructions, and no object goes away. */
  ghost predicate SameRest(s: State, s': State) {
    s'.cells == s.cells && s'.threads == s.threads && s'.destroyed == s.destroyed && forall o :: o in s.objs ==> o in s'.objs
  }

  lemma MakeKeepsRest(s: State, o: Oid, h: nat)
    ensures SameRest(s, DoMake(s, o, h))
  {
  }

  lemma CopyKeepsRest(s: State, h: nat, to: nat)
    ensures SameRest(s, DoCopy(s, h, to))
  {
  }

  lemma MoveKeepsRest(s: State, h: nat, to: nat)
    ensures SameRest(s, DoMove(s, h, to))
  {
  }

  lemma NewRawKeepsRest(s: State, h: nat, r: nat)
    requires PointerOf(s, h).Some?
    ensures SameRest(s, DoNewRaw(s, h, r))
  {
  }

  lemma GiveUpKeepsRest(s: State, h: nat, r: nat)
    requires PointerOf(s, h).Some?
    ensures SameRest(s, DoGiveUp(s, h, r))
  {
  }

  lemma AdoptKeepsRest(s: State, r: nat, h: nat)
    requires r in s.raws
    ensures SameRest(s, DoAdopt(s, r, h))
  {
  }

  lemma HandlesKeepRest(s: State, a: Action)
    requires Enabled(s, a) && OnHandles(a)
    ensures SameRest(s, Step(s, a))
  {
    hide SameRest, DoMake, DoCopy, DoMove, DoReset, DoNewRaw, DoGiveUp, DoAdopt, DoResetRaw, DoDestroy, DoMakeCell, DoDropCell, DoLockShared, DoLoad,
         DoAcquire, DoUnlock, DoLockAlone, DoSwap, DoReleaseInReset, DoSetNull, DoTest, DoIncrement, DoReturn;
    match a {
      case Make(o, h) => MakeKeepsRest(s, o, h);
      case Copy(h, to) => CopyKeepsRest(s, h, to);
      case Move(h, to) => MoveKeepsRest(s, h, to);
      case NewRaw(h, r) => NewRawKeepsRest(s, h, r);
      case GiveUp(h, r) => GiveUpKeepsRest(s, h, r);
      case Adopt(r, h) => AdoptKeepsRest(s, r, h);
    }
  }

  lemma HandlesKeepInv(s: State, a: Action)
    requires Inv(s) && Enabled(s, a) && OnHandles(a)
    ensures Inv(Step(s, a))
  {
    hide Refs, Locks, Deaths, Step;
    HandlesKeepRefs(s, a);
    HandlesKeepRest(s, a);
    LocksSame(s, Step(s, a));
    DeathsSame(s, Step(s, a));
  }

  lemma MakeCellKeepsLocks(s: State, l: nat, from: Option<nat>)
    requires Locks(s) && (l !in s.cells && (from.Some? ==> from.value in s.raws))
    ensures Locks(DoMakeCell(s, l, from))
  {
    var s' := DoMakeCell(s, l, from);
    forall t: Tid, k: nat ensures HasShared(s', t, k) <==> Reads(PcOf(s', t), k) {
      assert HasShared(s, t, k) <==> Reads(PcOf(s, t), k);
    }
    forall t: Tid, k: nat ensures HasAlone(s', t, k) <==> Writes(PcOf(s', t), k) {
      assert HasAlone(s, t, k) <==> Writes(PcOf(s, t), k);
    }
    forall t: Tid ensures LoadedOk(s', t) {
      assert LoadedOk(s, t);
    }
  }

  lemma MakeCellKeepsInv(s: State, l: nat, from: Option<nat>)
    requires Inv(s) && (l !in s.cells && (from.Some? ==> from.value in s.raws))
    ensures Inv(DoMakeCell(s, l, from))
  {
    hide Refs, Locks, Deaths;
    var s' := DoMakeCell(s, l, from);
    MakeCellKeepsLocks(s, l, from);
    if from == None {
      RefsSame(s, s');
    } else {
      Alive(s, Raw(from.value), s.raws[from.value]);
      RefRenamed(s, s', s.raws[from.value], Raw(from.value), Locked(l));
    }
    DeathsSame(s, s');
  }

  predicate Outside(pc: Pc) {
    pc.Idle? || pc.Destroying? || pc.ToIncrement? || pc.ToReturn? || pc.Faulted?
  }

  /** Thread `t` has no lock before and after its step. */
  lemma LocksOutside(s: State, s': State, t: Tid)
    requires Locks(s) && s'.cells == s.cells && forall u: Tid :: u != t ==> PcOf(s', u) == PcOf(s, u)
    requires Outside(PcOf(s, t)) && Outside(PcOf(s', t))
    ensures Locks(s')
  {
    assert forall l: nat :: Reads(PcOf(s', t), l) == Reads(PcOf(s, t), l) && Writes(PcOf(s', t), l) == Writes(PcOf(s, t), l);
    assert forall u: Tid, l: nat :: HasShared(s', u, l) == HasShared(s, u, l) && HasAlone(s', u, l) == HasAlone(s, u, l);
    assert forall u: Tid :: LoadedOk(s, u) ==> LoadedOk(s', u);
  }

  lemma ResetKeepsInv(s: State, t: Tid, h: nat)
    requires Inv(s) && h in s.handles && PcOf(s, t) == Idle
    ensures Inv(DoReset(s, t, h))
  {
    hide Refs, Locks, Deaths;
    var s' := DoReset(s, t, h);
    if PointerOf(s, h).Some? {
      var o := PointerOf(s, h).value;
      Alive(s, Handle(h), o);
      CellsSame(s, s', t);
      RefDropped(s, s', o, Handle(h));
      LocksOutside(s, s', t);
      DeathsAfterDrop(s, s', t, o);
    }
  }

  lemma ResetRawKeepsInv(s: State, t: Tid, r: nat)
    requires Inv(s) && r in s.raws && PcOf(s, t) == Idle
    ensures Inv(DoResetRaw(s, t, r))
  {
    hide Refs, Locks, Deaths;
    var s' := DoResetRaw(s, t, r);
    var o := s.raws[r];
    Alive(s, Raw(r), o);
    CellsSame(s, s', t);
    RefDropped(s, s', o, Raw(r));
    LocksOutside(s, s', t);
    DeathsAfterDrop(s, s', t, o);
  }

  // ---- destruction

  lemma DeathsAfterDestroy(s: State, s': State, t: Tid, o: Oid)
    requires Deaths(s) && DestroyedBy(s, t) == Some(o) && s'.destroyed == s.destroyed + [o] && s'.objs == s.objs
    requires DestroyedBy(s', t) == None && forall u: Tid :: u != t ==> DestroyedBy(s', u) == DestroyedBy(s, u)
    ensures Deaths(s')
  {
    forall x | Dead(s', x) && x !in s'.destroyed ensures Dying(s', x) {
      assert Dead(s, x);
      var u: Tid :| DestroyedBy(s, u) == Some(x);
      assert DestroyedBy(s', u) == Some(x);
    }
  }

  lemma DestroyKeepsLocks(s: State, t: Tid)
    requires Locks(s) && (PcOf(s, t).Destroying? || PcOf(s, t).DestroyingInReset?)
    ensures Locks(DoDestroy(s, t))
  {
    var s' := DoDestroy(s, t);
    assert forall l: nat :: Reads(PcOf(s', t), l) == Reads(PcOf(s, t), l) && Writes(PcOf(s', t), l) == Writes(PcOf(s, t), l);
    assert forall u: Tid, l: nat :: HasShared(s', u, l) == HasShared(s, u, l) && HasAlone(s', u, l) == HasAlone(s, u, l);
    assert forall u: Tid :: LoadedOk(s, u) ==> LoadedOk(s', u);
  }

  lemma DestroyKeepsInv(s: State, t: Tid)
    requires Inv(s) && (PcOf(s, t).Destroying? || PcOf(s, t).DestroyingInReset?)
    ensures Inv(DoDestroy(s, t))
  {
    hide Refs, Locks, Deaths;
    var s' := DoDestroy(s, t);
    CellsSame(s, s', t);
    RefsSame(s, s');
    DestroyKeepsLocks(s, t);
    DeathsAfterDestroy(s, s', t, PcOf(s, t).o);
  }

  // ---- steps on locks

  /** What a step of `t` on the lock of cell `l` leaves alone. */
  ghost predicate OnCell(s: State, s': State, t: Tid, l: nat) {
    && l in s.cells && l in s'.cells && s'.cells == s.cells[l := s'.cells[l]]
    && (forall u: Tid :: u != t ==> PcOf(s', u) == PcOf(s, u))
    && forall k: nat :: k != l ==> !Reads(PcOf(s, t), k) && !Writes(PcOf(s, t), k) && !Reads(PcOf(s', t), k) && !Writes(PcOf(s', t), k)
  }

  lemma LocksAfter(s: State, s': State, t: Tid, l: nat)
    requires Locks(s) && OnCell(s, s', t, l)
    requires forall u: Tid :: u != t ==> (HasShared(s', u, l) <==> HasShared(s, u, l)) && (HasAlone(s', u, l) <==> HasAlone(s, u, l))
    requires HasShared(s', t, l) <==> Reads(PcOf(s', t), l)
    requires HasAlone(s', t, l) <==> Writes(PcOf(s', t), l)
    requires s'.cells[l].writer.Some? ==> s'.cells[l].readers == {}
    requires s'.cells[l].pointer != s.cells[l].pointer ==> s.cells[l].readers == {}
    requires LoadedOk(s', t)
    ensures Locks(s')
  {
    forall u: Tid, k: nat ensures (HasShared(s', u, k) <==> Reads(PcOf(s', u), k)) && (HasAlone(s', u, k) <==> Writes(PcOf(s', u), k)) {
      assert HasShared(s, u, k) <==> Reads(PcOf(s, u), k);
      assert HasAlone(s, u, k) <==> Writes(PcOf(s, u), k);
    }
    forall u: Tid ensures LoadedOk(s', u) {
      assert LoadedOk(s, u);
      if u != t && PcOf(s, u).Loaded? {
        assert HasShared(s, u, PcOf(s, u).l) <==> Reads(PcOf(s, u), PcOf(s, u).l);
      }
    }
  }

  /** Who has a lock. */
  lemma LockHolder(s: State, t: Tid, l: nat)
    requires Locks(s) && l in s.cells
    ensures HasShared(s, t, l) <==> Reads(PcOf(s, t), l)
    ensures HasAlone(s, t, l) <==> Writes(PcOf(s, t), l)
    ensures s.cells[l].writer.Some? ==> s.cells[l].readers == {}
    ensures LoadedOk(s, t)
  {
  }

  /** A step on the lock of cell `l` that is not a reset concerns neither references nor destructions. */
  lemma LockMoves(s: State, s': State, t: Tid, l: nat)
    requires Refs(s) && Deaths(s) && OnCell(s, s', t, l) && s'.cells[l].pointer == s.cells[l].pointer
    requires s'.objs == s.objs && s'.handles == s.handles && s'.raws == s.raws && s'.destroyed == s.destroyed
    requires forall k: nat :: !InReset(PcOf(s, t), k) && !InReset(PcOf(s', t), k)
    requires s'.cells[l].writer == s.cells[l].writer || (s.cells[l].writer == None && s'.cells[l].writer == Some(t))
    requires DestroyedBy(s, t) == None && DestroyedBy(s', t) == None && !PcOf(s, t).ToReturn? && !PcOf(s', t).ToReturn?
    ensures Refs(s') && Deaths(s')
  {
    hide Refs, Deaths;
    assert forall k: nat :: Released(s', k) == Released(s, k);
    RefsSame(s, s');
    DeathsSame(s, s');
  }

  lemma LockSharedKeepsInv(s: State, t: Tid, l: nat)
    requires Inv(s) && PcOf(s, t) == Idle && l in s.cells && s.cells[l].writer == None
    ensures Inv(DoLockShared(s, t, l))
  {
    hide Refs, Locks, Deaths;
    LockHolder(s, t, l);
    LocksAfter(s, DoLockShared(s, t, l), t, l);
    LockMoves(s, DoLockShared(s, t, l), t, l);
  }

  lemma LoadKeepsInv(s: State, t: Tid)
    requires Inv(s) && PcOf(s, t).Reading? && PcOf(s, t).l in s.cells
    ensures Inv(DoLoad(s, t, PcOf(s, t).l))
  {
    hide Refs, Locks, Deaths;
    LockHolder(s, t, PcOf(s, t).l);
    LocksAfter(s, DoLoad(s, t, PcOf(s, t).l), t, PcOf(s, t).l);
    LockMoves(s, DoLoad(s, t, PcOf(s, t).l), t, PcOf(s, t).l);
  }

  lemma UnlockKeepsInv(s: State, t: Tid)
    requires Inv(s) && PcOf(s, t).Unlocking? && PcOf(s, t).l in s.cells
    ensures Inv(DoUnlock(s, t, PcOf(s, t).l))
  {
    hide Refs, Locks, Deaths;
    LockHolder(s, t, PcOf(s, t).l);
    LocksAfter(s, DoUnlock(s, t, PcOf(s, t).l), t, PcOf(s, t).l);
    LockMoves(s, DoUnlock(s, t, PcOf(s, t).l), t, PcOf(s, t).l);
  }

  lemma LockAloneKeepsInv(s: State, t: Tid, l: nat)
    requires Inv(s) && PcOf(s, t) == Idle && l in s.cells && s.cells[l].writer == None && s.cells[l].readers == {}
    ensures Inv(DoLockAlone(s, t, l))
  {
    hide Refs, Locks, Deaths;
    LockHolder(s, t, l);
    LocksAfter(s, DoLockAlone(s, t, l), t, l);
    LockMoves(s, DoLockAlone(s, t, l), t, l);
  }

  /** While a thread has the lock shared, the cell's pointer keeps its object alive. */
  lemma LoadedIsAlive(s: State, t: Tid)
    requires Refs(s) && Locks(s) && PcOf(s, t).Loaded?
    ensures PcOf(s, t).l in s.cells && Target(s, Locked(PcOf(s, t).l)) == PcOf(s, t).p
  {
    var l := PcOf(s, t).l;
    assert LoadedOk(s, t);
    assert HasShared(s, t, l) <==> Reads(PcOf(s, t), l);
  }

  lemma AcquireKeepsInv(s: State, t: Tid, h: nat)
    requires Inv(s) && PcOf(s, t).Loaded? && PointerOf(s, h) == None
    ensures Inv(DoAcquire(s, t, h))
  {
    hide Refs, Locks, Deaths;
    var s' := DoAcquire(s, t, h);
    var l := PcOf(s, t).l;
    LoadedIsAlive(s, t);
    LockHolder(s, t, l);
    CellsSame(s, s', t);
    LocksAfter(s, s', t, l);
    if PcOf(s, t).p == None {
      RefsSame(s, s');
    } else {
      Alive(s, Locked(l), PcOf(s, t).p.value);
      RefAdded(s, s', PcOf(s, t).p.value, Handle(h));
    }
    DeathsSame(s, s');
  }

  lemma EmptiedKeepsRefs(s: State, t: Tid, l: nat, h: nat)
    requires Refs(s) && l in s.cells && s.cells[l].writer == Some(t) && PcOf(s, t) == Writing(l) && PointerOf(s, h) == None
    ensures Refs(Emptied(s, l, h)) && forall o :: Dead(Emptied(s, l, h), o) <==> Dead(s, o)
  {
    hide Refs;
    if s.cells[l].pointer == None {
      RefsSame(s, Emptied(s, l, h));
    } else {
      Alive(s, Locked(l), s.cells[l].pointer.value);
      RefRenamed(s, Emptied(s, l, h), s.cells[l].pointer.value, Locked(l), Handle(h));
    }
  }

  lemma RefilledKeepsRefs(s: State, t: Tid, l: nat, from: Option<nat>)
    requires Refs(s) && l in s.cells && s.cells[l].pointer == None && s.cells[l].writer == Some(t) && PcOf(s, t) == Writing(l)
    requires forall k: nat :: k in s.cells && s.cells[k].writer == Some(t) ==> k == l
    requires from.Some? ==> from.value in s.raws
    ensures Refs(Refilled(s, t, l, from)) && forall o :: Dead(Refilled(s, t, l, from), o) <==> Dead(s, o)
  {
    hide Refs;
    var s' := Refilled(s, t, l, from);
    assert forall k: nat :: Released(s', k) == Released(s, k);
    if from == None {
      RefsSame(s, s');
    } else {
      Alive(s, Raw(from.value), s.raws[from.value]);
      RefRenamed(s, s', s.raws[from.value], Raw(from.value), Locked(l));
    }
  }

  lemma OneCell(s: State, t: Tid, l: nat)
    requires Locks(s) && PcOf(s, t) == Writing(l)
    ensures forall k: nat :: k in s.cells && s.cells[k].writer == Some(t) ==> k == l
    ensures l in s.cells && s.cells[l].writer == Some(t) && s.cells[l].readers == {}
  {
    assert HasAlone(s, t, l) <==> Writes(PcOf(s, t), l);
    forall k: nat | k in s.cells && s.cells[k].writer == Some(t) ensures k == l {
      assert HasAlone(s, t, k) <==> Writes(PcOf(s, t), k);
    }
  }

  lemma EmptiedKeepsLocks(s: State, l: nat, h: nat)
    requires l in s.cells
    ensures Emptied(s, l, h).cells == s.cells[l := s.cells[l].(pointer := None)] && Emptied(s, l, h).threads == s.threads
    ensures Emptied(s, l, h).raws == s.raws && Emptied(s, l, h).destroyed == s.destroyed
  {
  }

  lemma RefilledSetsLocks(s: State, t: Tid, l: nat, from: Option<nat>)
    requires l in s.cells && (from.Some? ==> from.value in s.raws)
    ensures var s' := Refilled(s, t, l, from);
            && l in s'.cells && s'.cells == s.cells[l := s'.cells[l]] && s'.cells[l].writer == None && s'.cells[l].readers == s.cells[l].readers
            && s'.threads == s.threads[t := Idle] && s'.destroyed == s.destroyed
  {
  }

  lemma SwapKeepsInv(s: State, t: Tid, from: Option<nat>, h: nat)
    requires Inv(s) && (PcOf(s, t).Writing? && PcOf(s, t).l in s.cells && (from.Some? ==> from.value in s.raws) && PointerOf(s, h) == None)
    ensures Inv(DoSwap(s, t, PcOf(s, t).l, from, h))
  {
    hide Refs, Locks, Deaths, Emptied, Refilled;
    var l := PcOf(s, t).l;
    var mid := Emptied(s, l, h);
    OneCell(s, t, l);
    EmptiedKeepsLocks(s, l, h);
    EmptiedKeepsRefs(s, t, l, h);
    RefilledKeepsRefs(mid, t, l, from);
    RefilledSetsLocks(mid, t, l, from);
    LocksAfter(s, Refilled(mid, t, l, from), t, l);
    DeathsSame(s, Refilled(mid, t, l, from));
  }

  lemma ReleaseInResetKeepsInv(s: State, t: Tid)
    requires Inv(s) && PcOf(s, t).Writing? && PcOf(s, t).l in s.cells
    ensures Inv(DoReleaseInReset(s, t, PcOf(s, t).l))
  {
    hide Refs, Locks, Deaths;
    var l := PcOf(s, t).l;
    LockHolder(s, t, l);
    LocksAfter(s, DoReleaseInReset(s, t, l), t, l);
    OtherCells(s, DoReleaseInReset(s, t, l), t, l);
    if s.cells[l].pointer == None {
      RefsSame(s, DoReleaseInReset(s, t, l));
      DeathsSame(s, DoReleaseInReset(s, t, l));
    } else {
      ReleasedReference(s, t, l, s.cells[l].pointer.value);
    }
  }

  lemma ReleasedReference(s: State, t: Tid, l: nat, o: Oid)
    requires Refs(s) && Deaths(s) && PcOf(s, t) == Writing(l) && l in s.cells && s.cells[l].pointer == Some(o) && s.cells[l].writer == Some(t)
    requires forall k: nat :: k != l ==> Released(DoReleaseInReset(s, t, l), k) == Released(s, k)
    ensures Refs(DoReleaseInReset(s, t, l)) && Deaths(DoReleaseInReset(s, t, l))
  {
    hide Refs, Deaths;
    var s' := DoReleaseInReset(s, t, l);
    Alive(s, Locked(l), o);
    RefDropped(s, s', o, Locked(l));
    DeathsAfterDrop(s, s', t, o);
  }

  /** A step of the writer of `l` changes nothing about other cells. */
  lemma OtherCells(s: State, s': State, t: Tid, l: nat)
    requires Locks(s) && OnCell(s, s', t, l)
    ensures forall k: nat :: k != l ==> Released(s', k) == Released(s, k)
  {
    forall k: nat | k != l ensures Released(s', k) == Released(s, k) {
      assert HasAlone(s, t, k) <==> Writes(PcOf(s, t), k);
    }
  }

  lemma SetNullKeepsInv(s: State, t: Tid)
    requires Inv(s) && PcOf(s, t).Nulling? && PcOf(s, t).l in s.cells
    ensures Inv(DoSetNull(s, t, PcOf(s, t).l))
  {
    hide Refs, Locks, Deaths;
    var s' := DoSetNull(s, t, PcOf(s, t).l);
    var l := PcOf(s, t).l;
    LockHolder(s, t, l);
    LocksAfter(s, s', t, l);
    OtherCells(s, s', t, l);
    RefsSame(s, s');
    DeathsSame(s, s');
  }

  /** A cell goes away that nobody has locked, and thread `t` has no lock. */
  ghost predicate CellGone(s: State, s': State, t: Tid, l: nat) {
    && l in s.cells && s'.cells == s.cells - {l} && s.cells[l].writer == None && s.cells[l].readers == {}
    && Outside(PcOf(s, t)) && Outside(PcOf(s', t)) && forall u: Tid :: u != t ==> PcOf(s', u) == PcOf(s, u)
  }

  lemma CellGoneKeepsHolders(s: State, s': State, t: Tid, l: nat)
    requires Locks(s) && CellGone(s, s', t, l)
    ensures forall u: Tid, k: nat :: HasShared(s', u, k) <==> Reads(PcOf(s', u), k)
    ensures forall u: Tid, k: nat :: HasAlone(s', u, k) <==> Writes(PcOf(s', u), k)
  {
    forall u: Tid, k: nat ensures (HasShared(s', u, k) <==> Reads(PcOf(s', u), k)) && (HasAlone(s', u, k) <==> Writes(PcOf(s', u), k)) {
      assert HasShared(s, u, k) <==> Reads(PcOf(s, u), k);
      assert HasAlone(s, u, k) <==> Writes(PcOf(s, u), k);
    }
  }

  lemma CellGoneKeepsLocks(s: State, s': State, t: Tid, l: nat)
    requires Locks(s) && CellGone(s, s', t, l)
    ensures Locks(s')
  {
    CellGoneKeepsHolders(s, s', t, l);
    hide HasAlone, Writes;
    forall u: Tid ensures LoadedOk(s', u) {
      assert LoadedOk(s, u) && (HasShared(s, u, l) <==> Reads(PcOf(s, u), l));
    }
  }

  lemma DropCellKeepsLocks(s: State, t: Tid, l: nat)
    requires Locks(s) && PcOf(s, t) == Idle && l in s.cells && s.cells[l].writer == None && s.cells[l].readers == {}
    ensures Locks(DoDropCell(s, t, l))
  {
    hide Locks;
    CellGoneKeepsLocks(s, DoDropCell(s, t, l), t, l);
  }

  lemma DropCellTargets(s: State, t: Tid, l: nat)
    requires PcOf(s, t) == Idle && l in s.cells && s.cells[l].writer == None && s.cells[l].readers == {}
    ensures var s' := DoDropCell(s, t, l);
            Target(s', Locked(l)) == None && Target(s, Locked(l)) == s.cells[l].pointer && forall r :: r != Locked(l) ==> Target(s', r) == Target(s, r)
  {
    var s' := DoDropCell(s, t, l);
    assert forall k: nat :: k != l ==> Released(s', k) == Released(s, k);
  }

  lemma DropCellKeepsInv(s: State, t: Tid, l: nat)
    requires Inv(s) && PcOf(s, t) == Idle && l in s.cells && s.cells[l].writer == None && s.cells[l].readers == {}
    ensures Inv(DoDropCell(s, t, l))
  {
    hide Refs, Locks, Deaths, Target;
    var s' := DoDropCell(s, t, l);
    DropCellKeepsLocks(s, t, l);
    DropCellTargets(s, t, l);
    if s.cells[l].pointer == None {
      RefsSame(s, s');
      DeathsSame(s, s');
    } else {
      var o := s.cells[l].pointer.value;
      Alive(s, Locked(l), o);
      RefDropped(s, s', o, Locked(l));
      DeathsAfterDrop(s, s', t, o);
    }
  }

  // ---- the unguarded operations

  lemma TestKeepsInv(s: State, t: Tid, l: nat)
    requires Inv(s) && PcOf(s, t) == Idle && l in s.cells
    ensures Inv(DoTest(s, t, l))
  {
    hide Refs, Locks, Deaths;
    var s' := DoTest(s, t, l);
    CellsSame(s, s', t);
    RefsSame(s, s');
    LocksOutside(s, s', t);
    DeathsSame(s, s');
  }

  lemma IncrementKeepsInv(s: State, t: Tid, l: nat, o: Oid)
    requires Inv(s) && PcOf(s, t) == ToIncrement(l) && l in s.cells && s.cells[l].pointer == Some(o) && Referenced(s, o)
    ensures Inv(DoIncrement(s, t, l))
  {
    hide Refs, Locks, Deaths;
    var s' := DoIncrement(s, t, l);
    var r: Ref :| Target(s, r) == Some(o);
    Alive(s, r, o);
    CellsSame(s, s', t);
    LocksOutside(s, s', t);
    RefAdded(s, s', o, InFlight(t));
    DeathsSame(s, s');
  }

  lemma ReturnKeepsInv(s: State, t: Tid, l: nat, h: nat)
    requires Inv(s) && PcOf(s, t).ToReturn? && l in s.cells && s.cells[l].pointer == PcOf(s, t).p && PointerOf(s, h) == None
    ensures Inv(DoReturn(s, t, l, h))
  {
    hide Refs, Locks, Deaths;
    var s' := DoReturn(s, t, l, h);
    CellsSame(s, s', t);
    LocksOutside(s, s', t);
    if PcOf(s, t).p == None {
      RefsSame(s, s');
    } else {
      Alive(s, InFlight(t), PcOf(s, t).p.value);
      RefRenamed(s, s', PcOf(s, t).p.value, InFlight(t), Handle(h));
    }
    DeathsSame(s, s');
  }

  /** Every safe operation keeps the invariant. */
  lemma StepKeepsInv(s: State, a: Action)
    requires Inv(s) && Enabled(s, a) && Safe(s, a)
    ensures Inv(Step(s, a))
  {
    hide Inv, Referenced, DoMake, DoCopy, DoMove, DoReset, DoNewRaw, DoGiveUp, DoAdopt, DoResetRaw, DoDestroy, DoMakeCell, DoDropCell, DoLockShared, DoLoad,
         DoAcquire, DoUnlock, DoLockAlone, DoSwap, DoReleaseInReset, DoSetNull, DoTest, DoIncrement, DoReturn;
    if OnHandles(a) {
      HandlesKeepInv(s, a);
    } else {
      match a
      case LockShared(t, l) => LockSharedKeepsInv(s, t, l);
      case Load(t) => LoadKeepsInv(s, t);
      case Unlock(t) => UnlockKeepsInv(s, t);
      case LockAlone(t, l) => LockAloneKeepsInv(s, t, l);
      case Reset(t, h) => ResetKeepsInv(s, t, h);
      case ResetRaw(t, r) => ResetRawKeepsInv(s, t, r);
      case Destroy(t) => DestroyKeepsInv(s, t);
      case MakeCell(l, from) => MakeCellKeepsInv(s, l, from);
      case Acquire(t, h) => AcquireKeepsInv(s, t, h);
      case Swap(t, from, h) => SwapKeepsInv(s, t, from, h);
      case ReleaseInReset(t) => ReleaseInResetKeepsInv(s, t);
      case SetNull(t) => SetNullKeepsInv(s, t);
      case DropCell(t, l) => DropCellKeepsInv(s, t, l);
      case TestUnguarded(t, l) => TestKeepsInv(s, t, l);
      case IncrementUnguarded(t) => IncrementKeepsInv(s, t, PcOf(s, t).l, s.cells[PcOf(s, t).l].pointer.value);
      case ReturnUnguarded(t, h) => ReturnKeepsInv(s, t, PcOf(s, t).l, h);
    }
  }

  // ---- runs

  ghost predicate IsRun(run: seq<State>, acts: seq<Action>) {
    && |run| == |acts| + 1 && run[0] == Init
    && forall i :: 0 <= i < |acts| ==> Enabled(run[i], acts[i]) && run[i + 1] == Step(run[i], acts[i])
  }

  /** Any interleaving of the guarded operations, and of unguarded ones whose reads are safe. */
  ghost predicate IsSafeRun(run: seq<State>, acts: seq<Action>) {
    IsRun(run, acts) && forall i :: 0 <= i < |acts| ==> Safe(run[i], acts[i])
  }

  lemma InitHolds()
    ensures Inv(Init)
  {
  }

  lemma {:induction false} RunKeepsInv(run: seq<State>, acts: seq<Action>, k: nat)
    requires IsSafeRun(run, acts) && k < |run|
    ensures Inv(run[k])
  {
    hide Inv, Step, Enabled, Safe;
    if k == 0 {
      InitHolds();
    } else {
      RunKeepsInv(run, acts, k - 1);
      StepKeepsInv(run[k - 1], acts[k - 1]);
    }
  }

  /** Over any such interleaving the count of an object is the number of the shared pointers, raw references,
      locked shared pointers and unguarded calls that refer to it. */
  lemma CountIsConserved(run: seq<State>, acts: seq<Action>, k: nat, o: Oid)
    requires IsSafeRun(run, acts) && k < |run| && o in run[k].objs
    ensures run[k].objs[o].count == |run[k].objs[o].holders|
    ensures forall r :: r in run[k].objs[o].holders <==> Target(run[k], r) == Some(o)
  {
    hide Inv, Step, Enabled, Safe;
    RunKeepsInv(run, acts, k);
    CountOf(run[k], o);
  }

  lemma CountOf(s: State, o: Oid)
    requires Inv(s) && o in s.objs
    ensures s.objs[o].count == |s.objs[o].holders| && forall r :: r in s.objs[o].holders <==> Target(s, r) == Some(o)
  {
    hide Locks, Deaths;
    forall r ensures r in s.objs[o].holders <==> Target(s, r) == Some(o) {
      assert Target(s, r) == Some(o) <==> Holds(s, r, o);
    }
  }

  /** An object is destroyed at most once, only when nothing refers to it any more; and an object to
      which nothing refers has been destroyed or is about to be, by one thread. */
  lemma DestroyedExactlyOnce(run: seq<State>, acts: seq<Action>, k: nat)
    requires IsSafeRun(run, acts) && k < |run|
    ensures NoDup(run[k].destroyed)
    ensures forall o, r :: o in run[k].destroyed ==> Target(run[k], r) != Some(o)
    ensures forall o :: o in run[k].objs && (forall r :: Target(run[k], r) != Some(o)) ==> o in run[k].destroyed || Dying(run[k], o)
    ensures forall t: Tid, o :: DestroyedBy(run[k], t) == Some(o) ==> o !in run[k].destroyed && forall u: Tid :: DestroyedBy(run[k], u) == Some(o) ==> u == t
  {
    hide Inv, Step, Enabled, Safe;
    RunKeepsInv(run, acts, k);
    DeathsOf(run[k]);
  }

  lemma DeathsOf(s: State)
    requires Inv(s)
    ensures NoDup(s.destroyed)
    ensures forall o, r :: o in s.destroyed ==> Target(s, r) != Some(o)
    ensures forall o :: o in s.objs && (forall r :: Target(s, r) != Some(o)) ==> o in s.destroyed || Dying(s, o)
    ensures forall t: Tid, o :: DestroyedBy(s, t) == Some(o) ==> o !in s.destroyed && forall u: Tid :: DestroyedBy(s, u) == Some(o) ==> u == t
  {
    hide Locks, Refs;
    forall o, r | o in s.destroyed ensures Target(s, r) != Some(o) {
      assert Dead(s, o);
      if Target(s, r) == Some(o) {
        Alive(s, r, o);
      }
    }
    forall o | o in s.objs && forall r :: Target(s, r) != Some(o) ensures o in s.destroyed || Dying(s, o) {
      Unreferenced(s, o);
      assert Dead(s, o);
    }
  }

  lemma Unreferenced(s: State, o: Oid)
    requires Refs(s) && o in s.objs && forall r :: Target(s, r) != Some(o)
    ensures s.objs[o].count == 0
  {
    forall r ensures r !in s.objs[o].holders {
      assert Target(s, r) == Some(o) <==> Holds(s, r, o);
    }
    assert s.objs[o].holders == {};
  }

  /** The operations that add a reference. */
  function Adds(s: State, a: Action): Option<Oid> {
    match a
    case Copy(h, _) => PointerOf(s, h)
    case NewRaw(h, _) => PointerOf(s, h)
    case Acquire(t, _) => if PcOf(s, t).Loaded? then PcOf(s, t).p else None
    case IncrementUnguarded(t) => if PcOf(s, t).ToIncrement? && PcOf(s, t).l in s.cells then s.cells[PcOf(s, t).l].pointer else None
    case _ => None
  }

  /** No operation of such a run adds a reference to an object whose count has reached zero. */
  lemma NeverRevives(run: seq<State>, acts: seq<Action>, k: nat, o: Oid)
    requires IsSafeRun(run, acts) && k < |acts| && Adds(run[k], acts[k]) == Some(o)
    ensures o in run[k].objs && run[k].objs[o].count > 0 && o !in run[k].destroyed && !Dying(run[k], o)
  {
    hide Inv, Step, Enabled, Safe;
    RunKeepsInv(run, acts, k);
    AddsToLiving(run[k], acts[k], o);
  }

  lemma AddsToLiving(s: State, a: Action, o: Oid)
    requires Inv(s) && Safe(s, a) && Adds(s, a) == Some(o)
    ensures o in s.objs && s.objs[o].count > 0 && o !in s.destroyed && !Dying(s, o)
  {
    hide Refs, Locks;
    match a {
      case Copy(h, _) => Alive(s, Handle(h), o);
      case NewRaw(h, _) => Alive(s, Handle(h), o);
      case Acquire(t, _) =>
        LoadedIsAlive(s, t);
        Alive(s, Locked(PcOf(s, t).l), o);
      case IncrementUnguarded(t) =>
        var r: Ref :| Target(s, r) == Some(o);
        Alive(s, r, o);
    }
    assert !Dead(s, o);
  }
}
