/** Every step keeps the whole invariant. */
module AodSteps {
  import opened Wrappers
  import opened MpscQueue
  import opened AodMachine
  import opened AodInvariant
  import opened AodFrame
  import opened AodOwnership
  import opened AodFlags
  import opened AodTasks
  import opened AodQueues
  import opened AodReferences

  // ---- what the invariant says about the frame that moves

  lemma ShapeOfTop(s: State, p: Place, f: Frame)
    requires Inv(s) && TopFrame(s, p, f)
    ensures FrameShape(s, f) && OthersRun(s, p)
    ensures p.i + 1 == Depth(s, p.t)
  {
    hide Owners, FlagPart, TaskPart, QueuePart, RefPart;
    OthersRunBelowTop(s, p, f);
  }

  lemma OwnershipOfTop(s: State, p: Place, f: Frame)
    requires Inv(s) && TopFrame(s, p, f)
    ensures CountOk(s.objs[f.obj]) && CountOk(s.objs[f.cur]) && (s.objs[f.obj].owner == NoOwner <==> s.objs[f.obj].count == 0)
    ensures Owning(f.pc) ==> s.objs[f.cur].owner == AtFrame(p) && (s.objs[f.cur].busy <==> Taking(f.pc))
  {
    hide Stacks, FlagPart, TaskPart, QueuePart, RefPart, Tasks;
    assert OwnedBy(s, p) == if Owning(f.pc) then Some(f.cur) else None;
  }

  lemma TaskOfTop(s: State, p: Place, f: Frame)
    requires Inv(s) && TopFrame(s, p, f)
    ensures TaskProgress(s, f)
    ensures InHand(s, p).Some? ==> InHand(s, p).value.0 in s.tasks && s.tasks[InHand(s, p).value.0] == InHand(s, p).value.1
  {
    hide Stacks, Owners, FlagPart, QueuePart, RefPart, StageLink, PushedLink;
  }

  lemma PendingOfTop(s: State, p: Place, f: Frame)
    requires Inv(s) && TopFrame(s, p, f)
    ensures var slot := Slot(p.t, s.objs[f.obj].kind);
            && (forall o :: o in PendingOf(s, slot) ==> IsParked(s, slot, o))
            && (f.pc.ClearFlag? ==> PendingOf(s, slot) == [])
  {
    hide Stacks, TaskPart, QueuePart, RefPart, OwnLink, BusyLink, CountOk, FlagLink, PendingIsFlagged;
    assert LeavesClean(s, p, f);
  }

  /** An object is alive while a frame or a task in hand holds a reference to it. */
  lemma ObjectOfTopIsAlive(s: State, p: Place, f: Frame)
    requires Inv(s) && TopFrame(s, p, f)
    ensures HoldsSelf(f.pc) || f.pc.AcquireSelf? ==> !s.objs[f.obj].destroyed
  {
    hide FlagPart, QueuePart;
    HoldersKnown(s, f.obj);
    assert HoldsSelf(f.pc) ==> SelfHolds(s, p, f.obj);
    if f.pc.AcquireSelf? && Managed(s, f.obj) {
      QueuedTaskOfOwner(s, p, f);
    }
  }

  /** The task that elected the owner stays counted until the owner pops it, and its own reference
      keeps the object alive meanwhile. */
  lemma QueuedTaskOfOwner(s: State, p: Place, f: Frame)
    requires Inv(s) && TopFrame(s, p, f) && f.pc.AcquireSelf?
    ensures exists n :: TaskHolds(s, n, f.obj)
  {
    hide Stacks, Owners, FlagPart, TaskPart, QueuePart, RefPart, Tasks;
    ShapeOfTop(s, p, f);
    OwnershipOfTop(s, p, f);
    CountedTaskHolds(s, f.obj);
  }

  lemma CountedTaskHolds(s: State, o: Oid)
    requires TaskPart(s) && o in s.objs && CountOk(s.objs[o]) && s.objs[o].count > 0 && !s.objs[o].busy
    ensures exists n :: TaskHolds(s, n, o)
  {
    hide TaskLink, PushedLink, AllProgress;
    var ob := s.objs[o];
    var n: nat;
    if |ob.counted| > 0 {
      n :| n in ob.counted;
      assert IsCounted(s, o, n);
    } else {
      n := Tasks(ob.q.chain)[0];
      TasksContains(ob.q.chain, n);
      assert IsQueued(s, o, n);
    }
    assert TaskHolds(s, n, o);
  }

  // ---- one lemma for each statement

  lemma CountKept(ob: Obj, ob': Obj)
    requires CountOk(ob) && ob'.count == ob.count && ob'.counted == ob.counted && Tasks(ob'.q.chain) == Tasks(ob.q.chain)
    requires ob'.busy == ob.busy && (ob'.owner == NoOwner <==> ob.owner == NoOwner)
    ensures CountOk(ob')
  {
  }

  /** The queue part needs the links between frames, tasks and owners, but not their proofs. */
  lemma LinksOf(s: State)
    requires Inv(s)
    ensures OwnLink(s) && TaskLink(s) && StageLink(s)
  {
    hide Stacks, FlagPart, QueuePart, RefPart, OwnLink, TaskLink, StageLink;
  }

  lemma ResetKeepsInv(s: State, p: Place, f: Frame)
    requires Inv(s) && TopFrame(s, p, f) && f.pc.ResetTask?
    ensures Inv(DoReset(s, p, f))
  {
    hide Stacks, Owners, FlagPart, TaskPart, QueuePart, RefPart, CountOk;
    var s' := DoReset(s, p, f);
    ShapeOfTop(s, p, f);
    OwnershipOfTop(s, p, f);
    TaskOfTop(s, p, f);
    StacksKept(s, s', p, f.obj);
    CountKept(s.objs[f.obj], s'.objs[f.obj]);
    OwnersKept(s, s', p, f.obj);
    FlagPartKept(s, s', p, f.obj);
    TaskPartKept(s, s', p, f.obj);
    LinksOf(s);
    ResetKeepsQueues(s, p, f);
    RefPartKept(s, s', p, f.obj);
  }

  lemma IncrementKeepsInv(s: State, p: Place, f: Frame)
    requires Inv(s) && TopFrame(s, p, f) && f.pc.Increment?
    ensures Inv(DoIncrement(s, p, f))
  {
    hide Stacks, Owners, FlagPart, TaskPart, QueuePart, RefPart, CountOk;
    var s' := DoIncrement(s, p, f);
    ShapeOfTop(s, p, f);
    OwnershipOfTop(s, p, f);
    TaskOfTop(s, p, f);
    StacksKept(s, s', p, f.obj);
    IncrementKeepsTasks(s, p, f);
    IncrementKeepsOwners(s, p, f);
    FlagPartKept(s, s', p, f.obj);
    LinksOf(s);
    IncrementKeepsQueues(s, p, f);
    RefPartKept(s, s', p, f.obj);
  }

  lemma ExchangeKeepsInv(s: State, p: Place, f: Frame)
    requires Inv(s) && TopFrame(s, p, f) && f.pc.ExchangeHead?
    ensures Inv(DoExchange(s, p, f))
  {
    hide Stacks, Owners, FlagPart, TaskPart, QueuePart, RefPart, CountOk;
    var s' := DoExchange(s, p, f);
    ShapeOfTop(s, p, f);
    OwnershipOfTop(s, p, f);
    TaskOfTop(s, p, f);
    StacksKept(s, s', p, f.obj);
    ExchangeKeepsTasks(s, p, f);
    ExchangeKeepsOwners(s, p, f);
    FlagPartKept(s, s', p, f.obj);
    LinksOf(s);
    ExchangeKeepsQueues(s, p, f);
    RefPartKept(s, s', p, f.obj);
  }

  lemma LinkKeepsInv(s: State, p: Place, f: Frame)
    requires Inv(s) && TopFrame(s, p, f) && f.pc.LinkPrev?
    ensures Inv(DoLink(s, p, f))
  {
    hide Stacks, Owners, FlagPart, TaskPart, QueuePart, RefPart, CountOk, DoLink;
    ShapeOfTop(s, p, f);
    LinkKeepsStacksAndFlags(s, p, f);
    LinkKeepsOwners(s, p, f);
    LinkKeepsTasks(s, p, f);
    LinksOf(s);
    LinkKeepsQueues(s, p, f);
    LinkKeepsRefs(s, p, f);
  }

  lemma LinkKeepsOwners(s: State, p: Place, f: Frame)
    requires Inv(s) && TopFrame(s, p, f) && f.pc.LinkPrev? && FrameShape(s, f)
    ensures Owners(DoLink(s, p, f))
  {
    hide Stacks, Owners, FlagPart, TaskPart, QueuePart, RefPart, CountOk;
    OwnershipOfTop(s, p, f);
    CountKept(s.objs[f.obj], DoLink(s, p, f).objs[f.obj]);
    OwnersKept(s, DoLink(s, p, f), p, f.obj);
  }

  lemma LinkKeepsRefs(s: State, p: Place, f: Frame)
    requires Inv(s) && TopFrame(s, p, f) && f.pc.LinkPrev? && FrameShape(s, f)
    ensures RefPart(DoLink(s, p, f))
  {
    hide Stacks, Owners, FlagPart, TaskPart, QueuePart, RefPart, CountOk, Link;
    TaskOfTop(s, p, f);
    RefPartKept(s, DoLink(s, p, f), p, f.obj);
  }

  lemma LinkKeepsStacksAndFlags(s: State, p: Place, f: Frame)
    requires Inv(s) && TopFrame(s, p, f) && f.pc.LinkPrev? && FrameShape(s, f)
    ensures Stacks(DoLink(s, p, f)) && FlagPart(DoLink(s, p, f))
  {
    hide Stacks, Owners, FlagPart, TaskPart, QueuePart, RefPart, Link;
    StacksKept(s, DoLink(s, p, f), p, f.obj);
    FlagPartKept(s, DoLink(s, p, f), p, f.obj);
  }

  lemma AcquireKeepsInv(s: State, p: Place, f: Frame)
    requires Inv(s) && TopFrame(s, p, f) && f.pc.AcquireSelf?
    ensures Inv(DoAcquire(s, p, f))
  {
    hide Stacks, Owners, FlagPart, TaskPart, QueuePart, RefPart, CountOk;
    var s' := DoAcquire(s, p, f);
    ShapeOfTop(s, p, f);
    OwnershipOfTop(s, p, f);
    TaskOfTop(s, p, f);
    ObjectOfTopIsAlive(s, p, f);
    StacksKept(s, s', p, f.obj);
    CountKept(s.objs[f.obj], s'.objs[f.obj]);
    OwnersKept(s, s', p, f.obj);
    FlagPartKept(s, s', p, f.obj);
    TaskPartKept(s, s', p, f.obj);
    QueuePartKept(s, s', p, f.obj);
    AcquireKeepsRefs(s, p, f);
  }

  /** A parked object goes behind those that are pending. */
  lemma CheckParks(s: State, p: Place, f: Frame, slot: Slot)
    requires FrameReady(s, f)
    ensures PendingOf(DoCheck(s, p, f), slot) ==
            PendingOf(s, slot) + (if slot == Slot(p.t, s.objs[f.obj].kind) && slot in s.inProgress then [f.obj] else [])
  {
  }

  /** The object that is taken is the first of those that are pending. */
  lemma DrainTakes(s: State, p: Place, f: Frame, slot: Slot)
    requires FrameReady(s, f)
    ensures var s' := DoDrain(s, p, f);
            && p in s'.frames
            && PendingOf(s, slot) == (if slot == Slot(p.t, s.objs[f.obj].kind) && s'.frames[p].pc.Popping? then [s'.frames[p].cur] else [])
                                     + PendingOf(s', slot)
  {
  }

  lemma CheckKeepsInv(s: State, p: Place, f: Frame)
    requires Inv(s) && TopFrame(s, p, f) && f.pc.CheckFlag?
    ensures Inv(DoCheck(s, p, f))
    ensures forall slot :: PendingOf(DoCheck(s, p, f), slot) ==
              PendingOf(s, slot) + (if slot == Slot(p.t, s.objs[f.obj].kind) && slot in s.inProgress then [f.obj] else [])
  {
    hide Stacks, Owners, FlagPart, TaskPart, QueuePart, RefPart, CountOk;
    forall slot ensures PendingOf(DoCheck(s, p, f), slot) ==
              PendingOf(s, slot) + (if slot == Slot(p.t, s.objs[f.obj].kind) && slot in s.inProgress then [f.obj] else []) {
      CheckParks(s, p, f, slot);
    }
    var s' := DoCheck(s, p, f);
    ShapeOfTop(s, p, f);
    OwnershipOfTop(s, p, f);
    TaskOfTop(s, p, f);
    StacksKept(s, s', p, f.obj);
    CheckKeepsFlags(s, p, f);
    TaskPartKept(s, s', p, f.obj);
    LinksOf(s);
    StartKeepsQueues(s, s', p, f.obj);
    if Slot(p.t, s.objs[f.obj].kind) in s.inProgress {
      ParkKeepsOwners(s, p, f);
      ParkKeepsRefs(s, p, f);
    } else {
      SetFlagKeepsRest(s, p, f);
    }
  }

  lemma SetFlagKeepsRest(s: State, p: Place, f: Frame)
    requires Inv(s) && TopFrame(s, p, f) && f.pc.CheckFlag? && FrameShape(s, f) && Slot(p.t, s.objs[f.obj].kind) !in s.inProgress
    ensures Owners(DoCheck(s, p, f)) && RefPart(DoCheck(s, p, f))
  {
    hide Stacks, Owners, FlagPart, TaskPart, QueuePart, RefPart, CountOk;
    OwnershipOfTop(s, p, f);
    CountKept(s.objs[f.obj], DoCheck(s, p, f).objs[f.obj]);
    OwnersKept(s, DoCheck(s, p, f), p, f.obj);
    RefPartKept(s, DoCheck(s, p, f), p, f.obj);
  }

  lemma AllShapes(s: State)
    requires Stacks(s)
    ensures forall p :: p in s.frames ==> FrameShape(s, s.frames[p])
  {
    hide FrameShape;
  }

  lemma PopKeepsInv(s: State, p: Place, f: Frame)
    requires Inv(s) && TopFrame(s, p, f) && f.pc.Popping?
    ensures Inv(DoPop(s, p, f))
  {
    hide Stacks, Owners, FlagPart, TaskPart, QueuePart, RefPart, DoPop;
    ShapeOfTop(s, p, f);
    LinksOf(s);
    PopKeepsQueues(s, p, f);
    AllShapes(s);
    PopKeepsTasks(s, p, f);
    PopKeepsOwners(s, p, f);
    PopKeepsStacksAndFlags(s, p, f);
    PopKeepsRefs(s, p, f);
  }

  lemma PopKeepsStacksAndFlags(s: State, p: Place, f: Frame)
    requires Inv(s) && TopFrame(s, p, f) && f.pc.Popping?
    ensures Stacks(DoPop(s, p, f)) && FlagPart(DoPop(s, p, f))
  {
    hide Stacks, Owners, FlagPart, TaskPart, QueuePart, RefPart, PopStep, DoPop;
    ShapeOfTop(s, p, f);
    PopMoves(s, p, f);
    StacksKept(s, DoPop(s, p, f), p, f.cur);
    PopKeepsFlags(s, p, f);
  }

  lemma PopMoves(s: State, p: Place, f: Frame)
    requires TopFrame(s, p, f) && f.pc.Popping? && FrameShape(s, f)
    ensures Moves(s, DoPop(s, p, f), p, f.cur) && TopMoves(s, DoPop(s, p, f), p)
  {
    hide DoPop, PopStep, Moves, TopMoves, FrameShape;
    PopChanges(s, p, f);
    PopKeepsTop(s, p, f);
  }

  lemma PopKeepsTop(s: State, p: Place, f: Frame)
    requires TopFrame(s, p, f) && f.pc.Popping? && FrameShape(s, f)
    ensures TopMoves(s, DoPop(s, p, f), p)
  {
    hide PopStep;
  }

  lemma PopKeepsFlags(s: State, p: Place, f: Frame)
    requires FlagPart(s) && TopFrame(s, p, f) && f.pc.Popping? && FrameShape(s, f)
    requires Moves(s, DoPop(s, p, f), p, f.cur)
    ensures FlagPart(DoPop(s, p, f))
  {
    hide FlagPart, PopStep, Moves;
    FlagPartKept(s, DoPop(s, p, f), p, f.cur);
  }

  lemma PopKeepsRefs(s: State, p: Place, f: Frame)
    requires Inv(s) && TopFrame(s, p, f) && f.pc.Popping?
    ensures RefPart(DoPop(s, p, f))
  {
    hide Stacks, Owners, FlagPart, TaskPart, QueuePart, RefPart, CountOk, QInv, PcInv, PopStep;
    LinksOf(s);
    ShapeOfTop(s, p, f);
    PopKeepsQueues(s, p, f);
    PoppedTaskIsLive(s, p, f);
    RefPartKept(s, DoPop(s, p, f), p, f.cur);
  }

  lemma PoppedTaskIsLive(s: State, p: Place, f: Frame)
    requires Inv(s) && TopFrame(s, p, f) && f.pc.Popping? && FrameShape(s, f)
    requires QInv(s.objs[f.cur].q) && PcInv(s.objs[f.cur].q, f.pc.pop)
    ensures var pop' := PopStep(s.objs[f.cur].q, f.pc.pop).1;
            pop'.Returned? && pop'.r.Task? ==> pop'.r.id in s.tasks && s.tasks[pop'.r.id] == TaskRec(f.cur, Queued)
  {
    hide Stacks, Owners, FlagPart, TaskPart, QueuePart, RefPart, CountOk, QInv, PcInv, PopStep;
    PopStepMembers(s.objs[f.cur].q, f.pc.pop);
    var pop' := PopStep(s.objs[f.cur].q, f.pc.pop).1;
    if pop'.Returned? && pop'.r.Task? {
      QueuedTask(s, f.cur, pop'.r.id);
    }
  }

  lemma FreeKeepsInv(s: State, p: Place, f: Frame)
    requires Inv(s) && TopFrame(s, p, f) && f.pc.FreeTask?
    ensures Inv(DoFree(s, p, f))
  {
    hide Stacks, Owners, FlagPart, TaskPart, QueuePart, RefPart, CountOk, DoFree;
    ShapeOfTop(s, p, f);
    TaskOfTop(s, p, f);
    FreeKeepsStacksAndFlags(s, p, f);
    FreeKeepsOwners(s, p, f);
    FreeKeepsTasks(s, p, f);
    FreeKeepsQueues(s, p, f);
    FreeKeepsRefs(s, p, f);
  }

  lemma FreeKeepsStacksAndFlags(s: State, p: Place, f: Frame)
    requires Inv(s) && TopFrame(s, p, f) && f.pc.FreeTask? && FrameShape(s, f)
    ensures Stacks(DoFree(s, p, f)) && FlagPart(DoFree(s, p, f))
  {
    hide Stacks, Owners, FlagPart, TaskPart, QueuePart, RefPart;
    StacksKept(s, DoFree(s, p, f), p, f.cur);
    FlagPartKept(s, DoFree(s, p, f), p, f.cur);
  }

  lemma FreeKeepsOwners(s: State, p: Place, f: Frame)
    requires Inv(s) && TopFrame(s, p, f) && f.pc.FreeTask? && FrameShape(s, f)
    ensures Owners(DoFree(s, p, f))
  {
    hide Stacks, Owners, FlagPart, TaskPart, QueuePart, RefPart, CountOk;
    OwnershipOfTop(s, p, f);
    CountKept(s.objs[f.cur], DoFree(s, p, f).objs[f.cur]);
    OwnersKept(s, DoFree(s, p, f), p, f.cur);
  }

  lemma FreeKeepsQueues(s: State, p: Place, f: Frame)
    requires Inv(s) && TopFrame(s, p, f) && f.pc.FreeTask? && FrameShape(s, f)
    ensures QueuePart(DoFree(s, p, f))
  {
    hide Stacks, Owners, FlagPart, TaskPart, QueuePart, RefPart, CountOk;
    QueuePartKept(s, DoFree(s, p, f), p, f.cur);
  }

  lemma DecrementKeepsInv(s: State, p: Place, f: Frame)
    requires Inv(s) && TopFrame(s, p, f) && f.pc.Decrement?
    ensures Inv(DoDecrement(s, p, f))
  {
    hide Stacks, Owners, FlagPart, TaskPart, QueuePart, RefPart, CountOk;
    var s' := DoDecrement(s, p, f);
    ShapeOfTop(s, p, f);
    OwnershipOfTop(s, p, f);
    DecrementKeepsStacksAndFlags(s, p, f);
    DecrementKeepsOwners(s, p, f);
    LinksOf(s);
    DecrementKeepsTasks(s, p, f);
    StartKeepsQueues(s, s', p, f.cur);
    DecrementKeepsRefs(s, p, f);
  }

  lemma DecrementKeepsRefs(s: State, p: Place, f: Frame)
    requires RefPart(s) && TopFrame(s, p, f) && f.pc.Decrement? && FrameShape(s, f) && s.objs[f.cur].owner == AtFrame(p)
    ensures RefPart(DoDecrement(s, p, f))
  {
    hide RefPart;
    RefPartKept(s, DoDecrement(s, p, f), p, f.cur);
  }

  lemma DecrementKeepsStacksAndFlags(s: State, p: Place, f: Frame)
    requires Inv(s) && TopFrame(s, p, f) && f.pc.Decrement? && FrameShape(s, f)
    ensures Stacks(DoDecrement(s, p, f)) && FlagPart(DoDecrement(s, p, f))
  {
    hide Stacks, Owners, FlagPart, TaskPart, QueuePart, RefPart;
    StacksKept(s, DoDecrement(s, p, f), p, f.cur);
    FlagPartKept(s, DoDecrement(s, p, f), p, f.cur);
  }

  lemma ReleaseDrainedKeepsInv(s: State, p: Place, f: Frame)
    requires Inv(s) && TopFrame(s, p, f) && f.pc.ReleaseDrained?
    ensures Inv(DoReleaseDrained(s, p, f))
  {
    hide Stacks, Owners, FlagPart, TaskPart, QueuePart, RefPart, CountOk;
    var s' := DoReleaseDrained(s, p, f);
    ShapeOfTop(s, p, f);
    OwnershipOfTop(s, p, f);
    TaskOfTop(s, p, f);
    StacksKept(s, s', p, f.cur);
    CountKept(s.objs[f.cur], s'.objs[f.cur]);
    OwnersKept(s, s', p, f.cur);
    FlagPartKept(s, s', p, f.cur);
    TaskPartKept(s, s', p, f.cur);
    QueuePartKept(s, s', p, f.cur);
    ReleaseDrainedKeepsRefs(s, p, f);
  }

  /** The object that the drain turns to: the next pending one, or its own at the end. */
  function DrainTarget(s: State, p: Place, f: Frame): Oid
    requires f.obj in s.objs
  {
    var todo := PendingOf(s, Slot(p.t, s.objs[f.obj].kind));
    if todo == [] then f.obj else todo[0]
  }

  lemma DrainKeepsInv(s: State, p: Place, f: Frame)
    requires Inv(s) && TopFrame(s, p, f) && f.pc.DrainTest?
    ensures Inv(DoDrain(s, p, f))
  {
    hide Stacks, Owners, FlagPart, TaskPart, QueuePart, RefPart, CountOk, DoDrain;
    ShapeOfTop(s, p, f);
    PendingOfTop(s, p, f);
    DrainKeepsStacksAndTasks(s, p, f);
    DrainKeepsOwners(s, p, f);
    DrainKeepsFlags(s, p, f);
    DrainKeepsQueues(s, p, f);
    DrainKeepsRefs(s, p, f);
  }

  lemma DrainMoves(s: State, p: Place, f: Frame)
    requires Inv(s) && TopFrame(s, p, f) && f.pc.DrainTest? && FrameShape(s, f)
    ensures Moves(s, DoDrain(s, p, f), p, DrainTarget(s, p, f)) && TopMoves(s, DoDrain(s, p, f), p)
    ensures PendingOf(s, Slot(p.t, s.objs[f.obj].kind)) != [] ==> IsParked(s, Slot(p.t, s.objs[f.obj].kind), DrainTarget(s, p, f))
  {
    hide Stacks, Owners, FlagPart, TaskPart, QueuePart, RefPart, CountOk;
    var slot := Slot(p.t, s.objs[f.obj].kind);
    PendingOfTop(s, p, f);
    if PendingOf(s, slot) != [] {
      assert IsParked(s, slot, PendingOf(s, slot)[0]);
    }
  }

  lemma DrainKeepsStacksAndTasks(s: State, p: Place, f: Frame)
    requires Inv(s) && TopFrame(s, p, f) && f.pc.DrainTest? && FrameShape(s, f)
    ensures Stacks(DoDrain(s, p, f)) && TaskPart(DoDrain(s, p, f))
  {
    hide Stacks, Owners, FlagPart, TaskPart, QueuePart, RefPart, CountOk;
    DrainMoves(s, p, f);
    TaskOfTop(s, p, f);
    StacksKept(s, DoDrain(s, p, f), p, DrainTarget(s, p, f));
    TaskPartKept(s, DoDrain(s, p, f), p, DrainTarget(s, p, f));
  }

  lemma DrainKeepsQueues(s: State, p: Place, f: Frame)
    requires Inv(s) && TopFrame(s, p, f) && f.pc.DrainTest? && FrameShape(s, f)
    ensures QueuePart(DoDrain(s, p, f))
  {
    hide Stacks, Owners, FlagPart, TaskPart, QueuePart, RefPart, CountOk, Moves, TopMoves;
    var o := DrainTarget(s, p, f);
    DrainMoves(s, p, f);
    if PendingOf(s, Slot(p.t, s.objs[f.obj].kind)) == [] {
      QueuePartKept(s, DoDrain(s, p, f), p, o);
    } else {
      LinksOf(s);
      StartKeepsQueues(s, DoDrain(s, p, f), p, o);
    }
  }

  lemma ClearKeepsInv(s: State, p: Place, f: Frame)
    requires Inv(s) && TopFrame(s, p, f) && f.pc.ClearFlag?
    ensures Inv(DoClear(s, p, f))
  {
    hide Stacks, Owners, FlagPart, TaskPart, QueuePart, RefPart, CountOk;
    var s' := DoClear(s, p, f);
    ShapeOfTop(s, p, f);
    OwnershipOfTop(s, p, f);
    TaskOfTop(s, p, f);
    StacksKept(s, s', p, f.obj);
    CountKept(s.objs[f.obj], s'.objs[f.obj]);
    OwnersKept(s, s', p, f.obj);
    ClearKeepsFlags(s, p, f);
    TaskPartKept(s, s', p, f.obj);
    QueuePartKept(s, s', p, f.obj);
    RefPartKept(s, s', p, f.obj);
  }

  lemma ReleaseSelfKeepsInv(s: State, p: Place, f: Frame)
    requires Inv(s) && TopFrame(s, p, f) && f.pc.ReleaseSelf?
    ensures Inv(DoReleaseSelf(s, p, f))
  {
    hide Stacks, Owners, FlagPart, TaskPart, QueuePart, RefPart, CountOk;
    var s' := DoReleaseSelf(s, p, f);
    ShapeOfTop(s, p, f);
    OwnershipOfTop(s, p, f);
    TaskOfTop(s, p, f);
    StacksKept(s, s', p, f.obj);
    CountKept(s.objs[f.obj], s'.objs[f.obj]);
    OwnersKept(s, s', p, f.obj);
    FlagPartKept(s, s', p, f.obj);
    TaskPartKept(s, s', p, f.obj);
    QueuePartKept(s, s', p, f.obj);
    ReleaseSelfKeepsRefs(s, p, f);
  }
}
