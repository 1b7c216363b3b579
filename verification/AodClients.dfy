/** The steps that are not statements of `Dispatch`: clients creating objects and copying and
    dropping references, calls of `DoAsync`, and the end of a task's functor. */
module AodClients {
  import opened Wrappers
  import opened MpscQueue
  import opened AodMachine
  import opened AodInvariant
  import opened AodFrame
  import opened AodSteps

  /** A place that no frame is at: steps of clients move no frame. */
  function NoPlace(s: State): Place {
    Place(0, Depth(s, 0))
  }

  lemma NoFrameThere(s: State, t: Tid)
    requires Stacks(s)
    ensures Place(t, Depth(s, t)) !in s.frames
  {
    hide FrameShape;
  }

  lemma StacksOfSameFrames(s: State, s': State)
    requires Stacks(s) && s'.depth == s.depth && s'.frames == s.frames && s'.tasks == s.tasks
    requires forall o :: o in s.objs ==> o in s'.objs && s'.objs[o].kind == s.objs[o].kind
    ensures Stacks(s')
  {
    forall p | p in s'.frames ensures FrameShape(s', s'.frames[p]) {
      assert FrameShape(s, s.frames[p]);
    }
  }

  /** A client takes or drops a reference: only the count of one object changes. */
  lemma ClientKeepsInv(s: State, s': State, o: Oid)
    requires o in s.objs && o in s'.objs && s' == SetObj(s, o, s'.objs[o]) && RefsOk(s'.objs[o])
    requires Inv(s)
    requires s'.objs[o].(refs := s.objs[o].refs, holders := s.objs[o].holders, destroyed := s.objs[o].destroyed) == s.objs[o]
    requires forall r: Ref :: !r.Client? ==> (r in s'.objs[o].holders <==> r in s.objs[o].holders)
    ensures Inv(s')
  {
    hide Stacks, Owners, FlagPart, TaskPart, QueuePart, RefPart, CountOk, RefsOk;
    var p := NoPlace(s);
    NoFrameThere(s, 0);
    StacksOfSameFrames(s, s');
    CountsOf(s, o);
    CountKept(s.objs[o], s'.objs[o]);
    OwnersKept(s, s', p, o);
    FlagPartKept(s, s', p, o);
    TaskPartKept(s, s', p, o);
    QueuePartKept(s, s', p, o);
    HoldersKnown(s, o);
    RefPartMoves(s, s', p, o);
  }

  lemma CountsOf(s: State, o: Oid)
    requires Owners(s) && o in s.objs
    ensures CountOk(s.objs[o])
  {
    hide OwnLink, ParkLink, BusyLink, CountOk;
  }

  lemma AddClientKeepsInv(s: State, o: Oid, c: nat)
    requires Inv(s) && Enabled(s, AddClient(o, c))
    ensures Inv(Step(s, AddClient(o, c)))
  {
    hide Stacks, Owners, FlagPart, TaskPart, QueuePart, RefPart;
    HoldersKnown(s, o);
    ClientKeepsInv(s, Step(s, AddClient(o, c)), o);
  }

  lemma DropClientKeepsInv(s: State, o: Oid, c: nat)
    requires Inv(s) && Enabled(s, DropClient(o, c))
    ensures Inv(Step(s, DropClient(o, c)))
  {
    hide Stacks, Owners, FlagPart, TaskPart, QueuePart, RefPart;
    HoldersKnown(s, o);
    ClientKeepsInv(s, Step(s, DropClient(o, c)), o);
  }

  // ---- a task returns

  lemma FinishKeepsInv(s: State, t: Tid)
    requires Inv(s) && Enabled(s, Finish(t))
    ensures Inv(Step(s, Finish(t)))
  {
    hide Stacks, Owners, FlagPart, TaskPart, QueuePart, RefPart, CountOk;
    var p := Top(s, t);
    var f := s.frames[p];
    var s' := Step(s, Finish(t));
    FramesAreReady(s, p);
    ShapeOfTop(s, p, f);
    OwnershipOfTop(s, p, f);
    TaskOfTop(s, p, f);
    StacksKept(s, s', p, f.cur);
    OwnersKept(s, s', p, f.cur);
    FlagPartKept(s, s', p, f.cur);
    TaskPartKept(s, s', p, f.cur);
    QueuePartKept(s, s', p, f.cur);
    RefPartKept(s, s', p, f.cur);
  }

  lemma FramesAreReady(s: State, p: Place)
    requires Stacks(s) && p in s.frames
    ensures FrameReady(s, s.frames[p])
  {
  }

  // ---- DoAsync

  lemma DoAsyncKeepsStacks(s: State, t: Tid, o: Oid, n: nat)
    requires Stacks(s) && Enabled(s, DoAsync(t, o, n))
    ensures Stacks(Step(s, DoAsync(t, o, n)))
  {
    hide Stacks, FrameShape;
    NewFrameShape(s, t, o, n);
    NoFrameThere(s, t);
    NewFrameKeepsStacks(s, Step(s, DoAsync(t, o, n)), Place(t, Depth(s, t)), o, n);
  }

  lemma NewFrameKeepsStacks(s: State, s': State, p: Place, o: Oid, n: nat)
    requires Stacks(s) && p !in s.frames && p.i == Depth(s, p.t) && (p.i > 0 ==> HasTop(s, p.t) && s.frames[Top(s, p.t)].pc.Running?)
    requires p in s'.frames && s'.frames == s.frames[p := s'.frames[p]] && s'.depth == s.depth[p.t := p.i + 1]
    requires o in s.objs && o in s'.objs && s'.objs[o].kind == s.objs[o].kind && s'.objs == s.objs[o := s'.objs[o]]
    requires n !in s.tasks && n in s'.tasks && s'.tasks[n].parent == o && s'.tasks == s.tasks[n := s'.tasks[n]]
    requires FrameShape(s', s'.frames[p])
    ensures Stacks(s')
  {
    hide Stacks, FrameShape;
    DepthsGrow(s, s', p);
    forall p' | p' in s'.frames ensures FrameShape(s', s'.frames[p']) {
      if p' != p {
        ShapeWithMore(s, p', s');
      }
    }
    StacksFrom(s, s', p, o, n);
  }

  lemma NewFrameShape(s: State, t: Tid, o: Oid, n: nat)
    requires Enabled(s, DoAsync(t, o, n))
    ensures var s' := Step(s, DoAsync(t, o, n));
            Place(t, Depth(s, t)) in s'.frames && FrameShape(s', s'.frames[Place(t, Depth(s, t))])
  {
  }

  lemma DepthsGrow(s: State, s': State, p: Place)
    requires Stacks(s) && p.i == Depth(s, p.t) && (p.i > 0 ==> HasTop(s, p.t) && s.frames[Top(s, p.t)].pc.Running?)
    requires p in s'.frames && s'.frames == s.frames[p := s'.frames[p]] && s'.depth == s.depth[p.t := p.i + 1]
    ensures forall p' :: p' in s'.frames <==> p'.i < Depth(s', p'.t)
    ensures forall p' :: p' in s'.frames && p'.i + 1 < Depth(s', p'.t) ==> s'.frames[p'].pc.Running?
  {
    hide FrameShape;
  }

  lemma ShapeWithMore(s: State, p: Place, s': State)
    requires Stacks(s) && p in s.frames
    requires forall o :: o in s.objs ==> o in s'.objs && s'.objs[o].kind == s.objs[o].kind
    requires forall n :: n in s.tasks ==> n in s'.tasks && s'.tasks[n] == s.tasks[n]
    ensures FrameShape(s', s.frames[p])
  {
    assert FrameShape(s, s.frames[p]);
  }

  lemma StacksFrom(s: State, s': State, p: Place, o: Oid, n: nat)
    requires Stacks(s) && o in s.objs && o in s'.objs && n in s'.tasks && s'.tasks[n].parent == o
    requires s'.objs == s.objs[o := s'.objs[o]] && s'.tasks == s.tasks[n := s'.tasks[n]]
    requires forall p' :: p' in s'.frames <==> p'.i < Depth(s', p'.t)
    requires forall p' :: p' in s'.frames && p'.i + 1 < Depth(s', p'.t) ==> s'.frames[p'].pc.Running?
    requires forall p' :: p' in s'.frames ==> FrameShape(s', s'.frames[p'])
    ensures Stacks(s')
  {
    hide FrameShape;
  }

  lemma DoAsyncKeepsTasks(s: State, t: Tid, o: Oid, n: nat)
    requires TaskPart(s) && Enabled(s, DoAsync(t, o, n)) && Place(t, Depth(s, t)) !in s.frames
    requires forall p :: p in s.frames ==> s.frames[p].task in s.tasks
    ensures TaskPart(Step(s, DoAsync(t, o, n)))
  {
    hide TaskLink, StageLink, PushedLink, AllProgress;
    var s' := Step(s, DoAsync(t, o, n));
    var p := Place(t, Depth(s, t));
    NewTaskKeepsLinks(s, s', p, o, n);
    NewTaskKeepsStages(s, s', p, o, n);
  }

  lemma NewTaskKeepsLinks(s: State, s': State, p: Place, o: Oid, n: nat)
    requires TaskPart(s) && Moves(s, s', p, o) && n !in s.tasks && s'.tasks == s.tasks[n := TaskRec(o, Created(p))]
    requires p !in s.frames && InHand(s', p) == Some((n, TaskRec(o, Created(p)))) && s'.frames[p].pc.ResetTask? && !s'.frames[p].drained
    requires forall p' :: p' in s.frames ==> s.frames[p'].task in s.tasks
    ensures TaskLink(s') && AllProgress(s')
  {
    hide StageLink, PushedLink;
    assert forall p' :: p' != p ==> InHand(s', p') == InHand(s, p');
    forall p' | p' in s'.frames ensures TaskProgress(s', s'.frames[p']) {
      if p' != p {
        assert TaskProgress(s, s.frames[p']);
      }
    }
  }

  lemma NewTaskKeepsStages(s: State, s': State, p: Place, o: Oid, n: nat)
    requires TaskPart(s) && Moves(s, s', p, o) && n !in s.tasks && s'.tasks == s.tasks[n := TaskRec(o, Created(p))]
    requires s'.objs[o].q == s.objs[o].q && s'.objs[o].counted == s.objs[o].counted
    ensures StageLink(s') && PushedLink(s')
  {
    hide TaskLink, AllProgress;
    assert forall o', m :: IsCounted(s', o', m) <==> IsCounted(s, o', m);
    assert forall o', m :: IsLinking(s', o', m) <==> IsLinking(s, o', m);
    assert forall o', m :: IsQueued(s', o', m) <==> IsQueued(s, o', m);
    assert forall o', m :: WasPushed(s', o', m) <==> WasPushed(s, o', m);
  }

  lemma DoAsyncKeepsOwnersAndFlags(s: State, t: Tid, o: Oid, n: nat)
    requires Inv(s) && Enabled(s, DoAsync(t, o, n))
    ensures Owners(Step(s, DoAsync(t, o, n))) && FlagPart(Step(s, DoAsync(t, o, n)))
  {
    hide Stacks, Owners, FlagPart, TaskPart, QueuePart, RefPart, CountOk;
    var s' := Step(s, DoAsync(t, o, n));
    NoFrameThere(s, t);
    CountsOf(s, o);
    CountKept(s.objs[o], s'.objs[o]);
    OwnersKept(s, s', Place(t, Depth(s, t)), o);
    FlagPartKept(s, s', Place(t, Depth(s, t)), o);
  }

  lemma DoAsyncKeepsQueues(s: State, t: Tid, o: Oid, n: nat)
    requires Inv(s) && Enabled(s, DoAsync(t, o, n)) && Place(t, Depth(s, t)) !in s.frames
    ensures QueuePart(Step(s, DoAsync(t, o, n)))
  {
    hide Stacks, Owners, FlagPart, TaskPart, QueuePart, RefPart;
    QueuePartKept(s, Step(s, DoAsync(t, o, n)), Place(t, Depth(s, t)), o);
  }

  lemma DoAsyncKeepsRefs(s: State, t: Tid, o: Oid, n: nat)
    requires Inv(s) && Enabled(s, DoAsync(t, o, n)) && Place(t, Depth(s, t)) !in s.frames
    ensures RefPart(Step(s, DoAsync(t, o, n)))
  {
    hide Stacks, Owners, FlagPart, TaskPart, QueuePart, RefPart;
    HoldersKnown(s, o);
    RefPartMoves(s, Step(s, DoAsync(t, o, n)), Place(t, Depth(s, t)), o);
  }

  lemma DoAsyncKeepsInv(s: State, t: Tid, o: Oid, n: nat)
    requires Inv(s) && Enabled(s, DoAsync(t, o, n))
    ensures Inv(Step(s, DoAsync(t, o, n)))
  {
    hide Stacks, Owners, FlagPart, TaskPart, QueuePart, RefPart, Step;
    NoFrameThere(s, t);
    DoAsyncKeepsStacks(s, t, o, n);
    TasksOfFrames(s);
    DoAsyncKeepsTasks(s, t, o, n);
    DoAsyncKeepsOwnersAndFlags(s, t, o, n);
    DoAsyncKeepsQueues(s, t, o, n);
    DoAsyncKeepsRefs(s, t, o, n);
  }

  lemma TasksOfFrames(s: State)
    requires Stacks(s)
    ensures forall p :: p in s.frames ==> s.frames[p].task in s.tasks
  {
  }

  // ---- a new object

  ghost predicate NewObject(s: State, s': State, o: Oid, kind: Kind) {
    o !in s.objs && s' == SetObj(s, o, NewObj(kind))
  }

  /** No frame, task or pending queue speaks of an object that does not exist. */
  lemma NothingOfNew(s: State, s': State, o: Oid, kind: Kind)
    requires NewObject(s, s', o, kind)
    ensures forall p :: OwnedBy(s', p) == OwnedBy(s, p) && InHand(s', p) == InHand(s, p)
    ensures forall slot :: PendingOf(s', slot) == PendingOf(s, slot)
    ensures forall slot, o' :: IsParked(s', slot, o') <==> IsParked(s, slot, o')
  {
  }

  lemma CreateKeepsOwners(s: State, s': State, o: Oid, kind: Kind)
    requires Owners(s) && NewObject(s, s', o, kind)
    ensures Owners(s')
  {
    NothingOfNew(s, s', o, kind);
    hide OwnedBy, PendingOf, IsParked, InHand;
    assert CountOk(NewObj(kind));
    hide CountOk;
    CreateKeepsOwnLink(s, s', o, kind);
  }

  lemma CreateKeepsOwnLink(s: State, s': State, o: Oid, kind: Kind)
    requires OwnLink(s) && BusyLink(s) && NewObject(s, s', o, kind) && forall p :: OwnedBy(s', p) == OwnedBy(s, p)
    ensures OwnLink(s') && BusyLink(s')
  {
    hide OwnedBy;
  }

  lemma CreateKeepsFlags(s: State, s': State, o: Oid, kind: Kind)
    requires FlagPart(s) && Stacks(s) && NewObject(s, s', o, kind)
    ensures FlagPart(s')
  {
    ReadyFrames(s);
    hide Stacks, FlagPart;
    CreateKeepsSlots(s, s', o, kind);
    CreateLeavesClean(s, s', o, kind);
  }

  lemma CreateKeepsSlots(s: State, s': State, o: Oid, kind: Kind)
    requires FlagPart(s) && NewObject(s, s', o, kind) && forall p :: p in s.frames ==> FrameReady(s, s.frames[p])
    ensures FlagLink(s') && PendingIsFlagged(s')
  {
    hide ClearIsEmpty;
    assert forall p :: FlaggedBy(s', p) == FlaggedBy(s, p);
    assert forall slot :: PendingOf(s', slot) == PendingOf(s, slot);
  }

  lemma CreateLeavesClean(s: State, s': State, o: Oid, kind: Kind)
    requires FlagPart(s) && NewObject(s, s', o, kind) && forall p :: p in s.frames ==> FrameReady(s, s.frames[p])
    ensures ClearIsEmpty(s')
  {
    hide FlagLink, PendingIsFlagged;
    forall p | p in s'.frames ensures LeavesClean(s', p, s'.frames[p]) {
      assert LeavesClean(s, p, s.frames[p]) && FrameReady(s, s.frames[p]);
    }
  }

  lemma CreateKeepsTasks(s: State, s': State, o: Oid, kind: Kind)
    requires TaskPart(s) && NewObject(s, s', o, kind)
    requires forall n :: n in s.tasks ==> s.tasks[n].parent in s.objs
    ensures TaskPart(s')
  {
    hide TaskLink, StageLink, PushedLink, AllProgress;
    CreateKeepsStages(s, s', o, kind);
    CreateKeepsPushed(s, s', o, kind);
    CreateKeepsHands(s, s', o, kind);
  }

  lemma CreateKeepsStages(s: State, s': State, o: Oid, kind: Kind)
    requires StageLink(s) && NewObject(s, s', o, kind)
    requires forall n :: n in s.tasks ==> s.tasks[n].parent in s.objs
    ensures StageLink(s')
  {
    assert forall o', m :: IsCounted(s', o', m) <==> IsCounted(s, o', m);
    assert forall o', m :: IsLinking(s', o', m) <==> IsLinking(s, o', m);
    assert forall o', m :: IsQueued(s', o', m) <==> IsQueued(s, o', m);
  }

  lemma CreateKeepsPushed(s: State, s': State, o: Oid, kind: Kind)
    requires PushedLink(s) && NewObject(s, s', o, kind)
    requires forall n :: n in s.tasks ==> s.tasks[n].parent in s.objs
    ensures PushedLink(s')
  {
    assert forall o', m :: WasPushed(s', o', m) <==> WasPushed(s, o', m);
  }

  lemma CreateKeepsHands(s: State, s': State, o: Oid, kind: Kind)
    requires TaskPart(s) && NewObject(s, s', o, kind)
    ensures TaskLink(s') && AllProgress(s')
  {
    hide StageLink, PushedLink;
    assert forall p :: InHand(s', p) == InHand(s, p);
    forall p | p in s'.frames ensures TaskProgress(s', s'.frames[p]) {
      assert TaskProgress(s, s.frames[p]);
    }
  }

  lemma CreateKeepsConsumers(s: State, s': State, o: Oid, kind: Kind)
    requires Queues(s) && NewObject(s, s', o, kind)
    ensures Queues(s')
  {
    hide QueueOk;
    EmptyIsOk();
    forall o' | o' in s'.objs ensures QueueOk(s'.objs[o'].q, ConsumerOf(s', o')) {
      if o' != o {
        assert ConsumerOf(s', o') == ConsumerOf(s, o');
      }
    }
  }

  lemma EmptyIsOk()
    ensures QueueOk(Empty, Start)
  {
  }

  lemma CreateKeepsQueues(s: State, s': State, o: Oid, kind: Kind)
    requires QueuePart(s) && NewObject(s, s', o, kind)
    requires forall p :: p in s.frames ==> s.frames[p].obj in s.objs
    ensures QueuePart(s')
  {
    hide Queues;
    CreateKeepsConsumers(s, s', o, kind);
    forall p | p in s'.frames ensures PushLocals(s', s'.frames[p]) {
      assert PushLocals(s, s.frames[p]);
    }
  }

  lemma CreateKeepsRefs(s: State, s': State, o: Oid, kind: Kind)
    requires RefPart(s) && Stacks(s) && NewObject(s, s', o, kind)
    ensures RefPart(s')
  {
    assert forall p, o' :: SelfHolds(s', p, o') <==> SelfHolds(s, p, o');
    assert forall p, o' :: DrainedHolds(s', p, o') <==> DrainedHolds(s, p, o');
    assert forall n, o' :: TaskHolds(s', n, o') <==> TaskHolds(s, n, o');
    assert forall o' :: o' != o ==> (Managed(s', o') <==> Managed(s, o'));
  }

  lemma CreateKeepsInv(s: State, o: Oid, kind: Kind)
    requires Inv(s) && Enabled(s, Create(o, kind))
    ensures Inv(Step(s, Create(o, kind)))
  {
    hide Stacks, Owners, FlagPart, TaskPart, QueuePart, RefPart;
    var s' := Step(s, Create(o, kind));
    ReadyFrames(s);
    StacksOfSameFrames(s, s');
    CreateKeepsOwners(s, s', o, kind);
    CreateKeepsFlags(s, s', o, kind);
    CreateKeepsTasks(s, s', o, kind);
    CreateKeepsQueues(s, s', o, kind);
    CreateKeepsRefs(s, s', o, kind);
  }

  lemma ReadyFrames(s: State)
    requires Stacks(s)
    ensures forall p :: p in s.frames ==> FrameReady(s, s.frames[p])
    ensures forall n :: n in s.tasks ==> s.tasks[n].parent in s.objs
  {
  }

  // ---- any step

  lemma AdvanceKeepsInv(s: State, p: Place, f: Frame)
    requires Inv(s) && TopFrame(s, p, f) && !f.pc.Running?
    ensures Inv(AdvanceFrame(s, p, f))
  {
    hide Inv, DoReset, DoIncrement, DoExchange, DoLink, DoAcquire, DoCheck, DoPop, DoFree, DoDecrement,
         DoReleaseDrained, DoDrain, DoClear, DoReleaseSelf;
    match f.pc
    case ResetTask => ResetKeepsInv(s, p, f);
    case Increment => IncrementKeepsInv(s, p, f);
    case ExchangeHead(_) => AodSteps.ExchangeKeepsInv(s, p, f);
    case LinkPrev(_, _) => AodSteps.LinkKeepsInv(s, p, f);
    case AcquireSelf => AcquireKeepsInv(s, p, f);
    case CheckFlag => CheckKeepsInv(s, p, f);
    case Popping(_) => PopKeepsInv(s, p, f);
    case FreeTask(_) => FreeKeepsInv(s, p, f);
    case Decrement => DecrementKeepsInv(s, p, f);
    case ReleaseDrained => ReleaseDrainedKeepsInv(s, p, f);
    case DrainTest => DrainKeepsInv(s, p, f);
    case ClearFlag => ClearKeepsInv(s, p, f);
    case ReleaseSelf => ReleaseSelfKeepsInv(s, p, f);
  }

  /** Whatever any thread or client does next, the invariant stays. */
  lemma StepKeepsInv(s: State, a: Action)
    requires Inv(s) && Enabled(s, a)
    ensures Inv(Step(s, a))
  {
    hide Inv, AdvanceFrame;
    match a
    case Create(o, kind) => CreateKeepsInv(s, o, kind);
    case AddClient(o, c) => AddClientKeepsInv(s, o, c);
    case DropClient(o, c) => DropClientKeepsInv(s, o, c);
    case DoAsync(t, o, n) => DoAsyncKeepsInv(s, t, o, n);
    case Finish(t) => FinishKeepsInv(s, t);
    case Advance(t) => AdvanceKeepsInv(s, Top(s, t), s.frames[Top(s, t)]);
  }
}
