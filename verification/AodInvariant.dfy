/** The invariant of the dispatcher machine, as twenty small statements, most of which say that a
    piece of history and the position of a frame determine each other. */
module AodInvariant {
  import opened MpscQueue
  import opened AodMachine
  import opened Wrappers

  // ---- what the position of a frame means

  /** Between the 0-returning increment and the 1-returning decrement of `cur`. */
  predicate Owning(pc: Pc) {
    match pc
    case ExchangeHead(owns) => owns
    case LinkPrev(owns, _) => owns
    case AcquireSelf => true
    case CheckFlag => true
    case Popping(_) => true
    case Running(_) => true
    case FreeTask(_) => true
    case Decrement => true
    case _ => false
  }

  /** Between a successful `Pop` and its decrement. */
  predicate Taking(pc: Pc) {
    pc.Running? || pc.FreeTask? || pc.Decrement?
  }

  /** Between setting and clearing the in-progress flag. */
  predicate Flagged(pc: Pc) {
    pc.Popping? || Taking(pc) || pc.ReleaseDrained? || pc.DrainTest? || pc.ClearFlag?
  }

  predicate HoldsSelf(pc: Pc) {
    pc.CheckFlag? || Flagged(pc) || pc.ReleaseSelf?
  }

  predicate HoldsDrained(f: Frame) {
    f.drained && (f.pc.Popping? || Taking(f.pc) || f.pc.ReleaseDrained?)
  }

  /** Elected, with the task in the queue, and not yet flushing. */
  predicate Waiting(pc: Pc) {
    pc.AcquireSelf? || pc.CheckFlag?
  }

  /** The frame has finished the flush of its own object. */
  predicate OwnFlushDone(f: Frame) {
    f.drained || f.pc.DrainTest? || f.pc.ClearFlag? || f.pc.ReleaseSelf?
  }

  // ---- stacks

  ghost predicate FrameShape(s: State, f: Frame) {
    && FrameReady(s, f)
    && s.objs[f.cur].kind == s.objs[f.obj].kind && s.tasks[f.task].parent == f.obj
    && (!f.drained ==> f.cur == f.obj)
    && (f.drained ==> Flagged(f.pc) || f.pc.ReleaseSelf?)
    && (f.pc.ReleaseDrained? ==> f.drained)
    && (f.pc.Popping? ==> !f.pc.pop.Returned?)
  }

  ghost predicate Stacks(s: State) {
    && (forall p :: p in s.frames <==> p.i < Depth(s, p.t))
    && (forall p :: p in s.frames && p.i + 1 < Depth(s, p.t) ==> s.frames[p].pc.Running?)
    && (forall p :: p in s.frames ==> FrameShape(s, s.frames[p]))
    && (forall n :: n in s.tasks ==> s.tasks[n].parent in s.objs)
  }

  // ---- ownership and counts

  function OwnedBy(s: State, p: Place): Option<Oid> {
    if p in s.frames && Owning(s.frames[p].pc) then Some(s.frames[p].cur) else None
  }

  ghost predicate OwnLink(s: State) {
    && (forall p :: OwnedBy(s, p).Some? ==> OwnedBy(s, p).value in s.objs && s.objs[OwnedBy(s, p).value].owner == AtFrame(p))
    && (forall o :: o in s.objs && s.objs[o].owner.AtFrame? ==> OwnedBy(s, s.objs[o].owner.p) == Some(o))
  }

  ghost predicate IsParked(s: State, slot: Slot, o: Oid) {
    o in s.objs && s.objs[o].kind == slot.k && s.objs[o].owner == Parked(slot.t)
  }

  ghost predicate ParkLink(s: State) {
    && (forall slot, o :: o in PendingOf(s, slot) <==> IsParked(s, slot, o))
    && (forall slot :: NoDup(PendingOf(s, slot)))
  }

  /** `RemainingTasksCount` is the number of tasks that are counted and not yet exchanged, plus those
      in the queue, plus one while the owner has popped and not yet decremented. */
  ghost predicate CountOk(ob: Obj) {
    && ob.count == |ob.counted| + |Tasks(ob.q.chain)| + (if ob.busy then 1 else 0)
    && (ob.owner == NoOwner <==> ob.count == 0)
  }

  ghost predicate BusyLink(s: State) {
    forall o :: o in s.objs ==>
      (s.objs[o].busy <==> s.objs[o].owner.AtFrame? && TakingAt(s, s.objs[o].owner.p))
  }

  // ---- flags

  function FlaggedBy(s: State, p: Place): Option<Kind> {
    if p in s.frames && Flagged(s.frames[p].pc) && s.frames[p].obj in s.objs then Some(s.objs[s.frames[p].obj].kind) else None
  }

  ghost predicate FlagLink(s: State) {
    && (forall p :: FlaggedBy(s, p).Some? ==>
          Slot(p.t, FlaggedBy(s, p).value) in s.inProgress && s.inProgress[Slot(p.t, FlaggedBy(s, p).value)] == p.i)
    && (forall slot :: slot in s.inProgress ==> FlaggedBy(s, Place(slot.t, s.inProgress[slot])) == Some(slot.k))
  }

  ghost predicate PendingIsFlagged(s: State) {
    forall slot :: PendingOf(s, slot) != [] ==> slot in s.inProgress
  }

  /** The pending queue is empty when the flag is cleared, and the flag is clear when `Dispatch`
      returns. */
  ghost predicate LeavesClean(s: State, p: Place, f: Frame) {
    f.obj in s.objs ==>
      && (f.pc.ClearFlag? ==> PendingOf(s, Slot(p.t, s.objs[f.obj].kind)) == [])
      && (f.pc.ReleaseSelf? ==> Slot(p.t, s.objs[f.obj].kind) !in s.inProgress)
  }

  ghost predicate ClearIsEmpty(s: State) {
    forall p :: p in s.frames ==> LeavesClean(s, p, s.frames[p])
  }

  // ---- tasks and queues

  /** The task that a frame has in hand, and what the task's record must be. */
  function InHand(s: State, p: Place): Option<(nat, TaskRec)> {
    if p !in s.frames then None
    else
      var f := s.frames[p];
      match f.pc
      case ResetTask => Some((f.task, TaskRec(f.obj, Created(p))))
      case Increment => Some((f.task, TaskRec(f.obj, Created(p))))
      case ExchangeHead(_) => Some((f.task, TaskRec(f.obj, Counted(p))))
      case LinkPrev(_, _) => Some((f.task, TaskRec(f.obj, Linking(p))))
      case Running(n) => Some((n, TaskRec(f.cur, Popped(p))))
      case FreeTask(n) => Some((n, TaskRec(f.cur, Popped(p))))
      case _ => None
  }

  predicate HasPlace(at: Stage) {
    !at.Queued? && !at.Freed?
  }

  ghost predicate TaskLink(s: State) {
    && (forall p :: InHand(s, p).Some? ==> InHand(s, p).value.0 in s.tasks && s.tasks[InHand(s, p).value.0] == InHand(s, p).value.1)
    && (forall n :: n in s.tasks && HasPlace(s.tasks[n].at) ==> InHand(s, s.tasks[n].at.p) == Some((n, s.tasks[n])))
  }

  /** The tasks of object `o` at the stages of its queue. */
  ghost predicate IsCounted(s: State, o: Oid, n: nat) {
    n in s.tasks && s.tasks[n].parent == o && s.tasks[n].at.Counted?
  }

  ghost predicate IsLinking(s: State, o: Oid, n: nat) {
    n in s.tasks && s.tasks[n].parent == o && s.tasks[n].at.Linking?
  }

  ghost predicate IsQueued(s: State, o: Oid, n: nat) {
    n in s.tasks && s.tasks[n].parent == o && (s.tasks[n].at.Linking? || s.tasks[n].at.Queued?)
  }

  ghost predicate WasPushed(s: State, o: Oid, n: nat) {
    n in s.tasks && s.tasks[n].parent == o && !s.tasks[n].at.Created? && !s.tasks[n].at.Counted?
  }

  ghost predicate StageLink(s: State) {
    && (forall o, n :: o in s.objs ==> (n in s.objs[o].counted <==> IsCounted(s, o, n)))
    && (forall o, n :: o in s.objs ==> (Task(n) in s.objs[o].q.links <==> IsLinking(s, o, n)))
    && (forall o, n :: o in s.objs ==> (Task(n) in s.objs[o].q.chain <==> IsQueued(s, o, n)))
  }

  ghost predicate PushedLink(s: State) {
    && (forall o, n :: o in s.objs ==> (n in s.objs[o].q.pushed <==> WasPushed(s, o, n)))
    && (forall o :: o in s.objs ==> NoDup(s.objs[o].q.pushed))
  }

  /** Where the consumer of object `o` stands in `Pop`. */
  function ConsumerOf(s: State, o: Oid): PopPc
    requires o in s.objs
  {
    if s.objs[o].owner.AtFrame? then PopAt(s, s.objs[o].owner.p) else Start
  }

  ghost predicate QueueOk(q: Queue, pop: PopPc) {
    QInv(q) && PcInv(q, pop)
  }

  ghost predicate Queues(s: State) {
    forall o :: o in s.objs ==> QueueOk(s.objs[o].q, ConsumerOf(s, o))
  }

  /** What a frame's locals know about the task it pushes. */
  ghost predicate PushLocals(s: State, f: Frame) {
    f.obj in s.objs ==>
      && (f.pc.Increment? || f.pc.ExchangeHead? ==> Next(s.objs[f.obj].q, Task(f.task)) == Null)
      && (f.pc.LinkPrev? ==> Task(f.task) in s.objs[f.obj].q.links && s.objs[f.obj].q.links[Task(f.task)] == f.pc.prev)
  }

  ghost predicate AllPushLocals(s: State) {
    forall p :: p in s.frames ==> PushLocals(s, s.frames[p])
  }

  /** What a frame's position says about the task it was called with. */
  ghost predicate TaskProgress(s: State, f: Frame) {
    f.task in s.tasks ==>
      && (!f.pc.ResetTask? && !f.pc.Increment? ==> !s.tasks[f.task].at.Created?)
      && (Waiting(f.pc) ==> s.tasks[f.task].at == Queued)
      && (OwnFlushDone(f) ==> s.tasks[f.task].at == Freed)
  }

  ghost predicate AllProgress(s: State) {
    forall p :: p in s.frames ==> TaskProgress(s, s.frames[p])
  }

  // ---- references

  ghost predicate RefsOk(ob: Obj) {
    && ob.refs == |ob.holders|
    && (ob.kind == Static ==> ob.holders == {} && !ob.destroyed)
    && (ob.kind != Static ==> (ob.destroyed <==> ob.holders == {}))
  }

  ghost predicate Managed(s: State, o: Oid) {
    o in s.objs && s.objs[o].kind != Static
  }

  predicate TaskHolds(s: State, n: nat, o: Oid) {
    n in s.tasks && s.tasks[n].parent == o && s.tasks[n].at != Freed
  }

  predicate SelfHolds(s: State, p: Place, o: Oid) {
    p in s.frames && s.frames[p].obj == o && HoldsSelf(s.frames[p].pc)
  }

  predicate DrainedHolds(s: State, p: Place, o: Oid) {
    p in s.frames && s.frames[p].cur == o && HoldsDrained(s.frames[p])
  }

  ghost predicate TaskRefs(s: State) {
    forall o, n :: Managed(s, o) ==> (OfTask(n) in s.objs[o].holders <==> TaskHolds(s, n, o))
  }

  ghost predicate SelfRefs(s: State) {
    forall o, p :: Managed(s, o) ==> (Self(p) in s.objs[o].holders <==> SelfHolds(s, p, o))
  }

  ghost predicate DrainedRefs(s: State) {
    forall o, p :: Managed(s, o) ==> (Drained(p) in s.objs[o].holders <==> DrainedHolds(s, p, o))
  }

  ghost predicate ParkedRefs(s: State) {
    forall o, t :: Managed(s, o) ==> (OfParked(t) in s.objs[o].holders <==> s.objs[o].owner == Parked(t))
  }

  ghost predicate Owners(s: State) {
    OwnLink(s) && ParkLink(s) && BusyLink(s) && forall o :: o in s.objs ==> CountOk(s.objs[o])
  }

  ghost predicate FlagPart(s: State) {
    FlagLink(s) && PendingIsFlagged(s) && ClearIsEmpty(s)
  }

  ghost predicate TaskPart(s: State) {
    TaskLink(s) && StageLink(s) && PushedLink(s) && AllProgress(s)
  }

  ghost predicate QueuePart(s: State) {
    Queues(s) && AllPushLocals(s)
  }

  ghost predicate RefPart(s: State) {
    && TaskRefs(s) && SelfRefs(s) && DrainedRefs(s) && ParkedRefs(s)
    && forall o :: o in s.objs ==> RefsOk(s.objs[o])
  }

  ghost predicate Inv(s: State) {
    Stacks(s) && Owners(s) && FlagPart(s) && TaskPart(s) && QueuePart(s) && RefPart(s)
  }

  // ---- shapes of steps

  ghost predicate TopFrame(s: State, p: Place, f: Frame) {
    p in s.frames && s.frames[p] == f && p.i + 1 == Depth(s, p.t) && FrameReady(s, f)
  }

  /** From `s` to `s'` at most the object `o` and the frame at `p` change; the frame may come or go. */
  ghost predicate Moves(s: State, s': State, p: Place, o: Oid) {
    && o in s.objs && o in s'.objs && s'.objs == s.objs[o := s'.objs[o]]
    && s'.objs[o].kind == s.objs[o].kind
    && if p in s'.frames then s'.frames == s.frames[p := s'.frames[p]] else s'.frames == s.frames - {p}
  }

  /** ... and frame `p` is the top of its stack, and stays or returns. */
  ghost predicate TopMoves(s: State, s': State, p: Place) {
    && p in s.frames && p.i + 1 == Depth(s, p.t)
    && (forall n :: n in s'.tasks <==> n in s.tasks)
    && (forall n :: n in s.tasks ==> s'.tasks[n].parent == s.tasks[n].parent)
    && if p in s'.frames then s'.depth == s.depth && FrameShape(s', s'.frames[p]) else s'.depth == s.depth[p.t := p.i]
  }

  predicate TakingAt(s: State, p: Place) {
    p in s.frames && Taking(s.frames[p].pc)
  }

  function PopAt(s: State, p: Place): PopPc {
    if p in s.frames && s.frames[p].pc.Popping? then s.frames[p].pc.pop else Start
  }
}
