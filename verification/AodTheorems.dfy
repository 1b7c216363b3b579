/** What the dispatcher promises, over every run of any number of threads, objects and tasks. */
module AodTheorems {
  import opened Wrappers
  import opened MpscQueue
  import opened AodMachine
  import opened AodInvariant
  import opened AodFrame
  import opened AodFlags
  import opened AodTasks
  import opened AodQueues
  import opened AodSteps
  import opened AodClients

  ghost predicate IsRun(run: seq<State>, acts: seq<Action>) {
    && |run| == |acts| + 1 && run[0] == Init
    && forall i :: 0 <= i < |acts| ==> Enabled(run[i], acts[i]) && run[i + 1] == Step(run[i], acts[i])
  }

  lemma InitHolds()
    ensures Inv(Init)
  {
  }

  lemma {:induction false} RunKeepsInv(run: seq<State>, acts: seq<Action>, k: nat)
    requires IsRun(run, acts) && k < |run|
    ensures Inv(run[k])
  {
    hide Inv, Step;
    if k == 0 {
      InitHolds();
    } else {
      RunKeepsInv(run, acts, k - 1);
      AodClients.StepKeepsInv(run[k - 1], acts[k - 1]);
    }
  }

  // ---- single ownership

  /** Frame `p` is inside `Pop` or holds a popped task of object `o`. */
  ghost predicate Consumes(s: State, p: Place, o: Oid) {
    p in s.frames && s.frames[p].cur == o && (s.frames[p].pc.Popping? || Taking(s.frames[p].pc))
  }

  /** `o` is parked in the pending queue of thread `t`. */
  ghost predicate ParkedAt(s: State, t: Tid, o: Oid) {
    o in s.objs && o in PendingOf(s, Slot(t, s.objs[o].kind))
  }

  /** The count of an object is positive exactly when somebody owns it, and then there is exactly
      one owner: one frame past its 0-returning increment, or one place in one pending queue. */
  lemma SingleOwnership(run: seq<State>, acts: seq<Action>, k: nat, o: Oid)
    requires IsRun(run, acts) && k < |run| && o in run[k].objs
    ensures run[k].objs[o].count > 0 <==> (exists p :: OwnedBy(run[k], p) == Some(o)) || (exists t :: ParkedAt(run[k], t, o))
    ensures forall p, p' :: OwnedBy(run[k], p) == Some(o) && OwnedBy(run[k], p') == Some(o) ==> p == p'
    ensures forall t, t' :: ParkedAt(run[k], t, o) && ParkedAt(run[k], t', o) ==> t == t'
    ensures forall p, t :: !(OwnedBy(run[k], p) == Some(o) && ParkedAt(run[k], t, o))
    ensures forall t :: NoDup(PendingOf(run[k], Slot(t, run[k].objs[o].kind)))
  {
    hide Inv, Step;
    RunKeepsInv(run, acts, k);
    OwnersOf(run[k], o);
  }

  lemma OwnersOf(s: State, o: Oid)
    requires Inv(s) && o in s.objs
    ensures s.objs[o].count > 0 <==> (exists p :: OwnedBy(s, p) == Some(o)) || (exists t :: ParkedAt(s, t, o))
    ensures forall p :: OwnedBy(s, p) == Some(o) ==> s.objs[o].owner == AtFrame(p)
    ensures forall t :: ParkedAt(s, t, o) ==> s.objs[o].owner == Parked(t)
    ensures forall t :: NoDup(PendingOf(s, Slot(t, s.objs[o].kind)))
  {
    hide Stacks, FlagPart, TaskPart, QueuePart, RefPart, BusyLink, Tasks;
    assert CountOk(s.objs[o]);
    forall t ensures ParkedAt(s, t, o) <==> s.objs[o].owner == Parked(t) {
      assert o in PendingOf(s, Slot(t, s.objs[o].kind)) <==> IsParked(s, Slot(t, s.objs[o].kind), o);
    }
    match s.objs[o].owner
    case NoOwner =>
    case AtFrame(p) => assert OwnedBy(s, p) == Some(o);
    case Parked(t) => assert ParkedAt(s, t, o);
  }

  /** So no two frames, of the same or of different threads, ever pop or run tasks of one object at
      the same time: the counter alone gives `Pop` its single consumer. */
  lemma SingleConsumer(run: seq<State>, acts: seq<Action>, k: nat, p: Place, p': Place, o: Oid)
    requires IsRun(run, acts) && k < |run| && Consumes(run[k], p, o) && Consumes(run[k], p', o)
    ensures p == p'
  {
    hide Inv, Step;
    RunKeepsInv(run, acts, k);
    assert OwnedBy(run[k], p) == Some(o) && OwnedBy(run[k], p') == Some(o);
    ConsumedExists(run[k], p, o);
    OwnersOf(run[k], o);
  }

  lemma ConsumedExists(s: State, p: Place, o: Oid)
    requires Inv(s) && Consumes(s, p, o)
    ensures o in s.objs
  {
    hide Owners, FlagPart, TaskPart, QueuePart, RefPart;
    ReadyFrames(s);
  }

  /** `RemainingTasksCount` counts the tasks between increment and exchange, the tasks in the
      queue, and the one that is popped but not yet decremented. */
  lemma CountEquation(run: seq<State>, acts: seq<Action>, k: nat, o: Oid)
    requires IsRun(run, acts) && k < |run| && o in run[k].objs
    ensures var s := run[k];
            && s.objs[o].count == |s.objs[o].counted| + |Tasks(s.objs[o].q.chain)|
               + (if exists p :: p in s.frames && s.frames[p].cur == o && Taking(s.frames[p].pc) then 1 else 0)
            && (forall n :: n in s.objs[o].counted <==> IsCounted(s, o, n))
            && (forall n :: n in Tasks(s.objs[o].q.chain) <==> IsQueued(s, o, n))
  {
    hide Inv, Step;
    var s := run[k];
    RunKeepsInv(run, acts, k);
    CountOf(s, o);
    StagesOf(s, o);
    forall n ensures n in Tasks(s.objs[o].q.chain) <==> IsQueued(s, o, n) {
      TasksContains(s.objs[o].q.chain, n);
    }
  }

  lemma CountOf(s: State, o: Oid)
    requires Inv(s) && o in s.objs
    ensures CountOk(s.objs[o])
    ensures s.objs[o].busy <==> exists p :: p in s.frames && s.frames[p].cur == o && Taking(s.frames[p].pc)
  {
    hide Stacks, FlagPart, TaskPart, QueuePart, RefPart, ParkLink, Tasks;
    if s.objs[o].busy {
      var p := s.objs[o].owner.p;
      assert OwnedBy(s, p) == Some(o);
      assert p in s.frames && s.frames[p].cur == o && Taking(s.frames[p].pc);
    }
    forall p | p in s.frames && s.frames[p].cur == o && Taking(s.frames[p].pc) ensures s.objs[o].busy {
      assert OwnedBy(s, p) == Some(o);
    }
  }

  lemma StagesOf(s: State, o: Oid)
    requires Inv(s) && o in s.objs
    ensures forall n :: n in s.objs[o].counted <==> IsCounted(s, o, n)
    ensures forall n :: Task(n) in s.objs[o].q.chain <==> IsQueued(s, o, n)
    ensures forall n :: Task(n) in s.objs[o].q.links <==> IsLinking(s, o, n)
  {
    hide Stacks, Owners, FlagPart, QueuePart, RefPart, TaskLink, PushedLink, AllProgress;
  }

  // ---- exactly once, serially, in the order of the exchanges

  /** The task of object `o` that thread `t` exchanges into the queue by its next statement. */
  function Exchanges(s: State, a: Action, o: Oid): seq<nat> {
    if a.Advance? && Depth(s, a.t) > 0 && Top(s, a.t) in s.frames && s.frames[Top(s, a.t)].obj == o && s.frames[Top(s, a.t)].pc.ExchangeHead?
    then [s.frames[Top(s, a.t)].task] else []
  }

  /** The task of object `o` that thread `t` begins to run by its next statement. */
  function Starts(s: State, a: Action, s': State, o: Oid): seq<nat> {
    if a.Advance? && Depth(s, a.t) > 0 && Top(s, a.t) in s.frames && Top(s, a.t) in s'.frames && s.frames[Top(s, a.t)].cur == o
       && s.frames[Top(s, a.t)].pc.Popping? && s'.frames[Top(s, a.t)].pc.Running?
    then [s'.frames[Top(s, a.t)].pc.n] else []
  }

  function AllExchanges(run: seq<State>, acts: seq<Action>, o: Oid): seq<nat>
    requires |run| == |acts| + 1
  {
    var n := |acts| - 1;
    if acts == [] then [] else AllExchanges(run[..n + 1], acts[..n], o) + Exchanges(run[n], acts[n], o)
  }

  function AllStarts(run: seq<State>, acts: seq<Action>, o: Oid): seq<nat>
    requires |run| == |acts| + 1
  {
    var n := |acts| - 1;
    if acts == [] then [] else AllStarts(run[..n + 1], acts[..n], o) + Starts(run[n], acts[n], run[n + 1], o)
  }

  function PushedOf(s: State, o: Oid): seq<nat> {
    if o in s.objs then s.objs[o].q.pushed else []
  }

  function PoppedOf(s: State, o: Oid): seq<nat> {
    if o in s.objs then s.objs[o].q.popped else []
  }

  /** A task was exchanged but not linked at some moment since the current `Pop` on `o` began. */
  predicate GapOf(s: State, o: Oid) {
    o in s.objs && s.objs[o].q.gap
  }

  lemma PopStepLogs(q: Queue, pop: PopPc)
    requires !pop.Returned?
    ensures var (q', pop') := PopStep(q, pop);
            && q'.pushed == q.pushed && q'.gap == (if pop.Start? then q.links != map[] else q.gap)
            && q'.popped == q.popped + (if pop'.Returned? && pop'.r.Task? then [pop'.r.id] else [])
  {
  }

  lemma PopLogs(s: State, p: Place, f: Frame, o: Oid)
    requires TopFrame(s, p, f) && f.pc.Popping? && !f.pc.pop.Returned?
    ensures var s' := DoPop(s, p, f);
            && PushedOf(s', o) == PushedOf(s, o)
            && GapOf(s', o) == (if f.cur == o && f.pc.pop.Start? then s.objs[o].q.links != map[] else GapOf(s, o))
            && PoppedOf(s', o) == PoppedOf(s, o) + (if f.cur == o && p in s'.frames && s'.frames[p].pc.Running? then [s'.frames[p].pc.n] else [])
  {
    hide PopStep;
    PopStepLogs(s.objs[f.cur].q, f.pc.pop);
  }

  /** A statement that leaves the logs of every queue alone. */
  ghost predicate SameLogs(s: State, s': State, o: Oid) {
    PushedOf(s', o) == PushedOf(s, o) && PoppedOf(s', o) == PoppedOf(s, o) && GapOf(s', o) == GapOf(s, o)
  }

  lemma ExchangeLogs(s: State, p: Place, f: Frame, o: Oid)
    requires TopFrame(s, p, f) && f.pc.ExchangeHead?
    ensures var s' := DoExchange(s, p, f);
            && PushedOf(s', o) == PushedOf(s, o) + (if f.obj == o then [f.task] else [])
            && PoppedOf(s', o) == PoppedOf(s, o) && GapOf(s', o) == (GapOf(s, o) || f.obj == o)
  {
  }

  lemma OtherPushLogs(s: State, p: Place, f: Frame, o: Oid)
    requires TopFrame(s, p, f)
    ensures f.pc.ResetTask? ==> SameLogs(s, DoReset(s, p, f), o)
    ensures f.pc.Increment? ==> SameLogs(s, DoIncrement(s, p, f), o)
    ensures f.pc.LinkPrev? ==> SameLogs(s, DoLink(s, p, f), o)
  {
  }

  lemma PushLogs(s: State, p: Place, f: Frame, o: Oid)
    requires TopFrame(s, p, f) && IsPush(f.pc)
    ensures PushedOf(AdvanceFrame(s, p, f), o) == PushedOf(s, o) + (if f.pc.ExchangeHead? && f.obj == o then [f.task] else [])
    ensures PoppedOf(AdvanceFrame(s, p, f), o) == PoppedOf(s, o)
    ensures GapOf(AdvanceFrame(s, p, f), o) == (GapOf(s, o) || (f.pc.ExchangeHead? && f.obj == o))
  {
    hide PushedOf, PoppedOf, GapOf, DoReset, DoIncrement, DoExchange, DoLink, DoAcquire, DoCheck, DoPop, DoFree, DoDecrement, DoReleaseDrained,
         DoDrain, DoClear, DoReleaseSelf;
    if f.pc.ExchangeHead? {
      ExchangeLogs(s, p, f, o);
    } else {
      OtherPushLogs(s, p, f, o);
    }
  }

  predicate IsDrain(pc: Pc) {
    pc.ReleaseDrained? || pc.DrainTest? || pc.ClearFlag? || pc.ReleaseSelf?
  }

  lemma OwnerLogs(s: State, p: Place, f: Frame, o: Oid)
    requires TopFrame(s, p, f)
    ensures f.pc.AcquireSelf? ==> SameLogs(s, DoAcquire(s, p, f), o)
    ensures f.pc.CheckFlag? ==> SameLogs(s, DoCheck(s, p, f), o)
  {
  }

  lemma TaskLogs(s: State, p: Place, f: Frame, o: Oid)
    requires TopFrame(s, p, f)
    ensures f.pc.FreeTask? ==> SameLogs(s, DoFree(s, p, f), o)
    ensures f.pc.Decrement? ==> SameLogs(s, DoDecrement(s, p, f), o)
  {
  }

  lemma FlushLogs(s: State, p: Place, f: Frame, o: Oid)
    requires TopFrame(s, p, f) && !IsPush(f.pc) && !IsDrain(f.pc) && !f.pc.Popping?
    ensures SameLogs(s, AdvanceFrame(s, p, f), o)
  {
    hide PushedOf, PoppedOf, GapOf, DoReset, DoIncrement, DoExchange, DoLink, DoAcquire, DoCheck, DoPop, DoFree, DoDecrement, DoReleaseDrained,
         DoDrain, DoClear, DoReleaseSelf;
    OwnerLogs(s, p, f, o);
    TaskLogs(s, p, f, o);
  }

  lemma DrainLogs(s: State, p: Place, f: Frame, o: Oid)
    requires TopFrame(s, p, f) && IsDrain(f.pc)
    ensures SameLogs(s, AdvanceFrame(s, p, f), o)
  {
    hide DoReset, DoIncrement, DoExchange, DoLink, DoPop, DoAcquire, DoCheck, DoFree, DoDecrement;
  }

  lemma AdvanceLogs(s: State, t: Tid, o: Oid)
    requires Stacks(s) && Enabled(s, Advance(t))
    ensures var s' := Step(s, Advance(t));
            && PushedOf(s', o) == PushedOf(s, o) + Exchanges(s, Advance(t), o)
            && PoppedOf(s', o) == PoppedOf(s, o) + Starts(s, Advance(t), s', o)
  {
    hide Stacks, AdvanceFrame;
    var p := Top(s, t);
    var f := s.frames[p];
    AllShapes(s);
    assert FrameShape(s, f);
    if f.pc.Popping? {
      PopLogs(s, p, f, o);
      PopIsAdvance(s, p, f);
    } else if IsPush(f.pc) {
      PushLogs(s, p, f, o);
    } else if IsDrain(f.pc) {
      DrainLogs(s, p, f, o);
    } else {
      FlushLogs(s, p, f, o);
    }
  }

  lemma PopIsAdvance(s: State, p: Place, f: Frame)
    requires FrameReady(s, f) && f.pc.Popping?
    ensures AdvanceFrame(s, p, f) == DoPop(s, p, f)
  {
    hide DoReset, DoIncrement, DoExchange, DoLink, DoPop, DoAcquire, DoCheck, DoFree, DoDecrement, DoReleaseDrained,
         DoDrain, DoClear, DoReleaseSelf;
  }

  lemma StepLogs(s: State, a: Action, o: Oid)
    requires Inv(s) && Enabled(s, a)
    ensures var s' := Step(s, a);
            && PushedOf(s', o) == PushedOf(s, o) + Exchanges(s, a, o)
            && PoppedOf(s', o) == PoppedOf(s, o) + Starts(s, a, s', o)
  {
    hide Stacks, Owners, FlagPart, TaskPart, QueuePart, RefPart, AdvanceFrame;
    if a.Advance? {
      AdvanceLogs(s, a.t, o);
    }
  }

  lemma {:induction false} RunLogs(run: seq<State>, acts: seq<Action>, o: Oid)
    requires IsRun(run, acts)
    ensures PushedOf(run[|acts|], o) == AllExchanges(run, acts, o) && PoppedOf(run[|acts|], o) == AllStarts(run, acts, o)
  {
    hide Inv, Step, Enabled;
    if acts != [] {
      var n := |acts| - 1;
      assert forall i :: 0 <= i <= n ==> run[..n + 1][i] == run[i];
      RunLogs(run[..n + 1], acts[..n], o);
      RunKeepsInv(run, acts, n);
      StepLogs(run[n], acts[n], o);
    }
  }

  /** Over any run and any number of hand-offs between owners, the tasks of an object begin to run
      in the order of their exchanges, none of them twice, and those that have not begun are in
      the queue in that order. Together with `SingleConsumer` they run one at a time. */
  lemma {:induction false} TasksRunOnceInOrder(run: seq<State>, acts: seq<Action>, o: Oid)
    requires IsRun(run, acts)
    ensures AllStarts(run, acts, o) <= AllExchanges(run, acts, o) && NoDup(AllExchanges(run, acts, o))
    ensures o in run[|acts|].objs ==>
              AllStarts(run, acts, o) + Tasks(run[|acts|].objs[o].q.chain) == AllExchanges(run, acts, o)
  {
    hide Inv, Step, Enabled;
    RunLogs(run, acts, o);
    RunKeepsInv(run, acts, |acts|);
    LogsAgree(run[|acts|], o);
  }

  lemma LogsAgree(s: State, o: Oid)
    requires Inv(s)
    ensures NoDup(PushedOf(s, o)) && PoppedOf(s, o) <= PushedOf(s, o)
    ensures o in s.objs ==> PoppedOf(s, o) + Tasks(s.objs[o].q.chain) == PushedOf(s, o)
  {
    hide Stacks, Owners, FlagPart, RefPart, TaskLink, StageLink, AllProgress, AllPushLocals;
    if o in s.objs {
      assert QueueOk(s.objs[o].q, ConsumerOf(s, o));
    }
  }

  // ---- no nested flush

  /** However deeply tasks call `DoAsync`, a thread has at most one flush of each kind under way. */
  lemma NoNestedFlush(run: seq<State>, acts: seq<Action>, k: nat, p: Place, p': Place)
    requires IsRun(run, acts) && k < |run|
    requires FlaggedBy(run[k], p).Some? && FlaggedBy(run[k], p') == FlaggedBy(run[k], p) && p'.t == p.t
    ensures p == p'
  {
    hide Inv, Step, Enabled;
    RunKeepsInv(run, acts, k);
    OneFlag(run[k], p, p');
  }

  lemma OneFlag(s: State, p: Place, p': Place)
    requires Inv(s) && FlaggedBy(s, p).Some? && FlaggedBy(s, p') == FlaggedBy(s, p) && p'.t == p.t
    ensures p == p'
  {
    hide Stacks, Owners, TaskPart, QueuePart, RefPart, PendingIsFlagged, ClearIsEmpty;
  }

  // ---- lifetimes

  /** The nodes whose `Next` a step of `Pop` reads or writes. */
  function NodesOfPop(pop: PopPc): set<Node> {
    match pop
    case ReadNext(lt) => {lt}
    case ReadNextAgain(lt) => {lt}
    case ReadLast(lt) => {lt}
    case ClearStub(_) => {Stub}
    case LinkStub(_, prev) => {prev}
    case _ => {}
  }

  /** The nodes that the next statement of a frame reads or writes; the stub is part of the object. */
  function NodesTouched(f: Frame): set<Node> {
    match f.pc
    case ResetTask => {Task(f.task)}
    case Increment => {Task(f.task)}
    case ExchangeHead(_) => {Task(f.task)}
    case LinkPrev(_, prev) => {prev}
    case Popping(pop) => NodesOfPop(pop)
    case Running(n) => {Task(n)}
    case FreeTask(n) => {Task(n)}
    case _ => {}
  }

  /** The object whose memory the next statement of a frame reads or writes. */
  function ObjectTouched(f: Frame): Oid {
    match f.pc
    case Popping(_) => f.cur
    case Running(_) => f.cur
    case FreeTask(_) => f.cur
    case Decrement => f.cur
    case ReleaseDrained => f.cur
    case _ => f.obj
  }

  /** `DrainTest` and `ClearFlag` use the thread's own data only. */
  predicate TouchesObject(pc: Pc) {
    !pc.DrainTest? && !pc.ClearFlag?
  }

  lemma TopObjectIsAlive(s: State, p: Place, f: Frame)
    requires Inv(s) && TopFrame(s, p, f)
    ensures TouchesObject(f.pc) ==> !s.objs[ObjectTouched(f)].destroyed
  {
    hide Stacks, Owners, FlagPart, TaskPart, QueuePart, RefPart;
    ObjectOfTopIsAlive(s, p, f);
    TaskOfTop(s, p, f);
    ShapeOfTop(s, p, f);
    HoldersKnown(s, f.obj);
    HoldersKnown(s, f.cur);
    assert f.pc.ResetTask? || f.pc.Increment? || f.pc.ExchangeHead? || f.pc.LinkPrev? ==> TaskHolds(s, f.task, f.obj);
    assert f.drained ==> (HoldsDrained(f) ==> DrainedHolds(s, p, f.cur));
  }

  /** The nodes in an object's queue are live tasks. */
  lemma ChainIsLive(s: State, o: Oid)
    requires Inv(s) && o in s.objs
    ensures forall n :: Task(n) in s.objs[o].q.chain ==> TaskHolds(s, n, o)
  {
    hide Stacks, Owners, FlagPart, QueuePart, RefPart;
    StagesOf(s, o);
    assert forall n :: IsQueued(s, o, n) ==> TaskHolds(s, n, o);
  }

  lemma PopTouchesChain(q: Queue, pop: PopPc)
    requires QInv(q) && PcInv(q, pop)
    ensures forall n :: n in NodesOfPop(pop) ==> n == Stub || n in q.chain
  {
    if pop.LinkStub? {
      PendingPrev(q, Stub);
    }
  }

  lemma TopNodesAreLive(s: State, p: Place, f: Frame)
    requires Inv(s) && TopFrame(s, p, f)
    ensures forall n :: Task(n) in NodesTouched(f) ==> n in s.tasks && s.tasks[n].at != Freed
    ensures Null !in NodesTouched(f)
  {
    hide Stacks, Owners, FlagPart, TaskPart, QueuePart, RefPart, QInv, PcInv;
    TaskOfTop(s, p, f);
    ChainIsLive(s, f.obj);
    ChainIsLive(s, f.cur);
    QueueOfTop(s, p, f);
    if f.pc.Popping? {
      PopTouchesChain(s.objs[f.cur].q, f.pc.pop);
    } else if f.pc.LinkPrev? {
      PendingPrev(s.objs[f.obj].q, Task(f.task));
    }
    NullIsOutside(s.objs[f.obj].q);
    NullIsOutside(s.objs[f.cur].q);
  }

  lemma NullIsOutside(q: Queue)
    requires QInv(q)
    ensures Null !in q.chain
  {
  }

  lemma QueueOfTop(s: State, p: Place, f: Frame)
    requires Inv(s) && TopFrame(s, p, f)
    ensures QInv(s.objs[f.obj].q) && QInv(s.objs[f.cur].q) && PushLocals(s, f)
    ensures f.pc.Popping? ==> PcInv(s.objs[f.cur].q, f.pc.pop)
  {
    hide Stacks, FlagPart, TaskPart, RefPart, ParkLink, BusyLink, CountOk, QInv, PcInv;
    assert QueueOk(s.objs[f.obj].q, ConsumerOf(s, f.obj));
    assert QueueOk(s.objs[f.cur].q, ConsumerOf(s, f.cur));
    assert f.pc.Popping? ==> OwnedBy(s, p) == Some(f.cur);
  }

  /** In every reachable state the next statement of every thread touches only objects that are not
      destroyed and task nodes that are not freed: in particular no `Flush` is ever in an object
      that a release has destroyed, and no producer links behind a node that was freed. */
  lemma NoUseAfterFree(run: seq<State>, acts: seq<Action>, k: nat, t: Tid)
    requires IsRun(run, acts) && k < |run| && HasTop(run[k], t)
    ensures var s, f := run[k], run[k].frames[Top(run[k], t)];
            && (TouchesObject(f.pc) ==> ObjectTouched(f) in s.objs && !s.objs[ObjectTouched(f)].destroyed)
            && forall n :: n in NodesTouched(f) ==> n == Stub || (n.Task? && n.id in s.tasks && s.tasks[n.id].at != Freed)
  {
    hide Inv, Step, Enabled;
    RunKeepsInv(run, acts, k);
    var p := Top(run[k], t);
    TopIsReady(run[k], t);
    TopObjectIsAlive(run[k], p, run[k].frames[p]);
    TopNodesAreLive(run[k], p, run[k].frames[p]);
  }

  lemma TopIsReady(s: State, t: Tid)
    requires Inv(s) && HasTop(s, t)
    ensures TopFrame(s, Top(s, t), s.frames[Top(s, t)])
  {
    hide Owners, FlagPart, TaskPart, QueuePart, RefPart;
    ReadyFrames(s);
  }

  /** An object that is parked, or whose flush a frame of any depth is in, is alive. */
  lemma FlushedObjectIsAlive(run: seq<State>, acts: seq<Action>, k: nat, o: Oid)
    requires IsRun(run, acts) && k < |run| && o in run[k].objs
    requires (exists p :: Consumes(run[k], p, o)) || (exists t :: ParkedAt(run[k], t, o))
    ensures !run[k].objs[o].destroyed
  {
    hide Inv, Step, Enabled;
    RunKeepsInv(run, acts, k);
    OwnersOf(run[k], o);
    HeldWhileOwned(run[k], o);
  }

  lemma HeldWhileOwned(s: State, o: Oid)
    requires Inv(s) && o in s.objs
    requires (exists p :: Consumes(s, p, o)) || s.objs[o].owner.Parked?
    ensures !s.objs[o].destroyed
  {
    hide Owners, FlagPart, TaskPart, QueuePart, RefPart, Stacks;
    HoldersKnown(s, o);
    if p :| Consumes(s, p, o) {
      AllShapes(s);
      assert FrameShape(s, s.frames[p]);
      assert SelfHolds(s, p, o) || DrainedHolds(s, p, o);
    }
  }

  /** The reference count of a shared or custom object is the number of its clients' references,
      its live tasks and its owners' references, each counted once; the object is destroyed exactly
      when there is none of them. */
  lemma ReferenceConservation(run: seq<State>, acts: seq<Action>, k: nat, o: Oid)
    requires IsRun(run, acts) && k < |run| && o in run[k].objs && run[k].objs[o].kind != Static
    ensures var s, ob := run[k], run[k].objs[o];
            && ob.refs == |ob.holders| && (ob.destroyed <==> ob.refs == 0)
            && forall r :: r in ob.holders <==> match r
                 case Client(_) => r in ob.holders
                 case OfTask(n) => TaskHolds(s, n, o)
                 case Self(p) => SelfHolds(s, p, o)
                 case Drained(p) => DrainedHolds(s, p, o)
                 case OfParked(t) => ParkedAt(s, t, o)
  {
    hide Inv, Step, Enabled;
    RunKeepsInv(run, acts, k);
    HoldersOf(run[k], o);
  }

  lemma HoldersOf(s: State, o: Oid)
    requires Inv(s) && o in s.objs && s.objs[o].kind != Static
    ensures RefsOk(s.objs[o])
    ensures forall r :: r in s.objs[o].holders <==> match r
                 case Client(_) => r in s.objs[o].holders
                 case OfTask(n) => TaskHolds(s, n, o)
                 case Self(p) => SelfHolds(s, p, o)
                 case Drained(p) => DrainedHolds(s, p, o)
                 case OfParked(t) => ParkedAt(s, t, o)
  {
    hide Stacks, Owners, FlagPart, TaskPart, QueuePart, RefPart;
    HoldersKnown(s, o);
    ParkedIff(s, o);
  }

  lemma ParkedIff(s: State, o: Oid)
    requires Inv(s) && o in s.objs
    ensures forall t :: ParkedAt(s, t, o) <==> s.objs[o].owner == Parked(t)
  {
    hide Stacks, FlagPart, TaskPart, QueuePart, RefPart, OwnLink, BusyLink, CountOk;
    forall t ensures ParkedAt(s, t, o) <==> s.objs[o].owner == Parked(t) {
      assert o in PendingOf(s, Slot(t, s.objs[o].kind)) <==> IsParked(s, Slot(t, s.objs[o].kind), o);
    }
  }
}
