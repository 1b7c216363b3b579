/** What the result of `Dispatch` tells its caller: whether the task has run depends on the flag that the
    thread had when it called. */
module AodReturns {
  import opened Wrappers
  import opened MpscQueue
  import opened AodMachine
  import opened AodInvariant
  import opened AodSteps
  import opened AodClients
  import opened AodTheorems

  // ---- a call and its return

  /** The frame of the call that thread `t` makes in state `s`. */
  function CallFrame(s: State, t: Tid): Place {
    Place(t, Depth(s, t))
  }

  /** Step `i` is a call of `DoAsync`, and step `k` the return of its `Dispatch`. */
  ghost predicate Call(run: seq<State>, acts: seq<Action>, i: nat, k: nat, t: Tid, o: Oid, n: nat) {
    && IsRun(run, acts) && i < k < |acts| && acts[i] == DoAsync(t, o, n) && acts[k] == Advance(t)
    && (forall j :: i < j <= k ==> CallFrame(run[i], t) in run[j].frames)
    && Depth(run[k], t) == Depth(run[i], t) + 1 && CallFrame(run[i], t) !in run[k + 1].frames
  }

  /** What `Dispatch` returns from a frame that stands at `pc`: false only where a thread that is not the
      owner has linked its task. */
  predicate ReturnValue(pc: Pc) {
    !pc.LinkPrev?
  }

  predicate BeforeCheck(pc: Pc) {
    pc.ResetTask? || pc.Increment? || pc.ExchangeHead? || pc.LinkPrev? || Waiting(pc)
  }

  /** Until the check the flag is as it was at the call; past the check it was clear. */
  ghost predicate FlagAsCalled(s: State, p: Place, slot: Slot, flagged: bool) {
    p in s.frames && if BeforeCheck(s.frames[p].pc) then slot in s.inProgress <==> flagged else !flagged
  }

  ghost predicate InCall(s: State, p: Place, o: Oid, n: nat, kind: Kind, flagged: bool) {
    && o in s.objs && s.objs[o].kind == kind && p in s.frames && s.frames[p].obj == o && s.frames[p].task == n
    && FlagAsCalled(s, p, Slot(p.t, kind), flagged)
  }

  // ---- what a statement leaves alone

  /** A statement of frame `p` that keeps the flags. */
  ghost predicate OnlyFrame(s: State, s': State, p: Place) {
    && (forall p' :: p' != p ==> (p' in s'.frames <==> p' in s.frames))
    && (forall p' :: p' != p && p' in s.frames ==> s'.frames[p'] == s.frames[p'])
    && (forall o :: o in s.objs ==> o in s'.objs && s'.objs[o].kind == s.objs[o].kind)
    && (forall slot: Slot :: slot.t != p.t ==> (slot in s'.inProgress <==> slot in s.inProgress))
    && (p in s.frames && p in s'.frames ==> s'.frames[p].obj == s.frames[p].obj && s'.frames[p].task == s.frames[p].task)
  }

  ghost predicate KeepsFlag(s: State, s': State, p: Place) {
    p in s.frames && p in s'.frames ==> (BeforeCheck(s.frames[p].pc) <==> BeforeCheck(s'.frames[p].pc)) && s'.inProgress == s.inProgress
  }

  /** Past the check a frame stays past it. */
  ghost predicate PastCheck(s: State, s': State, p: Place) {
    OnlyFrame(s, s', p) && (p in s'.frames ==> !BeforeCheck(s'.frames[p].pc))
  }

  lemma ResetIsLocal(s: State, p: Place, f: Frame)
    requires TopFrame(s, p, f) && f.pc.ResetTask?
    ensures var s' := DoReset(s, p, f); OnlyFrame(s, s', p) && KeepsFlag(s, s', p) && p in s'.frames
  {
    hide ResetNext;
  }

  lemma IncrementIsLocal(s: State, p: Place, f: Frame)
    requires TopFrame(s, p, f) && f.pc.Increment?
    ensures var s' := DoIncrement(s, p, f); OnlyFrame(s, s', p) && KeepsFlag(s, s', p) && p in s'.frames
  {
  }

  lemma ExchangeIsLocal(s: State, p: Place, f: Frame)
    requires TopFrame(s, p, f) && f.pc.ExchangeHead?
    ensures var s' := DoExchange(s, p, f); OnlyFrame(s, s', p) && KeepsFlag(s, s', p) && p in s'.frames
  {
    hide Exchange;
  }

  lemma LinkIsLocal(s: State, p: Place, f: Frame)
    requires TopFrame(s, p, f) && f.pc.LinkPrev?
    ensures var s' := DoLink(s, p, f); OnlyFrame(s, s', p) && KeepsFlag(s, s', p) && s'.tasks == SetStage(s, f.task, Queued).tasks
  {
    hide Link;
  }

  lemma AcquireIsLocal(s: State, p: Place, f: Frame)
    requires TopFrame(s, p, f) && f.pc.AcquireSelf?
    ensures var s' := DoAcquire(s, p, f); OnlyFrame(s, s', p) && KeepsFlag(s, s', p) && p in s'.frames
  {
  }

  /** The check goes on only with the flag clear. */
  lemma CheckIsLocal(s: State, p: Place, f: Frame)
    requires TopFrame(s, p, f) && f.pc.CheckFlag?
    ensures var s' := DoCheck(s, p, f); PastCheck(s, s', p) && s'.tasks == s.tasks && (p in s'.frames <==> Slot(p.t, s.objs[f.obj].kind) !in s.inProgress)
  {
  }

  lemma PopIsLocal(s: State, p: Place, f: Frame)
    requires TopFrame(s, p, f) && f.pc.Popping?
    ensures var s' := DoPop(s, p, f); PastCheck(s, s', p) && p in s'.frames
  {
    hide PopStep;
  }

  lemma FreeIsLocal(s: State, p: Place, f: Frame)
    requires TopFrame(s, p, f) && f.pc.FreeTask?
    ensures var s' := DoFree(s, p, f); PastCheck(s, s', p) && p in s'.frames
  {
  }

  lemma DecrementIsLocal(s: State, p: Place, f: Frame)
    requires TopFrame(s, p, f) && f.pc.Decrement?
    ensures var s' := DoDecrement(s, p, f); PastCheck(s, s', p) && p in s'.frames
  {
  }

  lemma ReleaseDrainedIsLocal(s: State, p: Place, f: Frame)
    requires TopFrame(s, p, f) && f.pc.ReleaseDrained?
    ensures var s' := DoReleaseDrained(s, p, f); PastCheck(s, s', p) && p in s'.frames
  {
  }

  lemma DrainIsLocal(s: State, p: Place, f: Frame)
    requires TopFrame(s, p, f) && f.pc.DrainTest?
    ensures var s' := DoDrain(s, p, f); PastCheck(s, s', p) && p in s'.frames
  {
  }

  lemma ClearIsLocal(s: State, p: Place, f: Frame)
    requires TopFrame(s, p, f) && f.pc.ClearFlag?
    ensures var s' := DoClear(s, p, f); PastCheck(s, s', p) && p in s'.frames
  {
  }

  lemma ReleaseSelfIsLocal(s: State, p: Place, f: Frame)
    requires TopFrame(s, p, f) && f.pc.ReleaseSelf?
    ensures var s' := DoReleaseSelf(s, p, f); PastCheck(s, s', p) && s'.tasks == s.tasks
  {
  }

  /** What every statement leaves alone, and where a frame can return. */
  ghost predicate Statement(s: State, s': State, p: Place, f: Frame)
    requires FrameReady(s, f)
  {
    && OnlyFrame(s, s', p) && (BeforeCheck(f.pc) && !f.pc.CheckFlag? ==> KeepsFlag(s, s', p))
    && (f.pc.CheckFlag? || !BeforeCheck(f.pc) ==> PastCheck(s, s', p))
    && (f.pc.CheckFlag? ==> (p in s'.frames <==> Slot(p.t, s.objs[f.obj].kind) !in s.inProgress))
    && if f.pc.LinkPrev? then s'.tasks == SetStage(s, f.task, Queued).tasks
       else if f.pc.CheckFlag? || f.pc.ReleaseSelf? then s'.tasks == s.tasks
       else p in s'.frames
  }

  lemma EveryStatement(s: State, p: Place, f: Frame)
    requires TopFrame(s, p, f) && !f.pc.Running?
    ensures Statement(s, AdvanceFrame(s, p, f), p, f)
  {
    hide OnlyFrame, KeepsFlag, SetStage, DoReset, DoIncrement, DoExchange, DoLink, DoAcquire, DoCheck, DoPop, DoFree,
         DoDecrement, DoReleaseDrained, DoDrain, DoClear, DoReleaseSelf;
    match f.pc {
      case ResetTask => ResetIsLocal(s, p, f);
      case Increment => IncrementIsLocal(s, p, f);
      case ExchangeHead(_) => ExchangeIsLocal(s, p, f);
      case LinkPrev(_, _) => LinkIsLocal(s, p, f);
      case AcquireSelf => AcquireIsLocal(s, p, f);
      case CheckFlag => CheckIsLocal(s, p, f);
      case Popping(_) => PopIsLocal(s, p, f);
      case FreeTask(_) => FreeIsLocal(s, p, f);
      case Decrement => DecrementIsLocal(s, p, f);
      case ReleaseDrained => ReleaseDrainedIsLocal(s, p, f);
      case DrainTest => DrainIsLocal(s, p, f);
      case ClearFlag => ClearIsLocal(s, p, f);
      case ReleaseSelf => ReleaseSelfIsLocal(s, p, f);
    }
  }

  /** A statement of the frame of the call itself. */
  lemma OwnStatement(s: State, s': State, p: Place, f: Frame, o: Oid, n: nat, kind: Kind, flagged: bool)
    requires TopFrame(s, p, f) && Statement(s, s', p, f) && InCall(s, p, o, n, kind, flagged) && p in s'.frames
    ensures InCall(s', p, o, n, kind, flagged)
  {
  }

  /** A statement of any other frame: of another thread, or of a call that a task made below. */
  lemma OtherStatement(s: State, s': State, q: Place, p: Place, o: Oid, n: nat, kind: Kind, flagged: bool)
    requires OnlyFrame(s, s', q) && q != p && InCall(s, p, o, n, kind, flagged)
    requires q.t == p.t ==> !BeforeCheck(s.frames[p].pc)
    ensures InCall(s', p, o, n, kind, flagged)
  {
  }

  lemma StepKeepsCall(s: State, a: Action, p: Place, o: Oid, n: nat, kind: Kind, flagged: bool)
    requires Inv(s) && Enabled(s, a) && InCall(s, p, o, n, kind, flagged) && p in Step(s, a).frames
    ensures InCall(Step(s, a), p, o, n, kind, flagged)
  {
    hide Inv, AdvanceFrame, OnlyFrame;
    match a
    case Create(_, _) => ClientKeepsCall(s, a, p, o, n, kind, flagged);
    case AddClient(_, _) => ClientKeepsCall(s, a, p, o, n, kind, flagged);
    case DropClient(_, _) => ClientKeepsCall(s, a, p, o, n, kind, flagged);
    case DoAsync(t, _, _) => NestedCallKeepsCall(s, a, p, o, n, kind, flagged);
    case Finish(t) => FinishKeepsCall(s, t, p, o, n, kind, flagged);
    case Advance(t) =>
      var q := Top(s, t);
      TopIsReady(s, t);
      EveryStatement(s, q, s.frames[q]);
      if q == p {
        OwnStatement(s, Step(s, a), p, s.frames[p], o, n, kind, flagged);
      } else {
        StacksOfInv(s);
        BelowTopRuns(s, p, q);
        OtherStatement(s, Step(s, a), q, p, o, n, kind, flagged);
      }
  }

  lemma BelowTopRuns(s: State, p: Place, q: Place)
    requires Stacks(s) && q.i + 1 == Depth(s, q.t) && p in s.frames && q != p
    ensures q.t == p.t ==> s.frames[p].pc.Running?
  {
    hide FrameShape;
  }

  lemma ClientKeepsCall(s: State, a: Action, p: Place, o: Oid, n: nat, kind: Kind, flagged: bool)
    requires Enabled(s, a) && (a.Create? || a.AddClient? || a.DropClient?) && InCall(s, p, o, n, kind, flagged)
    ensures InCall(Step(s, a), p, o, n, kind, flagged)
  {
  }

  lemma NestedCallKeepsCall(s: State, a: Action, p: Place, o: Oid, n: nat, kind: Kind, flagged: bool)
    requires Inv(s) && Enabled(s, a) && a.DoAsync? && InCall(s, p, o, n, kind, flagged)
    ensures InCall(Step(s, a), p, o, n, kind, flagged)
  {
    hide Inv;
    StacksOfInv(s);
    NoFrameThere(s, a.t);
  }

  lemma StacksOfInv(s: State)
    requires Inv(s)
    ensures Stacks(s)
  {
    hide Stacks, Owners, FlagPart, TaskPart, QueuePart, RefPart;
  }

  lemma FinishKeepsCall(s: State, t: Tid, p: Place, o: Oid, n: nat, kind: Kind, flagged: bool)
    requires Enabled(s, Finish(t)) && InCall(s, p, o, n, kind, flagged)
    ensures InCall(Step(s, Finish(t)), p, o, n, kind, flagged)
  {
  }

  lemma CallBegins(s: State, t: Tid, o: Oid, n: nat)
    requires Enabled(s, DoAsync(t, o, n))
    ensures InCall(Step(s, DoAsync(t, o, n)), CallFrame(s, t), o, n, s.objs[o].kind, Slot(t, s.objs[o].kind) in s.inProgress)
  {
  }

  lemma {:induction false} CallGoesOn(run: seq<State>, acts: seq<Action>, i: nat, k: nat, t: Tid, o: Oid, n: nat, j: nat)
    requires Call(run, acts, i, k, t, o, n) && i < j <= k
    ensures InCall(run[j], CallFrame(run[i], t), o, n, run[i].objs[o].kind, Slot(t, run[i].objs[o].kind) in run[i].inProgress)
  {
    hide Inv, Step, InCall;
    assert j < k ==> CallFrame(run[i], t) in run[j].frames;
    if j == i + 1 {
      CallBegins(run[i], t, o, n);
    } else {
      CallGoesOn(run, acts, i, k, t, o, n, j - 1);
      RunKeepsInv(run, acts, j - 1);
      StepKeepsCall(run[j - 1], acts[j - 1], CallFrame(run[i], t), o, n, run[i].objs[o].kind, Slot(t, run[i].objs[o].kind) in run[i].inProgress);
    }
  }

  // ---- the return

  lemma ReturnsWhere(s: State, p: Place, f: Frame)
    requires TopFrame(s, p, f) && !f.pc.Running? && p !in AdvanceFrame(s, p, f).frames
    ensures f.pc.LinkPrev? || (f.pc.CheckFlag? && Slot(p.t, s.objs[f.obj].kind) in s.inProgress) || f.pc.ReleaseSelf?
    ensures AdvanceFrame(s, p, f).tasks == if f.pc.LinkPrev? then SetStage(s, f.task, Queued).tasks else s.tasks
  {
    hide AdvanceFrame, OnlyFrame, KeepsFlag, PastCheck;
    EveryStatement(s, p, f);
  }

  lemma TaskAtReturn(s: State, p: Place, f: Frame, n: nat)
    requires Inv(s) && TopFrame(s, p, f) && f.task == n && !f.pc.Running? && p !in AdvanceFrame(s, p, f).frames
    ensures var s' := AdvanceFrame(s, p, f);
            n in s'.tasks && s'.tasks[n].at == if f.pc.ReleaseSelf? then Freed else Queued
  {
    hide Stacks, Owners, FlagPart, TaskPart, QueuePart, RefPart, AdvanceFrame;
    TaskOfTop(s, p, f);
    ReturnsWhere(s, p, f);
  }

  lemma FlagAtReturn(s: State, p: Place, f: Frame, o: Oid, n: nat, kind: Kind, flagged: bool)
    requires TopFrame(s, p, f) && !f.pc.Running? && p !in AdvanceFrame(s, p, f).frames && InCall(s, p, o, n, kind, flagged)
    ensures ReturnValue(f.pc) ==> (f.pc.ReleaseSelf? <==> !flagged)
  {
    hide AdvanceFrame;
    ReturnsWhere(s, p, f);
  }

  lemma AtReturn(run: seq<State>, acts: seq<Action>, i: nat, k: nat, t: Tid, o: Oid, n: nat)
    requires Call(run, acts, i, k, t, o, n)
    ensures var s, p := run[k], CallFrame(run[i], t);
            && Inv(s) && Enabled(s, Advance(t)) && TopFrame(s, p, s.frames[p]) && HasTop(s, t) && p == Top(s, t)
            && run[k + 1] == AdvanceFrame(s, p, s.frames[p]) && !s.frames[p].pc.Running?
            && InCall(s, p, o, n, run[i].objs[o].kind, Slot(t, run[i].objs[o].kind) in run[i].inProgress)
  {
    hide Inv, AdvanceFrame, InCall;
    RunKeepsInv(run, acts, k);
    CallGoesOn(run, acts, i, k, t, o, n, k);
    TopIsReady(run[k], t);
  }

  /** A call of `DoAsync` returns with its task run and freed if and only if the thread was elected, so that
      the result is true, and at the call the thread had no flush of the object's kind under way. In every
      other case the task is still in the queue. */
  lemma {:induction false} TrueMeansRanIff(run: seq<State>, acts: seq<Action>, i: nat, k: nat, t: Tid, o: Oid, n: nat)
    requires Call(run, acts, i, k, t, o, n)
    ensures var result := ReturnValue(run[k].frames[CallFrame(run[i], t)].pc);
            && n in run[k + 1].tasks
            && run[k + 1].tasks[n].at == if result && Slot(t, run[i].objs[o].kind) !in run[i].inProgress then Freed else Queued
  {
    hide Inv, Step, AdvanceFrame;
    var s, p, kind := run[k], CallFrame(run[i], t), run[i].objs[o].kind;
    AtReturn(run, acts, i, k, t, o, n);
    TaskAtReturn(s, p, s.frames[p], n);
    FlagAtReturn(s, p, s.frames[p], o, n, kind, Slot(t, kind) in run[i].inProgress);
  }

  // ---- the full drain

  /** Thread `t` owns an object of kind `k`, in a frame or parked. */
  ghost predicate OwnsSome(s: State, t: Tid, k: Kind) {
    || (exists p: Place :: p.t == t && OwnedBy(s, p).Some? && OwnedBy(s, p).value in s.objs && s.objs[OwnedBy(s, p).value].kind == k)
    || PendingOf(s, Slot(t, k)) != []
  }

  lemma DrainedAtReturn(s: State, t: Tid)
    requires Inv(s) && Enabled(s, Advance(t)) && HasTop(s, t) && s.frames[Top(s, t)].pc.ReleaseSelf?
    ensures var f, s' := s.frames[Top(s, t)], Step(s, Advance(t));
            && f.task in s'.tasks && s'.tasks[f.task].at == Freed
            && f.obj in s.objs && !OwnsSome(s', t, s.objs[f.obj].kind)
  {
    hide Stacks, Owners, FlagPart, TaskPart, QueuePart, RefPart, OwnsSome;
    var p := Top(s, t);
    TaskOfTop(s, p, s.frames[p]);
    OwnsNone(s, p, s.frames[p]);
    ReturnKeepsRest(s, p, s.frames[p]);
  }

  lemma OwnsNone(s: State, p: Place, f: Frame)
    requires Inv(s) && TopFrame(s, p, f) && f.pc.ReleaseSelf?
    ensures !OwnsSome(s, p.t, s.objs[f.obj].kind)
  {
    hide Owners, TaskPart, QueuePart, RefPart, Stacks;
    var k := s.objs[f.obj].kind;
    assert LeavesClean(s, p, f);
    ShapeOfTop(s, p, f);
    forall p': Place | p'.t == p.t && OwnedBy(s, p').Some? && OwnedBy(s, p').value in s.objs ensures s.objs[OwnedBy(s, p').value].kind != k {
      KindOfOwned(s, p');
      assert FlaggedBy(s, p') != Some(k);
    }
  }

  /** A frame that runs a task is flushing an object of its own kind. */
  lemma KindOfOwned(s: State, p: Place)
    requires Inv(s) && p in s.frames && s.frames[p].pc.Running?
    ensures FrameReady(s, s.frames[p]) && s.objs[s.frames[p].cur].kind == s.objs[s.frames[p].obj].kind
  {
    hide Owners, FlagPart, TaskPart, QueuePart, RefPart, Stacks;
    AllShapes(s);
    assert FrameShape(s, s.frames[p]);
  }

  lemma ReturnKeepsRest(s: State, p: Place, f: Frame)
    requires TopFrame(s, p, f) && f.pc.ReleaseSelf? && !OwnsSome(s, p.t, s.objs[f.obj].kind)
    ensures !OwnsSome(DoReleaseSelf(s, p, f), p.t, s.objs[f.obj].kind)
  {
    var s' := DoReleaseSelf(s, p, f);
    assert forall slot :: PendingOf(s', slot) == PendingOf(s, slot);
    forall p' | OwnedBy(s', p').Some? && OwnedBy(s', p').value in s'.objs
      ensures OwnedBy(s, p') == OwnedBy(s', p') && s'.objs[OwnedBy(s', p').value].kind == s.objs[OwnedBy(s', p').value].kind
    {
    }
  }

  /** When a call that found no flush of the object's kind under way on its thread returns true, its task has
      run, the pending queue of the kind is empty and the thread owns no object of that kind any more. */
  lemma {:induction false} OutermostDispatchDrains(run: seq<State>, acts: seq<Action>, i: nat, k: nat, t: Tid, o: Oid, n: nat)
    requires Call(run, acts, i, k, t, o, n)
    requires Slot(t, run[i].objs[o].kind) !in run[i].inProgress && ReturnValue(run[k].frames[CallFrame(run[i], t)].pc)
    ensures n in run[k + 1].tasks && run[k + 1].tasks[n].at == Freed && !OwnsSome(run[k + 1], t, run[i].objs[o].kind)
  {
    hide Inv, Step, AdvanceFrame;
    var s, p, kind := run[k], CallFrame(run[i], t), run[i].objs[o].kind;
    AtReturn(run, acts, i, k, t, o, n);
    TrueMeansRanIff(run, acts, i, k, t, o, n);
    FlagAtReturn(s, p, s.frames[p], o, n, kind, false);
    DrainedAtReturn(s, t);
    StepOfTop(s, t);
  }

  lemma StepOfTop(s: State, t: Tid)
    requires Enabled(s, Advance(t))
    ensures Step(s, Advance(t)) == AdvanceFrame(s, Top(s, t), s.frames[Top(s, t)])
  {
    hide AdvanceFrame;
  }
}
