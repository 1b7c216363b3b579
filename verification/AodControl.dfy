/** In which order the statements of `Dispatch` and `Flush` follow one another, in every run. */
module AodControl {
  import opened Wrappers
  import opened MpscQueue
  import opened AodMachine
  import opened AodInvariant
  import opened AodFrame
  import opened AodTheorems

  /** The frame `p` goes on as `f`. */
  ghost predicate GoesOn(s': State, p: Place, f: Frame) {
    p in s'.frames && s'.frames[p] == f && Depth(s', p.t) == p.i + 1
  }

  /** The call of `Dispatch` of frame `p` has returned. */
  ghost predicate Returned(s': State, p: Place) {
    p !in s'.frames && Depth(s', p.t) == p.i
  }

  /** What follows the statement `f.pc`. */
  ghost predicate Follows(s: State, s': State, p: Place, f: Frame)
    requires FrameReady(s, f)
  {
    var slot := Slot(p.t, s.objs[f.obj].kind);
    match f.pc
    case ResetTask => GoesOn(s', p, f.(pc := Increment))
    case Increment => GoesOn(s', p, f.(pc := ExchangeHead(s.objs[f.obj].count == 0)))
    case ExchangeHead(owns) => GoesOn(s', p, f.(pc := LinkPrev(owns, s.objs[f.obj].q.head)))
    case LinkPrev(owns, _) => if owns then GoesOn(s', p, f.(pc := AcquireSelf)) else Returned(s', p)
    case AcquireSelf => GoesOn(s', p, f.(pc := CheckFlag))
    case CheckFlag => if slot in s.inProgress then Returned(s', p) else GoesOn(s', p, f.(pc := Popping(Start)))
    case Popping(pop) =>
      var (q, next) := PopStep(s.objs[f.cur].q, pop);
      GoesOn(s', p, f.(pc := if !next.Returned? then Popping(next) else if next.r.Task? then Running(next.r.id) else Popping(Start)))
    case Running(n) => GoesOn(s', p, f)
    case FreeTask(n) => GoesOn(s', p, f.(pc := Decrement))
    case Decrement =>
      GoesOn(s', p, f.(pc := if s.objs[f.cur].count > 1 then Popping(Start) else if f.drained then ReleaseDrained else DrainTest))
    case ReleaseDrained => GoesOn(s', p, f.(pc := DrainTest))
    case DrainTest =>
      if PendingOf(s, slot) == [] then GoesOn(s', p, f.(pc := ClearFlag))
      else GoesOn(s', p, f.(cur := PendingOf(s, slot)[0], drained := true, pc := Popping(Start)))
    case ClearFlag => GoesOn(s', p, f.(pc := ReleaseSelf))
    case ReleaseSelf => Returned(s', p)
  }

  lemma PushFollows(s: State, p: Place, f: Frame)
    requires TopFrame(s, p, f)
    ensures f.pc.ResetTask? ==> Follows(s, DoReset(s, p, f), p, f)
    ensures f.pc.Increment? ==> Follows(s, DoIncrement(s, p, f), p, f)
    ensures f.pc.ExchangeHead? ==> Follows(s, DoExchange(s, p, f), p, f)
    ensures f.pc.LinkPrev? ==> Follows(s, DoLink(s, p, f), p, f)
  {
    hide Exchange, Link, ResetNext;
  }

  lemma CheckFollows(s: State, p: Place, f: Frame)
    requires TopFrame(s, p, f)
    ensures f.pc.AcquireSelf? ==> Follows(s, DoAcquire(s, p, f), p, f)
    ensures f.pc.CheckFlag? ==> Follows(s, DoCheck(s, p, f), p, f)
  {
    hide Acquire, Hand;
  }

  lemma PopFollows(s: State, p: Place, f: Frame)
    requires TopFrame(s, p, f) && f.pc.Popping?
    ensures Follows(s, DoPop(s, p, f), p, f)
  {
    hide PopStep;
  }

  lemma FreeFollows(s: State, p: Place, f: Frame)
    requires TopFrame(s, p, f)
    ensures f.pc.FreeTask? ==> Follows(s, DoFree(s, p, f), p, f)
    ensures f.pc.Decrement? && s.objs[f.cur].count > 0 ==> Follows(s, DoDecrement(s, p, f), p, f)
  {
    hide Release;
  }

  lemma DrainFollows(s: State, p: Place, f: Frame)
    requires TopFrame(s, p, f)
    ensures f.pc.ReleaseDrained? ==> Follows(s, DoReleaseDrained(s, p, f), p, f)
    ensures f.pc.DrainTest? && (forall o :: o in PendingOf(s, Slot(p.t, s.objs[f.obj].kind)) ==> o in s.objs) ==> Follows(s, DoDrain(s, p, f), p, f)
  {
    hide Release, Hand;
  }

  lemma EndFollows(s: State, p: Place, f: Frame)
    requires TopFrame(s, p, f)
    ensures f.pc.ClearFlag? ==> Follows(s, DoClear(s, p, f), p, f)
    ensures f.pc.ReleaseSelf? ==> Follows(s, DoReleaseSelf(s, p, f), p, f)
  {
    hide Release;
  }

  lemma StatementFollows(s: State, p: Place, f: Frame)
    requires TopFrame(s, p, f) && !f.pc.Running? && (f.pc.Decrement? ==> s.objs[f.cur].count > 0)
    requires forall o :: o in PendingOf(s, Slot(p.t, s.objs[f.obj].kind)) ==> o in s.objs
    ensures Follows(s, AdvanceFrame(s, p, f), p, f)
  {
    hide Follows, DoReset, DoIncrement, DoExchange, DoLink, DoAcquire, DoCheck, DoPop, DoFree, DoDecrement, DoReleaseDrained, DoDrain, DoClear,
         DoReleaseSelf;
    match f.pc {
      case ResetTask => PushFollows(s, p, f);
      case Increment => PushFollows(s, p, f);
      case ExchangeHead(_) => PushFollows(s, p, f);
      case LinkPrev(_, _) => PushFollows(s, p, f);
      case AcquireSelf => CheckFollows(s, p, f);
      case CheckFlag => CheckFollows(s, p, f);
      case Popping(_) => PopFollows(s, p, f);
      case FreeTask(_) => FreeFollows(s, p, f);
      case Decrement => FreeFollows(s, p, f);
      case ReleaseDrained => DrainFollows(s, p, f);
      case DrainTest => DrainFollows(s, p, f);
      case ClearFlag => EndFollows(s, p, f);
      case ReleaseSelf => EndFollows(s, p, f);
    }
  }

  /** At a decrement the count is positive, and what is pending exists. */
  lemma CountedAndPending(s: State, p: Place, f: Frame)
    requires Inv(s) && TopFrame(s, p, f)
    ensures f.pc.Decrement? ==> s.objs[f.cur].count > 0
    ensures forall o :: o in PendingOf(s, Slot(p.t, s.objs[f.obj].kind)) ==> o in s.objs
  {
    hide Stacks, FlagPart, TaskPart, QueuePart, RefPart, Tasks;
    if f.pc.Decrement? {
      assert OwnedBy(s, p) == Some(f.cur);
      assert CountOk(s.objs[f.cur]);
    }
    forall o | o in PendingOf(s, Slot(p.t, s.objs[f.obj].kind)) ensures o in s.objs {
      assert IsParked(s, Slot(p.t, s.objs[f.obj].kind), o);
    }
  }

  /** Over any run every statement is followed by the one that follows it in the source, whatever the other
      threads do: the loop of `Flush` ends only at a count of zero, the loop over the pending queue
      only when it is empty. */
  lemma EveryStatementFollows(run: seq<State>, acts: seq<Action>, k: nat, t: Tid)
    requires IsRun(run, acts) && k < |acts| && acts[k] == Advance(t)
    ensures HasTop(run[k], t) && FrameReady(run[k], run[k].frames[Top(run[k], t)])
    ensures Follows(run[k], run[k + 1], Top(run[k], t), run[k].frames[Top(run[k], t)])
  {
    hide Inv, Follows, AdvanceFrame;
    var s := run[k];
    RunKeepsInv(run, acts, k);
    assert Enabled(s, acts[k]);
    TopIsReady(s, t);
    var p := Top(s, t);
    CountedAndPending(s, p, s.frames[p]);
    StatementFollows(s, p, s.frames[p]);
  }

  /** When a task returns it is freed next. */
  lemma TaskReturns(run: seq<State>, acts: seq<Action>, k: nat, t: Tid)
    requires IsRun(run, acts) && k < |acts| && acts[k] == Finish(t)
    ensures HasTop(run[k], t) && run[k].frames[Top(run[k], t)].pc.Running?
    ensures var p := Top(run[k], t); GoesOn(run[k + 1], p, run[k].frames[p].(pc := FreeTask(run[k].frames[p].pc.n)))
  {
    hide AdvanceFrame, Acquire, Release;
    assert Enabled(run[k], acts[k]);
  }

  /** A new object has no tasks and, unless it is static, one reference; copying a reference adds one, and dropping
      the last one destroys the object. */
  lemma ClientSteps(run: seq<State>, acts: seq<Action>, k: nat, o: Oid, c: nat, kind: Kind)
    requires IsRun(run, acts) && k < |acts|
    ensures acts[k] == Create(o, kind) ==>
            && o !in run[k].objs && o in run[k + 1].objs
            && var ob := run[k + 1].objs[o];
            ob.kind == kind && ob.count == 0 && ob.q == Empty && !ob.destroyed && ob.refs == if kind == Static then 0 else 1
    ensures acts[k] == AddClient(o, c) ==> o in run[k].objs && o in run[k + 1].objs && run[k + 1].objs[o].refs == run[k].objs[o].refs + 1
    ensures acts[k] == DropClient(o, c) ==>
            && o in run[k].objs && o in run[k + 1].objs && run[k].objs[o].refs > 0 && run[k].objs[o].kind != Static
            && run[k + 1].objs[o].refs == run[k].objs[o].refs - 1 && (run[k + 1].objs[o].destroyed <==> run[k].objs[o].refs == 1)
  {
    hide Inv, AdvanceFrame, RefPart;
    RunKeepsInv(run, acts, k);
    assert Enabled(run[k], acts[k]);
    if acts[k] == DropClient(o, c) {
      CountOfReferences(run[k], o);
    }
  }

  lemma CountOfReferences(s: State, o: Oid)
    requires Inv(s) && o in s.objs
    ensures RefsOk(s.objs[o])
  {
    hide Stacks, Owners, FlagPart, TaskPart, QueuePart;
  }

  /** A call of `DoAsync` puts a frame for its task on top of the thread's stack, and a reference to the object. */
  lemma CallBegins(run: seq<State>, acts: seq<Action>, k: nat, t: Tid, o: Oid, n: nat)
    requires IsRun(run, acts) && k < |acts| && acts[k] == DoAsync(t, o, n)
    ensures GoesOn(run[k + 1], Place(t, Depth(run[k], t)), Frame(o, n, o, false, ResetTask))
    ensures o in run[k].objs && o in run[k + 1].objs && n in run[k + 1].tasks && run[k + 1].tasks[n].parent == o
    ensures run[k].objs[o].kind != Static ==> run[k + 1].objs[o].refs == run[k].objs[o].refs + 1
  {
    hide AdvanceFrame, Release;
    assert Enabled(run[k], acts[k]);
  }
}
