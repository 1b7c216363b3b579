/** Progress: a flush spins only while a producer is in the middle of its `Dispatch`. */
module AodProgress {
  import opened MpscQueue
  import opened AodMachine
  import opened AodInvariant
  import opened AodFrame
  import opened AodTheorems
  import opened Wrappers
  import opened AodSteps

  /** A producer of object `o` is between its increment and the end of its push. */
  ghost predicate MidDispatch(s: State, o: Oid) {
    exists p :: p in s.frames && s.frames[p].obj == o && (s.frames[p].pc.ExchangeHead? || s.frames[p].pc.LinkPrev?)
  }

  /** The next statement of frame `p` is a statement of `Pop` on object `o`. */
  ghost predicate PopsAt(s: State, a: Action, p: Place, o: Oid) {
    && Enabled(s, a) && a == Advance(p.t) && Depth(s, p.t) == p.i + 1
    && p in s.frames && s.frames[p].cur == o && s.frames[p].pc.Popping?
  }

  /** ... it is the first one, or the one that returns null. */
  ghost predicate PopBegins(s: State, a: Action, p: Place, o: Oid) {
    PopsAt(s, a, p, o) && s.frames[p].pc.pop.Start?
  }

  ghost predicate PopReturnsNull(s: State, a: Action, p: Place, o: Oid) {
    PopsAt(s, a, p, o) && o in s.objs && PopStep(s.objs[o].q, s.frames[p].pc.pop).1 == Returned(Null)
  }

  lemma LinkingIsMidDispatch(s: State, o: Oid, n: nat)
    requires Inv(s) && IsLinking(s, o, n)
    ensures MidDispatch(s, o)
  {
    hide Stacks, Owners, FlagPart, QueuePart, RefPart, StageLink, PushedLink, AllProgress;
    var p := s.tasks[n].at.p;
    assert InHand(s, p) == Some((n, s.tasks[n]));
    assert s.frames[p].obj == o && s.frames[p].pc.LinkPrev?;
  }

  lemma CountedIsMidDispatch(s: State, o: Oid, n: nat)
    requires Inv(s) && IsCounted(s, o, n)
    ensures MidDispatch(s, o)
  {
    hide Stacks, Owners, FlagPart, QueuePart, RefPart, StageLink, PushedLink, AllProgress;
    var p := s.tasks[n].at.p;
    assert InHand(s, p) == Some((n, s.tasks[n]));
    assert s.frames[p].obj == o && s.frames[p].pc.ExchangeHead?;
  }

  /** When `Pop` begins, a pending link is a producer's. */
  lemma PendingAtStart(s: State, a: Action, p: Place, o: Oid)
    requires Inv(s) && PopBegins(s, a, p, o) && o in s.objs && s.objs[o].q.links != map[]
    ensures MidDispatch(s, o)
  {
    hide Inv, QInv, PcInv, TopFrame;
    TopIsReady(s, p.t);
    QueueOfTop(s, p, s.frames[p]);
    var n := TaskLinkOf(s.objs[o].q);
    StagesOf(s, o);
    LinkingIsMidDispatch(s, o, n.id);
  }

  lemma TaskLinkOf(q: Queue) returns (n: Node)
    requires QInv(q) && PcInv(q, Start) && q.links != map[]
    ensures n.Task? && n in q.links
  {
    n :| n in q.links;
  }

  /** The mark of a gap is set only while a producer is in the middle of its dispatch. */
  lemma GapStep(s: State, a: Action, o: Oid)
    requires Inv(s) && Enabled(s, a) && GapOf(Step(s, a), o) && !MidDispatch(s, o)
    ensures GapOf(s, o) && forall p :: !PopBegins(s, a, p, o)
  {
    hide Stacks, Owners, FlagPart, TaskPart, QueuePart, RefPart, AdvanceFrame, MidDispatch;
    if a.Advance? {
      TopIsReady(s, a.t);
      AdvanceGap(s, a, Top(s, a.t), s.frames[Top(s, a.t)], o);
    }
  }

  lemma AdvanceGap(s: State, a: Action, p: Place, f: Frame, o: Oid)
    requires Inv(s) && Enabled(s, a) && a == Advance(p.t) && TopFrame(s, p, f)
    requires GapOf(AdvanceFrame(s, p, f), o) && !MidDispatch(s, o)
    ensures GapOf(s, o) && forall p' :: !PopBegins(s, a, p', o)
  {
    hide Inv, AdvanceFrame, GapOf;
    ShapeOfTop(s, p, f);
    if f.pc.Popping? {
      PopLogs(s, p, f, o);
      PopIsAdvance(s, p, f);
      if PopBegins(s, a, p, o) && s.objs[o].q.links != map[] {
        PendingAtStart(s, a, p, o);
      }
    } else if IsPush(f.pc) {
      PushLogs(s, p, f, o);
    } else if IsDrain(f.pc) {
      DrainLogs(s, p, f, o);
    } else {
      FlushLogs(s, p, f, o);
    }
  }

  lemma {:induction false} GapWasSeen(run: seq<State>, acts: seq<Action>, i: nat, j: nat, p: Place, o: Oid)
    requires IsRun(run, acts) && i < j < |run|
    requires PopBegins(run[i], acts[i], p, o) && GapOf(run[j], o)
    ensures exists k :: i <= k < j && MidDispatch(run[k], o)
    decreases j
  {
    hide Inv, Step, Enabled, MidDispatch, GapOf;
    RunKeepsInv(run, acts, j - 1);
    if !MidDispatch(run[j - 1], o) {
      GapStep(run[j - 1], acts[j - 1], o);
      GapWasSeen(run, acts, i, j - 1, p, o);
    }
  }

  /** A `Pop` that returns null on an object with a positive count saw a gap, or some producer is
      right now between its increment and its exchange. */
  lemma NullNow(s: State, a: Action, p: Place, o: Oid)
    requires Inv(s) && PopReturnsNull(s, a, p, o)
    ensures s.objs[o].count > 0 && (GapOf(s, o) || MidDispatch(s, o))
  {
    hide Inv, QInv, PcInv, TopFrame, MidDispatch, PopStep;
    TopIsReady(s, p.t);
    QueueOfTop(s, p, s.frames[p]);
    OwnedCount(s, p, o);
    NullPop(s.objs[o].q, s.frames[p].pc.pop);
    if !GapOf(s, o) {
      StagesOf(s, o);
      var n :| n in s.objs[o].counted;
      CountedIsMidDispatch(s, o, n);
    }
  }

  lemma NullPop(q: Queue, pop: PopPc)
    requires QInv(q) && PcInv(q, pop) && PopStep(q, pop).1 == Returned(Null) && !pop.Returned?
    ensures q.gap || Tasks(q.chain) == []
  {
    PopStepKeepsInv(q, pop);
  }

  lemma OwnedCount(s: State, p: Place, o: Oid)
    requires Inv(s) && p in s.frames && s.frames[p].cur == o && s.frames[p].pc.Popping? && o in s.objs
    ensures s.objs[o].count > 0 && s.objs[o].count == |s.objs[o].counted| + |Tasks(s.objs[o].q.chain)|
    ensures !s.frames[p].pc.pop.Returned?
  {
    hide FlagPart, TaskPart, QueuePart, RefPart, ParkLink, Tasks, FrameReady;
    assert OwnedBy(s, p) == Some(o);
    assert CountOk(s.objs[o]);
    assert FrameShape(s, s.frames[p]);
  }

  /** A `Pop` of a flush that begins at `i` and returns null at `j` does so on an object whose count
      is positive, and overlaps with a producer that has incremented the count and not yet finished
      its push: a flush never spins on an object that nobody is dispatching to. */
  lemma FlushSpinsOnlyOnProducers(run: seq<State>, acts: seq<Action>, i: nat, j: nat, p: Place, o: Oid)
    requires IsRun(run, acts) && i < j < |acts|
    requires PopBegins(run[i], acts[i], p, o) && PopReturnsNull(run[j], acts[j], p, o)
    ensures run[j].objs[o].count > 0 && exists k :: i <= k <= j && MidDispatch(run[k], o)
  {
    hide Inv, Step, Enabled, MidDispatch, GapOf, PopReturnsNull;
    RunKeepsInv(run, acts, j);
    NullNow(run[j], acts[j], p, o);
    if !MidDispatch(run[j], o) {
      GapWasSeen(run, acts, i, j, p, o);
    }
  }
}
