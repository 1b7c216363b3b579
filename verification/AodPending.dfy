/** In which order parked objects are flushed. */
module AodPending {
  import opened MpscQueue
  import opened AodMachine
  import opened AodSteps
  import opened AodTheorems

  /** Thread `a.t` is at the statement `pc` of a frame on an object of the kind of `slot`, which is its own. */
  ghost predicate At(s: State, a: Action, slot: Slot, pc: Pc) {
    && a.Advance? && Depth(s, a.t) > 0 && Top(s, a.t) in s.frames && s.frames[Top(s, a.t)].pc == pc
    && s.frames[Top(s, a.t)].obj in s.objs && slot == Slot(a.t, s.objs[s.frames[Top(s, a.t)].obj].kind)
  }

  /** The object that is parked by a step: `Dispatch` on it finds the flag of its kind set. */
  ghost function Parks(s: State, a: Action, slot: Slot): seq<Oid> {
    if At(s, a, slot, CheckFlag) && slot in s.inProgress then [s.frames[Top(s, a.t)].obj] else []
  }

  /** The object whose flush a step of the loop over the pending queue begins. */
  ghost function Takes(s: State, a: Action, s': State, slot: Slot): seq<Oid> {
    if At(s, a, slot, DrainTest) && Top(s, a.t) in s'.frames && s'.frames[Top(s, a.t)].pc.Popping? then [s'.frames[Top(s, a.t)].cur] else []
  }

  ghost function AllParked(run: seq<State>, acts: seq<Action>, slot: Slot): seq<Oid>
    requires |run| == |acts| + 1
  {
    var n := |acts| - 1;
    if acts == [] then [] else AllParked(run[..n + 1], acts[..n], slot) + Parks(run[n], acts[n], slot)
  }

  ghost function AllTaken(run: seq<State>, acts: seq<Action>, slot: Slot): seq<Oid>
    requires |run| == |acts| + 1
  {
    var n := |acts| - 1;
    if acts == [] then [] else AllTaken(run[..n + 1], acts[..n], slot) + Takes(run[n], acts[n], run[n + 1], slot)
  }

  lemma PushLeaves(s: State, p: Place, f: Frame)
    requires FrameReady(s, f)
    ensures DoReset(s, p, f).pending == s.pending && DoIncrement(s, p, f).pending == s.pending && DoAcquire(s, p, f).pending == s.pending
    ensures f.pc.ExchangeHead? ==> DoExchange(s, p, f).pending == s.pending
    ensures f.pc.LinkPrev? ==> DoLink(s, p, f).pending == s.pending
  {
    hide Exchange, Link, ResetNext, Acquire;
  }

  lemma FlushLeaves(s: State, p: Place, f: Frame)
    requires FrameReady(s, f)
    ensures f.pc.Popping? ==> DoPop(s, p, f).pending == s.pending
    ensures f.pc.FreeTask? ==> DoFree(s, p, f).pending == s.pending
    ensures DoDecrement(s, p, f).pending == s.pending && DoReleaseDrained(s, p, f).pending == s.pending
    ensures DoClear(s, p, f).pending == s.pending && DoReleaseSelf(s, p, f).pending == s.pending
  {
    hide PopStep, Release;
  }

  /** The other statements leave every pending queue alone. */
  lemma OthersLeave(s: State, p: Place, f: Frame, slot: Slot)
    requires FrameReady(s, f) && !f.pc.CheckFlag? && !f.pc.DrainTest?
    ensures PendingOf(AdvanceFrame(s, p, f), slot) == PendingOf(s, slot)
  {
    hide DoReset, DoIncrement, DoExchange, DoLink, DoAcquire, DoCheck, DoPop, DoFree, DoDecrement, DoReleaseDrained, DoDrain, DoClear,
         DoReleaseSelf;
    PushLeaves(s, p, f);
    FlushLeaves(s, p, f);
  }

  lemma AdvanceMoves(s: State, t: Tid, slot: Slot)
    requires Enabled(s, Advance(t))
    ensures var a, s' := Advance(t), Step(s, Advance(t));
            Takes(s, a, s', slot) + PendingOf(s', slot) == PendingOf(s, slot) + Parks(s, a, slot)
  {
    hide DoReset, DoIncrement, DoExchange, DoLink, DoAcquire, DoCheck, DoPop, DoFree, DoDecrement, DoReleaseDrained, DoDrain, DoClear,
         DoReleaseSelf, PendingOf;
    var p := Top(s, t);
    var f := s.frames[p];
    if f.pc.CheckFlag? {
      CheckParks(s, p, f, slot);
    } else if f.pc.DrainTest? {
      DrainTakes(s, p, f, slot);
    } else {
      OthersLeave(s, p, f, slot);
    }
  }

  lemma StepMoves(s: State, a: Action, slot: Slot)
    requires Enabled(s, a)
    ensures Takes(s, a, Step(s, a), slot) + PendingOf(Step(s, a), slot) == PendingOf(s, slot) + Parks(s, a, slot)
  {
    hide AdvanceFrame, Acquire, Release;
    if a.Advance? {
      AdvanceMoves(s, a.t, slot);
    }
  }

  /** Over any run, the objects parked on a thread for a kind are flushed in the order in which they were
      parked; those that have not been are in the pending queue, in that order. */
  lemma {:induction false} FlushedInOrder(run: seq<State>, acts: seq<Action>, slot: Slot)
    requires IsRun(run, acts)
    ensures AllTaken(run, acts, slot) + PendingOf(run[|acts|], slot) == AllParked(run, acts, slot)
  {
    hide Step, Enabled, Parks, Takes;
    if acts != [] {
      var n := |acts| - 1;
      assert forall i :: 0 <= i <= n ==> run[..n + 1][i] == run[i];
      FlushedInOrder(run[..n + 1], acts[..n], slot);
      StepMoves(run[n], acts[n], slot);
      var before, takes, after := AllTaken(run[..n + 1], acts[..n], slot), Takes(run[n], acts[n], run[n + 1], slot), PendingOf(run[n + 1], slot);
      assert (before + takes) + after == before + (takes + after);
      assert AllTaken(run, acts, slot) == before + takes;
    }
  }
}
