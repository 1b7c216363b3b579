/** The steps that take, hand over and release references. */
module AodReferences {
  import opened Wrappers
  import opened MpscQueue
  import opened AodMachine
  import opened AodInvariant
  import opened AodFrame

  lemma AcquireKeepsRefs(s: State, p: Place, f: Frame)
    requires RefPart(s) && TopFrame(s, p, f) && f.pc.AcquireSelf? && !s.objs[f.obj].destroyed && !f.drained
    ensures RefPart(DoAcquire(s, p, f))
  {
    hide RefPart;
    HoldersKnown(s, f.obj);
    RefPartMoves(s, DoAcquire(s, p, f), p, f.obj);
  }

  lemma ParkKeepsRefs(s: State, p: Place, f: Frame)
    requires RefPart(s) && TopFrame(s, p, f) && f.pc.CheckFlag? && !f.drained
    requires s.objs[f.obj].owner == AtFrame(p) && Slot(p.t, s.objs[f.obj].kind) in s.inProgress
    ensures RefPart(DoCheck(s, p, f))
  {
    hide RefPart;
    HoldersKnown(s, f.obj);
    assert SelfHolds(s, p, f.obj);
    RefPartMoves(s, DoCheck(s, p, f), p, f.obj);
  }

  lemma FreeKeepsRefs(s: State, p: Place, f: Frame)
    requires RefPart(s) && TopFrame(s, p, f) && f.pc.FreeTask?
    requires f.pc.n in s.tasks && s.tasks[f.pc.n] == TaskRec(f.cur, Popped(p))
    ensures RefPart(DoFree(s, p, f))
  {
    hide RefPart;
    HoldersKnown(s, f.cur);
    assert TaskHolds(s, f.pc.n, f.cur);
    RefPartMoves(s, DoFree(s, p, f), p, f.cur);
  }

  lemma ReleaseDrainedKeepsRefs(s: State, p: Place, f: Frame)
    requires RefPart(s) && TopFrame(s, p, f) && f.pc.ReleaseDrained? && f.drained
    ensures RefPart(DoReleaseDrained(s, p, f))
  {
    hide RefPart;
    HoldersKnown(s, f.cur);
    assert DrainedHolds(s, p, f.cur);
    RefPartMoves(s, DoReleaseDrained(s, p, f), p, f.cur);
  }

  lemma ReleaseSelfKeepsRefs(s: State, p: Place, f: Frame)
    requires RefPart(s) && TopFrame(s, p, f) && f.pc.ReleaseSelf?
    ensures RefPart(DoReleaseSelf(s, p, f))
  {
    hide RefPart;
    HoldersKnown(s, f.obj);
    assert SelfHolds(s, p, f.obj);
    RefPartMoves(s, DoReleaseSelf(s, p, f), p, f.obj);
  }

  lemma DrainKeepsRefs(s: State, p: Place, f: Frame)
    requires RefPart(s) && TopFrame(s, p, f) && f.pc.DrainTest?
    requires forall o :: o in PendingOf(s, Slot(p.t, s.objs[f.obj].kind)) ==> IsParked(s, Slot(p.t, s.objs[f.obj].kind), o)
    ensures RefPart(DoDrain(s, p, f))
  {
    hide RefPart;
    var s' := DoDrain(s, p, f);
    var todo := PendingOf(s, Slot(p.t, s.objs[f.obj].kind));
    if todo == [] {
      RefPartKept(s, s', p, f.obj);
    } else {
      var o := todo[0];
      assert IsParked(s, Slot(p.t, s.objs[f.obj].kind), o);
      TakingPendingKeepsRefs(s, s', p, o);
    }
  }

  lemma TakingPendingKeepsRefs(s: State, s': State, p: Place, o: Oid)
    requires RefPart(s) && Moves(s, s', p, o) && s'.tasks == s.tasks && p in s.frames && s.frames[p].pc.DrainTest?
    requires p in s'.frames && s'.frames[p] == s.frames[p].(cur := o, drained := true, pc := Popping(Start))
    requires s.objs[o].owner == Parked(p.t)
    requires s'.objs[o] == Hand(s.objs[o], OfParked(p.t), Drained(p)).(owner := AtFrame(p))
    ensures RefPart(s')
  {
    hide RefPart;
    HoldersKnown(s, o);
    assert !DrainedHolds(s, p, o);
    RefPartMoves(s, s', p, o);
  }
}
