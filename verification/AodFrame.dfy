/** What a step leaves alone: each part of the invariant is kept by every step that does not
    touch what the part speaks of. */
module AodFrame {
  import opened Wrappers
  import opened MpscQueue
  import opened AodMachine
  import opened AodInvariant

  lemma ShapeKept(s: State, s': State, p: Place, o: Oid, f: Frame)
    requires FrameShape(s, f) && Moves(s, s', p, o) && TopMoves(s, s', p)
    ensures FrameShape(s', f)
  {
  }

  lemma StacksKept(s: State, s': State, p: Place, o: Oid)
    requires Stacks(s) && Moves(s, s', p, o) && TopMoves(s, s', p)
    ensures Stacks(s')
  {
    hide FrameShape;
    forall p' | p' in s'.frames ensures FrameShape(s', s'.frames[p']) {
      if p' != p {
        ShapeKept(s, s', p, o, s.frames[p']);
      }
    }
  }

  // ---- ownership

  lemma OwnLinkKept(s: State, s': State, p: Place, o: Oid)
    requires OwnLink(s) && Moves(s, s', p, o)
    requires s'.objs[o].owner == s.objs[o].owner && OwnedBy(s', p) == OwnedBy(s, p)
    ensures OwnLink(s')
  {
    assert forall p' :: OwnedBy(s', p') == OwnedBy(s, p');
  }

  lemma ParkLinkKept(s: State, s': State, p: Place, o: Oid)
    requires ParkLink(s) && Moves(s, s', p, o) && s'.pending == s.pending
    requires s'.objs[o].owner == s.objs[o].owner
    ensures ParkLink(s')
  {
    assert forall slot :: PendingOf(s', slot) == PendingOf(s, slot);
    assert forall slot, o' :: IsParked(s', slot, o') <==> IsParked(s, slot, o');
  }

  lemma BusyLinkKept(s: State, s': State, p: Place, o: Oid)
    requires BusyLink(s) && Moves(s, s', p, o)
    requires s'.objs[o].owner == s.objs[o].owner && s'.objs[o].busy == s.objs[o].busy
    requires TakingAt(s', p) <==> TakingAt(s, p)
    ensures BusyLink(s')
  {
  }

  lemma OwnersKept(s: State, s': State, p: Place, o: Oid)
    requires Owners(s) && Moves(s, s', p, o) && s'.pending == s.pending
    requires s'.objs[o].owner == s.objs[o].owner && OwnedBy(s', p) == OwnedBy(s, p)
    requires s'.objs[o].busy == s.objs[o].busy && CountOk(s'.objs[o])
    requires TakingAt(s', p) <==> TakingAt(s, p)
    ensures Owners(s')
  {
    OwnLinkKept(s, s', p, o);
    ParkLinkKept(s, s', p, o);
    BusyLinkKept(s, s', p, o);
  }

  // ---- flags

  lemma FlagPartKept(s: State, s': State, p: Place, o: Oid)
    requires FlagPart(s) && Moves(s, s', p, o) && s'.pending == s.pending && s'.inProgress == s.inProgress
    requires FlaggedBy(s', p) == FlaggedBy(s, p)
    requires p in s'.frames ==> LeavesClean(s', p, s'.frames[p])
    ensures FlagPart(s')
  {
    assert forall p' :: FlaggedBy(s', p') == FlaggedBy(s, p');
    assert forall slot :: PendingOf(s', slot) == PendingOf(s, slot);
    forall p' | p' in s'.frames ensures LeavesClean(s', p', s'.frames[p']) {
      if p' != p {
        assert LeavesClean(s, p', s.frames[p']);
      }
    }
  }

  // ---- tasks

  lemma TaskLinkKept(s: State, s': State, p: Place, o: Oid)
    requires TaskLink(s) && Moves(s, s', p, o) && s'.tasks == s.tasks && InHand(s', p) == InHand(s, p)
    ensures TaskLink(s')
  {
    assert forall p' :: InHand(s', p') == InHand(s, p');
  }

  lemma TaskPartKept(s: State, s': State, p: Place, o: Oid)
    requires TaskPart(s) && Moves(s, s', p, o) && s'.tasks == s.tasks && InHand(s', p) == InHand(s, p)
    requires s'.objs[o].counted == s.objs[o].counted
    requires forall n :: Task(n) in s'.objs[o].q.links <==> Task(n) in s.objs[o].q.links
    requires forall n :: Task(n) in s'.objs[o].q.chain <==> Task(n) in s.objs[o].q.chain
    requires s'.objs[o].q.pushed == s.objs[o].q.pushed
    requires p in s'.frames ==> TaskProgress(s', s'.frames[p])
    ensures TaskPart(s')
  {
    TaskLinkKept(s, s', p, o);
    StageLinkKept(s, s', p, o);
    forall p' | p' in s'.frames ensures TaskProgress(s', s'.frames[p']) {
      if p' != p {
        assert TaskProgress(s, s.frames[p']);
      }
    }
  }

  lemma StageLinkKept(s: State, s': State, p: Place, o: Oid)
    requires StageLink(s) && PushedLink(s) && Moves(s, s', p, o) && s'.tasks == s.tasks
    requires s'.objs[o].counted == s.objs[o].counted
    requires forall n :: Task(n) in s'.objs[o].q.links <==> Task(n) in s.objs[o].q.links
    requires forall n :: Task(n) in s'.objs[o].q.chain <==> Task(n) in s.objs[o].q.chain
    requires s'.objs[o].q.pushed == s.objs[o].q.pushed
    ensures StageLink(s') && PushedLink(s')
  {
    assert forall o', n :: IsCounted(s', o', n) <==> IsCounted(s, o', n);
    assert forall o', n :: IsLinking(s', o', n) <==> IsLinking(s, o', n);
    assert forall o', n :: IsQueued(s', o', n) <==> IsQueued(s, o', n);
    assert forall o', n :: WasPushed(s', o', n) <==> WasPushed(s, o', n);
  }

  // ---- queues

  lemma QueuePartKept(s: State, s': State, p: Place, o: Oid)
    requires QueuePart(s) && Moves(s, s', p, o)
    requires s'.objs[o].q == s.objs[o].q && s'.objs[o].owner == s.objs[o].owner
    requires PopAt(s', p) == PopAt(s, p)
    requires p in s'.frames ==> PushLocals(s', s'.frames[p])
    ensures QueuePart(s')
  {
    hide QueueOk;
    forall o' | o' in s'.objs ensures QueueOk(s'.objs[o'].q, ConsumerOf(s', o')) {
      assert ConsumerOf(s', o') == ConsumerOf(s, o');
    }
    forall p' | p' in s'.frames ensures PushLocals(s', s'.frames[p']) {
      if p' != p {
        assert PushLocals(s, s.frames[p']);
      }
    }
  }

  // ---- references

  /** Other objects' references come from the same tasks and frames as before. */
  ghost predicate SameElsewhere(s: State, s': State, p: Place, o: Oid) {
    && (forall n, o' :: o' != o ==> (TaskHolds(s', n, o') <==> TaskHolds(s, n, o')))
    && (forall o' :: o' != o ==> (SelfHolds(s', p, o') <==> SelfHolds(s, p, o')))
    && (forall o' :: o' != o ==> (DrainedHolds(s', p, o') <==> DrainedHolds(s, p, o')))
  }

  lemma RefPartMoves(s: State, s': State, p: Place, o: Oid)
    requires RefPart(s) && Moves(s, s', p, o) && SameElsewhere(s, s', p, o) && RefsOk(s'.objs[o])
    requires Managed(s, o) ==> forall n :: OfTask(n) in s'.objs[o].holders <==> TaskHolds(s', n, o)
    requires Managed(s, o) ==> forall p' :: Self(p') in s'.objs[o].holders <==> if p' == p then SelfHolds(s', p, o) else Self(p') in s.objs[o].holders
    requires Managed(s, o) ==> forall p' :: Drained(p') in s'.objs[o].holders <==> if p' == p then DrainedHolds(s', p, o) else Drained(p') in s.objs[o].holders
    requires Managed(s, o) ==> forall t :: OfParked(t) in s'.objs[o].holders <==> s'.objs[o].owner == Parked(t)
    ensures RefPart(s')
  {
    assert forall o' :: Managed(s', o') <==> Managed(s, o');
    assert forall p', o' :: p' != p ==> (SelfHolds(s', p', o') <==> SelfHolds(s, p', o'));
    assert forall p', o' :: p' != p ==> (DrainedHolds(s', p', o') <==> DrainedHolds(s, p', o'));
  }

  lemma HoldersKnown(s: State, o: Oid)
    requires RefPart(s) && o in s.objs
    ensures RefsOk(s.objs[o])
    ensures Managed(s, o) ==> forall n :: OfTask(n) in s.objs[o].holders <==> TaskHolds(s, n, o)
    ensures Managed(s, o) ==> forall p :: Self(p) in s.objs[o].holders <==> SelfHolds(s, p, o)
    ensures Managed(s, o) ==> forall p :: Drained(p) in s.objs[o].holders <==> DrainedHolds(s, p, o)
    ensures Managed(s, o) ==> forall t :: OfParked(t) in s.objs[o].holders <==> s.objs[o].owner == Parked(t)
  {
  }

  /** A step that neither takes nor releases nor renames a reference. */
  lemma RefPartKept(s: State, s': State, p: Place, o: Oid)
    requires RefPart(s) && Moves(s, s', p, o)
    requires s'.objs[o].holders == s.objs[o].holders && s'.objs[o].refs == s.objs[o].refs && s'.objs[o].destroyed == s.objs[o].destroyed
    requires s'.objs[o].owner.Parked? || s.objs[o].owner.Parked? ==> s'.objs[o].owner == s.objs[o].owner
    requires forall n, o' :: TaskHolds(s', n, o') <==> TaskHolds(s, n, o')
    requires forall o' :: SelfHolds(s', p, o') <==> SelfHolds(s, p, o')
    requires forall o' :: DrainedHolds(s', p, o') <==> DrainedHolds(s, p, o')
    ensures RefPart(s')
  {
    hide RefPart, RefsOk;
    HoldersKnown(s, o);
    RefPartMoves(s, s', p, o) by {
      assert RefsOk(s'.objs[o]) by { RefsOkKept(s.objs[o], s'.objs[o]); }
    }
  }

  lemma RefsOkKept(ob: Obj, ob': Obj)
    requires RefsOk(ob) && ob'.holders == ob.holders && ob'.refs == ob.refs && ob'.destroyed == ob.destroyed && ob'.kind == ob.kind
    ensures RefsOk(ob')
  {
  }

  // ---- a step of `Pop`

  predicate IsPush(pc: Pc) {
    pc.ResetTask? || pc.Increment? || pc.ExchangeHead? || pc.LinkPrev?
  }

  /** What a step of `Pop` does to the object and to the frame. */
  lemma PopChanges(s: State, p: Place, f: Frame)
    requires TopFrame(s, p, f) && f.pc.Popping?
    ensures var s', ob, (q, pop) := DoPop(s, p, f), s.objs[f.cur], PopStep(s.objs[f.cur].q, f.pc.pop);
            && Moves(s, s', p, f.cur) && f.cur in s'.objs && s'.pending == s.pending && OwnedBy(s', p) == Some(f.cur)
            && s'.objs[f.cur] == ob.(q := q, busy := ob.busy || (pop.Returned? && pop.r.Task?))
            && (TakingAt(s', p) <==> pop.Returned? && pop.r.Task?)
            && p in s'.frames && !IsPush(s'.frames[p].pc)
            && PopAt(s', p) == (if pop.Returned? then Start else pop)
  {
    hide PopStep;
  }
}
