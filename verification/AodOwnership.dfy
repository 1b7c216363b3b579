/** The steps that change who owns an object, and the counts. */
module AodOwnership {
  import opened Wrappers
  import opened MpscQueue
  import opened AodMachine
  import opened AodInvariant
  import opened AodFrame

  /** The parts of the ownership invariant, and the count of one object. */
  lemma OwnersParts(s: State, o: Oid)
    requires Owners(s) && o in s.objs
    ensures OwnLink(s) && ParkLink(s) && BusyLink(s) && CountOk(s.objs[o])
  {
    hide OwnLink, ParkLink, BusyLink, CountOk;
  }

  /** ... which come from those of the state before, when only object `o` changes. */
  lemma OwnersFromParts(s: State, s': State, p: Place, o: Oid)
    requires Owners(s) && Moves(s, s', p, o) && OwnLink(s') && ParkLink(s') && BusyLink(s') && CountOk(s'.objs[o])
    ensures Owners(s')
  {
    hide OwnLink, ParkLink, BusyLink, CountOk;
  }

  lemma IncrementKeepsOwners(s: State, p: Place, f: Frame)
    requires Owners(s) && TopFrame(s, p, f) && f.pc.Increment? && f.cur == f.obj
    requires f.task !in s.objs[f.obj].counted
    ensures Owners(DoIncrement(s, p, f))
  {
    hide Tasks;
    var s' := DoIncrement(s, p, f);
    var ob := s.objs[f.obj];
    assert CountOk(ob);
    assert CountOk(s'.objs[f.obj]);
    if ob.count == 0 {
      ElectionKeepsLinks(s, s', p, f.obj);
    } else {
      OwnersKept(s, s', p, f.obj);
    }
  }

  lemma ElectionKeepsLinks(s: State, s': State, p: Place, o: Oid)
    requires OwnLink(s) && ParkLink(s) && BusyLink(s) && Moves(s, s', p, o) && s'.pending == s.pending
    requires s.objs[o].owner == NoOwner && s'.objs[o].owner == AtFrame(p) && s'.objs[o].busy == s.objs[o].busy
    requires OwnedBy(s, p) == None && OwnedBy(s', p) == Some(o) && !TakingAt(s', p) && !TakingAt(s, p)
    ensures OwnLink(s') && ParkLink(s') && BusyLink(s')
  {
    assert forall p' :: p' != p ==> OwnedBy(s', p') == OwnedBy(s, p');
    assert forall slot :: PendingOf(s', slot) == PendingOf(s, slot);
    assert forall slot, o' :: IsParked(s', slot, o') <==> IsParked(s, slot, o');
  }

  lemma ExchangeKeepsOwners(s: State, p: Place, f: Frame)
    requires Owners(s) && TopFrame(s, p, f) && f.pc.ExchangeHead?
    requires f.task in s.objs[f.obj].counted
    ensures Owners(DoExchange(s, p, f))
  {
    var s' := DoExchange(s, p, f);
    var ob := s.objs[f.obj];
    assert CountOk(ob);
    TasksConcat(ob.q.chain, [Task(f.task)]);
    assert Tasks([Task(f.task)]) == [f.task];
    OwnersKept(s, s', p, f.obj);
  }

  lemma ParkKeepsOwners(s: State, p: Place, f: Frame)
    requires Owners(s) && TopFrame(s, p, f) && f.pc.CheckFlag? && f.cur == f.obj
    requires Slot(p.t, s.objs[f.obj].kind) in s.inProgress
    ensures Owners(DoCheck(s, p, f))
  {
    hide Tasks;
    var s' := DoCheck(s, p, f);
    var slot := Slot(p.t, s.objs[f.obj].kind);
    assert OwnedBy(s, p) == Some(f.obj);
    assert CountOk(s.objs[f.obj]);
    ParkingKeepsLinks(s, s', p, f.obj, slot);
  }

  lemma ParkingKeepsLinks(s: State, s': State, p: Place, o: Oid, slot: Slot)
    requires OwnLink(s) && ParkLink(s) && BusyLink(s) && Moves(s, s', p, o) && slot == Slot(p.t, s.objs[o].kind)
    requires s'.pending == s.pending[slot := PendingOf(s, slot) + [o]]
    requires s'.objs[o].owner == Parked(p.t) && s'.objs[o].busy == s.objs[o].busy
    requires OwnedBy(s, p) == Some(o) && OwnedBy(s', p) == None && !TakingAt(s, p)
    ensures OwnLink(s') && ParkLink(s') && BusyLink(s')
  {
    assert forall p' :: p' != p ==> OwnedBy(s', p') == OwnedBy(s, p');
    assert !IsParked(s, slot, o);
    forall slot', o' ensures o' in PendingOf(s', slot') <==> IsParked(s', slot', o') {
      assert o' in PendingOf(s, slot') <==> IsParked(s, slot', o');
    }
    forall slot' ensures NoDup(PendingOf(s', slot')) {
      assert NoDup(PendingOf(s, slot'));
    }
  }

  lemma PopKeepsOwners(s: State, p: Place, f: Frame)
    requires Owners(s) && TopFrame(s, p, f) && f.pc.Popping?
    requires QInv(s.objs[f.cur].q) && PcInv(s.objs[f.cur].q, f.pc.pop) && !f.pc.pop.Returned?
    ensures Owners(DoPop(s, p, f))
  {
    hide Owners, OwnLink, ParkLink, BusyLink, CountOk, QInv, PcInv, PopStep, DoPop, Moves, TakingAt;
    var s' := DoPop(s, p, f);
    PopChanges(s, p, f);
    OwnersParts(s, f.cur);
    OwnerIsIdle(s, p, f);
    PopStepCounts(s.objs[f.cur].q, f.pc.pop);
    PoppedCount(s.objs[f.cur], s'.objs[f.cur]);
    PopLinksKept(s, s', p, f.cur);
    OwnersFromParts(s, s', p, f.cur);
  }

  lemma OwnerIsIdle(s: State, p: Place, f: Frame)
    requires OwnLink(s) && BusyLink(s) && TopFrame(s, p, f) && f.pc.Popping?
    ensures OwnedBy(s, p) == Some(f.cur) && !s.objs[f.cur].busy && s.objs[f.cur].owner == AtFrame(p)
  {
    assert OwnedBy(s, p) == Some(f.cur);
  }

  lemma PoppedCount(ob: Obj, ob': Obj)
    requires CountOk(ob) && !ob.busy && ob'.counted == ob.counted && ob'.count == ob.count && ob'.owner == ob.owner
    requires |Tasks(ob.q.chain)| == |Tasks(ob'.q.chain)| + if ob'.busy then 1 else 0
    ensures CountOk(ob')
  {
  }

  /** A step of `Pop` takes a task off the chain exactly when it returns it. */
  lemma PopStepCounts(q: Queue, pop: PopPc)
    requires QInv(q) && PcInv(q, pop) && !pop.Returned?
    ensures var (q', pop') := PopStep(q, pop);
            if pop'.Returned? && pop'.r.Task? then Tasks(q.chain) == [pop'.r.id] + Tasks(q'.chain) else Tasks(q'.chain) == Tasks(q.chain)
  {
    if pop.PushStub? {
      TasksConcat(q.chain, [Stub]);
    }
  }

  lemma PopLinksKept(s: State, s': State, p: Place, o: Oid)
    requires OwnLink(s) && ParkLink(s) && BusyLink(s) && Moves(s, s', p, o) && s'.pending == s.pending
    requires OwnedBy(s, p) == Some(o) && OwnedBy(s', p) == Some(o) && s'.objs[o].owner == s.objs[o].owner
    requires s'.objs[o].busy <==> TakingAt(s', p)
    ensures OwnLink(s') && ParkLink(s') && BusyLink(s')
  {
    OwnLinkKept(s, s', p, o);
    ParkLinkKept(s, s', p, o);
  }

  lemma DecrementKeepsOwners(s: State, p: Place, f: Frame)
    requires Owners(s) && TopFrame(s, p, f) && f.pc.Decrement?
    ensures Owners(DoDecrement(s, p, f))
  {
    hide Owners, OwnLink, ParkLink, BusyLink, CountOk;
    var s' := DoDecrement(s, p, f);
    OwnersParts(s, f.cur);
    OwnerIsBusy(s, p, f);
    DecrementedCount(s.objs[f.cur], s'.objs[f.cur]);
    if s.objs[f.cur].count == 1 {
      ResigningKeepsLinks(s, s', p, f.cur);
    } else {
      PopLinksKept(s, s', p, f.cur);
    }
    OwnersFromParts(s, s', p, f.cur);
  }

  lemma OwnerIsBusy(s: State, p: Place, f: Frame)
    requires OwnLink(s) && BusyLink(s) && TopFrame(s, p, f) && f.pc.Decrement?
    ensures OwnedBy(s, p) == Some(f.cur) && s.objs[f.cur].busy && s.objs[f.cur].owner == AtFrame(p)
  {
    assert OwnedBy(s, p) == Some(f.cur);
  }

  lemma DecrementedCount(ob: Obj, ob': Obj)
    requires CountOk(ob) && ob.busy && ob.owner != NoOwner && !ob'.busy && ob'.counted == ob.counted && ob'.q == ob.q
    requires ob'.count == (if ob.count == 0 then 0 else ob.count - 1) && ob'.owner == if ob.count == 1 then NoOwner else ob.owner
    ensures CountOk(ob')
  {
  }

  lemma ResigningKeepsLinks(s: State, s': State, p: Place, o: Oid)
    requires OwnLink(s) && ParkLink(s) && BusyLink(s) && Moves(s, s', p, o) && s'.pending == s.pending
    requires OwnedBy(s, p) == Some(o) && OwnedBy(s', p) == None && s'.objs[o].owner == NoOwner && !s'.objs[o].busy
    ensures OwnLink(s') && ParkLink(s') && BusyLink(s')
  {
    assert forall p' :: p' != p ==> OwnedBy(s', p') == OwnedBy(s, p');
    assert forall slot :: PendingOf(s', slot) == PendingOf(s, slot);
    assert forall slot, o' :: IsParked(s', slot, o') <==> IsParked(s, slot, o');
  }

  lemma ParkedWaits(s: State, slot: Slot)
    requires ParkLink(s) && PendingOf(s, slot) != []
    ensures IsParked(s, slot, PendingOf(s, slot)[0])
  {
  }

  lemma DrainKeepsOwners(s: State, p: Place, f: Frame)
    requires Owners(s) && TopFrame(s, p, f) && f.pc.DrainTest?
    ensures Owners(DoDrain(s, p, f))
  {
    hide Owners, OwnLink, ParkLink, BusyLink, CountOk;
    var slot := Slot(p.t, s.objs[f.obj].kind);
    OwnersParts(s, f.obj);
    if PendingOf(s, slot) == [] {
      OwnersKept(s, DoDrain(s, p, f), p, f.obj);
    } else {
      ParkedWaits(s, slot);
      TakingPendingKeepsOwners(s, p, f, slot);
    }
  }

  lemma TakingPendingKeepsOwners(s: State, p: Place, f: Frame, slot: Slot)
    requires Owners(s) && TopFrame(s, p, f) && f.pc.DrainTest? && slot == Slot(p.t, s.objs[f.obj].kind)
    requires PendingOf(s, slot) != [] && IsParked(s, slot, PendingOf(s, slot)[0])
    ensures Owners(DoDrain(s, p, f))
  {
    hide Owners, OwnLink, ParkLink, BusyLink, CountOk;
    var s', o := DoDrain(s, p, f), PendingOf(s, slot)[0];
    OwnersParts(s, o);
    assert CountOk(s'.objs[o]) by { SameCount(s.objs[o], s'.objs[o]); }
    TakingPendingKeepsLinks(s, s', p, slot);
    OwnersFromParts(s, s', p, o);
  }

  /** An object keeps its count when it goes from one owner to another. */
  lemma SameCount(ob: Obj, ob': Obj)
    requires CountOk(ob) && ob'.count == ob.count && ob'.counted == ob.counted && ob'.q == ob.q && ob'.busy == ob.busy
    requires ob.owner != NoOwner && ob'.owner != NoOwner
    ensures CountOk(ob')
  {
  }

  lemma TakingPendingKeepsLinks(s: State, s': State, p: Place, slot: Slot)
    requires OwnLink(s) && ParkLink(s) && BusyLink(s) && PendingOf(s, slot) != [] && slot.t == p.t
    requires s'.pending == s.pending[slot := PendingOf(s, slot)[1..]]
    requires var o := PendingOf(s, slot)[0];
             && Moves(s, s', p, o) && s'.objs[o].owner == AtFrame(p) && s'.objs[o].busy == s.objs[o].busy
             && OwnedBy(s, p) == None && OwnedBy(s', p) == Some(o) && !TakingAt(s', p) && !TakingAt(s, p)
    ensures OwnLink(s') && ParkLink(s') && BusyLink(s')
  {
    var o := PendingOf(s, slot)[0];
    assert IsParked(s, slot, o);
    assert forall p' :: p' != p ==> OwnedBy(s', p') == OwnedBy(s, p');
    forall slot', o' ensures o' in PendingOf(s', slot') <==> IsParked(s', slot', o') {
      assert o' in PendingOf(s, slot') <==> IsParked(s, slot', o');
      if slot' == slot {
        assert PendingOf(s, slot) == [o] + PendingOf(s', slot);
      }
    }
    forall slot' ensures NoDup(PendingOf(s', slot')) {
      assert NoDup(PendingOf(s, slot'));
    }
  }
}
