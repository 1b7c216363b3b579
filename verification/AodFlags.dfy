/** The steps that set, clear and rely on the in-progress flags. */
module AodFlags {
  import opened Wrappers
  import opened MpscQueue
  import opened AodMachine
  import opened AodInvariant
  import opened AodFrame

  /** Below the top of a stack every frame is running a task. */
  ghost predicate OthersRun(s: State, p: Place) {
    forall p' :: p' in s.frames && p'.t == p.t && p' != p ==> s.frames[p'].pc.Running?
  }

  lemma OthersRunBelowTop(s: State, p: Place, f: Frame)
    requires Stacks(s) && TopFrame(s, p, f)
    ensures OthersRun(s, p)
  {
    hide FrameShape;
  }

  /** A step of thread `p.t` that changes its own flags or pending queues at will leaves the other
      frames clean. */
  lemma OthersLeaveClean(s: State, s': State, p: Place, o: Oid)
    requires ClearIsEmpty(s) && OthersRun(s, p) && Moves(s, s', p, o)
    requires forall slot: Slot :: slot.t != p.t ==> PendingOf(s', slot) == PendingOf(s, slot) && (slot in s'.inProgress <==> slot in s.inProgress)
    requires p in s'.frames ==> LeavesClean(s', p, s'.frames[p])
    ensures ClearIsEmpty(s')
  {
    forall p' | p' in s'.frames ensures LeavesClean(s', p', s'.frames[p']) {
      if p' != p {
        assert LeavesClean(s, p', s.frames[p']);
      }
    }
  }

  lemma CheckKeepsFlags(s: State, p: Place, f: Frame)
    requires OthersRun(s, p) && FlagPart(s) && TopFrame(s, p, f) && f.pc.CheckFlag?
    ensures FlagPart(DoCheck(s, p, f))
  {
    hide FlagPart;
    var s' := DoCheck(s, p, f);
    var slot := Slot(p.t, s.objs[f.obj].kind);
    if slot in s.inProgress {
      ParkingKeepsFlags(s, s', p, f.obj, slot);
    } else {
      SettingKeepsFlags(s, s', p, f.obj, slot);
    }
  }

  lemma SettingKeepsFlags(s: State, s': State, p: Place, o: Oid, slot: Slot)
    requires OthersRun(s, p) && FlagPart(s) && Moves(s, s', p, o) && slot !in s.inProgress && slot.t == p.t
    requires s'.pending == s.pending && s'.inProgress == s.inProgress[slot := p.i]
    requires FlaggedBy(s, p) == None && FlaggedBy(s', p) == Some(slot.k) && s'.frames[p].pc.Popping?
    ensures FlagPart(s')
  {
    hide OthersRun, LeavesClean;
    assert forall p' :: p' != p ==> FlaggedBy(s', p') == FlaggedBy(s, p');
    assert forall slot' :: PendingOf(s', slot') == PendingOf(s, slot');
    forall p' | FlaggedBy(s', p').Some?
      ensures Slot(p'.t, FlaggedBy(s', p').value) in s'.inProgress && s'.inProgress[Slot(p'.t, FlaggedBy(s', p').value)] == p'.i
    {
      assert p' == p || FlaggedBy(s, p').Some?;
    }
    PoppingIsClean(s', p);
    OthersLeaveClean(s, s', p, o);
  }

  lemma PoppingIsClean(s: State, p: Place)
    requires p in s.frames && s.frames[p].pc.Popping?
    ensures LeavesClean(s, p, s.frames[p])
  {
  }

  lemma ParkingKeepsFlags(s: State, s': State, p: Place, o: Oid, slot: Slot)
    requires OthersRun(s, p) && FlagPart(s) && Moves(s, s', p, o)
    requires slot in s.inProgress && slot.t == p.t && s'.inProgress == s.inProgress
    requires s'.pending == s.pending[slot := PendingOf(s, slot) + [o]]
    requires FlaggedBy(s, p) == None && p !in s'.frames
    ensures FlagPart(s')
  {
    hide OthersRun, LeavesClean;
    assert forall p' :: FlaggedBy(s', p') == FlaggedBy(s, p');
    forall slot' | PendingOf(s', slot') != [] ensures slot' in s'.inProgress {
      assert slot' == slot || PendingOf(s, slot') != [];
    }
    OthersLeaveClean(s, s', p, o);
  }

  lemma DrainKeepsFlags(s: State, p: Place, f: Frame)
    requires OthersRun(s, p) && FlagPart(s) && TopFrame(s, p, f) && f.pc.DrainTest?
    requires forall o :: o in PendingOf(s, Slot(p.t, s.objs[f.obj].kind)) ==> o in s.objs
    ensures FlagPart(DoDrain(s, p, f))
  {
    hide FlagPart;
    var s' := DoDrain(s, p, f);
    var todo := PendingOf(s, Slot(p.t, s.objs[f.obj].kind));
    if todo == [] {
      FlagPartKept(s, s', p, f.obj);
    } else {
      TakingPendingKeepsFlags(s, s', p, todo[0], Slot(p.t, s.objs[f.obj].kind));
    }
  }

  lemma TakingPendingKeepsFlags(s: State, s': State, p: Place, o: Oid, slot: Slot)
    requires OthersRun(s, p) && FlagPart(s) && Moves(s, s', p, o) && slot.t == p.t && PendingOf(s, slot) != []
    requires s'.pending == s.pending[slot := PendingOf(s, slot)[1..]] && s'.inProgress == s.inProgress
    requires FlaggedBy(s, p) == FlaggedBy(s', p) && p in s'.frames && s'.frames[p].pc.Popping?
    ensures FlagPart(s')
  {
    hide OthersRun, LeavesClean;
    assert forall p' :: FlaggedBy(s', p') == FlaggedBy(s, p');
    assert forall slot' :: PendingOf(s', slot') != [] ==> PendingOf(s, slot') != [];
    PoppingIsClean(s', p);
    OthersLeaveClean(s, s', p, o);
  }

  lemma ClearKeepsFlags(s: State, p: Place, f: Frame)
    requires OthersRun(s, p) && FlagPart(s) && TopFrame(s, p, f) && f.pc.ClearFlag?
    ensures FlagPart(DoClear(s, p, f))
  {
    hide OthersRun;
    var s' := DoClear(s, p, f);
    var slot := Slot(p.t, s.objs[f.obj].kind);
    assert LeavesClean(s, p, f);
    assert FlaggedBy(s, p) == Some(slot.k) && FlaggedBy(s', p) == None;
    assert forall p' :: p' != p ==> FlaggedBy(s', p') == FlaggedBy(s, p');
    assert forall slot' :: PendingOf(s', slot') == PendingOf(s, slot');
    OthersLeaveClean(s, s', p, f.obj);
  }
}
