/** The steps that move a task from one stage of its life to the next. */
module AodTasks {
  import opened Wrappers
  import opened MpscQueue
  import opened AodMachine
  import opened AodInvariant
  import opened AodFrame

  /** Only the record of task `n` of object `o` changes, from one stage to another. */
  ghost predicate StageMoves(s: State, s': State, o: Oid, n: nat, at: Stage) {
    && n in s.tasks && s.tasks[n].parent == o && s.tasks[n].at != Freed && !at.Created?
    && s'.tasks == s.tasks[n := TaskRec(o, at)]
  }

  lemma TaskLinkMoves(s: State, s': State, p: Place, o: Oid, n: nat, at: Stage)
    requires TaskLink(s) && Moves(s, s', p, o) && StageMoves(s, s', o, n, at)
    requires HasPlace(s.tasks[n].at) ==> s.tasks[n].at.p == p
    requires InHand(s, p) == if HasPlace(s.tasks[n].at) then Some((n, s.tasks[n])) else None
    requires HasPlace(at) ==> at.p == p
    requires InHand(s', p) == if HasPlace(at) then Some((n, TaskRec(o, at))) else None
    ensures TaskLink(s')
  {
    assert forall p' :: p' != p ==> InHand(s', p') == InHand(s, p');
    forall p' | InHand(s', p').Some?
      ensures InHand(s', p').value.0 in s'.tasks && s'.tasks[InHand(s', p').value.0] == InHand(s', p').value.1
    {
      if p' != p {
        assert InHand(s, p').value.1.at.p == p';
      }
    }
  }

  lemma StageLinkMoves(s: State, s': State, p: Place, o: Oid, n: nat, at: Stage)
    requires StageLink(s) && Moves(s, s', p, o) && StageMoves(s, s', o, n, at)
    requires forall m :: m in s'.objs[o].counted <==> if m == n then at.Counted? else m in s.objs[o].counted
    requires forall m :: Task(m) in s'.objs[o].q.links <==> if m == n then at.Linking? else Task(m) in s.objs[o].q.links
    requires forall m :: Task(m) in s'.objs[o].q.chain <==> if m == n then at.Linking? || at.Queued? else Task(m) in s.objs[o].q.chain
    ensures StageLink(s')
  {
    assert forall o', m :: !(m == n && o' == o) ==> (IsCounted(s', o', m) <==> IsCounted(s, o', m));
    assert forall o', m :: !(m == n && o' == o) ==> (IsLinking(s', o', m) <==> IsLinking(s, o', m));
    assert forall o', m :: !(m == n && o' == o) ==> (IsQueued(s', o', m) <==> IsQueued(s, o', m));
  }

  lemma PushedLinkMoves(s: State, s': State, p: Place, o: Oid, n: nat, at: Stage)
    requires PushedLink(s) && Moves(s, s', p, o) && StageMoves(s, s', o, n, at)
    requires at.Counted? ==> s.tasks[n].at.Created?
    requires s'.objs[o].q.pushed == if at.Linking? then s.objs[o].q.pushed + [n] else s.objs[o].q.pushed
    requires at.Linking? <==> !at.Counted? && !WasPushed(s, o, n)
    ensures PushedLink(s')
  {
    assert forall o', m :: !(m == n && o' == o) ==> (WasPushed(s', o', m) <==> WasPushed(s, o', m));
    assert n in s.objs[o].q.pushed <==> WasPushed(s, o, n);
    assert NoDup(s.objs[o].q.pushed);
    forall o', m | o' in s'.objs ensures m in s'.objs[o'].q.pushed <==> WasPushed(s', o', m) {
      assert m in s.objs[o'].q.pushed <==> WasPushed(s, o', m);
    }
    assert NoDup(s'.objs[o].q.pushed);
  }

  /** Nobody else waits for the task `n` to be popped. */
  ghost predicate NoOtherWaits(s: State, p: Place, n: nat) {
    forall p' :: p' in s.frames && p' != p && s.frames[p'].task == n ==> !Waiting(s.frames[p'].pc)
  }

  lemma ProgressMoves(s: State, s': State, p: Place, o: Oid, n: nat, at: Stage)
    requires AllProgress(s) && Moves(s, s', p, o) && StageMoves(s, s', o, n, at)
    requires s.tasks[n].at.Queued? ==> NoOtherWaits(s, p, n)
    requires p in s'.frames ==> TaskProgress(s', s'.frames[p])
    ensures AllProgress(s')
  {
    forall p' | p' in s'.frames ensures TaskProgress(s', s'.frames[p']) {
      if p' != p {
        assert TaskProgress(s, s.frames[p']);
      }
    }
  }

  /** All of it together. */
  lemma TaskPartMoves(s: State, s': State, p: Place, o: Oid, n: nat, at: Stage)
    requires TaskPart(s) && Moves(s, s', p, o) && StageMoves(s, s', o, n, at)
    requires HasPlace(s.tasks[n].at) ==> s.tasks[n].at.p == p
    requires InHand(s, p) == if HasPlace(s.tasks[n].at) then Some((n, s.tasks[n])) else None
    requires HasPlace(at) ==> at.p == p
    requires InHand(s', p) == if HasPlace(at) then Some((n, TaskRec(o, at))) else None
    requires forall m :: m in s'.objs[o].counted <==> if m == n then at.Counted? else m in s.objs[o].counted
    requires forall m :: Task(m) in s'.objs[o].q.links <==> if m == n then at.Linking? else Task(m) in s.objs[o].q.links
    requires forall m :: Task(m) in s'.objs[o].q.chain <==> if m == n then at.Linking? || at.Queued? else Task(m) in s.objs[o].q.chain
    requires at.Counted? ==> s.tasks[n].at.Created?
    requires s'.objs[o].q.pushed == if at.Linking? then s.objs[o].q.pushed + [n] else s.objs[o].q.pushed
    requires at.Linking? <==> !at.Counted? && !WasPushed(s, o, n)
    requires s.tasks[n].at.Queued? ==> NoOtherWaits(s, p, n)
    requires p in s'.frames ==> TaskProgress(s', s'.frames[p])
    ensures TaskPart(s')
  {
    hide TaskLink, StageLink, PushedLink, AllProgress;
    TaskLinkMoves(s, s', p, o, n, at);
    StageLinkMoves(s, s', p, o, n, at);
    PushedLinkMoves(s, s', p, o, n, at);
    ProgressMoves(s, s', p, o, n, at);
  }

  // ---- the steps

  /** What the record of a task says about its object's queue. */
  lemma StageOf(s: State, o: Oid, n: nat)
    requires TaskPart(s) && o in s.objs
    ensures n in s.objs[o].counted <==> IsCounted(s, o, n)
    ensures Task(n) in s.objs[o].q.links <==> IsLinking(s, o, n)
    ensures Task(n) in s.objs[o].q.chain <==> IsQueued(s, o, n)
  {
    hide TaskLink, PushedLink, AllProgress;
  }

  lemma HandOf(s: State, p: Place)
    requires TaskPart(s) && p in s.frames
    ensures TaskProgress(s, s.frames[p])
    ensures InHand(s, p).Some? ==> InHand(s, p).value.0 in s.tasks && s.tasks[InHand(s, p).value.0] == InHand(s, p).value.1
  {
    hide StageLink, PushedLink;
  }

  lemma IncrementKeepsTasks(s: State, p: Place, f: Frame)
    requires TaskPart(s) && TopFrame(s, p, f) && f.pc.Increment?
    ensures TaskPart(DoIncrement(s, p, f)) && f.task !in s.objs[f.obj].counted
  {
    hide TaskPart;
    HandOf(s, p);
    StageOf(s, f.obj, f.task);
    TaskPartMoves(s, DoIncrement(s, p, f), p, f.obj, f.task, Counted(p));
  }

  lemma ExchangeKeepsTasks(s: State, p: Place, f: Frame)
    requires TaskPart(s) && TopFrame(s, p, f) && f.pc.ExchangeHead?
    ensures TaskPart(DoExchange(s, p, f)) && f.task in s.objs[f.obj].counted
  {
    hide TaskPart;
    HandOf(s, p);
    StageOf(s, f.obj, f.task);
    TaskPartMoves(s, DoExchange(s, p, f), p, f.obj, f.task, Linking(p));
  }

  lemma LinkKeepsTasks(s: State, p: Place, f: Frame)
    requires TaskPart(s) && TopFrame(s, p, f) && f.pc.LinkPrev?
    ensures TaskPart(DoLink(s, p, f))
  {
    hide TaskPart;
    HandOf(s, p);
    StageOf(s, f.obj, f.task);
    TaskPartMoves(s, DoLink(s, p, f), p, f.obj, f.task, Queued);
  }

  lemma FreeKeepsTasks(s: State, p: Place, f: Frame)
    requires TaskPart(s) && TopFrame(s, p, f) && f.pc.FreeTask? && TaskProgress(s, f)
    ensures TaskPart(DoFree(s, p, f))
  {
    hide TaskPart;
    HandOf(s, p);
    StageOf(s, f.cur, f.pc.n);
    TaskPartMoves(s, DoFree(s, p, f), p, f.cur, f.pc.n, Freed);
  }

  /** What a step of `Pop` does to the tasks in the queue. */
  lemma PopStepMembers(q: Queue, pop: PopPc)
    requires QInv(q) && PcInv(q, pop) && !pop.Returned?
    ensures var (q', pop') := PopStep(q, pop);
            && q'.pushed == q.pushed && (forall m :: Task(m) in q'.links <==> Task(m) in q.links)
            && if pop'.Returned? && pop'.r.Task? then
                 && pop'.r in q.chain && pop'.r !in q.links
                 && forall m :: Task(m) in q'.chain <==> Task(m) in q.chain && Task(m) != pop'.r
               else forall m :: Task(m) in q'.chain <==> Task(m) in q.chain
  {
    if pop.SkipStub? || pop.Take? {
      assert q.chain == [q.chain[0]] + Drop(q.chain);
    }
  }

  lemma QueuedTask(s: State, o: Oid, n: nat)
    requires TaskPart(s) && o in s.objs && Task(n) in s.objs[o].q.chain && Task(n) !in s.objs[o].q.links
    ensures n in s.tasks && s.tasks[n] == TaskRec(o, Queued) && n !in s.objs[o].counted && WasPushed(s, o, n)
  {
    assert IsQueued(s, o, n) && !IsLinking(s, o, n) && !IsCounted(s, o, n);
  }

  /** Who waits for a task owns the task's object. */
  lemma OnlyOwnerWaits(s: State, p: Place, f: Frame, n: nat)
    requires OwnLink(s) && TopFrame(s, p, f) && f.pc.Popping? && n in s.tasks && s.tasks[n].parent == f.cur
    requires forall p' :: p' in s.frames ==> FrameShape(s, s.frames[p'])
    ensures NoOtherWaits(s, p, n)
  {
    assert OwnedBy(s, p) == Some(f.cur);
    forall p' | p' in s.frames && p' != p && s.frames[p'].task == n ensures !Waiting(s.frames[p'].pc) {
      assert FrameShape(s, s.frames[p']);
      assert Waiting(s.frames[p'].pc) ==> OwnedBy(s, p') == Some(f.cur);
    }
  }

  lemma TakingKeepsTasks(s: State, p: Place, f: Frame, n: nat)
    requires TaskPart(s) && TopFrame(s, p, f) && f.pc.Popping? && TaskProgress(s, f) && NoOtherWaits(s, p, n)
    requires QInv(s.objs[f.cur].q) && PcInv(s.objs[f.cur].q, f.pc.pop) && !f.pc.pop.Returned?
    requires PopStep(s.objs[f.cur].q, f.pc.pop).1 == Returned(Task(n))
    ensures TaskPart(DoPop(s, p, f))
  {
    hide QInv, PcInv, PopStep, TaskPart, NoOtherWaits;
    PopStepMembers(s.objs[f.cur].q, f.pc.pop);
    QueuedTask(s, f.cur, n);
    TaskPartMoves(s, DoPop(s, p, f), p, f.cur, n, Popped(p));
  }

  lemma SearchingKeepsTasks(s: State, p: Place, f: Frame)
    requires TaskPart(s) && TopFrame(s, p, f) && f.pc.Popping? && TaskProgress(s, f)
    requires QInv(s.objs[f.cur].q) && PcInv(s.objs[f.cur].q, f.pc.pop) && !f.pc.pop.Returned?
    requires var pop' := PopStep(s.objs[f.cur].q, f.pc.pop).1; !(pop'.Returned? && pop'.r.Task?)
    ensures TaskPart(DoPop(s, p, f))
  {
    hide QInv, PcInv, PopStep, TaskPart;
    PopStepMembers(s.objs[f.cur].q, f.pc.pop);
    TaskPartKept(s, DoPop(s, p, f), p, f.cur);
  }

  lemma PopKeepsTasks(s: State, p: Place, f: Frame)
    requires OwnLink(s) && (forall p' :: p' in s.frames ==> FrameShape(s, s.frames[p']))
    requires TaskPart(s) && TopFrame(s, p, f) && f.pc.Popping?
    requires QInv(s.objs[f.cur].q) && PcInv(s.objs[f.cur].q, f.pc.pop)
    ensures TaskPart(DoPop(s, p, f))
  {
    hide QInv, PcInv, PopStep, TaskPart, OwnLink, DoPop;
    assert FrameShape(s, f);
    var pop' := PopStep(s.objs[f.cur].q, f.pc.pop).1;
    ProgressHolds(s, p);
    if pop'.Returned? && pop'.r.Task? {
      PopStepMembers(s.objs[f.cur].q, f.pc.pop);
      QueuedTask(s, f.cur, pop'.r.id);
      OnlyOwnerWaits(s, p, f, pop'.r.id);
      TakingKeepsTasks(s, p, f, pop'.r.id);
    } else {
      SearchingKeepsTasks(s, p, f);
    }
  }

  lemma ProgressHolds(s: State, p: Place)
    requires TaskPart(s) && p in s.frames
    ensures TaskProgress(s, s.frames[p])
  {
  }

  lemma PoppedTask(s: State, n: nat)
    requires TaskPart(s) && OwnLink(s) && n in s.tasks && s.tasks[n].at.Popped?
    ensures var p := s.tasks[n].at.p;
            && p in s.frames && (s.frames[p].pc == Running(n) || s.frames[p].pc == FreeTask(n))
            && s.tasks[n].parent in s.objs && s.objs[s.tasks[n].parent].owner == AtFrame(p)
  {
    var p := s.tasks[n].at.p;
    assert InHand(s, p) == Some((n, s.tasks[n]));
    assert OwnedBy(s, p) == Some(s.tasks[n].parent);
  }

  /** When the owner's decrement finds the count at one, every task that was counted has run: the
      frame's own task among them. */
  lemma LastDecrement(s: State, p: Place, f: Frame)
    requires TaskPart(s) && OwnLink(s) && TopFrame(s, p, f) && f.pc.Decrement? && FrameShape(s, f)
    requires CountOk(s.objs[f.cur]) && s.objs[f.cur].busy && s.objs[f.cur].count == 1
    ensures forall n :: n in s.tasks && s.tasks[n].parent == f.cur ==> s.tasks[n].at.Created? || s.tasks[n].at.Freed?
  {
    var ob := s.objs[f.cur];
    assert OwnedBy(s, p) == Some(f.cur);
    assert |ob.counted| == 0 && Tasks(ob.q.chain) == [];
    forall n | n in s.tasks && s.tasks[n].parent == f.cur ensures s.tasks[n].at.Created? || s.tasks[n].at.Freed? {
      TasksContains(ob.q.chain, n);
      assert !IsQueued(s, f.cur, n) && !IsCounted(s, f.cur, n);
      if s.tasks[n].at.Popped? {
        PoppedTask(s, n);
      }
    }
  }

  lemma DecrementKeepsProgress(s: State, p: Place, f: Frame)
    requires TaskPart(s) && OwnLink(s) && TopFrame(s, p, f) && f.pc.Decrement? && FrameShape(s, f)
    requires CountOk(s.objs[f.cur]) && s.objs[f.cur].busy
    ensures p in DoDecrement(s, p, f).frames && TaskProgress(DoDecrement(s, p, f), DoDecrement(s, p, f).frames[p])
  {
    hide OwnLink, TaskPart, CountOk;
    HandOf(s, p);
    if s.objs[f.cur].count == 1 {
      LastDecrement(s, p, f);
    }
  }

  lemma DecrementKeepsTasks(s: State, p: Place, f: Frame)
    requires TaskPart(s) && OwnLink(s) && TopFrame(s, p, f) && f.pc.Decrement? && FrameShape(s, f)
    requires CountOk(s.objs[f.cur]) && s.objs[f.cur].busy
    ensures TaskPart(DoDecrement(s, p, f))
  {
    hide OwnLink, TaskPart, CountOk, FrameShape, TaskProgress;
    DecrementKeepsProgress(s, p, f);
    TaskPartKept(s, DoDecrement(s, p, f), p, f.cur);
  }
}
