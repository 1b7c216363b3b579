/** The steps on an object's queue: the counter makes the owner the queue's only consumer. */
module AodQueues {
  import opened Wrappers
  import opened MpscQueue
  import opened AodMachine
  import opened AodInvariant
  import opened AodFrame

  /** A step on the queue of `o` that is right for whatever its consumer is doing. */
  lemma QueueMoves(s: State, s': State, p: Place, o: Oid)
    requires QueuePart(s) && Moves(s, s', p, o)
    requires QueueOk(s'.objs[o].q, ConsumerOf(s', o))
    requires forall o' :: o' in s.objs && o' != o ==> ConsumerOf(s', o') == ConsumerOf(s, o')
    requires p in s'.frames ==> PushLocals(s', s'.frames[p])
    requires forall p' :: p' in s'.frames && p' != p ==> PushLocals(s', s'.frames[p'])
    ensures QueuePart(s')
  {
    hide QueueOk;
  }

  /** Only its owner pops an object's queue, so a frame that does not own `o` before or after its
      step leaves alone where every consumer stands. */
  lemma ConsumersStay(s: State, s': State, p: Place, o: Oid)
    requires OwnLink(s) && Moves(s, s', p, o)
    requires s'.objs[o].owner == s.objs[o].owner || (!s.objs[o].owner.AtFrame? && s'.objs[o].owner == AtFrame(p))
    requires PopAt(s, p) == Start && PopAt(s', p) == Start
    ensures forall o' :: o' in s.objs ==> ConsumerOf(s', o') == ConsumerOf(s, o')
  {
  }

  /** The consumer of `f.cur` moves on; no other object's consumer does. */
  lemma OtherConsumersStay(s: State, s': State, p: Place, o: Oid)
    requires OwnLink(s) && Moves(s, s', p, o)
    requires OwnedBy(s, p) == Some(o) || OwnedBy(s, p) == None
    ensures forall o' :: o' in s.objs && o' != o ==> ConsumerOf(s', o') == ConsumerOf(s, o')
  {
    forall o' | o' in s.objs && o' != o ensures ConsumerOf(s', o') == ConsumerOf(s, o') {
      assert s.objs[o'].owner.AtFrame? ==> OwnedBy(s, s.objs[o'].owner.p) == Some(o');
    }
  }

  /** Other pushers of the same object hold other tasks. */
  lemma OtherPushers(s: State, p: Place, p': Place)
    requires TaskLink(s) && p in s.frames && p' in s.frames && p' != p
    requires InHand(s, p).Some? && InHand(s, p').Some?
    ensures InHand(s, p).value.0 != InHand(s, p').value.0
  {
    assert InHand(s, p).value.1.at.p == p && InHand(s, p').value.1.at.p == p';
  }

  lemma ResetKeepsQueues(s: State, p: Place, f: Frame)
    requires QueuePart(s) && OwnLink(s) && TaskLink(s) && StageLink(s) && TopFrame(s, p, f) && f.pc.ResetTask?
    ensures QueuePart(DoReset(s, p, f))
  {
    hide QInv, PcInv;
    var s' := DoReset(s, p, f);
    var q := s.objs[f.obj].q;
    assert InHand(s, p) == Some((f.task, TaskRec(f.obj, Created(p))));
    assert !IsQueued(s, f.obj, f.task);
    ConsumersStay(s, s', p, f.obj);
    assert QueueOk(q, ConsumerOf(s, f.obj));
    ResetKeepsPc(q, Task(f.task), ConsumerOf(s, f.obj));
    forall p' | p' in s'.frames && p' != p ensures PushLocals(s', s'.frames[p']) {
      assert PushLocals(s, s.frames[p']);
    }
    QueueMoves(s, s', p, f.obj);
  }

  lemma ExchangeKeepsQueues(s: State, p: Place, f: Frame)
    requires QueuePart(s) && OwnLink(s) && TaskLink(s) && StageLink(s) && TopFrame(s, p, f) && f.pc.ExchangeHead?
    ensures QueuePart(DoExchange(s, p, f))
  {
    hide QInv, PcInv;
    var s' := DoExchange(s, p, f);
    var q := s.objs[f.obj].q;
    assert InHand(s, p) == Some((f.task, TaskRec(f.obj, Counted(p))));
    assert !IsQueued(s, f.obj, f.task);
    ConsumersStay(s, s', p, f.obj);
    assert QueueOk(q, ConsumerOf(s, f.obj));
    assert PushLocals(s, f);
    ProducerExchangeKeepsPc(q, Task(f.task), ConsumerOf(s, f.obj));
    forall p' | p' in s'.frames && p' != p ensures PushLocals(s', s'.frames[p']) {
      assert PushLocals(s, s.frames[p']);
      if InHand(s, p').Some? { OtherPushers(s, p, p'); }
    }
    QueueMoves(s, s', p, f.obj);
  }

  /** A task that is not yet exchanged is not in the queue. */
  lemma NotYetQueued(s: State, p: Place)
    requires TaskLink(s) && StageLink(s) && p in s.frames && s.frames[p].obj in s.objs
    requires s.frames[p].pc.Increment? || s.frames[p].pc.ExchangeHead?
    ensures Task(s.frames[p].task) !in s.objs[s.frames[p].obj].q.chain
  {
    assert InHand(s, p).Some?;
    assert !IsQueued(s, s.frames[p].obj, s.frames[p].task);
  }

  /** What a step on the queue of `o` must leave alone for the locals of another frame. */
  lemma LocalsStay(s: State, s': State, p: Place, o: Oid, f: Frame)
    requires PushLocals(s, f) && Moves(s, s', p, o)
    requires f.obj == o && (f.pc.Increment? || f.pc.ExchangeHead?) ==> Next(s'.objs[o].q, Task(f.task)) == Next(s.objs[o].q, Task(f.task))
    requires f.obj == o && f.pc.LinkPrev? && Task(f.task) in s.objs[o].q.links ==>
               Task(f.task) in s'.objs[o].q.links && s'.objs[o].q.links[Task(f.task)] == s.objs[o].q.links[Task(f.task)]
    ensures PushLocals(s', f)
  {
  }

  lemma LinkKeepsPushLocals(s: State, p: Place, f: Frame, p': Place)
    requires AllPushLocals(s) && TaskLink(s) && StageLink(s) && TopFrame(s, p, f) && f.pc.LinkPrev?
    requires f.pc.prev in s.objs[f.obj].q.chain && p' in s.frames && p' != p
    ensures PushLocals(DoLink(s, p, f), s.frames[p'])
  {
    hide TaskLink, StageLink, PushLocals;
    var f' := s.frames[p'];
    assert PushLocals(s, f');
    LinkMoves(s, p, f);
    if f'.obj == f.obj {
      if f'.pc.Increment? || f'.pc.ExchangeHead? {
        NotYetQueued(s, p');
      } else if f'.pc.LinkPrev? {
        OtherPushers(s, p, p');
      }
    }
    hide DoLink;
    LocalsStay(s, DoLink(s, p, f), p, f.obj, f');
  }

  lemma LinkMoves(s: State, p: Place, f: Frame)
    requires TopFrame(s, p, f) && f.pc.LinkPrev?
    ensures Moves(s, DoLink(s, p, f), p, f.obj) && DoLink(s, p, f).objs[f.obj].q == Link(s.objs[f.obj].q, f.pc.prev, Task(f.task))
  {
    hide Link;
  }

  lemma LinkKeepsQueues(s: State, p: Place, f: Frame)
    requires QueuePart(s) && OwnLink(s) && TaskLink(s) && StageLink(s) && TopFrame(s, p, f) && f.pc.LinkPrev?
    ensures QueuePart(DoLink(s, p, f))
  {
    hide PcInv, QInv, TaskLink, StageLink;
    var s' := DoLink(s, p, f);
    var q := s.objs[f.obj].q;
    ConsumersStay(s, s', p, f.obj);
    assert QueueOk(q, ConsumerOf(s, f.obj));
    assert PushLocals(s, f);
    ProducerLinkKeepsPc(q, Task(f.task), ConsumerOf(s, f.obj));
    PendingPrev(q, Task(f.task));
    forall p' | p' in s'.frames && p' != p ensures PushLocals(s', s'.frames[p']) {
      LinkKeepsPushLocals(s, p, f, p');
    }
    QueueMoves(s, s', p, f.obj);
  }

  lemma PendingPrev(q: Queue, n: Node)
    requires QInv(q) && n in q.links
    ensures q.links[n] in q.chain
  {
    var k := PendingLink(q, n);
  }

  lemma PopKeepsQueues(s: State, p: Place, f: Frame)
    requires QueuePart(s) && OwnLink(s) && TaskLink(s) && StageLink(s) && TopFrame(s, p, f) && f.pc.Popping? && FrameShape(s, f)
    ensures QueuePart(DoPop(s, p, f))
    ensures QInv(s.objs[f.cur].q) && PcInv(s.objs[f.cur].q, f.pc.pop)
  {
    hide QueuePart, QInv, PcInv, PopStep, DoPop, OwnLink, TaskLink, StageLink, PushLocals, Moves;
    var s', q := DoPop(s, p, f), s.objs[f.cur].q;
    PopChanges(s, p, f);
    ConsumerStands(s, p, f);
    PopStepKeepsInv(q, f.pc.pop);
    PopToStart(PopStep(q, f.pc.pop).0, PopStep(q, f.pc.pop).1);
    OtherConsumersStay(s, s', p, f.cur);
    forall p' | p' in s'.frames && p' != p ensures PushLocals(s', s'.frames[p']) {
      SameFrames(s, s', p, f.cur, p');
      PopKeepsPushLocals(s, p, f, p');
    }
    NotPushing(s', s'.frames[p]);
    QueueMoves(s, s', p, f.cur);
  }

  lemma ConsumerStands(s: State, p: Place, f: Frame)
    requires QueuePart(s) && OwnLink(s) && TopFrame(s, p, f) && f.pc.Popping?
    ensures OwnedBy(s, p) == Some(f.cur) && s.objs[f.cur].owner == AtFrame(p) && QueueOk(s.objs[f.cur].q, f.pc.pop)
    ensures AllPushLocals(s)
  {
    hide QueueOk;
    assert OwnedBy(s, p) == Some(f.cur);
    assert ConsumerOf(s, f.cur) == f.pc.pop;
  }

  lemma SameFrames(s: State, s': State, p: Place, o: Oid, p': Place)
    requires Moves(s, s', p, o) && p' != p && p' in s'.frames
    ensures p' in s.frames && s'.frames[p'] == s.frames[p']
  {
  }

  lemma NotPushing(s: State, f: Frame)
    requires !IsPush(f.pc)
    ensures PushLocals(s, f)
  {
  }

  lemma PopToStart(q: Queue, pop: PopPc)
    requires QInv(q) && PcInv(q, pop)
    ensures pop.Returned? ==> PcInv(q, Start)
  {
  }

  /** A consumer writes the `Next` of nodes in the chain and of the stub, and adds or removes no
      pending link of a task. */
  lemma PopStepWrites(q: Queue, pop: PopPc, n: nat)
    requires QInv(q) && PcInv(q, pop)
    ensures Task(n) !in q.chain ==> Next(PopStep(q, pop).0, Task(n)) == Next(q, Task(n))
    ensures Task(n) in q.links ==> Task(n) in PopStep(q, pop).0.links && PopStep(q, pop).0.links[Task(n)] == q.links[Task(n)]
  {
    if pop.LinkStub? {
      PendingPrev(q, Stub);
    }
  }

  lemma PopKeepsPushLocals(s: State, p: Place, f: Frame, p': Place)
    requires AllPushLocals(s) && TaskLink(s) && StageLink(s) && TopFrame(s, p, f) && f.pc.Popping?
    requires QInv(s.objs[f.cur].q) && PcInv(s.objs[f.cur].q, f.pc.pop) && p' in s.frames && p' != p
    ensures PushLocals(DoPop(s, p, f), s.frames[p'])
  {
    hide QInv, PcInv, PopStep, DoPop, TaskLink, StageLink, PushLocals;
    var f' := s.frames[p'];
    assert PushLocals(s, f');
    PopChanges(s, p, f);
    PopStepWrites(s.objs[f.cur].q, f.pc.pop, f'.task);
    if f'.obj == f.cur && (f'.pc.Increment? || f'.pc.ExchangeHead?) {
      NotYetQueued(s, p');
    }
    LocalsStay(s, DoPop(s, p, f), p, f.cur, f');
  }

  // ---- steps that change the owner or its position, but no queue

  /** The owner comes to the start of a `Pop`, or leaves. */
  lemma StartKeepsQueues(s: State, s': State, p: Place, o: Oid)
    requires QueuePart(s) && OwnLink(s) && Moves(s, s', p, o) && s'.objs[o].q == s.objs[o].q
    requires ConsumerOf(s, o) == Start && ConsumerOf(s', o) == Start
    requires OwnedBy(s, p) == Some(o) || OwnedBy(s, p) == None
    requires p in s'.frames ==> !s'.frames[p].pc.Increment? && !s'.frames[p].pc.ExchangeHead? && !s'.frames[p].pc.LinkPrev?
    ensures QueuePart(s')
  {
    hide QueueOk;
    OtherConsumersStay(s, s', p, o);
    forall p' | p' in s'.frames && p' != p ensures PushLocals(s', s'.frames[p']) {
      assert PushLocals(s, s.frames[p']);
    }
    QueueMoves(s, s', p, o);
  }

  lemma IncrementKeepsQueues(s: State, p: Place, f: Frame)
    requires QueuePart(s) && OwnLink(s) && TopFrame(s, p, f) && f.pc.Increment?
    requires s.objs[f.obj].owner == NoOwner <==> s.objs[f.obj].count == 0
    ensures QueuePart(DoIncrement(s, p, f))
  {
    hide QueueOk;
    var s' := DoIncrement(s, p, f);
    assert PushLocals(s, f);
    ConsumersStay(s, s', p, f.obj);
    assert QueueOk(s.objs[f.obj].q, ConsumerOf(s, f.obj));
    forall p' | p' in s'.frames && p' != p ensures PushLocals(s', s'.frames[p']) {
      assert PushLocals(s, s.frames[p']);
    }
    QueueMoves(s, s', p, f.obj);
  }
}
