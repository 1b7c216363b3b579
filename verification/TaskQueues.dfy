/** `AODTaskQueue` and `TaskQueue` as objects whose `Push` and `Pop` update `Head`, `Tail` and the
    nodes' `Next` in place, statement by statement, while other producers run in between. */
module TaskQueues {
  import opened MpscQueue

  /** A step of another producer: it resets and exchanges a node it may use, or it stores the link
      of a node it has exchanged. A step that no producer can take is skipped. */
  datatype ProducerStep = Exchanges(id: nat) | Links(id: nat)

  /** What the other producers do before the `k`-th access of a call to the shared fields. */
  type Schedule = nat -> seq<ProducerStep>

  ghost predicate Quiet(others: Schedule) {
    forall k :: others(k) == []
  }

  /** The two classes differ in one place: the last load of `TaskQueue::Pop` goes through the field
      `Tail`, that of `AODTaskQueue::Pop` through the local `LocalTail`. */
  class MpscTaskQueue {
    const rereadsTail: bool
    var head: Node
    var tail: Node
    var next: map<Node, Node>
    /** The `PrevNode` locals of the calls of `Push` between their two statements. */
    var prevNodes: map<Node, Node>
    /** The tasks that were handed to the queue and not returned: nobody may push them again. */
    var inUse: set<nat>
    ghost var chain: seq<Node>
    ghost var pushed: seq<nat>
    ghost var popped: seq<nat>
    ghost var gap: bool

    ghost function Model(): Queue
      reads this
    {
      Queue(head, tail, next, chain, prevNodes, pushed, popped, gap)
    }

    /** The consumer is at `pc`. */
    ghost predicate ValidAt(pc: PopPc)
      reads this
    {
      QInv(Model()) && PcInv(Model(), pc) && forall id :: id in inUse <==> Task(id) in chain
    }

    ghost predicate Valid()
      reads this
    {
      ValidAt(Start)
    }

    /** No call of `Push` is between its two statements. */
    ghost predicate Quiescent()
      reads this
    {
      Valid() && prevNodes == map[]
    }

    ghost function Contents(): seq<nat>
      reads this
    {
      Tasks(chain)
    }

    constructor (rereadsTail: bool)
      ensures Quiescent() && Model() == Empty && Contents() == []
    {
      this.rereadsTail := rereadsTail;
      head, tail, next, prevNodes, inUse := Stub, Stub, map[], map[], {};
      chain, pushed, popped, gap := [Stub], [], [], false;
    }

    /** `std::atomic_exchange_explicit( &Head, n )`. */
    method ExchangeHead(n: Node) returns (prev: Node)
      modifies this
      ensures Model() == old(Exchange(Model(), n)) && prev == old(head)
      ensures inUse == old(inUse) + (if n.Task? then {n.id} else {})
    {
      prev := head;
      head := n;
      prevNodes := prevNodes[n := prev];
      if n.Task? { inUse := inUse + {n.id}; }
      chain := chain + [n];
      pushed := pushed + (if n.Task? then [n.id] else []);
      gap := gap || n.Task?;
    }

    /** `PrevNode->Next = n`. */
    method StoreNext(prev: Node, n: Node)
      modifies this
      ensures Model() == old(Link(Model(), prev, n)) && inUse == old(inUse)
    {
      next := next[prev := n];
      prevNodes := prevNodes - {n};
    }

    /** The two halves of a push keep what the consumer at `pc` relies on. */
    method Enqueue(task: nat, ghost pc: PopPc) returns (prevNode: Node)
      requires ValidAt(pc) && task !in inUse && Next(Model(), Task(task)) == Null
      modifies this
      ensures ValidAt(pc) && Model() == old(Exchange(Model(), Task(task))) && prevNode == old(head) && Task(task) !in old(prevNodes)
    {
      ProducerExchangeKeepsPc(Model(), Task(task), pc);
      prevNode := ExchangeHead(Task(task));
    }

    /** `InTask->Next = nullptr`. */
    method ResetNode(task: nat, ghost pc: PopPc)
      requires ValidAt(pc) && task !in inUse
      modifies this
      ensures ValidAt(pc) && Model() == old(ResetNext(Model(), Task(task))) && inUse == old(inUse)
    {
      ResetKeepsPc(Model(), Task(task), pc);
      next := next - {Task(task)};
    }

    method LinkTask(prevNode: Node, task: nat, ghost pc: PopPc)
      requires ValidAt(pc) && Task(task) in prevNodes && prevNodes[Task(task)] == prevNode
      modifies this
      ensures ValidAt(pc) && Model() == old(Link(Model(), prevNode, Task(task))) && inUse == old(inUse)
    {
      ProducerLinkKeepsPc(Model(), Task(task), pc);
      StoreNext(prevNode, Task(task));
    }

    /** A step of another producer keeps what the consumer at `pc` relies on, and stores no link but
        its own. */
    method OneOther(step: ProducerStep, ghost pc: PopPc)
      requires ValidAt(pc)
      modifies this
      ensures ValidAt(pc) && tail == old(tail) && popped == old(popped) && old(pushed) <= pushed
      ensures forall n :: n in old(prevNodes) && !(n.Task? && step == Links(n.id)) ==> n in prevNodes && prevNodes[n] == old(prevNodes[n])
    {
      hide QInv, PcInv;
      match step
      case Exchanges(id) =>
        if id !in inUse {
          ResetNode(id, pc);
          var _ := Enqueue(id, pc);
        }
      case Links(id) =>
        if Task(id) in prevNodes {
          LinkTask(prevNodes[Task(id)], id, pc);
        }
    }

    /** The producers other than the one that pushes `own` take any steps. */
    method Others(steps: seq<ProducerStep>, ghost pc: PopPc, own: Node)
      requires ValidAt(pc)
      modifies this
      ensures ValidAt(pc) && tail == old(tail) && popped == old(popped) && old(pushed) <= pushed
      ensures own in old(prevNodes) ==> own in prevNodes && prevNodes[own] == old(prevNodes[own])
      ensures steps == [] ==> Model() == old(Model())
    {
      hide QInv, PcInv;
      for i := 0 to |steps|
        invariant ValidAt(pc) && tail == old(tail) && popped == old(popped) && old(pushed) <= pushed
        invariant own in old(prevNodes) ==> own in prevNodes && prevNodes[own] == old(prevNodes[own])
        invariant i == 0 ==> Model() == old(Model())
      {
        if !(own.Task? && steps[i] == Links(own.id)) {
          OneOther(steps[i], pc);
        }
      }
    }

    /** `Push`: the exchange and the link, with other producers in between. When nobody interferes
        the task is simply appended. */
    method Push(task: nat, others: Schedule)
      requires Valid() && task !in inUse && Next(Model(), Task(task)) == Null
      modifies this
      ensures Valid() && popped == old(popped) && old(pushed) + [task] <= pushed
      ensures old(prevNodes) == map[] && Quiet(others) ==> Quiescent() && Contents() == old(Contents()) + [task]
    {
      hide QInv, PcInv;
      TasksConcat(chain, [Task(task)]);
      var prevNode := Enqueue(task, Start);
      Others(others(0), Start, Task(task));
      LinkTask(prevNode, task, Start);
    }

    /** Neither the queue nor any producer still refers to the node `n`. */
    ghost predicate Detached(n: Node)
      reads this
    {
      n != head && n != tail && n !in chain && forall m :: m in prevNodes ==> m != n && prevNodes[m] != n
    }

    /** What no access of `Pop` but the last one changes, and what none changes when nobody interferes. */
    twostate predicate Waits(others: seq<ProducerStep>)
      reads this
    {
      && popped == old(popped) && old(pushed) <= pushed
      && (others == [] ==> prevNodes == old(prevNodes) && pushed == old(pushed) && gap == old(gap))
    }

    /** `LocalTail{ Tail }`. */
    method LoadTail(others: seq<ProducerStep>) returns (localTail: Node)
      requires Valid()
      modifies this
      ensures ValidAt(ReadNext(localTail)) && popped == old(popped) && old(pushed) <= pushed
      ensures others == [] ==> prevNodes == old(prevNodes) && pushed == old(pushed) && gap == (prevNodes != map[])
    {
      hide QInv, PcInv;
      Others(others, Start, Null);
      PopStepKeepsInv(Model(), Start);
      localTail := tail;
      gap := prevNodes != map[];
    }

    /** Where `Pop` goes after it has loaded `localNext` at `pc`. */
    static function AfterLoad(pc: PopPc, localTail: Node, localNext: Node): PopPc {
      if pc.ReadLast? then (if localNext != Null then Take(localTail, localNext) else Returned(Null))
      else if pc.ReadNext? && localTail == Stub then (if localNext == Null then Returned(Null) else SkipStub(localNext))
      else AfterNext(localTail, localNext)
    }

    /** `LocalNext = LocalTail->Next`. */
    method LoadNext(localTail: Node, others: seq<ProducerStep>, ghost pc: PopPc) returns (localNext: Node)
      requires ValidAt(pc) && (pc == ReadNext(localTail) || pc == ReadNextAgain(localTail) || pc == ReadLast(localTail))
      modifies this
      ensures ValidAt(AfterLoad(pc, localTail, localNext)) && Waits(others)
    {
      hide QInv, PcInv;
      Others(others, pc, Null);
      PopStepKeepsInv(Model(), pc);
      localNext := At(next, localTail);
    }

    /** `Tail = LocalNext`, past the stub. */
    method SkipTheStub(localNext: Node, others: seq<ProducerStep>)
      requires ValidAt(SkipStub(localNext))
      modifies this
      ensures ValidAt(ReadNextAgain(localNext)) && Waits(others)
    {
      Others(others, SkipStub(localNext), Null);
      PopStepKeepsInv(Model(), SkipStub(localNext));
      SkipKeepsUse(Model(), localNext);
      hide QInv, PcInv;
      tail := localNext;
      chain := Drop(chain);
    }

    lemma SkipKeepsUse(q: Queue, localNext: Node)
      requires QInv(q) && PcInv(q, SkipStub(localNext))
      ensures forall id :: Task(id) in Drop(q.chain) <==> Task(id) in q.chain
    {
      assert q.chain == [q.chain[0]] + Drop(q.chain);
    }

    /** `Tail = LocalNext; return LocalTail`. */
    method TakeFront(localTail: Node, localNext: Node, others: seq<ProducerStep>)
      requires ValidAt(Take(localTail, localNext))
      modifies this
      ensures Valid() && localTail.Task? && popped == old(popped) + [localTail.id] && Detached(localTail)
      ensures old(pushed) <= pushed
      ensures others == [] ==> prevNodes == old(prevNodes) && pushed == old(pushed) && gap == old(gap)
    {
      hide QInv, PcInv;
      Others(others, Take(localTail, localNext), Null);
      TakenNode(Model(), localTail, localNext);
      tail := localNext;
      inUse := inUse - {localTail.id};
      chain := Drop(chain);
      popped := popped + [localTail.id];
    }

    lemma TakenNode(q: Queue, localTail: Node, localNext: Node)
      requires QInv(q) && PcInv(q, Take(localTail, localNext))
      ensures localTail.Task? && q.head != localTail && localNext != localTail && localTail !in Drop(q.chain)
      ensures forall m :: m in q.links ==> m != localTail && q.links[m] != localTail
      ensures forall m :: m != localTail ==> (m in Drop(q.chain) <==> m in q.chain)
      ensures var q' := q.(tail := localNext, chain := Drop(q.chain), popped := q.popped + [localTail.id]);
              QInv(q') && PcInv(q', Start)
    {
      TailMoveKeepsInv(q, Take(localTail, localNext));
      DropFirst(q, q.popped + [localTail.id]);
      assert q.chain == [q.chain[0]] + Drop(q.chain);
    }

    /** `LocalHead{ Head }`; the result says whether `Pop` goes on. */
    method IsLast(localTail: Node, others: seq<ProducerStep>) returns (last: bool)
      requires ValidAt(ReadHead(localTail))
      modifies this
      ensures ValidAt(if last then ClearStub(localTail) else Returned(Null)) && Waits(others)
    {
      hide QInv, PcInv;
      Others(others, ReadHead(localTail), Null);
      PopStepKeepsInv(Model(), ReadHead(localTail));
      last := localTail == head;
    }

    /** `Stub.Next = nullptr`. */
    method ClearTheStub(localTail: Node, others: seq<ProducerStep>)
      requires ValidAt(ClearStub(localTail))
      modifies this
      ensures ValidAt(PushStub(localTail)) && Waits(others)
    {
      hide QInv, PcInv;
      Others(others, ClearStub(localTail), Null);
      PopStepKeepsInv(Model(), ClearStub(localTail));
      next := next - {Stub};
    }

    /** The stub is pushed like a task. */
    method PushTheStub(localTail: Node, others: Schedule)
      requires ValidAt(PushStub(localTail))
      modifies this
      ensures ValidAt(ReadLast(localTail)) && popped == old(popped) && old(pushed) <= pushed
      ensures others(7) == others(8) == [] && old(prevNodes) == map[] ==> prevNodes == map[] && pushed == old(pushed) && gap == old(gap)
    {
      hide QInv, PcInv;
      Others(others(7), PushStub(localTail), Null);
      PopStepKeepsInv(Model(), PushStub(localTail));
      var prevNode := ExchangeHead(Stub);
      Others(others(8), LinkStub(localTail, prevNode), Null);
      PopStepKeepsInv(Model(), LinkStub(localTail, prevNode));
      PendingStub(Model(), localTail, prevNode);
      StoreNext(prevNode, Stub);
    }

    lemma PendingStub(q: Queue, localTail: Node, prevNode: Node)
      requires QInv(q) && PcInv(q, LinkStub(localTail, prevNode))
      ensures Stub in q.links && q.links[Stub] == prevNode
    {
    }

    lemma TailIsLocal(localTail: Node)
      requires ValidAt(ReadLast(localTail))
      ensures tail == localTail
    {
      hide QInv;
    }

    /** What a `Pop` that returned null knows. */
    lemma AfterNull()
      requires ValidAt(Returned(Null))
      ensures Valid() && (gap || Contents() == [])
    {
      hide QInv;
    }

    /** The single consumer's `Pop`, under any interference by producers. It returns the oldest
        task not yet returned, or null if it saw the queue empty or a producer between its two
        statements; when nobody interferes null means empty. */
    method Pop(others: Schedule) returns (r: Node)
      requires Valid()
      modifies this
      ensures Valid() && old(pushed) <= pushed
      ensures r == Null ==> popped == old(popped) && (gap || Contents() == [])
      ensures r != Null ==> r.Task? && popped == old(popped) + [r.id] && Detached(r)
      ensures old(prevNodes) == map[] && Quiet(others) ==> Quiescent() && pushed == old(pushed) && !gap
    {
      hide QInv, PcInv, Detached, ValidAt, Model;
      var localTail := LoadTail(others(0));
      var localNext := LoadNext(localTail, others(1), ReadNext(localTail));
      if localTail == Stub {
        if localNext == Null {
          AfterNull();
          return Null;
        }
        SkipTheStub(localNext, others(2));
        localTail := localNext;
        localNext := LoadNext(localTail, others(3), ReadNextAgain(localTail));
      }
      if localNext != Null {
        TakeFront(localTail, localNext, others(4));
        return localTail;
      }
      r := PopLast(localTail, others);
    }

    /** `Pop` at a node that has no successor: unless a producer is between its two statements the
        stub goes behind it, and it is taken if nothing else got in between. */
    method PopLast(localTail: Node, others: Schedule) returns (r: Node)
      requires ValidAt(ReadHead(localTail))
      modifies this
      ensures Valid() && old(pushed) <= pushed
      ensures r == Null ==> popped == old(popped) && (gap || Contents() == [])
      ensures r != Null ==> r.Task? && popped == old(popped) + [r.id] && Detached(r)
      ensures old(prevNodes) == map[] && !old(gap) && Quiet(others) ==> Quiescent() && pushed == old(pushed) && !gap
    {
      hide QInv, PcInv, Detached, ValidAt, Model;
      var last := IsLast(localTail, others(5));
      if !last {
        AfterNull();
        return Null;
      }
      ClearTheStub(localTail, others(6));
      PushTheStub(localTail, others);
      TailIsLocal(localTail);
      var localNext := LoadNext(if rereadsTail then tail else localTail, others(9), ReadLast(localTail));
      if localNext != Null {
        TakeFront(localTail, localNext, others(10));
        return localTail;
      }
      AfterNull();
      return Null;
    }

    lemma Logs()
      requires Valid()
      ensures popped + Contents() == pushed
    {
    }
  }
}
