/** The intrusive multi-producer single-consumer queue, one step per access to shared memory.
    A producer exchanges `Head` and only later links its predecessor to its node, so the list
    may have gaps; the consumer walks the list from `Tail` and re-inserts the stub when it is
    about to take the last node. */
module MpscQueue {

  /** What an `IAODTaskBase*` can point at: nothing, the queue's own stub, or a task node. */
  datatype Node = Null | Stub | Task(id: nat)

  /** `head`, `tail` and `next` are the queue's fields and the nodes' `Next` fields (a node that
      `next` does not mention holds null). The rest is history that no step reads:
      `chain` lists the nodes from `tail` to `head` in the order of their exchanges, `links` holds
      the nodes that are exchanged but not linked, each with the `PrevNode` of its producer,
      `pushed` and `popped` list the exchanged and the taken tasks, and `gap` says that at some
      moment since the current `Pop` began a task was exchanged but not linked. */
  datatype Queue = Queue(
    head: Node, tail: Node, next: map<Node, Node>,
    chain: seq<Node>, links: map<Node, Node>,
    pushed: seq<nat>, popped: seq<nat>, gap: bool)

  const Empty: Queue := Queue(Stub, Stub, map[], [Stub], map[], [], [], false)

  function At(next: map<Node, Node>, n: Node): Node {
    if n in next then next[n] else Null
  }

  function Next(q: Queue, n: Node): Node {
    At(q.next, n)
  }

  /** The task nodes of a chain in order, leaving out the stub. */
  function Tasks(c: seq<Node>): seq<nat> {
    if c == [] then [] else (if c[0].Task? then [c[0].id] else []) + Tasks(c[1..])
  }

  // ---- the steps of a producer

  /** `InTask->Next = nullptr`. */
  function ResetNext(q: Queue, n: Node): Queue {
    q.(next := q.next - {n})
  }

  /** `atomic_exchange( &Head, n )`; the previous head is `q.head`. */
  function Exchange(q: Queue, n: Node): Queue {
    q.(head := n, chain := q.chain + [n], links := q.links[n := q.head],
       pushed := q.pushed + (if n.Task? then [n.id] else []), gap := q.gap || n.Task?)
  }

  /** `PrevNode->Next = n`. */
  function Link(q: Queue, prev: Node, n: Node): Queue {
    q.(next := q.next[prev := n], links := q.links - {n})
  }

  // ---- the steps of the consumer

  /** Where a call of `Pop` stands, with its locals `lt` (`LocalTail`), `ln` (`LocalNext`) and
      `prev` (`PrevNode`). */
  datatype PopPc =
    | Start
    | ReadNext(lt: Node)
    | SkipStub(ln: Node)
    | ReadNextAgain(lt: Node)
    | Take(lt: Node, ln: Node)
    | ReadHead(lt: Node)
    | ClearStub(lt: Node)
    | PushStub(lt: Node)
    | LinkStub(lt: Node, prev: Node)
    | ReadLast(lt: Node)
    | Returned(r: Node)

  function Drop(c: seq<Node>): seq<Node> {
    if c == [] then [] else c[1..]
  }

  function AfterNext(lt: Node, ln: Node): PopPc {
    if ln != Null then Take(lt, ln) else ReadHead(lt)
  }

  /** The next step of `Pop`. */
  function PopStep(q: Queue, pc: PopPc): (Queue, PopPc) {
    match pc
    case Start => (q.(gap := q.links != map[]), ReadNext(q.tail))
    case ReadNext(lt) =>
      var ln := Next(q, lt);
      (q, if lt != Stub then AfterNext(lt, ln) else if ln == Null then Returned(Null) else SkipStub(ln))
    case SkipStub(ln) => (q.(tail := ln, chain := Drop(q.chain)), ReadNextAgain(ln))
    case ReadNextAgain(lt) => (q, AfterNext(lt, Next(q, lt)))
    case Take(lt, ln) =>
      (q.(tail := ln, chain := Drop(q.chain), popped := q.popped + (if lt.Task? then [lt.id] else [])), Returned(lt))
    case ReadHead(lt) => (q, if lt != q.head then Returned(Null) else ClearStub(lt))
    case ClearStub(lt) => (ResetNext(q, Stub), PushStub(lt))
    case PushStub(lt) => (Exchange(q, Stub), LinkStub(lt, q.head))
    case LinkStub(lt, prev) => (Link(q, prev, Stub), ReadLast(lt))
    case ReadLast(lt) =>
      var ln := Next(q, lt);
      (q, if ln != Null then Take(lt, ln) else Returned(Null))
    case Returned(_) => (q, pc)
  }

  /** `TaskQueue::Pop` has the same steps, but its last read goes through the field `Tail`. */
  function TaskQueuePopStep(q: Queue, pc: PopPc): (Queue, PopPc) {
    if pc.ReadLast? then
      var ln := Next(q, q.tail);
      (q, if ln != Null then Take(pc.lt, ln) else Returned(Null))
    else PopStep(q, pc)
  }

  // ---- the invariant

  ghost predicate Distinct(c: seq<Node>) {
    forall i, j :: 0 <= i < j < |c| ==> c[i] != c[j]
  }

  /** Position `i` of the chain is linked from its predecessor, or its producer still will. */
  ghost predicate LinkedAt(c: seq<Node>, links: map<Node, Node>, next: map<Node, Node>, i: nat)
    requires 1 <= i < |c|
  {
    if c[i] in links
    then links[c[i]] == c[i - 1] && At(next, c[i - 1]) == Null
    else At(next, c[i - 1]) == c[i]
  }

  ghost predicate QInv(q: Queue) {
    && q.chain != [] && q.chain[0] == q.tail && q.chain[|q.chain| - 1] == q.head
    && Next(q, q.head) == Null
    && Null !in q.chain && Distinct(q.chain)
    && (forall i :: 1 <= i < |q.chain| ==> LinkedAt(q.chain, q.links, q.next, i))
    && (forall n :: n in q.links ==> n in q.chain && n != q.chain[0])
    && q.popped + Tasks(q.chain) == q.pushed
    && (!q.gap ==> forall n :: n in q.links ==> n == Stub)
  }

  /** What the locals of a `Pop` that stands at `pc` know about the shared fields. */
  ghost predicate PcInv(q: Queue, pc: PopPc)
    requires QInv(q)
  {
    && (!pc.LinkStub? ==> Stub !in q.links)
    && match pc
       case Start => true
       case ReadNext(lt) => q.tail == lt
       case SkipStub(ln) => q.tail == Stub && |q.chain| >= 2 && q.chain[1] == ln && ln !in q.links
       case ReadNextAgain(lt) => q.tail == lt && Stub !in q.chain
       case Take(lt, ln) => q.tail == lt && lt != Stub && |q.chain| >= 2 && q.chain[1] == ln && ln !in q.links
       case ReadHead(lt) => q.tail == lt && lt != Stub && (!q.gap ==> q.chain == [lt])
       case ClearStub(lt) => q.tail == lt && Stub !in q.chain && (!q.gap ==> q.chain == [lt])
       case PushStub(lt) => q.tail == lt && Stub !in q.chain && Next(q, Stub) == Null && (!q.gap ==> q.chain == [lt])
       case LinkStub(lt, prev) =>
         q.tail == lt && lt != Stub && Stub in q.links && q.links[Stub] == prev && (!q.gap ==> q.chain == [lt, Stub])
       case ReadLast(lt) => q.tail == lt && lt != Stub && (!q.gap ==> q.chain == [lt, Stub])
       case Returned(r) =>
         r != Stub && (r == Null ==> q.gap || Tasks(q.chain) == [])
  }

  // ---- facts about chains

  lemma {:induction false} TasksConcat(a: seq<Node>, b: seq<Node>)
    ensures Tasks(a + b) == Tasks(a) + Tasks(b)
  {
    if a == [] {
      assert a + b == b;
    } else {
      hide Tasks;
      assert a == [a[0]] + a[1..] && a + b == [a[0]] + (a[1..] + b);
      TasksCons(a[0], a[1..]);
      TasksCons(a[0], a[1..] + b);
      TasksConcat(a[1..], b);
    }
  }

  lemma TasksCons(n: Node, c: seq<Node>)
    ensures Tasks([n] + c) == (if n.Task? then [n.id] else []) + Tasks(c)
  {
    assert ([n] + c)[1..] == c;
  }

  lemma {:induction false} TasksContains(c: seq<Node>, id: nat)
    ensures id in Tasks(c) <==> Task(id) in c
  {
    if c != [] {
      TasksContains(c[1..], id);
    }
  }

  /** A link that is still to be stored, goes to a node of the chain that has no successor yet. */
  lemma PendingLink(q: Queue, n: Node) returns (i: nat)
    requires QInv(q) && n in q.links
    ensures 1 <= i < |q.chain| && q.chain[i] == n && q.links[n] == q.chain[i - 1] && Next(q, q.links[n]) == Null
  {
    i :| 0 <= i < |q.chain| && q.chain[i] == n;
    assert LinkedAt(q.chain, q.links, q.next, i);
  }

  // ---- every step keeps the invariant

  /** An exchange by anyone, of a node that is outside the chain and has no successor. */
  lemma ExchangeKeepsInv(q: Queue, n: Node)
    requires QInv(q) && n != Null && n !in q.chain && Next(q, n) == Null
    ensures QInv(Exchange(q, n)) && n in Exchange(q, n).links && Exchange(q, n).links[n] == q.head
  {
    hide LinkedAt, Tasks;
    var q' := Exchange(q, n);
    TasksConcat(q.chain, [n]);
    OneNode(n);
    ExchangeKeepsLinks(q, n);
    assert forall i :: 0 <= i < |q.chain| ==> q'.chain[i] == q.chain[i];
  }

  lemma OneNode(n: Node)
    ensures Tasks([n]) == if n.Task? then [n.id] else []
  {
  }

  lemma ExchangeKeepsLinks(q: Queue, n: Node)
    requires QInv(q) && n != Null && n !in q.chain
    ensures var q' := Exchange(q, n); forall i :: 1 <= i < |q'.chain| ==> LinkedAt(q'.chain, q'.links, q'.next, i)
  {
    hide Tasks, Distinct;
    var q' := Exchange(q, n);
    forall i | 1 <= i < |q'.chain| ensures LinkedAt(q'.chain, q'.links, q'.next, i) {
      assert q'.chain[i - 1] == q.chain[i - 1];
      if i < |q.chain| {
        assert LinkedAt(q.chain, q.links, q.next, i);
      }
    }
  }

  /** A store of a pending link. */
  lemma LinkKeepsInv(q: Queue, n: Node)
    requires QInv(q) && n in q.links
    ensures QInv(Link(q, q.links[n], n))
  {
    var q' := Link(q, q.links[n], n);
    var k := PendingLink(q, n);
    forall i | 1 <= i < |q'.chain| ensures LinkedAt(q'.chain, q'.links, q'.next, i) {
      assert LinkedAt(q.chain, q.links, q.next, i);
    }
  }

  lemma ProducerExchangeKeepsPc(q: Queue, n: Node, pc: PopPc)
    requires QInv(q) && PcInv(q, pc) && n.Task? && n !in q.chain && Next(q, n) == Null
    ensures QInv(Exchange(q, n)) && PcInv(Exchange(q, n), pc)
  {
    ExchangeKeepsInv(q, n);
  }

  lemma ProducerLinkKeepsPc(q: Queue, n: Node, pc: PopPc)
    requires QInv(q) && PcInv(q, pc) && n.Task? && n in q.links
    ensures QInv(Link(q, q.links[n], n)) && PcInv(Link(q, q.links[n], n), pc)
  {
    var k := PendingLink(q, n);
    LinkKeepsInv(q, n);
  }

  lemma ResetKeepsPc(q: Queue, n: Node, pc: PopPc)
    requires QInv(q) && PcInv(q, pc) && n != Stub && n !in q.chain
    ensures QInv(ResetNext(q, n)) && PcInv(ResetNext(q, n), pc) && Next(ResetNext(q, n), n) == Null
  {
    var q' := ResetNext(q, n);
    forall i | 1 <= i < |q'.chain| ensures LinkedAt(q'.chain, q'.links, q'.next, i) {
      assert LinkedAt(q.chain, q.links, q.next, i);
    }
  }

  /** The rest of a chain is linked as before, and no pending link concerns its first node. */
  lemma DropKeepsLinks(q: Queue)
    requires QInv(q) && |q.chain| >= 2 && q.chain[1] !in q.links
    ensures forall i :: 1 <= i < |Drop(q.chain)| ==> LinkedAt(Drop(q.chain), q.links, q.next, i)
    ensures forall n :: n in q.links ==> n in Drop(q.chain) && n != q.chain[1] && q.links[n] != q.chain[0]
  {
    hide Tasks;
    var rest := Drop(q.chain);
    forall n | n in q.links ensures n in rest && n != q.chain[1] && q.links[n] != q.chain[0] {
      var i := PendingLink(q, n);
      assert i >= 2 && rest[i - 1] == n;
    }
    forall i | 1 <= i < |rest| ensures LinkedAt(rest, q.links, q.next, i) {
      assert LinkedAt(q.chain, q.links, q.next, i + 1);
    }
  }

  /** Dropping the first node once its successor is linked. */
  lemma DropFirst(q: Queue, popped: seq<nat>)
    requires QInv(q) && |q.chain| >= 2 && q.chain[1] !in q.links
    requires popped == q.popped + Tasks([q.chain[0]])
    ensures QInv(q.(tail := q.chain[1], chain := Drop(q.chain), popped := popped))
    ensures q.chain[0] !in Drop(q.chain) && q.chain[0] !in q.links
    ensures forall n :: n in q.links ==> q.links[n] != q.chain[0]
  {
    hide Tasks, LinkedAt;
    assert q.chain == [q.chain[0]] + q.chain[1..];
    TasksConcat([q.chain[0]], q.chain[1..]);
    DropKeepsLinks(q);
  }

  lemma ReadNextKeepsInv(q: Queue, pc: PopPc)
    requires QInv(q) && PcInv(q, pc) && (pc.ReadNext? || pc.ReadNextAgain? || pc.ReadHead? || pc.ReadLast?)
    ensures PcInv(q, PopStep(q, pc).1)
  {
    if |q.chain| >= 2 {
      assert LinkedAt(q.chain, q.links, q.next, 1);
    } else {
      assert q.chain == [q.tail];
    }
  }

  lemma TailMoveKeepsInv(q: Queue, pc: PopPc)
    requires QInv(q) && PcInv(q, pc) && (pc.SkipStub? || pc.Take?)
    ensures QInv(PopStep(q, pc).0) && PcInv(PopStep(q, pc).0, PopStep(q, pc).1)
    ensures pc.Take? ==> pc.lt !in PopStep(q, pc).0.chain
  {
    DropFirst(q, if pc.Take? && pc.lt.Task? then q.popped + [pc.lt.id] else q.popped);
  }

  lemma ClearStubKeepsInv(q: Queue, pc: PopPc)
    requires QInv(q) && PcInv(q, pc) && pc.ClearStub?
    ensures QInv(PopStep(q, pc).0) && PcInv(PopStep(q, pc).0, PopStep(q, pc).1)
  {
    var q' := ResetNext(q, Stub);
    forall i | 1 <= i < |q'.chain| ensures LinkedAt(q'.chain, q'.links, q'.next, i) {
      assert LinkedAt(q.chain, q.links, q.next, i);
    }
  }

  lemma PushStubKeepsInv(q: Queue, pc: PopPc)
    requires QInv(q) && PcInv(q, pc) && pc.PushStub?
    ensures QInv(PopStep(q, pc).0) && PcInv(PopStep(q, pc).0, PopStep(q, pc).1)
  {
    ExchangeKeepsInv(q, Stub);
  }

  lemma LinkStubKeepsInv(q: Queue, pc: PopPc)
    requires QInv(q) && PcInv(q, pc) && pc.LinkStub?
    ensures QInv(PopStep(q, pc).0) && PcInv(PopStep(q, pc).0, PopStep(q, pc).1)
  {
    var k := PendingLink(q, Stub);
    LinkKeepsInv(q, Stub);
  }

  /** A step of the consumer keeps the queue consistent and leads to a place whose claims hold. */
  lemma PopStepKeepsInv(q: Queue, pc: PopPc)
    requires QInv(q) && PcInv(q, pc)
    ensures QInv(PopStep(q, pc).0) && PcInv(PopStep(q, pc).0, PopStep(q, pc).1)
  {
    match pc
    case Start =>
    case ReadNext(_) => ReadNextKeepsInv(q, pc);
    case ReadNextAgain(_) => ReadNextKeepsInv(q, pc);
    case ReadHead(_) => ReadNextKeepsInv(q, pc);
    case ReadLast(_) => ReadNextKeepsInv(q, pc);
    case SkipStub(_) => TailMoveKeepsInv(q, pc);
    case Take(_, _) => TailMoveKeepsInv(q, pc);
    case ClearStub(_) => ClearStubKeepsInv(q, pc);
    case PushStub(_) => PushStubKeepsInv(q, pc);
    case LinkStub(_, _) => LinkStubKeepsInv(q, pc);
    case Returned(_) =>
  }
}
