/** Runs of one queue under any number of producers and one consumer. Node addresses may be
    reused: a producer may prepare any node that is neither in the queue nor in a consumer's hands. */
module QueueRuns {
  import opened MpscQueue

  /** `ready` are the nodes that a producer has prepared (`Next` is null) and not yet exchanged;
      the producers between their exchange and their link, and their `PrevNode`s, are `q.links`. */
  datatype State = State(q: Queue, pc: PopPc, ready: set<nat>)

  datatype Action = Prepare(id: nat) | ExchangeHead(id: nat) | LinkPrev(id: nat) | Consume

  const Init: State := State(Empty, Start, {})

  ghost predicate Enabled(s: State, a: Action) {
    match a
    case Prepare(id) => id !in s.ready && Task(id) !in s.q.chain && s.pc != Returned(Task(id))
    case ExchangeHead(id) => id in s.ready
    case LinkPrev(id) => Task(id) in s.q.links
    case Consume => true
  }

  /** After a `Pop` has returned, the consumer's next step frees the node and starts the next `Pop`. */
  function Step(s: State, a: Action): State {
    match a
    case Prepare(id) => s.(q := ResetNext(s.q, Task(id)), ready := s.ready + {id})
    case ExchangeHead(id) => s.(q := Exchange(s.q, Task(id)), ready := s.ready - {id})
    case LinkPrev(id) => if Task(id) in s.q.links then s.(q := Link(s.q, s.q.links[Task(id)], Task(id))) else s
    case Consume =>
      if s.pc.Returned? then s.(pc := Start)
      else var (q, pc) := PopStep(s.q, s.pc); s.(q := q, pc := pc)
  }

  ghost predicate IsRun(run: seq<State>, acts: seq<Action>) {
    && |run| == |acts| + 1 && run[0] == Init
    && forall i :: 0 <= i < |acts| ==> Enabled(run[i], acts[i]) && run[i + 1] == Step(run[i], acts[i])
  }

  // ---- what a run shows to the outside

  /** The exchanges of task nodes, in order. */
  function Exchanges(acts: seq<Action>): seq<nat> {
    if acts == [] then []
    else Exchanges(acts[..|acts| - 1]) + (if acts[|acts| - 1].ExchangeHead? then [acts[|acts| - 1].id] else [])
  }

  /** What the action `a` makes a `Pop` return, if anything. */
  function Outcome(s: State, a: Action): seq<nat> {
    if a.Consume? && !s.pc.Returned? && Step(s, a).pc.Returned? && Step(s, a).pc.r.Task? then [Step(s, a).pc.r.id] else []
  }

  /** The tasks that `Pop` has returned, in order. */
  function Results(run: seq<State>, acts: seq<Action>): seq<nat>
    requires |run| == |acts| + 1
  {
    if acts == [] then []
    else Results(run[..|acts|], acts[..|acts| - 1]) + Outcome(run[|acts| - 1], acts[|acts| - 1])
  }

  // ---- the invariant

  ghost predicate Inv(s: State) {
    && QInv(s.q) && PcInv(s.q, s.pc)
    && (forall id :: id in s.ready ==> Task(id) !in s.q.chain && Next(s.q, Task(id)) == Null && s.pc != Returned(Task(id)))
    && (s.pc.Returned? ==> s.pc.r !in s.q.chain)
  }

  lemma ConsumeKeepsInv(s: State)
    requires Inv(s) && !s.pc.Returned?
    ensures Inv(Step(s, Consume))
  {
    PopStepKeepsInv(s.q, s.pc);
    if s.pc.SkipStub? || s.pc.Take? {
      TailMoveKeepsInv(s.q, s.pc);
    }
    if s.pc.LinkStub? {
      var k := PendingLink(s.q, Stub);
    }
  }

  lemma StepKeepsInv(s: State, a: Action)
    requires Inv(s) && Enabled(s, a)
    ensures Inv(Step(s, a))
  {
    match a
    case Prepare(id) => ResetKeepsPc(s.q, Task(id), s.pc);
    case ExchangeHead(id) => ProducerExchangeKeepsPc(s.q, Task(id), s.pc);
    case LinkPrev(id) =>
      ProducerLinkKeepsPc(s.q, Task(id), s.pc);
      var k := PendingLink(s.q, Task(id));
    case Consume =>
      if !s.pc.Returned? { ConsumeKeepsInv(s); }
  }

  lemma {:induction false} RunKeepsInv(run: seq<State>, acts: seq<Action>, k: nat)
    requires IsRun(run, acts) && k < |run|
    ensures Inv(run[k])
  {
    if k > 0 {
      RunKeepsInv(run, acts, k - 1);
      StepKeepsInv(run[k - 1], acts[k - 1]);
    }
  }

  // ---- linearisability

  lemma StepRecords(s: State, a: Action)
    ensures Step(s, a).q.pushed == s.q.pushed + (if a.ExchangeHead? then [a.id] else [])
    ensures Step(s, a).q.popped == s.q.popped + Outcome(s, a)
  {
  }

  lemma {:induction false} HistoryIsTrue(run: seq<State>, acts: seq<Action>)
    requires IsRun(run, acts)
    ensures run[|acts|].q.pushed == Exchanges(acts) && run[|acts|].q.popped == Results(run, acts)
  {
    if acts != [] {
      var n := |acts| - 1;
      assert forall i :: 0 <= i <= n ==> run[..n + 1][i] == run[i];
      HistoryIsTrue(run[..n + 1], acts[..n]);
      StepRecords(run[n], acts[n]);
    }
  }

  /** Over any interleaving, what `Pop` has returned is a prefix of the tasks in the order of their
      exchanges, and the rest is in the queue, in that order: nothing is lost, doubled or reordered. */
  lemma {:induction false} PopsAreAPrefixOfExchanges(run: seq<State>, acts: seq<Action>)
    requires IsRun(run, acts)
    ensures Results(run, acts) + Tasks(run[|acts|].q.chain) == Exchanges(acts)
    ensures Results(run, acts) <= Exchanges(acts)
  {
    HistoryIsTrue(run, acts);
    RunKeepsInv(run, acts, |acts|);
  }

  /** The stub is never returned and occurs at most once between `Tail` and `Head`. */
  lemma StubStaysInside(run: seq<State>, acts: seq<Action>, k: nat)
    requires IsRun(run, acts) && k < |run|
    ensures run[k].pc != Returned(Stub)
    ensures forall i, j :: 0 <= i < j < |run[k].q.chain| ==> !(run[k].q.chain[i] == Stub && run[k].q.chain[j] == Stub)
  {
    RunKeepsInv(run, acts, k);
  }

  // ---- reclamation

  /** The node that `Pop` returns is referred to by nothing the queue or a producer will still
      read or write, so the consumer may free it at once, and the address may be pushed again. */
  lemma ReturnedNodeIsDetached(run: seq<State>, acts: seq<Action>, k: nat)
    requires IsRun(run, acts) && k < |run| && run[k].pc.Returned? && run[k].pc.r != Null
    ensures run[k].pc.r != run[k].q.head && run[k].pc.r != run[k].q.tail
    ensures forall m :: m in run[k].q.links ==> m != run[k].pc.r && run[k].q.links[m] != run[k].pc.r
    ensures forall m :: m in run[k].q.chain ==> m != run[k].pc.r && Next(run[k].q, m) != run[k].pc.r
  {
    var s := run[k];
    RunKeepsInv(run, acts, k);
    forall m | m in s.q.links ensures s.q.links[m] != s.pc.r {
      var i := PendingLink(s.q, m);
    }
    forall m | m in s.q.chain ensures Next(s.q, m) != s.pc.r {
      var i :| 0 <= i < |s.q.chain| && s.q.chain[i] == m;
      if i + 1 < |s.q.chain| {
        assert LinkedAt(s.q.chain, s.q.links, s.q.next, i + 1);
      }
    }
  }

  /** When `Pop` clears `Stub.Next` the stub is outside the chain and no pending link targets it;
      and the assertion of `Push`, that the node's `Next` is null, holds at every exchange. */
  lemma StubIsDetachedWhenCleared(run: seq<State>, acts: seq<Action>, k: nat)
    requires IsRun(run, acts) && k < |run|
    ensures run[k].pc.ClearStub? ==>
              && Stub !in run[k].q.chain && run[k].q.head != Stub && run[k].q.tail != Stub
              && forall m :: m in run[k].q.links ==> m != Stub && run[k].q.links[m] != Stub
    ensures run[k].pc.PushStub? ==> Next(run[k].q, Stub) == Null
    ensures k < |acts| && acts[k].ExchangeHead? ==> Next(run[k].q, Task(acts[k].id)) == Null
  {
    var s := run[k];
    RunKeepsInv(run, acts, k);
    forall m | m in s.q.links ensures s.q.links[m] in s.q.chain {
      var i := PendingLink(s.q, m);
    }
  }

  // ---- progress

  /** Between a task's exchange and its link. */
  ghost predicate Pending(s: State) {
    exists id :: Task(id) in s.q.links
  }

  lemma GapBegins(s: State, a: Action)
    requires Step(s, a).q.gap
    requires s.pc.Start? ==> forall n :: n in s.q.links ==> n.Task?
    ensures Pending(Step(s, a)) || if s.pc.Start? && a.Consume? then Pending(s) else s.q.gap
  {
    if a.ExchangeHead? {
      assert Task(a.id) in Step(s, a).q.links;
    } else if s.pc.Start? && a.Consume? {
      var n :| n in s.q.links;
      assert Task(n.id) in s.q.links;
    }
  }

  lemma {:induction false} GapWasSeen(run: seq<State>, acts: seq<Action>, i: nat, j: nat)
    requires IsRun(run, acts) && i < j < |run|
    requires run[i].pc.Start? && acts[i] == Consume
    requires forall k :: i < k < j ==> !run[k].pc.Start? && !run[k].pc.Returned?
    requires run[j].q.gap
    ensures exists k :: i <= k <= j && Pending(run[k])
    decreases j
  {
    GapBegins(run[j - 1], acts[j - 1]) by {
      RunKeepsInv(run, acts, j - 1);
    }
    if !Pending(run[j]) && j > i + 1 {
      GapWasSeen(run, acts, i, j - 1);
    }
  }

  /** A `Pop` that began at `i` and returns null at `j` found the queue empty, or overlapped with
      a producer that had exchanged `Head` and not yet linked its node. */
  lemma NullMeansEmptyOrInFlight(run: seq<State>, acts: seq<Action>, i: nat, j: nat)
    requires IsRun(run, acts) && i < j < |run|
    requires run[i].pc.Start? && acts[i] == Consume
    requires forall k :: i < k < j ==> !run[k].pc.Start? && !run[k].pc.Returned?
    requires run[j].pc == Returned(Null)
    ensures Tasks(run[j].q.chain) == [] || exists k :: i <= k <= j && Pending(run[k])
  {
    RunKeepsInv(run, acts, j);
    if Tasks(run[j].q.chain) != [] {
      GapWasSeen(run, acts, i, j);
    }
  }

  /** How many accesses to shared memory a `Pop` at `pc` makes at most. */
  function AccessesLeft(pc: PopPc): nat {
    match pc
    case Start => 10
    case ReadNext(_) => 9
    case SkipStub(_) => 8
    case ReadNextAgain(_) => 7
    case ReadHead(_) => 6
    case ClearStub(_) => 5
    case PushStub(_) => 4
    case LinkStub(_, _) => 3
    case ReadLast(_) => 2
    case Take(_, _) => 1
    case Returned(_) => 0
  }

  /** The consumer's steps among some actions. */
  function Accesses(acts: seq<Action>): nat {
    if acts == [] then 0 else Accesses(acts[..|acts| - 1]) + if acts[|acts| - 1].Consume? then 1 else 0
  }

  lemma NoAccess()
    ensures Accesses([]) == 0
  {
  }

  lemma OneAccess(s: State, a: Action)
    requires !s.pc.Returned?
    ensures AccessesLeft(Step(s, a).pc) + (if a.Consume? then 1 else 0) <= AccessesLeft(s.pc)
  {
  }

  lemma NextAccess(acts: seq<Action>, i: nat, j: nat)
    requires i < j <= |acts|
    ensures Accesses(acts[i..j]) == Accesses(acts[i..j - 1]) + if acts[j - 1].Consume? then 1 else 0
  {
    assert acts[i..j][..j - 1 - i] == acts[i..j - 1] && acts[i..j][j - 1 - i] == acts[j - 1];
  }

  /** `Pop` is wait-free: whatever the producers do, it returns after at most ten accesses to shared memory. */
  lemma {:induction false} PopIsWaitFree(run: seq<State>, acts: seq<Action>, i: nat, j: nat)
    requires IsRun(run, acts) && i <= j < |run| && run[i].pc.Start?
    requires forall k :: i <= k < j ==> !run[k].pc.Returned?
    ensures Accesses(acts[i..j]) + AccessesLeft(run[j].pc) <= 10
    decreases j
  {
    hide Enabled, Step, Accesses;
    if i == j {
      assert acts[i..i] == [] && Accesses([]) == 0 by { NoAccess(); }
    } else {
      PopIsWaitFree(run, acts, i, j - 1);
      NextAccess(acts, i, j);
      OneAccess(run[j - 1], acts[j - 1]);
    }
  }

  /** A producer's three steps: the node's `Next` is null when it is exchanged, the exchange makes it the head and
      leaves its predecessor to be linked, and the link makes it the predecessor's successor. */
  lemma ProducerSteps(s: State, id: nat)
    ensures Next(Step(s, Prepare(id)).q, Task(id)) == Null && id in Step(s, Prepare(id)).ready
    ensures var q := Step(s, ExchangeHead(id)).q;
            q.head == Task(id) && q.next == s.q.next && q.links == s.q.links[Task(id) := s.q.head] && id !in Step(s, ExchangeHead(id)).ready
    ensures Task(id) in s.q.links ==>
            var q := Step(s, LinkPrev(id)).q;
            Next(q, s.q.links[Task(id)]) == Task(id) && Task(id) !in q.links && q.head == s.q.head && q.tail == s.q.tail
  {
  }

  /** `TaskQueue::Pop`, which re-reads the field `Tail` at the end, takes the same steps. */
  lemma TaskQueueTakesTheSameSteps(run: seq<State>, acts: seq<Action>, k: nat)
    requires IsRun(run, acts) && k < |run|
    ensures TaskQueuePopStep(run[k].q, run[k].pc) == PopStep(run[k].q, run[k].pc)
  {
    RunKeepsInv(run, acts, k);
  }
}
