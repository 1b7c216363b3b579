/** The ring through which every worker gets every task: producers take tickets and fill slots,
    each worker reads the slots in turn, and the last one to release a task empties its slot. */
module TlsSync {
  import opened Arithmetic
  import opened Wrappers

  /** `n` workers, a ring of `size` slots, and at most `cap` tickets taken and not yet popped. */
  datatype Config = Config(n: nat, size: nat, cap: nat)

  predicate Proper(c: Config) {
    c.n > 0 && c.size > 0
  }

  /** Where a worker stands in `TLSTick`; tasks are named by their tickets. */
  datatype Pc =
    | Front                      // TLSFront
    | Dispatching(task: nat)     // Task->Dispatch( ..., false )
    | Releasing(task: nat)       // ReleaseReference
    | Finalising(task: nat)      // Task->Dispatch( ..., true )
    | Popping(task: nat)         // TLSPop
    | Freeing(task: nat)         // destruct and deallocate
    | Advancing                  // TLSNext

  /** `index` is the worker's `ThreadIndex`; `seen` is the history of its first dispatches. */
  datatype Worker = Worker(index: nat, pc: Pc, seen: seq<nat>)

  /** `head`, `slots` and `refs` are shared memory, `pending` the tickets whose producers have not
      filled their slots yet. `popped` counts the emptied slots; `finals` and `freed` are the history of
      the last dispatches and of the deallocations. */
  datatype State = State(
    head: nat, slots: seq<Option<nat>>, refs: map<nat, nat>, pending: set<nat>, popped: nat,
    workers: seq<Worker>, finals: seq<nat>, freed: seq<nat>)

  datatype Action = Take | Fill(ticket: nat) | Work(w: nat)

  function Init(c: Config): State {
    State(0, seq(c.size, _ => None), map[], {}, 0, seq(c.n, _ => Worker(0, Front, [])), [], [])
  }

  function Slot(s: State, i: nat): Option<nat> {
    if s.slots == [] then None else s.slots[i % |s.slots|]
  }

  function SetSlot(s: State, i: nat, v: Option<nat>): State {
    if s.slots == [] then s else s.(slots := s.slots[i % |s.slots| := v])
  }

  function SetWorker(s: State, w: nat, k: Worker): State
    requires w < |s.workers|
  {
    s.(workers := s.workers[w := k])
  }

  /** The worker goes on with what it found in a slot. */
  function Found(v: Option<nat>): Pc {
    match v
    case None => Front
    case Some(task) => Dispatching(task)
  }

  function References(s: State, task: nat): nat {
    if task in s.refs then s.refs[task] else 0
  }

  function WorkerStep(s: State, w: nat): State
    requires w < |s.workers|
  {
    var k := s.workers[w];
    match k.pc
    case Front => SetWorker(s, w, k.(pc := Found(Slot(s, k.index))))
    case Dispatching(task) => SetWorker(s, w, k.(pc := Releasing(task), seen := k.seen + [task]))
    case Releasing(task) =>
      var refs := References(s, task);
      SetWorker(s.(refs := s.refs[task := if refs == 0 then 0 else refs - 1]), w,
                k.(pc := if refs == 1 then Finalising(task) else Advancing))
    case Finalising(task) => SetWorker(s.(finals := s.finals + [task]), w, k.(pc := Popping(task)))
    case Popping(task) => SetWorker(SetSlot(s, k.index, None).(popped := s.popped + 1), w, k.(pc := Freeing(task)))
    case Freeing(task) => SetWorker(s.(freed := s.freed + [task]), w, k.(pc := Advancing))
    case Advancing => SetWorker(s, w, k.(index := k.index + 1, pc := Found(Slot(s, k.index + 1))))
  }

  predicate Enabled(c: Config, s: State, a: Action) {
    match a
    case Take => s.head < s.popped + c.cap
    case Fill(ticket) => ticket in s.pending
    case Work(w) => w < |s.workers|
  }

  /** A step of the machine; an action that is not enabled does nothing. A task is created with one
      reference for every worker. */
  function Step(c: Config, s: State, a: Action): State {
    if !Enabled(c, s, a) then s
    else match a
      case Take => s.(head := s.head + 1, refs := s.refs[s.head := c.n], pending := s.pending + {s.head})
      case Fill(ticket) => SetSlot(s, ticket, Some(ticket)).(pending := s.pending - {ticket})
      case Work(w) => WorkerStep(s, w)
  }

  function Run(c: Config, acts: seq<Action>): State {
    if acts == [] then Init(c) else Step(c, Run(c, acts[..|acts| - 1]), acts[|acts| - 1])
  }

  // ---- what is promised

  /** The tickets below `m`, in order. */
  function Tickets(m: nat): seq<nat> {
    seq(m, i => i)
  }

  /** Every worker has dispatched a prefix of the global ticket order: each task once, none skipped. */
  ghost predicate Agreement(s: State) {
    forall w :: 0 <= w < |s.workers| ==> s.workers[w].seen == Tickets(|s.workers[w].seen|)
  }

  /** The bound on the tickets in flight that is needed. */
  predicate WithinCapacity(c: Config) {
    c.cap < c.size || (c.n == 1 && c.cap == c.size)
  }

  // ---- the invariant

  predicate HasReleased(k: Worker) {
    k.pc.Finalising? || k.pc.Popping? || k.pc.Freeing? || k.pc.Advancing?
  }

  /** The number of tickets that a worker has released. */
  function Released(k: Worker): nat {
    if HasReleased(k) then k.index + 1 else k.index
  }

  predicate Finalises(k: Worker) {
    k.pc.Finalising? || k.pc.Popping?
  }

  predicate HasTask(pc: Pc) {
    !pc.Front? && !pc.Advancing?
  }

  ghost predicate WorkerOk(s: State, k: Worker) {
    && (HasTask(k.pc) ==> k.pc.task == k.index)
    && k.index <= s.head && (!k.pc.Front? ==> k.index < s.head && k.index !in s.pending)
    && k.seen == Tickets(if k.pc.Front? || k.pc.Dispatching? then k.index else k.index + 1)
    && s.popped <= Released(k)
    && (Finalises(k) ==> k.index == s.popped)
    && (k.pc.Freeing? ==> k.index < s.popped)
    && (Finalises(k) || k.pc.Freeing? ==> References(s, k.index) == 0)
  }

  /** The workers that have still to release `ticket`. */
  function Owing(s: State, ticket: nat): set<nat> {
    set w | 0 <= w < |s.workers| && Released(s.workers[w]) <= ticket
  }

  ghost predicate Counts(s: State) {
    && (forall t: nat :: t in s.refs <==> t < s.head)
    && forall t :: t in s.refs ==> s.refs[t] == |Owing(s, t)|
  }

  /** A slot holds the ticket that belongs there and is filled and not popped, if there is one. */
  ghost predicate Slots(c: Config, s: State) {
    && |s.slots| == c.size
    && s.popped <= s.head <= s.popped + c.cap
    && (forall t :: t in s.pending ==> s.popped <= t < s.head)
    && (forall t: nat :: s.popped <= t < s.head ==> Slot(s, t) == if t in s.pending then None else Some(t))
    && (forall i :: 0 <= i < |s.slots| && s.slots[i].Some? ==> s.popped <= s.slots[i].value < s.head && s.slots[i].value % c.size == i)
  }

  /** Every worker that finds it has released a task last stays the only one until it has freed it. */
  predicate Last(k: Worker) {
    Finalises(k) || k.pc.Freeing?
  }

  ghost predicate OneLast(s: State) {
    forall v, w :: 0 <= v < |s.workers| && 0 <= w < |s.workers| && Last(s.workers[v]) && Last(s.workers[w]) ==> v == w
  }

  ghost predicate FinalisedBy(s: State, t: nat, w: nat) {
    w < |s.workers| && Finalises(s.workers[w]) && s.workers[w].index == t
  }

  /** A task that nobody refers to has been popped or has its finaliser. */
  ghost predicate AllFinalised(s: State) {
    forall t: nat :: t < s.head && References(s, t) == 0 ==> t < s.popped || exists w :: FinalisedBy(s, t, w)
  }

  ghost predicate SomePopping(s: State) {
    exists w :: 0 <= w < |s.workers| && s.workers[w].pc.Popping?
  }

  ghost predicate SomeFreeing(s: State) {
    exists w :: 0 <= w < |s.workers| && s.workers[w].pc.Freeing?
  }

  ghost predicate Histories(s: State) {
    && s.finals == Tickets(s.popped + if SomePopping(s) then 1 else 0)
    && Tickets(s.popped) == s.freed + (if SomeFreeing(s) then [s.popped - 1] else [])
  }

  ghost predicate Workers(s: State) {
    forall w :: 0 <= w < |s.workers| ==> WorkerOk(s, s.workers[w])
  }

  ghost predicate Inv(c: Config, s: State) {
    && |s.workers| == c.n
    && Workers(s) && Counts(s) && Slots(c, s) && OneLast(s) && AllFinalised(s) && Histories(s)
  }

  // ---- reading a slot

  /** Within the capacity, a worker that looks for ticket `i` finds that ticket or nothing. */
  lemma ReadsItsTicket(c: Config, s: State, i: nat)
    requires Slots(c, s) && Proper(c) && s.popped <= i <= s.head && i < s.popped + c.size && c.cap <= c.size
    ensures Slot(s, i) == None || (Slot(s, i) == Some(i) && i < s.head && i !in s.pending)
  {
    var v := Slot(s, i);
    if i == s.head && v.Some? {
      DistinctRemainders(v.value, i, c.size);
    }
  }

  /** Filling the slot of a pending ticket disturbs no other ticket in flight, and finds it empty. */
  lemma FillKeepsSlots(c: Config, s: State, ticket: nat)
    requires Slots(c, s) && Proper(c) && ticket in s.pending && c.cap <= c.size
    ensures Slot(s, ticket) == None && Slots(c, Step(c, s, Fill(ticket)))
  {
    var s' := Step(c, s, Fill(ticket));
    forall t: nat | s.popped <= t < s.head && t != ticket ensures Slot(s', t) == Slot(s, t) {
      if t < ticket {
        DistinctRemainders(t, ticket, c.size);
      } else {
        DistinctRemainders(ticket, t, c.size);
      }
    }
  }

  lemma PopKeepsSlots(c: Config, s: State, w: nat)
    requires Slots(c, s) && Proper(c) && c.cap <= c.size && w < |s.workers|
    requires s.workers[w].pc.Popping? && s.workers[w].index == s.popped < s.head && s.popped !in s.pending
    ensures Slots(c, WorkerStep(s, w))
  {
    var s' := WorkerStep(s, w);
    forall t: nat | s.popped < t < s.head ensures Slot(s', t) == Slot(s, t) {
      DistinctRemainders(s.popped, t, c.size);
    }
    forall i | 0 <= i < |s'.slots| && s'.slots[i].Some? ensures s'.popped <= s'.slots[i].value < s'.head && s'.slots[i].value % c.size == i {
      assert s'.slots[i] == s.slots[i];
    }
  }

  // ---- who still owes what

  lemma SameOwing(s: State, s': State)
    requires |s'.workers| == |s.workers|
    requires forall w :: 0 <= w < |s.workers| ==> Released(s'.workers[w]) == Released(s.workers[w])
    ensures forall t :: Owing(s', t) == Owing(s, t)
  {
  }

  /** Worker `w` releases the ticket it is at. */
  lemma ReleaseOwing(s: State, s': State, w: nat)
    requires |s'.workers| == |s.workers| && w < |s.workers|
    requires forall v :: 0 <= v < |s.workers| && v != w ==> s'.workers[v] == s.workers[v]
    requires Released(s'.workers[w]) == Released(s.workers[w]) + 1
    ensures var k := Released(s.workers[w]);
            && w in Owing(s, k) && |Owing(s', k)| == |Owing(s, k)| - 1
            && forall t :: t != k ==> Owing(s', t) == Owing(s, t)
  {
    var k := Released(s.workers[w]);
    assert w in Owing(s, k);
    assert Owing(s', k) == Owing(s, k) - {w};
  }

  lemma NobodyOwes(s: State, t: nat)
    requires Counts(s) && t < s.head && References(s, t) == 0
    ensures forall w :: 0 <= w < |s.workers| ==> Released(s.workers[w]) > t
  {
    assert Owing(s, t) == {};
    assert forall w :: 0 <= w < |s.workers| && Released(s.workers[w]) <= t ==> w in Owing(s, t);
  }

  lemma Unowed(s: State, t: nat)
    requires Counts(s) && t < s.head && forall w :: 0 <= w < |s.workers| ==> Released(s.workers[w]) > t
    ensures References(s, t) == 0
  {
    assert Owing(s, t) == {};
  }

  lemma SomebodyOwes(s: State, t: nat, w: nat)
    requires Counts(s) && t < s.head && w < |s.workers| && Released(s.workers[w]) <= t
    ensures References(s, t) > 0
  {
    assert w in Owing(s, t);
  }

  lemma OnlyOwer(s: State, t: nat, w: nat)
    requires Counts(s) && t < s.head && References(s, t) == 1 && w < |s.workers| && Released(s.workers[w]) <= t
    ensures forall v :: 0 <= v < |s.workers| && v != w ==> Released(s.workers[v]) > t
  {
    assert w in Owing(s, t);
    forall v | 0 <= v < |s.workers| && v != w ensures Released(s.workers[v]) > t {
      if v in Owing(s, t) {
        assert {v, w} <= Owing(s, t);
        Cardinality({v, w}, Owing(s, t));
      }
    }
  }

  lemma {:induction false} Cardinality(a: set<nat>, b: set<nat>)
    requires a <= b
    ensures |a| <= |b|
  {
    if a != {} {
      var x :| x in a;
      Cardinality(a - {x}, b - {x});
    }
  }

  // ---- every step keeps the invariant

  lemma {:induction false} AllWorkers(s: State, t: nat, m: nat)
    requires m <= |s.workers| && forall w :: 0 <= w < m ==> Released(s.workers[w]) <= t
    ensures |set w | 0 <= w < m && Released(s.workers[w]) <= t| == m
  {
    if m > 0 {
      AllWorkers(s, t, m - 1);
      assert (set w | 0 <= w < m && Released(s.workers[w]) <= t) == (set w | 0 <= w < m - 1 && Released(s.workers[w]) <= t) + {m - 1};
    }
  }

  /** No worker moves: what is said about workers stays true. */
  lemma WorkersStay(s: State, s': State)
    requires s'.workers == s.workers && s'.popped == s.popped && s.head <= s'.head && Workers(s)
    requires s'.finals == s.finals && s'.freed == s.freed
    requires forall t: nat :: t < s.head && t in s'.pending ==> t in s.pending
    requires forall t: nat :: t < s.head ==> References(s', t) == References(s, t)
    ensures Workers(s')
    ensures OneLast(s) ==> OneLast(s')
    ensures Histories(s) ==> Histories(s')
  {
    forall w | 0 <= w < |s'.workers| ensures WorkerOk(s', s'.workers[w]) {
      assert WorkerOk(s, s.workers[w]);
    }
  }

  lemma Finaliser(s: State, t: nat) returns (w: nat)
    requires AllFinalised(s) && s.popped <= t < s.head && References(s, t) == 0
    ensures FinalisedBy(s, t, w)
  {
    w :| FinalisedBy(s, t, w);
  }

  lemma StillAllFinalised(s: State, s': State)
    requires AllFinalised(s) && s'.workers == s.workers && s'.popped == s.popped && s.head <= s'.head
    requires forall t: nat :: t < s.head ==> References(s', t) == References(s, t)
    requires forall t: nat :: s.head <= t < s'.head ==> References(s', t) > 0
    ensures AllFinalised(s')
  {
    forall t: nat | t < s'.head && References(s', t) == 0 && t >= s'.popped ensures exists w :: FinalisedBy(s', t, w) {
      var w := Finaliser(s, t);
      assert FinalisedBy(s', t, w);
    }
  }

  lemma TakeKeepsCounts(c: Config, s: State)
    requires Counts(s) && Workers(s) && |s.workers| == c.n && Enabled(c, s, Take)
    ensures Counts(Step(c, s, Take))
  {
    var s' := Step(c, s, Take);
    SameOwing(s, s');
    forall w | 0 <= w < |s.workers| ensures Released(s.workers[w]) <= s.head {
      assert WorkerOk(s, s.workers[w]);
    }
    AllWorkers(s, s.head, |s.workers|);
    assert |Owing(s', s.head)| == c.n;
  }

  lemma TakeKeepsInv(c: Config, s: State)
    requires Inv(c, s) && Proper(c) && c.cap <= c.size && Enabled(c, s, Take)
    ensures Inv(c, Step(c, s, Take))
  {
    hide Workers, Slots, Histories, OneLast, AllFinalised;
    var s' := Step(c, s, Take);
    TakeKeepsCounts(c, s);
    TakeKeepsSlots(c, s);
    WorkersStay(s, s');
    StillAllFinalised(s, s');
  }

  lemma TakeKeepsSlots(c: Config, s: State)
    requires Slots(c, s) && Proper(c) && c.cap <= c.size && Enabled(c, s, Take)
    ensures Slots(c, Step(c, s, Take))
  {
    ReadsItsTicket(c, s, s.head);
  }

  lemma FillKeepsInv(c: Config, s: State, ticket: nat)
    requires Inv(c, s) && Proper(c) && c.cap <= c.size && ticket in s.pending
    ensures Inv(c, Step(c, s, Fill(ticket)))
  {
    hide Workers, Slots, Histories, OneLast, AllFinalised;
    var s' := Step(c, s, Fill(ticket));
    SameOwing(s, s');
    FillKeepsSlots(c, s, ticket);
    WorkersStay(s, s');
    StillAllFinalised(s, s');
  }

  /** Worker `w` moves and does not release, pop or free. */
  ghost predicate OnlyMoves(s: State, s': State, w: nat) {
    && w < |s.workers| && |s'.workers| == |s.workers| && s' == s.(workers := s.workers[w := s'.workers[w]])
    && Released(s'.workers[w]) == Released(s.workers[w])
    && !Last(s.workers[w]) && !Last(s'.workers[w])
  }

  lemma MoveKeepsWorkers(s: State, s': State, w: nat)
    requires Workers(s) && OnlyMoves(s, s', w) && WorkerOk(s', s'.workers[w])
    ensures Workers(s') && (OneLast(s) ==> OneLast(s'))
  {
    forall v | 0 <= v < |s'.workers| ensures WorkerOk(s', s'.workers[v]) {
      assert WorkerOk(s, s.workers[v]);
    }
  }

  lemma MoveKeepsHistories(s: State, s': State, w: nat)
    requires OnlyMoves(s, s', w)
    ensures Histories(s) ==> Histories(s')
    ensures AllFinalised(s) ==> AllFinalised(s')
  {
    if AllFinalised(s) {
      forall t: nat | t < s'.head && References(s', t) == 0 && t >= s'.popped ensures exists w :: FinalisedBy(s', t, w) {
        var v := Finaliser(s, t);
        assert FinalisedBy(s', t, v);
      }
    }
    assert forall v :: 0 <= v < |s.workers| ==> (s'.workers[v].pc.Popping? <==> s.workers[v].pc.Popping?);
    assert forall v :: 0 <= v < |s.workers| ==> (s'.workers[v].pc.Freeing? <==> s.workers[v].pc.Freeing?);
  }

  lemma MoveKeepsInv(c: Config, s: State, s': State, w: nat)
    requires Inv(c, s) && OnlyMoves(s, s', w) && WorkerOk(s', s'.workers[w])
    ensures Inv(c, s')
  {
    hide Workers, Slots, Histories, OneLast, AllFinalised, WorkerOk;
    SameOwing(s, s');
    SameSlots(c, s, s');
    MoveKeepsWorkers(s, s', w);
    MoveKeepsHistories(s, s', w);
  }

  lemma SameSlots(c: Config, s: State, s': State)
    requires Slots(c, s) && s'.slots == s.slots && s'.head == s.head && s'.popped == s.popped && s'.pending == s.pending
    ensures Slots(c, s')
  {
    assert forall t :: Slot(s', t) == Slot(s, t);
  }

  /** The ticket that the worker looks at next is not one that its slot could hold a turn later. */
  lemma LooksWithinTheRing(c: Config, s: State, w: nat)
    requires Inv(c, s) && Proper(c) && WithinCapacity(c) && w < c.n
    requires s.workers[w].pc.Front? || s.workers[w].pc.Advancing?
    ensures s.popped <= Released(s.workers[w]) <= s.head && Released(s.workers[w]) < s.popped + c.size
  {
    var i := Released(s.workers[w]);
    assert WorkerOk(s, s.workers[w]);
    assert c.n == 1 ==> forall v :: !FinalisedBy(s, s.popped, v);
    if c.cap == c.size && s.popped < i {
      Unowed(s, s.popped);
    }
  }

  lemma LookKeepsInv(c: Config, s: State, w: nat)
    requires Inv(c, s) && Proper(c) && WithinCapacity(c) && w < c.n
    requires s.workers[w].pc.Front? || s.workers[w].pc.Advancing?
    ensures Inv(c, WorkerStep(s, w))
  {
    hide Inv, Counts, Slots, OneLast, AllFinalised, Histories, Slot;
    assert WorkerOk(s, s.workers[w]) by { WorkerOf(c, s, w); }
    LooksWithinTheRing(c, s, w);
    assert Slots(c, s) by { SlotsOf(c, s); }
    ReadsItsTicket(c, s, Released(s.workers[w]));
    MoveKeepsInv(c, s, WorkerStep(s, w), w);
  }

  lemma WorkerOf(c: Config, s: State, w: nat)
    requires Inv(c, s) && w < c.n
    ensures |s.workers| == c.n && WorkerOk(s, s.workers[w])
  {
    hide Counts, Slots, OneLast, AllFinalised, Histories;
  }

  lemma SlotsOf(c: Config, s: State)
    requires Inv(c, s)
    ensures Slots(c, s) && |s.workers| == c.n
  {
    hide Workers, Slots, Counts, OneLast, AllFinalised, Histories;
  }

  lemma DispatchKeepsInv(c: Config, s: State, w: nat)
    requires Inv(c, s) && w < c.n && s.workers[w].pc.Dispatching?
    ensures Inv(c, WorkerStep(s, w))
  {
    hide Inv, Counts, Slots, OneLast, AllFinalised, Histories;
    WorkerOf(c, s, w);
    assert Tickets(s.workers[w].index + 1) == Tickets(s.workers[w].index) + [s.workers[w].index];
    MoveKeepsInv(c, s, WorkerStep(s, w), w);
  }

  lemma ReleaseKeepsWorkers(c: Config, s: State, w: nat)
    requires Inv(c, s) && w < c.n && s.workers[w].pc.Releasing?
    ensures Workers(WorkerStep(s, w)) && OneLast(WorkerStep(s, w))
  {
    hide Slots, AllFinalised, Histories;
    var s' := WorkerStep(s, w);
    var k := s.workers[w].index;
    assert WorkerOk(s, s.workers[w]);
    SomebodyOwes(s, k, w);
    if References(s, k) == 1 {
      OnlyOwer(s, k, w);
      NoOtherLast(s, w);
      PoppedUpTo(c, s, w);
    }
    forall v | 0 <= v < |s'.workers| ensures WorkerOk(s', s'.workers[v]) {
      assert WorkerOk(s, s.workers[v]);
    }
  }

  /** While worker `w` is the only one that owes its ticket, nobody has another ticket to finalise. */
  lemma NoOtherLast(s: State, w: nat)
    requires Workers(s) && Counts(s) && w < |s.workers| && s.workers[w].pc.Releasing?
    requires References(s, s.workers[w].index) == 1
    ensures forall v :: 0 <= v < |s.workers| ==> !Last(s.workers[v])
  {
    var k := s.workers[w].index;
    assert WorkerOk(s, s.workers[w]);
    OnlyOwer(s, k, w);
    forall v | 0 <= v < |s.workers| ensures !Last(s.workers[v]) {
      if Last(s.workers[v]) {
        LastIsUnowed(s, v);
      }
    }
  }

  lemma LastIsUnowed(s: State, v: nat)
    requires Workers(s) && Counts(s) && v < |s.workers| && Last(s.workers[v])
    ensures forall w :: 0 <= w < |s.workers| ==> Released(s.workers[w]) > s.workers[v].index
    ensures Released(s.workers[v]) == s.workers[v].index + 1
  {
    assert WorkerOk(s, s.workers[v]);
    NobodyOwes(s, s.workers[v].index);
  }

  /** The ticket released last is the next one to be popped. */
  lemma PoppedUpTo(c: Config, s: State, w: nat)
    requires Inv(c, s) && w < c.n && s.workers[w].pc.Releasing? && References(s, s.workers[w].index) == 1
    ensures s.popped == s.workers[w].index
  {
    hide Slots, Histories, OneLast;
    var k := s.workers[w].index;
    assert WorkerOk(s, s.workers[w]);
    OnlyOwer(s, k, w);
    NoOtherLast(s, w);
    assert forall v :: !FinalisedBy(s, s.popped, v);
    if s.popped < k {
      Unowed(s, s.popped);
    }
  }

  lemma ReleaseKeepsRest(c: Config, s: State, w: nat)
    requires Inv(c, s) && w < c.n && s.workers[w].pc.Releasing?
    ensures Counts(WorkerStep(s, w)) && AllFinalised(WorkerStep(s, w))
  {
    hide Slots, OneLast, Histories;
    var s' := WorkerStep(s, w);
    var k := s.workers[w].index;
    assert WorkerOk(s, s.workers[w]);
    SomebodyOwes(s, k, w);
    ReleaseOwing(s, s', w);
    forall t: nat | t < s'.head && References(s', t) == 0 && t >= s'.popped ensures exists v :: FinalisedBy(s', t, v) {
      if t == k {
        assert FinalisedBy(s', t, w);
      } else {
        var v := Finaliser(s, t);
        assert FinalisedBy(s', t, v);
      }
    }
  }

  lemma ReleaseKeepsInv(c: Config, s: State, w: nat)
    requires Inv(c, s) && w < c.n && s.workers[w].pc.Releasing?
    ensures Inv(c, WorkerStep(s, w))
  {
    hide Workers, Counts, Slots, OneLast, AllFinalised;
    var s' := WorkerStep(s, w);
    ReleaseKeepsWorkers(c, s, w);
    ReleaseKeepsRest(c, s, w);
    SameSlots(c, s, s');
    StagesStay(s, s', w);
  }

  lemma StagesStay(s: State, s': State, w: nat)
    requires Histories(s) && s'.popped == s.popped && s'.finals == s.finals && s'.freed == s.freed
    requires w < |s.workers| && |s'.workers| == |s.workers| && s'.workers == s.workers[w := s'.workers[w]]
    requires !s.workers[w].pc.Popping? && !s'.workers[w].pc.Popping? && !s.workers[w].pc.Freeing? && !s'.workers[w].pc.Freeing?
    ensures Histories(s')
  {
    assert forall v :: 0 <= v < |s.workers| ==> (s'.workers[v].pc.Popping? <==> s.workers[v].pc.Popping?);
    assert forall v :: 0 <= v < |s.workers| ==> (s'.workers[v].pc.Freeing? <==> s.workers[v].pc.Freeing?);
  }

  // ---- the last worker of a task

  lemma LastKeepsWorkers(c: Config, s: State, w: nat)
    requires Inv(c, s) && w < c.n && Last(s.workers[w])
    ensures Workers(WorkerStep(s, w)) && OneLast(WorkerStep(s, w))
  {
    hide Slots, AllFinalised, Histories, Counts;
    var s' := WorkerStep(s, w);
    assert WorkerOk(s, s.workers[w]);
    LastIsUnowed(s, w);
    forall v | 0 <= v < |s'.workers| ensures WorkerOk(s', s'.workers[v]) {
      assert WorkerOk(s, s.workers[v]);
    }
  }

  lemma LastKeepsCounts(c: Config, s: State, w: nat)
    requires Inv(c, s) && w < c.n && Last(s.workers[w])
    ensures Counts(WorkerStep(s, w))
  {
    hide Slots, AllFinalised, Histories, OneLast, Workers;
    SameOwing(s, WorkerStep(s, w));
  }

  lemma LastKeepsFinalised(c: Config, s: State, w: nat)
    requires Inv(c, s) && w < c.n && Last(s.workers[w])
    ensures AllFinalised(WorkerStep(s, w))
  {
    hide Slots, Counts, Histories;
    var s' := WorkerStep(s, w);
    assert WorkerOk(s, s.workers[w]);
    forall t: nat | t < s'.head && References(s', t) == 0 && t >= s'.popped ensures exists v :: FinalisedBy(s', t, v) {
      var v := Finaliser(s, t);
      assert FinalisedBy(s', t, v);
    }
  }

  lemma LastKeepsHistories(c: Config, s: State, w: nat)
    requires Inv(c, s) && w < c.n && Last(s.workers[w])
    ensures Histories(WorkerStep(s, w))
  {
    hide Slots, Counts, AllFinalised;
    var s' := WorkerStep(s, w);
    assert WorkerOk(s, s.workers[w]);
    assert Tickets(s.popped + 1) == Tickets(s.popped) + [s.popped];
    match s.workers[w].pc
    case Finalising(_) => assert s'.workers[w].pc.Popping?;
    case Popping(_) => assert s'.workers[w].pc.Freeing?;
    case Freeing(_) =>
  }

  lemma LastKeepsInv(c: Config, s: State, w: nat)
    requires Inv(c, s) && Proper(c) && c.cap <= c.size && w < c.n && Last(s.workers[w])
    ensures Inv(c, WorkerStep(s, w))
  {
    hide Counts, Slots, OneLast, AllFinalised, Histories;
    LastKeepsWorkers(c, s, w);
    LastKeepsCounts(c, s, w);
    LastKeepsFinalised(c, s, w);
    LastKeepsHistories(c, s, w);
    assert WorkerOk(s, s.workers[w]);
    if s.workers[w].pc.Popping? {
      PopKeepsSlots(c, s, w);
    } else {
      SameSlots(c, s, WorkerStep(s, w));
    }
  }
}
