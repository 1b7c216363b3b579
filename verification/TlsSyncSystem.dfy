/** `TLSSyncQueue` and `TLSTick` as an object updated in place. What a thread does to it while no
    other thread runs in between is a sequence of the machine's steps. */
module TlsSyncSystem {
  import opened Masks
  import opened Wrappers
  import opened TlsSync
  import opened TlsSyncTheorems

  /** `m` statements of worker `w`. */
  function Ticks(s: State, w: nat, m: nat): (r: State)
    requires w < |s.workers|
    ensures |r.workers| == |s.workers|
  {
    if m == 0 then s else WorkerStep(Ticks(s, w, m - 1), w)
  }

  /** `head`, `items` and `refs` (the tasks' reference counts) are shared, `threadIndex` is each
      worker's own. The ghost fields hold what the machine remembers besides. */
  class TLSSyncSystem {
    const config: Config
    const mask: nat
    const items: array<Option<nat>>
    const threadIndex: array<nat>
    var head: nat
    var refs: map<nat, nat>
    ghost var pending: set<nat>
    ghost var popped: nat
    ghost var workers: seq<Worker>
    ghost var finals: seq<nat>
    ghost var freed: seq<nat>

    ghost function Model(): State
      reads this, items
    {
      State(head, items[..], refs, pending, popped, workers, finals, freed)
    }

    ghost predicate Shape()
      reads this, items, threadIndex
    {
      && Proper(config) && IsPow2(config.size) && mask == config.size - 1
      && items.Length == config.size && threadIndex.Length == config.n == |workers|
      && forall w :: 0 <= w < config.n ==> threadIndex[w] == workers[w].index
    }

    ghost predicate Valid()
      reads this, items, threadIndex
    {
      Shape() && WithinCapacity(config) && Inv(config, Model())
    }

    constructor (config: Config)
      requires Proper(config) && IsPow2(config.size)
      ensures this.config == config && Shape() && Model() == Init(config) && fresh(items) && fresh(threadIndex)
      ensures WithinCapacity(config) ==> Valid()
    {
      this.config, mask := config, config.size - 1;
      items := new Option<nat>[config.size](_ => None);
      threadIndex := new nat[config.n](_ => 0);
      head, refs, pending, popped, finals, freed := 0, map[], {}, 0, [], [];
      workers := Init(config).workers;
      new;
      assert items[..] == Init(config).slots;
      InitHolds(config);
    }

    /** The position `TaskIndex & Mask`. */
    function Position(index: nat): (p: nat)
      requires Shape()
      reads this, items, threadIndex
      ensures p == index % config.size && p < items.Length
    {
      ghost var k: nat :| config.size == Pow2(k);
      MaskIsModulo(index, k);
      And(index, mask)
    }

    /** A producer takes the next ticket for a new task, which has one reference for each worker. */
    method TakeTicket() returns (ticket: nat)
      requires Shape() && Enabled(config, Model(), Take)
      modifies this
      ensures Shape() && Model() == Step(config, old(Model()), Take) && ticket == old(head)
    {
      ticket := head;
      head := head + 1;
      refs := refs[ticket := config.n];
      pending := pending + {ticket};
    }

    /** ... and stores the task; the slot is empty, as the assertion in `Push` demands. */
    method Store(ticket: nat)
      requires Valid() && ticket in pending
      modifies this, items
      ensures Valid() && Model() == Step(config, old(Model()), Fill(ticket))
      ensures old(items[ticket % config.size]) == None
    {
      FillKeepsSlots(config, Model(), ticket);
      FillKeepsInv(config, Model(), ticket);
      items[Position(ticket)] := Some(ticket);
      pending := pending - {ticket};
    }

    method Push() returns (ticket: nat)
      requires Valid() && Enabled(config, Model(), Take)
      modifies this, items
      ensures Valid() && ticket == old(head)
      ensures Model() == Step(config, Step(config, old(Model()), Take), Fill(ticket))
    {
      TakeKeepsInv(config, Model());
      ticket := TakeTicket();
      Store(ticket);
    }

    /** What worker `w` does to itself only. */
    ghost method Goes(w: nat, k: Worker)
      requires w < |workers| && Shape() && k.index == threadIndex[w]
      modifies this`workers
      ensures Shape() && workers == old(workers)[w := k]
    {
      workers := workers[w := k];
    }

    method TLSFront(w: nat) returns (task: Option<nat>)
      requires Shape() && w < config.n && workers[w].pc.Front?
      modifies this`workers
      ensures Shape() && Model() == WorkerStep(old(Model()), w) && workers[w] == old(workers[w]).(pc := Found(task))
      ensures task == Slot(Model(), workers[w].index)
    {
      var index := threadIndex[w];
      task := items[Position(index)];
      Goes(w, workers[w].(pc := Found(task)));
    }

    method TLSNext(w: nat) returns (task: Option<nat>)
      requires Shape() && w < config.n && workers[w].pc.Advancing?
      modifies this`workers, threadIndex
      ensures Shape() && Model() == WorkerStep(old(Model()), w)
      ensures workers[w].pc == Found(task) && workers[w].index == old(workers[w].index) + 1
      ensures task == Slot(Model(), workers[w].index)
    {
      var index := threadIndex[w] + 1;
      task := items[Position(index)];
      threadIndex[w] := index;
      workers := workers[w := Worker(index, Found(task), workers[w].seen)];
    }

    method TLSPop(w: nat)
      requires Shape() && w < config.n && workers[w].pc.Popping?
      modifies this`popped, this`workers, items
      ensures Shape() && Model() == WorkerStep(old(Model()), w) && workers[w] == old(workers[w]).(pc := Freeing(old(workers[w].pc.task)))
    {
      items[Position(threadIndex[w])] := None;
      popped := popped + 1;
      workers := workers[w := workers[w].(pc := Freeing(workers[w].pc.task))];
    }

    /** `ReleaseReference`: true for the reference that was the last. */
    method ReleaseReference(w: nat, task: nat) returns (last: bool)
      requires Shape() && w < config.n && workers[w].pc == Releasing(task)
      modifies this`refs, this`workers
      ensures Shape() && Model() == WorkerStep(old(Model()), w)
      ensures workers[w] == old(workers[w]).(pc := if last then Finalising(task) else Advancing)
    {
      var count := if task in refs then refs[task] else 0;
      refs := refs[task := if count == 0 then 0 else count - 1];
      last := count == 1;
      workers := workers[w := workers[w].(pc := if last then Finalising(task) else Advancing)];
    }

    /** `Task->Dispatch( InWorker, InGroup, bIsLast )`. */
    method Dispatch(w: nat, task: nat, bIsLast: bool)
      requires Shape() && w < config.n && workers[w].pc == (if bIsLast then Finalising(task) else Dispatching(task))
      modifies this`finals, this`workers
      ensures Shape() && Model() == WorkerStep(old(Model()), w)
      ensures workers[w].index == old(workers[w].index) && workers[w].pc == if bIsLast then Popping(task) else Releasing(task)
    {
      if bIsLast {
        finals := finals + [task];
        workers := workers[w := workers[w].(pc := Popping(task))];
      } else {
        workers := workers[w := workers[w].(pc := Releasing(task), seen := workers[w].seen + [task])];
      }
    }

    /** Destruct and deallocate. */
    method Free(w: nat, task: nat)
      requires Shape() && w < config.n && workers[w].pc == Freeing(task)
      modifies this`freed, this`workers
      ensures Shape() && Model() == WorkerStep(old(Model()), w) && workers[w] == old(workers[w]).(pc := Advancing)
    {
      freed := freed + [task];
      workers := workers[w := workers[w].(pc := Advancing)];
    }

    /** The first statements of the loop, up to the release. */
    method DispatchAndRelease(w: nat, task: nat) returns (last: bool)
      requires Valid() && w < config.n && workers[w].pc == Pc.Dispatching(task)
      modifies this`finals, this`refs, this`workers
      ensures Valid() && Model() == WorkerStep(WorkerStep(old(Model()), w), w)
      ensures workers[w].pc == (if last then Finalising(task) else Advancing) && workers[w].index == old(workers[w].index)
    {
      hide Inv, WorkerStep;
      WorkKeepsInv(config, Model(), w);
      Dispatch(w, task, false);
      WorkKeepsInv(config, Model(), w);
      last := ReleaseReference(w, task);
    }

    /** What the worker that released the last reference does. */
    method Finalise(w: nat, task: nat)
      requires Valid() && w < config.n && workers[w].pc == Finalising(task)
      modifies this`finals, this`popped, this`freed, this`workers, items
      ensures Valid() && Model() == WorkerStep(WorkerStep(WorkerStep(old(Model()), w), w), w)
      ensures workers[w].pc == Advancing && workers[w].index == old(workers[w].index)
    {
      hide Inv, WorkerStep;
      WorkKeepsInv(config, Model(), w);
      Dispatch(w, task, true);
      WorkKeepsInv(config, Model(), w);
      TLSPop(w);
      WorkKeepsInv(config, Model(), w);
      Free(w, task);
    }

    /** One turn of the loop. */
    method Turn(w: nat, task: nat) returns (next: Option<nat>, ghost m: nat)
      requires Valid() && w < config.n && workers[w].pc == Pc.Dispatching(task)
      modifies this`finals, this`refs, this`popped, this`freed, this`workers, items, threadIndex
      ensures Valid() && Model() == Ticks(old(Model()), w, m)
      ensures workers[w].pc == Found(next) && workers[w].index == old(workers[w].index) + 1 <= head
      ensures next == Slot(Model(), workers[w].index)
    {
      hide Inv, WorkerStep;
      ghost var s := Model();
      assert Ticks(s, w, 2) == WorkerStep(Ticks(s, w, 1), w) && Ticks(s, w, 1) == WorkerStep(Ticks(s, w, 0), w);
      var last := DispatchAndRelease(w, task);
      m := 2;
      if last {
        Finalise(w, task);
        assert Ticks(s, w, 5) == WorkerStep(Ticks(s, w, 4), w) && Ticks(s, w, 4) == WorkerStep(Ticks(s, w, 3), w);
        m := 5;
      }
      WorkKeepsInv(config, Model(), w);
      IndexOf(config, Model(), w);
      next := TLSNext(w);
      m := m + 1;
    }

    /** One tick of worker `w`: it takes the steps of the machine until it finds an empty slot, and
        ends, because within the capacity it cannot run round the ring. */
    method TLSTick(w: nat)
      requires Valid() && w < config.n && workers[w].pc == Front
      modifies this`finals, this`refs, this`popped, this`freed, this`workers, items, threadIndex
      ensures Valid() && workers[w].pc == Front && Slot(Model(), workers[w].index) == None
      ensures workers[w].seen == Tickets(workers[w].index) && (workers[w].index == head || workers[w].index in pending)
      ensures exists m: nat :: Model() == Ticks(old(Model()), w, m)
    {
      hide Inv, WorkerStep;
      ghost var s := Model();
      ghost var m: nat := 1;
      WorkKeepsInv(config, Model(), w);
      IndexOf(config, Model(), w);
      assert Ticks(s, w, 1) == WorkerStep(Ticks(s, w, 0), w);
      var task := TLSFront(w);
      while task.Some?
        invariant Valid() && workers[w].pc == Found(task)
        invariant Model() == Ticks(s, w, m)
        invariant task == Slot(Model(), workers[w].index)
        invariant workers[w].index <= head
        decreases head - workers[w].index
      {
        ghost var k: nat;
        TicksAdd(s, w, m);
        task, k := Turn(w, task.value);
        m := m + k;
      }
      AtRest(config, Model(), w);
    }

    /** `Clear`: every task that is still in the ring is released once, slot by slot. */
    method Clear() returns (released: seq<nat>)
      requires Shape()
      modifies items
      ensures forall i :: 0 <= i < items.Length ==> items[i] == None
      ensures released == Values(old(items[..]))
    {
      released := [];
      for i := 0 to items.Length
        invariant forall j :: 0 <= j < i ==> items[j] == None
        invariant forall j :: i <= j < items.Length ==> items[j] == old(items[j])
        invariant released == Values(old(items[..])[..i])
      {
        assert old(items[..])[..i + 1] == old(items[..])[..i] + [old(items[i])];
        if items[i].Some? {
          released := released + [items[i].value];
        }
        items[i] := None;
      }
      assert old(items[..])[..items.Length] == old(items[..]);
    }
  }

  lemma {:induction false} AddTicks(s: State, w: nat, a: nat, b: nat)
    requires w < |s.workers|
    ensures Ticks(Ticks(s, w, a), w, b) == Ticks(s, w, a + b)
  {
    hide WorkerStep;
    if b > 0 {
      AddTicks(s, w, a, b - 1);
    }
  }

  lemma TicksAdd(s: State, w: nat, a: nat)
    requires w < |s.workers|
    ensures forall b: nat :: Ticks(Ticks(s, w, a), w, b) == Ticks(s, w, a + b)
  {
    forall b: nat ensures Ticks(Ticks(s, w, a), w, b) == Ticks(s, w, a + b) {
      AddTicks(s, w, a, b);
    }
  }

  lemma AtRest(c: Config, s: State, w: nat)
    requires Inv(c, s) && w < c.n && s.workers[w].pc == Front && Slot(s, s.workers[w].index) == None
    ensures s.workers[w].seen == Tickets(s.workers[w].index)
    ensures s.workers[w].index == s.head || s.workers[w].index in s.pending
  {
    hide Counts, OneLast, AllFinalised, Histories;
    assert WorkerOk(s, s.workers[w]);
  }

  lemma IndexOf(c: Config, s: State, w: nat)
    requires Inv(c, s) && w < c.n
    ensures |s.workers| == c.n && s.workers[w].index <= s.head && (s.workers[w].pc != Front ==> s.workers[w].index < s.head)
  {
    hide Counts, Slots, OneLast, AllFinalised, Histories;
    assert WorkerOk(s, s.workers[w]);
  }

  lemma WorkKeepsInv(c: Config, s: State, w: nat)
    requires Inv(c, s) && Proper(c) && WithinCapacity(c) && w < c.n
    ensures |s.workers| == c.n && Inv(c, WorkerStep(s, w))
  {
    hide Inv, WorkerStep;
    SlotsOf(c, s);
    StepKeepsInv(c, s, Work(w));
  }
}
