/** What the broadcast ring promises, and the bound on tickets in flight under which it does. */
module TlsSyncTheorems {
  import opened Wrappers
  import opened TlsSync

  lemma InitHolds(c: Config)
    requires Proper(c)
    ensures Inv(c, Init(c))
  {
  }

  lemma {:induction false} RunKeepsInv(c: Config, acts: seq<Action>)
    requires Proper(c) && WithinCapacity(c)
    ensures Inv(c, Run(c, acts))
  {
    if acts == [] {
      InitHolds(c);
    } else {
      RunKeepsInv(c, acts[..|acts| - 1]);
      StepKeepsInv(c, Run(c, acts[..|acts| - 1]), acts[|acts| - 1]);
    }
  }

  lemma StepKeepsInv(c: Config, s: State, a: Action)
    requires Inv(c, s) && Proper(c) && WithinCapacity(c)
    ensures Inv(c, Step(c, s, a))
  {
    hide Inv, WorkerStep;
    if Enabled(c, s, a) {
      match a
      case Take => TakeKeepsInv(c, s);
      case Fill(ticket) => FillKeepsInv(c, s, ticket);
      case Work(w) =>
        SlotsOf(c, s);
        match s.workers[w].pc
        case Front => LookKeepsInv(c, s, w);
        case Dispatching(_) => DispatchKeepsInv(c, s, w);
        case Releasing(_) => ReleaseKeepsInv(c, s, w);
        case Advancing => LookKeepsInv(c, s, w);
        case _ => LastKeepsInv(c, s, w);
    }
  }

  // ---- agreement

  /** Within the capacity every worker has, at every moment, dispatched a prefix of the global ticket
      order; and a worker that is past a ticket has dispatched it. */
  lemma WorkersAgree(c: Config, acts: seq<Action>)
    requires Proper(c) && WithinCapacity(c)
    ensures Agreement(Run(c, acts))
    ensures var s := Run(c, acts); forall w :: 0 <= w < |s.workers| ==> s.workers[w].index <= |s.workers[w].seen| <= s.head
  {
    hide Counts, Slots, OneLast, AllFinalised, Histories;
    var s := Run(c, acts);
    RunKeepsInv(c, acts);
    forall w | 0 <= w < |s.workers|
      ensures s.workers[w].seen == Tickets(|s.workers[w].seen|) && s.workers[w].index <= |s.workers[w].seen| <= s.head
    {
      assert WorkerOk(s, s.workers[w]);
    }
  }

  // ---- the bound is needed

  lemma OneMore(c: Config, acts: seq<Action>, a: Action)
    ensures Run(c, acts + [a]) == Step(c, Run(c, acts), a)
  {
    assert (acts + [a])[..|acts|] == acts;
  }

  /** `m` producers have taken tickets and none has filled its slot. */
  ghost predicate OnlyTaken(c: Config, s: State, m: nat) {
    && s.head == m && s.popped == 0 && s.slots == Init(c).slots && s.workers == Init(c).workers
    && forall t: nat :: t in s.pending <==> t < m
  }

  lemma {:induction false} TakeMany(c: Config, m: nat) returns (acts: seq<Action>)
    requires m <= c.cap
    ensures OnlyTaken(c, Run(c, acts), m)
  {
    if m == 0 {
      acts := [];
    } else {
      var before := TakeMany(c, m - 1);
      OneMore(c, before, Take);
      acts := before + [Take];
    }
  }

  /** With more tickets in flight than slots, a ticket that is filled early is read in the place of
      one a turn before it. */
  lemma OvertakenWhenOverfull(c: Config) returns (acts: seq<Action>)
    requires Proper(c) && c.cap > c.size
    ensures !Agreement(Run(c, acts))
  {
    var before := TakeMany(c, c.size + 1);
    OneMore(c, before, Fill(c.size));
    OneMore(c, before + [Fill(c.size)], Work(0));
    OneMore(c, before + [Fill(c.size), Work(0)], Work(0));
    assert before + [Fill(c.size)] + [Work(0)] == before + [Fill(c.size), Work(0)];
    acts := before + [Fill(c.size), Work(0)] + [Work(0)];
    var s := Run(c, acts);
    assert c.size % c.size == 0;
    var s1 := Step(c, Run(c, before), Fill(c.size));
    assert Slot(s1, 0) == Some(c.size);
    assert s.workers[0].seen == [c.size] && Tickets(1) == [0];
  }

  /** The first `m` tickets are taken and filled and nobody has read them. */
  ghost predicate OnlyFilled(c: Config, s: State, m: nat) {
    && m <= c.size && s.head == m && s.popped == 0 && s.workers == Init(c).workers && |s.slots| == c.size
    && (forall i :: 0 <= i < m ==> s.slots[i] == Some(i) && References(s, i) == c.n)
  }

  lemma FillOne(c: Config, s: State, m: nat)
    requires OnlyFilled(c, s, m) && m < c.cap && m < c.size
    ensures OnlyFilled(c, Step(c, Step(c, s, Take), Fill(m)), m + 1)
  {
    assert m % c.size == m;
  }

  lemma {:induction false} FillMany(c: Config, m: nat) returns (acts: seq<Action>)
    requires m <= c.cap && m <= c.size
    ensures OnlyFilled(c, Run(c, acts), m)
  {
    if m == 0 {
      acts := [];
    } else {
      var before := FillMany(c, m - 1);
      OneMore(c, before, Take);
      OneMore(c, before + [Take], Fill(m - 1));
      FillOne(c, Run(c, before), m - 1);
      acts := before + [Take] + [Fill(m - 1)];
    }
  }

  /** Worker 0 has run through the first `j` tickets of a full ring, while another has not begun. */
  ghost predicate FirstIsAt(c: Config, s: State, j: nat) {
    && j <= c.size && |s.workers| == c.n && |s.slots| == c.size && Proper(c)
    && (forall i :: 0 <= i < c.size ==> s.slots[i] == Some(i))
    && s.workers[0] == Worker(j, Dispatching(j % c.size), Tickets(j))
    && forall i: nat :: j <= i < c.size ==> References(s, i) == c.n
  }

  lemma RunThrough(c: Config, s: State, j: nat)
    requires c.n >= 2 && FirstIsAt(c, s, j) && j < c.size
    ensures FirstIsAt(c, WorkerStep(WorkerStep(WorkerStep(s, 0), 0), 0), j + 1)
  {
    assert Tickets(j + 1) == Tickets(j) + [j];
    assert j % c.size == j;
    var s1 := WorkerStep(s, 0);
    assert s1.workers[0] == Worker(j, Releasing(j), Tickets(j + 1));
    assert References(s, j) == c.n;
    var s2 := WorkerStep(s1, 0);
    assert s2.workers[0] == Worker(j, Advancing, Tickets(j + 1));
    var s3 := WorkerStep(s2, 0);
    assert Slot(s2, j + 1) == Some((j + 1) % c.size);
    forall i: nat | j + 1 <= i < c.size ensures References(s3, i) == c.n {
      assert References(s, i) == c.n;
    }
  }

  lemma ThreeSteps(c: Config, acts: seq<Action>)
    requires c.n > 0 && |Run(c, acts).workers| == c.n
    ensures Run(c, acts + [Work(0)] + [Work(0)] + [Work(0)]) == WorkerStep(WorkerStep(WorkerStep(Run(c, acts), 0), 0), 0)
  {
    hide Run, Step, WorkerStep;
    OneMore(c, acts, Work(0));
    OneMore(c, acts + [Work(0)], Work(0));
    OneMore(c, acts + [Work(0)] + [Work(0)], Work(0));
    WorkIsStep(c, Run(c, acts));
    WorkIsStep(c, WorkerStep(Run(c, acts), 0));
    WorkIsStep(c, WorkerStep(WorkerStep(Run(c, acts), 0), 0));
  }

  lemma WorkIsStep(c: Config, s: State)
    requires |s.workers| > 0
    ensures Step(c, s, Work(0)) == WorkerStep(s, 0) && |WorkerStep(s, 0).workers| == |s.workers|
  {
  }

  lemma FirstLook(c: Config, s: State)
    requires Proper(c) && OnlyFilled(c, s, c.size)
    ensures FirstIsAt(c, Step(c, s, Work(0)), 0)
  {
    assert Slot(s, 0) == Some(0);
    assert Tickets(0) == [];
    forall i: nat | i < c.size ensures References(Step(c, s, Work(0)), i) == c.n {
      assert References(s, i) == c.n;
    }
  }

  lemma {:induction false} RunRound(c: Config, j: nat) returns (acts: seq<Action>)
    requires Proper(c) && c.n >= 2 && c.cap == c.size && j <= c.size
    ensures FirstIsAt(c, Run(c, acts), j)
  {
    hide Step, WorkerStep, OnlyFilled;
    if j == 0 {
      var before := FillMany(c, c.size);
      OneMore(c, before, Work(0));
      FirstLook(c, Run(c, before));
      acts := before + [Work(0)];
    } else {
      var before := RunRound(c, j - 1);
      ThreeSteps(c, before);
      RunThrough(c, Run(c, before), j - 1);
      acts := before + [Work(0)] + [Work(0)] + [Work(0)];
    }
  }

  /** With as many tickets in flight as slots, which the assertion in `Push` allows, a worker that is
      a whole turn ahead of another reads the first ticket again. */
  lemma RereadWhenFull(c: Config) returns (acts: seq<Action>)
    requires Proper(c) && c.n >= 2 && c.cap == c.size
    ensures !Agreement(Run(c, acts))
  {
    var before := RunRound(c, c.size);
    OneMore(c, before, Work(0));
    RereadDisagrees(c, Run(c, before));
    acts := before + [Work(0)];
  }

  lemma RereadDisagrees(c: Config, s: State)
    requires FirstIsAt(c, s, c.size)
    ensures !Agreement(Step(c, s, Work(0)))
  {
    var s' := Step(c, s, Work(0));
    var seen := s'.workers[0].seen;
    assert c.size % c.size == 0;
    assert seen == Tickets(c.size) + [0];
    assert seen[c.size] != Tickets(|seen|)[c.size];
  }

  /** All workers agree in every run if and only if fewer tickets than slots may be in flight, or
      there is a single worker and at most as many tickets as slots. */
  lemma {:induction false} AgreementIffWithinCapacity(c: Config)
    requires Proper(c)
    ensures WithinCapacity(c) <==> forall acts :: Agreement(Run(c, acts))
  {
    if WithinCapacity(c) {
      forall acts ensures Agreement(Run(c, acts)) {
        WorkersAgree(c, acts);
      }
    } else if c.cap > c.size {
      var acts := OvertakenWhenOverfull(c);
    } else {
      var acts := RereadWhenFull(c);
    }
  }

  // ---- finalisation

  /** Last dispatches and deallocations happen in ticket order, so once for each ticket; a task is
      finalised after every worker has dispatched it; it is popped from a slot that holds it, and
      freed after that. */
  lemma FinalisedOnceInOrder(c: Config, acts: seq<Action>)
    requires Proper(c) && WithinCapacity(c)
    ensures var s := Run(c, acts);
            && s.finals == Tickets(|s.finals|) && s.freed == Tickets(|s.freed|)
            && |s.freed| <= s.popped <= |s.finals| <= s.popped + 1
            && (forall t, w :: t in s.finals && 0 <= w < |s.workers| ==> t in s.workers[w].seen)
            && (forall w :: 0 <= w < |s.workers| && s.workers[w].pc.Popping? ==>
                  s.workers[w].pc.task == s.popped && Slot(s, s.workers[w].index) == Some(s.popped))
  {
    hide Counts, AllFinalised;
    var s := Run(c, acts);
    RunKeepsInv(c, acts);
    forall w | 0 <= w < |s.workers| ensures WorkerOk(s, s.workers[w]) {
    }
    SeenByAll(c, s);
    assert Tickets(|s.freed|) == Tickets(s.popped)[..|s.freed|];
  }

  lemma SeenByAll(c: Config, s: State)
    requires Inv(c, s)
    ensures forall t, w :: t in s.finals && 0 <= w < |s.workers| ==> t in s.workers[w].seen
  {
    hide Slots, OneLast, AllFinalised;
    forall t, w | t in s.finals && 0 <= w < |s.workers| ensures t in s.workers[w].seen {
      assert WorkerOk(s, s.workers[w]);
      if t == s.popped {
        var v :| 0 <= v < |s.workers| && s.workers[v].pc.Popping?;
        assert WorkerOk(s, s.workers[v]);
        NobodyOwes(s, t);
      }
      assert t < Released(s.workers[w]) <= |s.workers[w].seen|;
      assert s.workers[w].seen[t] == t;
    }
  }

  /** No worker touches a task that was freed, and the two assertions of the queue hold: a slot is
      empty when its ticket is stored, and not when it is popped. */
  lemma NoUseAfterFree(c: Config, acts: seq<Action>)
    requires Proper(c) && WithinCapacity(c)
    ensures var s := Run(c, acts);
            && (forall w :: 0 <= w < |s.workers| && HasTask(s.workers[w].pc) ==> s.workers[w].pc.task !in s.freed)
            && (forall t :: t in s.pending ==> Slot(s, t) == None)
            && (forall w :: 0 <= w < |s.workers| && s.workers[w].pc.Popping? ==> Slot(s, s.workers[w].index).Some?)
  {
    hide Counts, AllFinalised;
    var s := Run(c, acts);
    RunKeepsInv(c, acts);
    forall w | 0 <= w < |s.workers| && HasTask(s.workers[w].pc) ensures s.workers[w].pc.task !in s.freed {
      assert WorkerOk(s, s.workers[w]);
      forall t | t in s.freed ensures t < s.popped {
        assert t in Tickets(s.popped);
      }
      if s.workers[w].pc.Freeing? {
        assert s.freed == Tickets(s.popped)[..s.popped - 1];
      }
    }
  }

  /** When no producer is between its ticket and its slot and every worker has found an empty slot,
      every task has been dispatched by every worker, finalised and freed. */
  lemma NothingIsLeft(c: Config, acts: seq<Action>)
    requires Proper(c) && WithinCapacity(c)
    requires var s := Run(c, acts);
             && s.pending == {}
             && forall w :: 0 <= w < |s.workers| ==> s.workers[w].pc.Front? && Slot(s, s.workers[w].index) == None
    ensures var s := Run(c, acts);
            && (forall w :: 0 <= w < |s.workers| ==> s.workers[w].seen == Tickets(s.head))
            && s.finals == Tickets(s.head) && s.freed == Tickets(s.head) && s.popped == s.head
  {
    hide OneLast;
    var s := Run(c, acts);
    RunKeepsInv(c, acts);
    forall w | 0 <= w < |s.workers| ensures s.workers[w].index == s.head {
      assert WorkerOk(s, s.workers[w]);
    }
    if s.popped < s.head {
      Unowed(s, s.popped);
      var v := Finaliser(s, s.popped);
    }
  }
}
