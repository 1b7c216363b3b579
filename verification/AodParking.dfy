/** Runs in which `Dispatch` returns true and its task has not run: a task dispatches to another object of
    its kind, undisturbed by other threads. */
module AodParking {
  import opened MpscQueue
  import opened AodMachine
  import opened AodTheorems
  import opened AodReturns

  // ---- a call on an idle object, up to its check

  /** The queue of an object while its first task is pushed, popped up to `PopStep` number `j`. */
  function QueueAt(n: nat, j: nat): Queue {
    if j < 3 then Empty
    else if j == 3 then Queue(Task(n), Stub, map[], [Stub, Task(n)], map[Task(n) := Stub], [n], [], true)
    else if j <= 6 then Queue(Task(n), Stub, map[Stub := Task(n)], [Stub, Task(n)], map[], [n], [], true)
    else if j <= 8 then Queue(Task(n), Stub, map[Stub := Task(n)], [Stub, Task(n)], map[], [n], [], false)
    else if j <= 11 then Queue(Task(n), Task(n), map[Stub := Task(n)], [Task(n)], map[], [n], [], false)
    else if j == 12 then Queue(Task(n), Task(n), map[], [Task(n)], map[], [n], [], false)
    else if j == 13 then Queue(Stub, Task(n), map[], [Task(n), Stub], map[Stub := Task(n)], [n], [], false)
    else if j <= 15 then Queue(Stub, Task(n), map[Task(n) := Stub], [Task(n), Stub], map[], [n], [], false)
    else Queue(Stub, Stub, map[Task(n) := Stub], [Stub], map[], [n], [n], false)
  }

  /** Where the frame of the call stands after `j` of its statements, if it finds the flag clear. */
  function PcAt(n: nat, j: nat): Pc {
    if j == 0 then ResetTask
    else if j == 1 then Increment
    else if j == 2 then ExchangeHead(true)
    else if j == 3 then LinkPrev(true, Stub)
    else if j == 4 then AcquireSelf
    else if j == 5 then CheckFlag
    else if j == 6 then Popping(Start)
    else if j == 7 then Popping(ReadNext(Stub))
    else if j == 8 then Popping(SkipStub(Task(n)))
    else if j == 9 then Popping(ReadNextAgain(Task(n)))
    else if j == 10 then Popping(ReadHead(Task(n)))
    else if j == 11 then Popping(ClearStub(Task(n)))
    else if j == 12 then Popping(PushStub(Task(n)))
    else if j == 13 then Popping(LinkStub(Task(n), Task(n)))
    else if j == 14 then Popping(ReadLast(Task(n)))
    else if j == 15 then Popping(Take(Task(n), Stub))
    else Running(n)
  }

  function StageAt(p: Place, j: nat): Stage {
    if j < 2 then Created(p) else if j == 2 then Counted(p) else if j == 3 then Linking(p) else if j < 16 then Queued else Popped(p)
  }

  function ObjAt(p: Place, n: nat, j: nat): Obj {
    Obj(Static, if j < 2 then 0 else 1, QueueAt(n, j), 0, false, if j < 2 then NoOwner else AtFrame(p),
        if j == 2 then {n} else {}, j == 16, {})
  }

  /** State `s` with a call of task `n` on object `o` under way in the frame at `p`. */
  function With(s: State, p: Place, o: Oid, n: nat, ob: Obj, at: Stage, pc: Pc): State {
    State(s.objs[o := ob], s.tasks[n := TaskRec(o, at)], s.depth[p.t := p.i + 1],
          s.frames[p := Frame(o, n, o, false, pc)], s.pending, s.inProgress)
  }

  /** ... with the call on a static object after `j` statements. */
  function During(s: State, p: Place, o: Oid, n: nat, j: nat): State {
    With(s, p, o, n, ObjAt(p, n, j), StageAt(p, j), PcAt(n, j))
  }

  lemma CallStarts(s: State, t: Tid, o: Oid, n: nat)
    requires Enabled(s, DoAsync(t, o, n)) && s.objs[o] == NewObj(Static)
    ensures Step(s, DoAsync(t, o, n)) == During(s, CallFrame(s, t), o, n, 0)
  {
  }

  /** A statement changes the object, the stage of the task and the position. */
  lemma WithAgain(s: State, p: Place, o: Oid, n: nat, ob: Obj, at: Stage, pc: Pc, ob': Obj, at': Stage, pc': Pc)
    ensures var d, d' := With(s, p, o, n, ob, at, pc), With(s, p, o, n, ob', at', pc');
            && SetFrame(SetStage(SetObj(d, o, ob'), n, at'), p, Frame(o, n, o, false, pc')) == d'
            && (at' == at ==> SetFrame(SetObj(d, o, ob'), p, Frame(o, n, o, false, pc')) == d')
  {
    assert s.objs[o := ob][o := ob'] == s.objs[o := ob'];
    assert s.tasks[n := TaskRec(o, at)][n := TaskRec(o, at')] == s.tasks[n := TaskRec(o, at')];
    assert s.frames[p := Frame(o, n, o, false, pc)][p := Frame(o, n, o, false, pc')] == s.frames[p := Frame(o, n, o, false, pc')];
  }

  lemma DuringAgain(s: State, p: Place, o: Oid, n: nat, j: nat)
    ensures var d, d', f' := During(s, p, o, n, j), During(s, p, o, n, j + 1), Frame(o, n, o, false, PcAt(n, j + 1));
            && SetFrame(SetStage(SetObj(d, o, ObjAt(p, n, j + 1)), n, StageAt(p, j + 1)), p, f') == d'
            && (StageAt(p, j + 1) == StageAt(p, j) ==> SetFrame(SetObj(d, o, ObjAt(p, n, j + 1)), p, f') == d')
  {
    hide With, SetFrame, SetStage, SetObj, ObjAt, StageAt, PcAt;
    WithAgain(s, p, o, n, ObjAt(p, n, j), StageAt(p, j), PcAt(n, j), ObjAt(p, n, j + 1), StageAt(p, j + 1), PcAt(n, j + 1));
  }

  lemma FirstExchange(n: nat)
    ensures Exchange(QueueAt(n, 2), Task(n)) == QueueAt(n, 3)
  {
    var q, q' := Exchange(QueueAt(n, 2), Task(n)), QueueAt(n, 3);
    assert q.chain == q'.chain && q.links == q'.links && q.pushed == q'.pushed;
  }

  lemma LastStep(n: nat)
    ensures PopStep(QueueAt(n, 15), PcAt(n, 15).pop) == (QueueAt(n, 16), Returned(Task(n)))
  {
    var q, q' := PopStep(QueueAt(n, 15), PcAt(n, 15).pop).0, QueueAt(n, 16);
    assert q.chain == q'.chain && q.popped == q'.popped;
  }

  lemma Resets(s: State, p: Place, o: Oid, n: nat)
    ensures var d := During(s, p, o, n, 0); FrameReady(d, d.frames[p]) && DoReset(d, p, d.frames[p]) == During(s, p, o, n, 1)
  {
    hide During, SetFrame, SetStage, SetObj;
    ReadyDuring(s, p, o, n, 0);
    DuringAgain(s, p, o, n, 0);
  }

  lemma Increments(s: State, p: Place, o: Oid, n: nat)
    ensures var d := During(s, p, o, n, 1); FrameReady(d, d.frames[p]) && DoIncrement(d, p, d.frames[p]) == During(s, p, o, n, 2)
  {
    hide During, SetFrame, SetStage, SetObj;
    ReadyDuring(s, p, o, n, 1);
    assert ObjAt(p, n, 1).counted + {n} == {n};
    DuringAgain(s, p, o, n, 1);
  }

  lemma ExchangesHead(s: State, p: Place, o: Oid, n: nat)
    ensures var d := During(s, p, o, n, 2); FrameReady(d, d.frames[p]) && DoExchange(d, p, d.frames[p]) == During(s, p, o, n, 3)
  {
    hide During, SetFrame, SetStage, SetObj;
    ReadyDuring(s, p, o, n, 2);
    assert ObjAt(p, n, 2).counted - {n} == {};
    FirstExchange(n);
    DuringAgain(s, p, o, n, 2);
  }

  lemma LinksPrev(s: State, p: Place, o: Oid, n: nat)
    ensures var d := During(s, p, o, n, 3); FrameReady(d, d.frames[p]) && DoLink(d, p, d.frames[p]) == During(s, p, o, n, 4)
  {
    hide During, SetFrame, SetStage, SetObj;
    ReadyDuring(s, p, o, n, 3);
    DuringAgain(s, p, o, n, 3);
  }

  lemma Acquires(s: State, p: Place, o: Oid, n: nat)
    ensures var d := During(s, p, o, n, 4); FrameReady(d, d.frames[p]) && DoAcquire(d, p, d.frames[p]) == During(s, p, o, n, 5)
  {
    hide During, SetFrame, SetStage, SetObj;
    ReadyDuring(s, p, o, n, 4);
    DuringAgain(s, p, o, n, 4);
  }

  // ---- the check, and the pop of the task

  /** With the flag clear the flush begins. */
  lemma SetsFlag(s: State, p: Place, o: Oid, n: nat)
    requires Slot(p.t, Static) !in s.inProgress
    ensures var d := During(s, p, o, n, 5);
            FrameReady(d, d.frames[p]) && DoCheck(d, p, d.frames[p]) == During(s.(inProgress := s.inProgress[Slot(p.t, Static) := p.i]), p, o, n, 6)
  {
    ReadyDuring(s, p, o, n, 5);
    DuringAgain(s, p, o, n, 5);
  }

  lemma PopGoesOn(n: nat, j: nat)
    requires 6 <= j < 15
    ensures var (q, pop) := PopStep(QueueAt(n, j), PcAt(n, j).pop);
            q == QueueAt(n, j + 1) && PcAt(n, j + 1) == Popping(pop) && !pop.Returned?
  {
  }

  lemma Pops(s: State, p: Place, o: Oid, n: nat, j: nat)
    requires 6 <= j < 15
    ensures var d := During(s, p, o, n, j); FrameReady(d, d.frames[p]) && DoPop(d, p, d.frames[p]) == During(s, p, o, n, j + 1)
  {
    hide During, SetFrame, SetStage, SetObj, PopStep, QueueAt;
    ReadyDuring(s, p, o, n, j);
    DuringAgain(s, p, o, n, j);
    PopGoesOn(n, j);
  }

  lemma TakesTask(s: State, p: Place, o: Oid, n: nat)
    ensures var d := During(s, p, o, n, 15); FrameReady(d, d.frames[p]) && DoPop(d, p, d.frames[p]) == During(s, p, o, n, 16)
  {
    hide During, SetFrame, SetStage, SetObj;
    ReadyDuring(s, p, o, n, 15);
    DuringAgain(s, p, o, n, 15);
    LastStep(n);
  }

  lemma ReadyDuring(s: State, p: Place, o: Oid, n: nat, j: nat)
    ensures var d := During(s, p, o, n, j);
            && p in d.frames && d.frames[p] == Frame(o, n, o, false, PcAt(n, j)) && FrameReady(d, d.frames[p])
            && d.objs[o] == ObjAt(p, n, j) && d.tasks[n] == TaskRec(o, StageAt(p, j)) && Depth(d, p.t) == p.i + 1 && Top(d, p.t) == p
  {
    hide ObjAt, StageAt, PcAt;
  }

  // ---- the run

  ghost predicate Reached(s: State) {
    exists run, acts :: IsRun(run, acts) && run[|acts|] == s
  }

  lemma Extends(run: seq<State>, acts: seq<Action>, a: Action)
    requires IsRun(run, acts) && Enabled(run[|acts|], a)
    ensures IsRun(run + [Step(run[|acts|], a)], acts + [a])
  {
    hide Enabled, Step;
  }

  lemma ReachesNext(s: State, a: Action)
    requires Reached(s) && Enabled(s, a)
    ensures Reached(Step(s, a))
  {
    hide Enabled, Step;
    var run, acts :| IsRun(run, acts) && run[|acts|] == s;
    Extends(run, acts, a);
    assert (run + [Step(s, a)])[|acts + [a]|] == Step(s, a);
  }

  /** The next statement of the call. */
  lemma Advances(s: State, p: Place, o: Oid, n: nat, j: nat)
    requires j < 16 && j != 5
    ensures var d := During(s, p, o, n, j); Enabled(d, Advance(p.t)) && Step(d, Advance(p.t)) == During(s, p, o, n, j + 1)
  {
    hide During, DoReset, DoIncrement, DoExchange, DoLink, DoAcquire, DoCheck, DoPop, DoFree, DoDecrement, DoReleaseDrained,
         DoDrain, DoClear, DoReleaseSelf;
    ReadyDuring(s, p, o, n, j);
    if j == 0 {
      Resets(s, p, o, n);
    } else if j == 1 {
      Increments(s, p, o, n);
    } else if j == 2 {
      ExchangesHead(s, p, o, n);
    } else if j == 3 {
      LinksPrev(s, p, o, n);
    } else if j == 4 {
      Acquires(s, p, o, n);
    } else if j < 15 {
      Pops(s, p, o, n, j);
    } else {
      TakesTask(s, p, o, n);
    }
  }

  lemma Checks(s: State, p: Place, o: Oid, n: nat)
    ensures var d := During(s, p, o, n, 5);
            Enabled(d, Advance(p.t)) && FrameReady(d, d.frames[p]) && Step(d, Advance(p.t)) == DoCheck(d, p, d.frames[p])
  {
    hide During, DoReset, DoIncrement, DoExchange, DoLink, DoAcquire, DoCheck, DoPop, DoFree, DoDecrement, DoReleaseDrained,
         DoDrain, DoClear, DoReleaseSelf;
    ReadyDuring(s, p, o, n, 5);
  }

  lemma {:induction false} ReachesLater(s: State, p: Place, o: Oid, n: nat, i: nat, j: nat)
    requires i <= j <= 16 && (j <= 5 || 6 <= i) && Reached(During(s, p, o, n, i))
    ensures Reached(During(s, p, o, n, j))
    decreases j - i
  {
    hide Reached, During, Enabled, Step;
    if i < j {
      Advances(s, p, o, n, i);
      ReachesNext(During(s, p, o, n, i), Advance(p.t));
      ReachesLater(s, p, o, n, i + 1, j);
    }
  }

  /** Two idle static objects. */
  const TwoObjects: State := Init.(objs := map[0 := NewObj(Static), 1 := NewObj(Static)])

  /** Thread 0 is running task 0 of object 0. */
  const InTask: State := During(TwoObjects.(inProgress := map[Slot(0, Static) := 0]), Place(0, 0), 0, 0, 16)

  lemma ObjectsAreReached()
    ensures Reached(TwoObjects)
  {
    hide Reached;
    assert Reached(Init) by {
      InitIsReached();
    }
    ReachesNext(Init, Create(0, Static));
    var one := Step(Init, Create(0, Static));
    ReachesNext(one, Create(1, Static));
    assert Step(one, Create(1, Static)).objs == TwoObjects.objs;
  }

  lemma InitIsReached()
    ensures Reached(Init)
  {
    assert IsRun([Init], []);
  }

  lemma TaskIsReached()
    ensures Reached(InTask)
  {
    hide Reached, During, Enabled, Step;
    var p := Place(0, 0);
    ObjectsAreReached();
    FirstCall();
    ReachesNext(TwoObjects, DoAsync(0, 0, 0));
    ReachesLater(TwoObjects, p, 0, 0, 0, 5);
    Checks(TwoObjects, p, 0, 0);
    SetsFlag(TwoObjects, p, 0, 0);
    ReachesNext(During(TwoObjects, p, 0, 0, 5), Advance(0));
    assert TwoObjects.inProgress[Slot(0, Static) := 0] == map[Slot(0, Static) := 0];
    ReachesLater(TwoObjects.(inProgress := map[Slot(0, Static) := 0]), p, 0, 0, 6, 16);
  }

  lemma FirstCall()
    ensures Enabled(TwoObjects, DoAsync(0, 0, 0)) && Step(TwoObjects, DoAsync(0, 0, 0)) == During(TwoObjects, Place(0, 0), 0, 0, 0)
  {
    CallStarts(TwoObjects, 0, 0, 0);
  }

  lemma NextCall()
    ensures Enabled(InTask, DoAsync(0, 1, 1)) && InTask.objs[1] == NewObj(Static) && Slot(0, Static) in InTask.inProgress
  {
  }

  // ---- a call on any idle object, in a task of its kind

  predicate At(pc: Pc, j: nat) {
    match pc
    case ResetTask => j == 0
    case Increment => j == 1
    case ExchangeHead(owns) => owns && j == 2
    case LinkPrev(owns, _) => owns && j == 3
    case AcquireSelf => j == 4
    case CheckFlag => j == 5
    case _ => false
  }

  /** The frame at `p` of a call of task `n` on object `o` has made `j` of its statements, with the flag set; until
      it has incremented the counter, the object is idle. */
  ghost predicate Standing(s: State, p: Place, o: Oid, n: nat, kind: Kind, j: nat) {
    && p in s.frames && Depth(s, p.t) == p.i + 1 && o in s.objs && n in s.tasks && s.objs[o].kind == kind
    && s.frames[p].obj == o && s.frames[p].cur == o && s.frames[p].task == n && At(s.frames[p].pc, j)
    && (j <= 1 ==> s.objs[o].count == 0) && Slot(p.t, kind) in s.inProgress
  }

  lemma NextStands(s: State, p: Place, f: Frame, o: Oid, n: nat, kind: Kind, j: nat)
    requires Standing(s, p, o, n, kind, j) && f == s.frames[p] && j < 5
    ensures FrameReady(s, f) && Standing(AdvanceFrame(s, p, f), p, o, n, kind, j + 1)
  {
    hide DoCheck, DoPop, DoFree, DoDecrement, DoReleaseDrained, DoDrain, DoClear, DoReleaseSelf, ResetNext, Exchange, Link;
  }

  lemma CallStands(s: State, t: Tid, o: Oid, n: nat)
    requires Enabled(s, DoAsync(t, o, n)) && s.objs[o].count == 0 && Slot(t, s.objs[o].kind) in s.inProgress
    ensures Standing(Step(s, DoAsync(t, o, n)), CallFrame(s, t), o, n, s.objs[o].kind, 0)
  {
  }

  lemma StandingGoesOn(s: State, p: Place, o: Oid, n: nat, kind: Kind, j: nat)
    requires Standing(s, p, o, n, kind, j) && j < 5
    ensures Enabled(s, Advance(p.t)) && Standing(Step(s, Advance(p.t)), p, o, n, kind, j + 1)
  {
    hide AdvanceFrame;
    NextStands(s, p, s.frames[p], o, n, kind, j);
  }

  lemma StandingParks(s: State, p: Place, o: Oid, n: nat, kind: Kind)
    requires Standing(s, p, o, n, kind, 5)
    ensures Enabled(s, Advance(p.t)) && p !in Step(s, Advance(p.t)).frames
  {
    hide DoReset, DoIncrement, DoExchange, DoLink, DoAcquire, DoCheck, DoPop, DoFree, DoDecrement, DoReleaseDrained, DoDrain,
         DoClear, DoReleaseSelf;
    CheckIsLocal(s, p, s.frames[p]);
  }

  /** A run and its actions, up to `j` statements of the call. */
  ghost predicate CallUnderWay(
    run: seq<State>, acts: seq<Action>, run': seq<State>, acts': seq<Action>, t: Tid, o: Oid, n: nat, j: nat)
    requires IsRun(run, acts) && o in run[|acts|].objs
  {
    && IsRun(run', acts') && run <= run' && acts <= acts' && |acts'| == |acts| + 1 + j && acts'[|acts|] == DoAsync(t, o, n)
    && (forall m :: |acts| < m <= |acts'| ==> CallFrame(run[|acts|], t) in run'[m].frames)
    && Standing(run'[|acts'|], CallFrame(run[|acts|], t), o, n, run[|acts|].objs[o].kind, j)
  }

  lemma {:induction false} CallGetsUnderWay(run: seq<State>, acts: seq<Action>, t: Tid, o: Oid, n: nat, j: nat)
      returns (run': seq<State>, acts': seq<Action>)
    requires IsRun(run, acts) && Enabled(run[|acts|], DoAsync(t, o, n)) && j <= 5
    requires run[|acts|].objs[o].count == 0 && Slot(t, run[|acts|].objs[o].kind) in run[|acts|].inProgress
    ensures CallUnderWay(run, acts, run', acts', t, o, n, j)
  {
    hide Step, Standing;
    var s := run[|acts|];
    if j == 0 {
      CallStands(s, t, o, n);
      Extends(run, acts, DoAsync(t, o, n));
      run', acts' := run + [Step(s, DoAsync(t, o, n))], acts + [DoAsync(t, o, n)];
      StandingFrame(run'[|acts'|], CallFrame(s, t), o, n, s.objs[o].kind, 0);
    } else {
      var run1, acts1 := CallGetsUnderWay(run, acts, t, o, n, j - 1);
      StandingGoesOn(run1[|acts1|], CallFrame(s, t), o, n, s.objs[o].kind, j - 1);
      Extends(run1, acts1, Advance(t));
      run', acts' := run1 + [Step(run1[|acts1|], Advance(t))], acts1 + [Advance(t)];
      StandingFrame(run'[|acts'|], CallFrame(s, t), o, n, s.objs[o].kind, j);
    }
  }

  lemma StandingFrame(s: State, p: Place, o: Oid, n: nat, kind: Kind, j: nat)
    requires Standing(s, p, o, n, kind, j)
    ensures p in s.frames && Depth(s, p.t) == p.i + 1 && (j == 5 ==> s.frames[p].pc.CheckFlag?)
  {
  }

  /** The call from step `i` to step `k` returned true, and its task is still in the queue. */
  ghost predicate TrueAndQueued(run: seq<State>, acts: seq<Action>, i: nat, k: nat, t: Tid, o: Oid, n: nat) {
    && Call(run, acts, i, k, t, o, n) && ReturnValue(run[k].frames[CallFrame(run[i], t)].pc)
    && n in run[k + 1].tasks && run[k + 1].tasks[n].at == Queued
  }

  /** The second run goes on from the first with such a call. */
  ghost predicate GoesOnParking(run: seq<State>, acts: seq<Action>, run': seq<State>, acts': seq<Action>, t: Tid, o: Oid, n: nat) {
    run <= run' && acts <= acts' && TrueAndQueued(run', acts', |acts|, |acts| + 6, t, o, n)
  }

  lemma CalledObjectExists(s: State, t: Tid, o: Oid, n: nat)
    requires Enabled(s, DoAsync(t, o, n))
    ensures o in s.objs
  {
  }

  /** Any run that leads to a call on an object with counter zero, of a kind that the thread has a flush of under
      way, goes on so that the call returns true and its task is still in the queue, if no other thread interferes. */
  lemma IdleObjectIsParked(run: seq<State>, acts: seq<Action>, t: Tid, o: Oid, n: nat)
    requires IsRun(run, acts) && Enabled(run[|acts|], DoAsync(t, o, n))
    requires run[|acts|].objs[o].count == 0 && Slot(t, run[|acts|].objs[o].kind) in run[|acts|].inProgress
    ensures exists run', acts' :: GoesOnParking(run, acts, run', acts', t, o, n)
  {
    hide Step, Standing, Enabled;
    CalledObjectExists(run[|acts|], t, o, n);
    var s, p := run[|acts|], CallFrame(run[|acts|], t);
    var run1, acts1 := CallGetsUnderWay(run, acts, t, o, n, 5);
    var d := run1[|acts1|];
    StandingParks(d, p, o, n, s.objs[o].kind);
    StandingFrame(d, p, o, n, s.objs[o].kind, 5);
    Extends(run1, acts1, Advance(t));
    var run', acts' := run1 + [Step(d, Advance(t))], acts1 + [Advance(t)];
    assert run'[|acts|] == run[|acts|];
    assert Call(run', acts', |acts|, |acts| + 6, t, o, n);
    TrueMeansRanIff(run', acts', |acts|, |acts| + 6, t, o, n);
    assert GoesOnParking(run, acts, run', acts', t, o, n);
  }

  /** There is such a run. */
  lemma TrueBeforeRun()
    ensures exists run, acts, i, k, t, o, n :: TrueAndQueued(run, acts, i, k, t, o, n)
  {
    hide Enabled, Step, InTask, TrueAndQueued;
    TaskIsReached();
    NextCall();
    var run, acts :| IsRun(run, acts) && run[|acts|] == InTask;
    IdleObjectIsParked(run, acts, 0, 1, 1);
    var run', acts' :| GoesOnParking(run, acts, run', acts', 0, 1, 1);
  }
}
