/** The object-bound dispatcher as a machine: any number of threads, objects and tasks, one step
    per access to a counter, a queue, a reference count or a thread's own flags and pending queue.
    A thread's stack of `Dispatch` calls is a stack of frames; only the top frame moves. */
module AodMachine {
  import opened MpscQueue

  type Tid = nat
  type Oid = nat

  datatype Kind = Static | Shared | Custom

  /** The `i`-th frame, from the bottom, of the stack of thread `t`. */
  datatype Place = Place(t: Tid, i: nat)

  /** The pending queue and the in-progress flag that thread `t` keeps for kind `k`. */
  datatype Slot = Slot(t: Tid, k: Kind)

  /** History: who is between the 0-returning increment and the 1-returning decrement. */
  datatype Owner = NoOwner | AtFrame(p: Place) | Parked(t: Tid)

  /** History: who each reference of an object belongs to. */
  datatype Ref = Client(c: nat) | OfTask(n: nat) | Self(p: Place) | Drained(p: Place) | OfParked(t: Tid)

  /** `count` is `RemainingTasksCount`, `refs` the reference count of the control block and
      `destroyed` says that it once reached zero. The rest is history: `counted` are the tasks
      counted but not yet exchanged, `busy` says that the owner has popped but not decremented. */
  datatype Obj = Obj(
    kind: Kind, count: nat, q: Queue, refs: nat, destroyed: bool,
    owner: Owner, counted: set<nat>, busy: bool, holders: set<Ref>)

  /** History: where a task is in its life, and which frame has it in hand. Task ids are not used
      twice. */
  datatype Stage = Created(p: Place) | Counted(p: Place) | Linking(p: Place) | Queued | Popped(p: Place) | Freed

  datatype TaskRec = TaskRec(parent: Oid, at: Stage)

  datatype Pc =
    | ResetTask                              // InTask->Next = nullptr
    | Increment                              // RemainingTasksCount.increment()
    | ExchangeHead(owns: bool)               // TaskQueue.Push, first half
    | LinkPrev(owns: bool, prev: Node)       // TaskQueue.Push, second half
    | AcquireSelf                            // Static_IncrementReference( this )
    | CheckFlag                              // bIsAny...DispatchInProgress
    | Popping(pop: PopPc)                    // inside TaskQueue.Pop of a Flush
    | Running(n: nat)                        // Task->Dispatch()
    | FreeTask(n: nat)                       // Static_Reset( Task )
    | Decrement                              // RemainingTasksCount.decrement()
    | ReleaseDrained                         // Static_Reset( PendingAODObject )
    | DrainTest                              // while( false == Pending.empty() )
    | ClearFlag                              // bIsAny...DispatchInProgress = false
    | ReleaseSelf                            // Static_Reset( this )

  /** A call of `Dispatch` of `task` on `obj`; `cur` is the object whose `Flush` it is in, which is
      `obj` at first and, once `drained`, an object taken from the pending queue. */
  datatype Frame = Frame(obj: Oid, task: nat, cur: Oid, drained: bool, pc: Pc)

  datatype State = State(
    objs: map<Oid, Obj>, tasks: map<nat, TaskRec>,
    depth: map<Tid, nat>, frames: map<Place, Frame>,
    pending: map<Slot, seq<Oid>>, inProgress: map<Slot, nat>)

  const Init: State := State(map[], map[], map[], map[], map[], map[])

  function Depth(s: State, t: Tid): nat {
    if t in s.depth then s.depth[t] else 0
  }

  function PendingOf(s: State, slot: Slot): seq<Oid> {
    if slot in s.pending then s.pending[slot] else []
  }

  ghost predicate HasTop(s: State, t: Tid) {
    Depth(s, t) > 0 && Place(t, Depth(s, t) - 1) in s.frames
  }

  function Top(s: State, t: Tid): Place
    requires Depth(s, t) > 0
  {
    Place(t, Depth(s, t) - 1)
  }

  // ---- reference counts

  function Acquire(ob: Obj, r: Ref): Obj {
    if ob.kind == Static then ob else ob.(refs := ob.refs + 1, holders := ob.holders + {r})
  }

  /** `fetch_sub` and, when the count was 1, the destruction. */
  function Release(ob: Obj, r: Ref): Obj {
    if ob.kind == Static || ob.refs == 0 then ob
    else ob.(refs := ob.refs - 1, holders := ob.holders - {r}, destroyed := ob.destroyed || ob.refs == 1)
  }

  /** The same reference under a new name. */
  function Hand(ob: Obj, r: Ref, r': Ref): Obj {
    if ob.kind == Static then ob else ob.(holders := ob.holders - {r} + {r'})
  }

  // ---- updates

  function SetObj(s: State, o: Oid, ob: Obj): State {
    s.(objs := s.objs[o := ob])
  }

  function SetFrame(s: State, p: Place, f: Frame): State {
    s.(frames := s.frames[p := f])
  }

  function SetStage(s: State, n: nat, at: Stage): State {
    if n in s.tasks then s.(tasks := s.tasks[n := s.tasks[n].(at := at)]) else s
  }

  /** `Dispatch` returns. */
  function PopFrame(s: State, p: Place): State {
    s.(frames := s.frames - {p}, depth := s.depth[p.t := p.i])
  }

  // ---- steps

  datatype Action =
    | Create(o: Oid, kind: Kind)             // a new object, with one client reference
    | AddClient(o: Oid, c: nat)              // a client copies a reference
    | DropClient(o: Oid, c: nat)             // a client drops its reference
    | DoAsync(t: Tid, o: Oid, n: nat)        // thread t, idle or inside a task, calls DoAsync on o
    | Finish(t: Tid)                         // the running task of thread t returns
    | Advance(t: Tid)                        // the next statement of thread t

  ghost predicate Enabled(s: State, a: Action) {
    match a
    case Create(o, _) => o !in s.objs
    case AddClient(o, c) => o in s.objs && !s.objs[o].destroyed && s.objs[o].kind != Static && Client(c) !in s.objs[o].holders
    case DropClient(o, c) => o in s.objs && Client(c) in s.objs[o].holders
    case DoAsync(t, o, n) =>
      && o in s.objs && !s.objs[o].destroyed && n !in s.tasks
      && (Depth(s, t) > 0 ==> HasTop(s, t) && s.frames[Top(s, t)].pc.Running?)
    case Finish(t) => HasTop(s, t) && s.frames[Top(s, t)].pc.Running?
    case Advance(t) => HasTop(s, t) && !s.frames[Top(s, t)].pc.Running? && FrameReady(s, s.frames[Top(s, t)])
  }

  /** The objects of a frame exist; this holds in every reachable state. */
  ghost predicate FrameReady(s: State, f: Frame) {
    f.obj in s.objs && f.cur in s.objs && f.task in s.tasks
  }

  function NewObj(kind: Kind): Obj {
    Obj(kind, 0, Empty, if kind == Static then 0 else 1, false, NoOwner, {}, false,
        if kind == Static then {} else {Client(0)})
  }

  function Step(s: State, a: Action): State
    requires Enabled(s, a)
  {
    match a
    case Create(o, kind) => SetObj(s, o, NewObj(kind))
    case AddClient(o, c) => SetObj(s, o, Acquire(s.objs[o], Client(c)))
    case DropClient(o, c) => SetObj(s, o, Release(s.objs[o], Client(c)))
    case DoAsync(t, o, n) =>
      var p := Place(t, Depth(s, t));
      State(s.objs[o := Acquire(s.objs[o], OfTask(n))], s.tasks[n := TaskRec(o, Created(p))],
            s.depth[t := p.i + 1], s.frames[p := Frame(o, n, o, false, ResetTask)], s.pending, s.inProgress)
    case Finish(t) =>
      var p := Top(s, t);
      SetFrame(s, p, s.frames[p].(pc := FreeTask(s.frames[p].pc.n)))
    case Advance(t) =>
      var p := Top(s, t);
      AdvanceFrame(s, p, s.frames[p])
  }

  // ---- one function for each statement of `Dispatch` and `Flush`

  function DoReset(s: State, p: Place, f: Frame): State
    requires FrameReady(s, f)
  {
    var ob := s.objs[f.obj];
    SetFrame(SetObj(s, f.obj, ob.(q := ResetNext(ob.q, Task(f.task)))), p, f.(pc := Increment))
  }

  /** The thread that finds the count at zero becomes the object's owner. */
  function DoIncrement(s: State, p: Place, f: Frame): State
    requires FrameReady(s, f)
  {
    var ob := s.objs[f.obj];
    var ob' := ob.(count := ob.count + 1, counted := ob.counted + {f.task},
                   owner := if ob.count == 0 then AtFrame(p) else ob.owner);
    SetFrame(SetStage(SetObj(s, f.obj, ob'), f.task, Counted(p)), p, f.(pc := ExchangeHead(ob.count == 0)))
  }

  function DoExchange(s: State, p: Place, f: Frame): State
    requires FrameReady(s, f) && f.pc.ExchangeHead?
  {
    var ob := s.objs[f.obj];
    var ob' := ob.(q := Exchange(ob.q, Task(f.task)), counted := ob.counted - {f.task});
    SetFrame(SetStage(SetObj(s, f.obj, ob'), f.task, Linking(p)), p, f.(pc := LinkPrev(f.pc.owns, ob.q.head)))
  }

  /** A thread that is not the owner returns false here. */
  function DoLink(s: State, p: Place, f: Frame): State
    requires FrameReady(s, f) && f.pc.LinkPrev?
  {
    var ob := s.objs[f.obj];
    var s1 := SetStage(SetObj(s, f.obj, ob.(q := Link(ob.q, f.pc.prev, Task(f.task)))), f.task, Queued);
    if f.pc.owns then SetFrame(s1, p, f.(pc := AcquireSelf)) else PopFrame(s1, p)
  }

  function DoAcquire(s: State, p: Place, f: Frame): State
    requires FrameReady(s, f)
  {
    SetFrame(SetObj(s, f.obj, Acquire(s.objs[f.obj], Self(p))), p, f.(pc := CheckFlag))
  }

  /** With a flush of this kind under way on this thread the object is parked and `Dispatch`
      returns true; otherwise the flag is set and the flush begins. */
  function DoCheck(s: State, p: Place, f: Frame): State
    requires FrameReady(s, f)
  {
    var ob := s.objs[f.obj];
    var slot := Slot(p.t, ob.kind);
    if slot in s.inProgress then
      PopFrame(SetObj(s, f.obj, Hand(ob, Self(p), OfParked(p.t)).(owner := Parked(p.t)))
               .(pending := s.pending[slot := PendingOf(s, slot) + [f.obj]]), p)
    else
      SetFrame(s.(inProgress := s.inProgress[slot := p.i]), p, f.(pc := Popping(Start)))
  }

  /** A step of `Pop`; when it returns a task the task begins to run, when it returns null the
      flush calls `Pop` again. */
  function DoPop(s: State, p: Place, f: Frame): State
    requires FrameReady(s, f) && f.pc.Popping?
  {
    var cb := s.objs[f.cur];
    var (q, pop) := PopStep(cb.q, f.pc.pop);
    if pop.Returned? && pop.r.Task? then
      SetFrame(SetStage(SetObj(s, f.cur, cb.(q := q, busy := true)), pop.r.id, Popped(p)), p, f.(pc := Running(pop.r.id)))
    else
      SetFrame(SetObj(s, f.cur, cb.(q := q)), p, f.(pc := Popping(if pop.Returned? then Start else pop)))
  }

  function DoFree(s: State, p: Place, f: Frame): State
    requires FrameReady(s, f) && f.pc.FreeTask?
  {
    SetFrame(SetStage(SetObj(s, f.cur, Release(s.objs[f.cur], OfTask(f.pc.n))), f.pc.n, Freed), p, f.(pc := Decrement))
  }

  /** The owner that takes the count from one to zero stops owning the object. */
  function DoDecrement(s: State, p: Place, f: Frame): State
    requires FrameReady(s, f)
  {
    var cb := s.objs[f.cur];
    if cb.count == 1 then
      SetFrame(SetObj(s, f.cur, cb.(count := 0, busy := false, owner := NoOwner)), p,
               f.(pc := if f.drained then ReleaseDrained else DrainTest))
    else
      SetFrame(SetObj(s, f.cur, cb.(count := if cb.count == 0 then 0 else cb.count - 1, busy := false)), p, f.(pc := Popping(Start)))
  }

  function DoReleaseDrained(s: State, p: Place, f: Frame): State
    requires FrameReady(s, f)
  {
    SetFrame(SetObj(s, f.cur, Release(s.objs[f.cur], Drained(p))), p, f.(pc := DrainTest))
  }

  /** The next pending object, if there is one, is taken and flushed. */
  function DoDrain(s: State, p: Place, f: Frame): State
    requires FrameReady(s, f)
  {
    var slot := Slot(p.t, s.objs[f.obj].kind);
    var todo := PendingOf(s, slot);
    if todo == [] || todo[0] !in s.objs then SetFrame(s, p, f.(pc := ClearFlag))
    else
      var o := todo[0];
      SetFrame(SetObj(s.(pending := s.pending[slot := todo[1..]]), o,
                      Hand(s.objs[o], OfParked(p.t), Drained(p)).(owner := AtFrame(p))),
               p, f.(cur := o, drained := true, pc := Popping(Start)))
  }

  function DoClear(s: State, p: Place, f: Frame): State
    requires FrameReady(s, f)
  {
    SetFrame(s.(inProgress := s.inProgress - {Slot(p.t, s.objs[f.obj].kind)}), p, f.(pc := ReleaseSelf))
  }

  /** `Dispatch` releases the object and returns true. */
  function DoReleaseSelf(s: State, p: Place, f: Frame): State
    requires FrameReady(s, f)
  {
    PopFrame(SetObj(s, f.obj, Release(s.objs[f.obj], Self(p))), p)
  }

  /** The next statement of the frame `f` at `p`. */
  function AdvanceFrame(s: State, p: Place, f: Frame): State
    requires FrameReady(s, f)
  {
    match f.pc
    case ResetTask => DoReset(s, p, f)
    case Increment => DoIncrement(s, p, f)
    case ExchangeHead(_) => DoExchange(s, p, f)
    case LinkPrev(_, _) => DoLink(s, p, f)
    case AcquireSelf => DoAcquire(s, p, f)
    case CheckFlag => DoCheck(s, p, f)
    case Popping(_) => DoPop(s, p, f)
    case Running(_) => s
    case FreeTask(_) => DoFree(s, p, f)
    case Decrement => DoDecrement(s, p, f)
    case ReleaseDrained => DoReleaseDrained(s, p, f)
    case DrainTest => DoDrain(s, p, f)
    case ClearFlag => DoClear(s, p, f)
    case ReleaseSelf => DoReleaseSelf(s, p, f)
  }
}
