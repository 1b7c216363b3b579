/** `Dispatch` and `Flush` in the form of the source, for one thread that no other thread disturbs: the
    recursion of tasks that dispatch further tasks ends, and what it runs is what was dispatched. */
module AodDispatch {
  import opened Wrappers
  import AodMachine

  type Kind = AodMachine.Kind

  /** A task for the object `obj`, by the tasks that its functor dispatches, in order. */
  datatype Job = Job(id: nat, obj: nat, calls: seq<Job>)

  function Size(j: Job): (n: nat)
    ensures n > 0
    decreases j, 1
  {
    1 + Sizes(j.calls)
  }

  function Sizes(js: seq<Job>): nat
    decreases js, 0
  {
    if js == [] then 0 else Sizes(js[..|js| - 1]) + Size(js[|js| - 1])
  }

  /** All tasks are for the `n` objects that there are. */
  predicate Known(j: Job, n: nat)
    decreases j
  {
    j.obj < n && forall i :: 0 <= i < |j.calls| ==> Known(j.calls[i], n)
  }

  function WeightOf(q: seq<Job>): nat {
    if q == [] then 0 else Size(q[0]) + WeightOf(q[1..])
  }

  function Weight(qs: seq<seq<Job>>): nat {
    if qs == [] then 0 else Weight(qs[..|qs| - 1]) + WeightOf(qs[|qs| - 1])
  }

  lemma {:induction false} WeightAfter(qs: seq<seq<Job>>, o: nat, q: seq<Job>)
    requires o < |qs|
    ensures Weight(qs[o := q]) == Weight(qs) - WeightOf(qs[o]) + WeightOf(q)
  {
    var n := |qs| - 1;
    if o < n {
      WeightAfter(qs[..n], o, q);
      assert qs[o := q][..n] == qs[..n][o := q];
    } else {
      assert qs[o := q][..n] == qs[..n];
    }
  }

  lemma {:induction false} WeightOfPushed(q: seq<Job>, j: Job)
    ensures WeightOf(q + [j]) == WeightOf(q) + Size(j)
  {
    if q == [] {
      assert q + [j] == [j];
    } else {
      assert (q + [j])[1..] == q[1..] + [j];
      WeightOfPushed(q[1..], j);
    }
  }

  ghost predicate Grows(a: seq<seq<Job>>, b: seq<seq<Job>>) {
    |a| == |b| && forall o :: 0 <= o < |a| ==> a[o] <= b[o]
  }

  /** What a thread's calls of `Dispatch` work on. `kinds`, `count` and `queue` belong to the objects:
      their kinds, `RemainingTasksCount` and `TaskQueue`; `pending` and `inProgress` are the thread's
      pending queues and flags. The rest is history: the object whose `Flush` runs, for each kind; the
      objects of which a task runs; what was dispatched to each object and what it has begun; for each
      kind, the objects that were parked and those whose `Flush` began, in order; and all calls of
      `Dispatch`, in order. */
  datatype Shot = Shot(
    kinds: seq<Kind>, count: seq<nat>, queue: seq<seq<Job>>, pending: map<Kind, seq<nat>>, inProgress: set<Kind>,
    current: map<Kind, nat>, running: set<nat>, dispatched: seq<seq<Job>>, ran: seq<seq<Job>>,
    parks: map<Kind, seq<nat>>, flushes: map<Kind, seq<nat>>, log: seq<Job>)

  function ListOf(lists: map<Kind, seq<nat>>, k: Kind): seq<nat> {
    if k in lists then lists[k] else []
  }

  function Pending(s: Shot, k: Kind): seq<nat> {
    ListOf(s.pending, k)
  }

  ghost predicate Lengths(s: Shot) {
    |s.count| == |s.queue| == |s.dispatched| == |s.ran| == |s.kinds|
  }

  /** The flush of object `o` is under way. */
  predicate Flushes(s: Shot, k: Kind, o: nat) {
    k in s.current && s.current[k] == o
  }

  ghost predicate ObjectOk(s: Shot, o: nat)
    requires Lengths(s) && o < |s.kinds|
  {
    && s.dispatched[o] == s.ran[o] + s.queue[o]
    && s.count[o] == |s.queue[o]| + (if o in s.running then 1 else 0)
    && (s.count[o] > 0 <==> o in Pending(s, s.kinds[o]) || Flushes(s, s.kinds[o], o))
    && (o in s.running ==> Flushes(s, s.kinds[o], o))
    && forall i :: 0 <= i < |s.queue[o]| ==> Known(s.queue[o][i], |s.kinds|) && s.queue[o][i].obj == o
  }

  ghost predicate KindOk(s: Shot, k: Kind) {
    && (Pending(s, k) != [] || k in s.current ==> k in s.inProgress)
    && NoDup(Pending(s, k))
    && (forall o :: o in Pending(s, k) ==> o < |s.kinds| && s.kinds[o] == k)
    && (k in s.current ==> s.current[k] < |s.kinds| && s.kinds[s.current[k]] == k && s.current[k] !in Pending(s, k))
    && (k in s.current ==> ListOf(s.flushes, k) != [] && s.current[k] == ListOf(s.flushes, k)[|ListOf(s.flushes, k)| - 1])
  }

  ghost predicate AllDispatched(s: Shot, js: seq<Job>) {
    forall i :: 0 <= i < |js| ==> js[i].obj < |s.dispatched| && js[i] in s.dispatched[js[i].obj]
  }

  /** The jobs occur in the log in this order, possibly with others between them. */
  ghost predicate InOrder(js: seq<Job>, log: seq<Job>) {
    js == [] || exists i :: 0 <= i < |log| && log[i] == js[|js| - 1] && InOrder(js[..|js| - 1], log[..i])
  }

  /** The functor of `j` has dispatched its tasks, in order. */
  ghost predicate Done(s: Shot, j: Job) {
    AllDispatched(s, j.calls) && InOrder(j.calls, s.log)
  }

  /** All tasks of object `o` that were begun are done, but for the one that runs. */
  ghost predicate BegunAreDone(s: Shot, o: nat)
    requires Lengths(s) && o < |s.kinds|
  {
    forall i :: 0 <= i < |s.ran[o]| - (if o in s.running then 1 else 0) ==> Done(s, s.ran[o][i])
  }

  ghost predicate Complete(s: Shot) {
    Lengths(s) && forall o :: 0 <= o < |s.kinds| ==> BegunAreDone(s, o)
  }

  ghost predicate Ok(s: Shot) {
    && Lengths(s) && Complete(s)
    && (forall o :: 0 <= o < |s.kinds| ==> ObjectOk(s, o))
    && (forall k :: KindOk(s, k))
  }

  /** No object of kind `k` has a task left: all that was dispatched to them was run. */
  ghost predicate Drained(s: Shot, k: Kind) {
    && Lengths(s) && Pending(s, k) == []
    && forall o :: 0 <= o < |s.kinds| && s.kinds[o] == k ==> s.count[o] == 0 && s.queue[o] == [] && s.ran[o] == s.dispatched[o]
  }

  /** What was added to a list. */
  function Added(before: seq<nat>, after: seq<nat>): seq<nat>
    requires |before| <= |after|
  {
    after[|before|..]
  }

  /** What was parked since goes behind what is pending, in order. */
  ghost predicate ParkedMore(s: Shot, s': Shot, k: Kind) {
    && ListOf(s.parks, k) <= ListOf(s'.parks, k)
    && Pending(s', k) == Pending(s, k) + Added(ListOf(s.parks, k), ListOf(s'.parks, k))
  }

  /** While a kind has its flag set, its objects are parked and none is taken for a flush. */
  ghost predicate Waits(s: Shot, s': Shot) {
    && s.log <= s'.log
    && forall k :: k in s.inProgress ==> ParkedMore(s, s', k) && ListOf(s'.flushes, k) == ListOf(s.flushes, k)
  }

  lemma WaitsRefl(s: Shot)
    ensures Waits(s, s)
  {
  }

  lemma WaitsTrans(a: Shot, b: Shot, c: Shot)
    requires Waits(a, b) && Waits(b, c) && a.inProgress <= b.inProgress
    ensures Waits(a, c)
  {
    hide ParkedMore;
    forall k | k in a.inProgress ensures ParkedMore(a, c, k) {
      ParkedMoreTrans(a, b, c, k);
    }
  }

  lemma ParkedMoreTrans(a: Shot, b: Shot, c: Shot, k: Kind)
    requires ParkedMore(a, b, k) && ParkedMore(b, c, k)
    ensures ParkedMore(a, c, k)
  {
    var x, y, z := ListOf(a.parks, k), ListOf(b.parks, k), ListOf(c.parks, k);
    assert Added(x, z) == Added(x, y) + Added(y, z);
  }

  /** `o` is flushed first and then the objects parked since `s`, in the order in which they were parked; those
      not yet flushed are pending. */
  ghost predicate FlushesInOrder(s: Shot, s': Shot, k: Kind, o: nat) {
    && ListOf(s.parks, k) <= ListOf(s'.parks, k)
    && ListOf(s'.flushes, k) + Pending(s', k) == ListOf(s.flushes, k) + [o] + Added(ListOf(s.parks, k), ListOf(s'.parks, k))
  }

  lemma OrderKept(s: Shot, a: Shot, b: Shot, k: Kind, o: nat)
    requires FlushesInOrder(s, a, k, o) && Waits(a, b) && k in a.inProgress
    ensures FlushesInOrder(s, b, k, o)
  {
    var x, y, z := ListOf(s.parks, k), ListOf(a.parks, k), ListOf(b.parks, k);
    assert ParkedMore(a, b, k);
    assert Added(x, z) == Added(x, y) + Added(y, z);
    assert ListOf(b.flushes, k) + Pending(b, k) == ListOf(a.flushes, k) + Pending(a, k) + Added(y, z);
  }

  /** A kind that had its flag set keeps it and runs none of its tasks, and no record is lost. */
  ghost predicate Later(s: Shot, s': Shot) {
    && Lengths(s) && Lengths(s') && s'.kinds == s.kinds && Waits(s, s')
    && s'.inProgress == s.inProgress && s'.current == s.current && s'.running == s.running
    && Grows(s.dispatched, s'.dispatched) && Grows(s.ran, s'.ran)
    && forall o :: 0 <= o < |s.kinds| && s.kinds[o] in s.inProgress ==> s'.ran[o] == s.ran[o]
  }

  function Pushed(s: Shot, job: Job): Shot
    requires Lengths(s) && job.obj < |s.kinds|
  {
    var o := job.obj;
    s.(count := s.count[o := s.count[o] + 1], queue := s.queue[o := s.queue[o] + [job]], dispatched := s.dispatched[o := s.dispatched[o] + [job]],
       log := s.log + [job])
  }

  lemma PushedWeighs(s: Shot, job: Job)
    requires Lengths(s) && job.obj < |s.kinds|
    ensures Weight(Pushed(s, job).queue) == Weight(s.queue) + Size(job)
  {
    WeightAfter(s.queue, job.obj, s.queue[job.obj] + [job]);
    WeightOfPushed(s.queue[job.obj], job);
  }

  lemma {:induction false} InOrderKept(js: seq<Job>, log: seq<Job>, more: seq<Job>)
    requires InOrder(js, log)
    ensures InOrder(js, log + more)
  {
    if js != [] {
      var i :| 0 <= i < |log| && log[i] == js[|js| - 1] && InOrder(js[..|js| - 1], log[..i]);
      assert (log + more)[..i] == log[..i] && (log + more)[i] == log[i];
    }
  }

  lemma {:induction false} InOrderBehind(js: seq<Job>, before: seq<Job>, log: seq<Job>)
    requires InOrder(js, log)
    ensures InOrder(js, before + log)
  {
    if js != [] {
      var i :| 0 <= i < |log| && log[i] == js[|js| - 1] && InOrder(js[..|js| - 1], log[..i]);
      InOrderBehind(js[..|js| - 1], before, log[..i]);
      assert (before + log)[..|before| + i] == before + log[..i] && (before + log)[|before| + i] == log[i];
    }
  }

  /** Every task that was run, and does not run still, has dispatched its tasks in order. */
  ghost predicate AllDone(s: Shot) {
    && Lengths(s)
    && forall o, i :: 0 <= o < |s.kinds| && o !in s.running && 0 <= i < |s.ran[o]| ==> Done(s, s.ran[o][i])
  }

  lemma BegunTasksAreDone(s: Shot)
    requires Ok(s)
    ensures AllDone(s)
  {
    hide Done;
    forall o, i | 0 <= o < |s.kinds| && o !in s.running && 0 <= i < |s.ran[o]| ensures Done(s, s.ran[o][i]) {
      assert BegunAreDone(s, o);
    }
  }

  lemma DoneKept(s: Shot, s': Shot, j: Job)
    requires Done(s, j) && Grows(s.dispatched, s'.dispatched) && s.log <= s'.log
    ensures Done(s', j)
  {
    hide InOrder;
    InOrderKept(j.calls, s.log, s'.log[|s.log|..]);
    assert s'.log == s.log + s'.log[|s.log|..];
    forall i | 0 <= i < |j.calls| ensures j.calls[i] in s'.dispatched[j.calls[i].obj] {
      assert s.dispatched[j.calls[i].obj] <= s'.dispatched[j.calls[i].obj];
    }
  }

  /** What was done stays done. */
  lemma CompleteKept(s: Shot, s': Shot)
    requires Complete(s) && Lengths(s') && s'.kinds == s.kinds && Grows(s.dispatched, s'.dispatched) && s.log <= s'.log
    requires s'.ran == s.ran && s'.running == s.running
    ensures Complete(s')
  {
    hide Done, Grows;
    forall o | 0 <= o < |s.kinds| ensures BegunAreDone(s', o) {
      assert BegunAreDone(s, o);
      forall i | 0 <= i < |s.ran[o]| - (if o in s.running then 1 else 0) ensures Done(s', s.ran[o][i]) {
        DoneKept(s, s', s.ran[o][i]);
      }
    }
  }

  lemma PoppedIsComplete(s: Shot, o: nat)
    requires Complete(s) && o < |s.kinds| && s.queue[o] != [] && o !in s.running
    ensures Complete(Popped(s, o))
  {
    hide Done;
    var s' := Popped(s, o);
    forall x | 0 <= x < |s.kinds| ensures BegunAreDone(s', x) {
      assert BegunAreDone(s, x);
      forall i | 0 <= i < |s'.ran[x]| - (if x in s'.running then 1 else 0) ensures Done(s', s'.ran[x][i]) {
        assert s'.ran[x][i] == s.ran[x][i];
        SameDone(s, s', s.ran[x][i]);
      }
    }
  }

  lemma SameDone(s: Shot, s': Shot, j: Job)
    requires s'.dispatched == s.dispatched && s'.log == s.log
    ensures Done(s, j) <==> Done(s', j)
  {
  }

  lemma CountedIsComplete(s: Shot, o: nat)
    requires Complete(s) && o < |s.kinds| && s.count[o] > 0 && s.ran[o] != [] && Done(s, s.ran[o][|s.ran[o]| - 1])
    ensures Complete(Counted(s, o))
  {
    hide Done;
    var s' := Counted(s, o);
    forall x | 0 <= x < |s.kinds| ensures BegunAreDone(s', x) {
      assert BegunAreDone(s, x);
      forall i | 0 <= i < |s'.ran[x]| - (if x in s'.running then 1 else 0) ensures Done(s', s'.ran[x][i]) {
        SameDone(s, s', s.ran[x][i]);
      }
    }
  }

  /** A task that was run is done. */
  lemma RunIsDone(begun: Shot, done: Shot, o: nat, task: Job)
    requires Later(begun, done) && o < |begun.kinds| && begun.kinds[o] in begun.inProgress
    requires begun.ran[o] != [] && begun.ran[o][|begun.ran[o]| - 1] == task
    requires AllDispatched(done, task.calls) && InOrder(task.calls, done.log[|begun.log|..])
    ensures Lengths(done) && |done.kinds| == |begun.kinds| && done.ran[o] != [] && Done(done, done.ran[o][|done.ran[o]| - 1])
  {
    hide InOrder, AllDispatched;
    assert begun.log <= done.log by { LaterLogs(begun, done); }
    InOrderBehind(task.calls, begun.log, done.log[|begun.log|..]);
    assert done.log == begun.log + done.log[|begun.log|..];
  }

  lemma LaterLogs(s: Shot, s': Shot)
    requires Later(s, s')
    ensures s.log <= s'.log
  {
  }

  lemma OtherObjectsOk(s: Shot, s': Shot, o: nat)
    requires Ok(s) && Lengths(s') && s'.kinds == s.kinds && o < |s.kinds|
    requires forall x :: 0 <= x < |s.kinds| && x != o ==>
               && s'.count[x] == s.count[x] && s'.queue[x] == s.queue[x] && s'.dispatched[x] == s.dispatched[x] && s'.ran[x] == s.ran[x]
               && (x in s'.running <==> x in s.running)
               && (x in Pending(s', s.kinds[x]) <==> x in Pending(s, s.kinds[x]))
               && (Flushes(s', s.kinds[x], x) <==> Flushes(s, s.kinds[x], x))
    ensures forall x :: 0 <= x < |s.kinds| && x != o ==> ObjectOk(s', x)
  {
    forall x | 0 <= x < |s.kinds| && x != o ensures ObjectOk(s', x) {
      assert ObjectOk(s, x);
    }
  }

  /** A task for an object that has an owner. */
  lemma PushedIsOk(s: Shot, job: Job)
    requires Ok(s) && Known(job, |s.kinds|) && s.count[job.obj] > 0
    ensures Ok(Pushed(s, job))
  {
    hide Complete;
    var s' := Pushed(s, job);
    CompleteKept(s, s');
    assert ObjectOk(s, job.obj);
    OtherObjectsOk(s, s', job.obj);
    assert ObjectOk(s', job.obj);
    assert forall k :: KindOk(s, k) ==> KindOk(s', k);
  }

  function Parked(s: Shot, o: nat): Shot
    requires o < |s.kinds|
  {
    var k := s.kinds[o];
    s.(pending := s.pending[k := Pending(s, k) + [o]], parks := s.parks[k := ListOf(s.parks, k) + [o]])
  }

  lemma ParkedIsOk(s: Shot, job: Job)
    requires Ok(s) && Known(job, |s.kinds|) && s.count[job.obj] == 0 && s.kinds[job.obj] in s.inProgress
    ensures Ok(Parked(Pushed(s, job), job.obj))
  {
    hide Complete;
    var o := job.obj;
    var s' := Parked(Pushed(s, job), o);
    CompleteKept(s, s');
    assert ObjectOk(s, o);
    OtherObjectsOk(s, s', o);
    assert ObjectOk(s', o);
    forall k ensures KindOk(s', k) {
      assert KindOk(s, k);
    }
  }

  /** The flag is set, and the flush of `o` begins. */
  function Begun(s: Shot, o: nat): Shot
    requires o < |s.kinds|
  {
    var k := s.kinds[o];
    s.(inProgress := s.inProgress + {k}, current := s.current[k := o], flushes := s.flushes[k := ListOf(s.flushes, k) + [o]])
  }

  lemma BegunIsOk(s: Shot, job: Job)
    requires Ok(s) && Known(job, |s.kinds|) && s.count[job.obj] == 0 && s.kinds[job.obj] !in s.inProgress
    ensures Ok(Begun(Pushed(s, job), job.obj))
  {
    hide Complete;
    var o := job.obj;
    var s' := Begun(Pushed(s, job), o);
    CompleteKept(s, s');
    assert ObjectOk(s, o);
    assert KindOk(s, s.kinds[o]);
    OtherObjectsOk(s, s', o);
    assert ObjectOk(s', o);
    forall k ensures KindOk(s', k) {
      assert KindOk(s, k);
    }
  }

  /** `Pop`, and the task begins to run. */
  function Popped(s: Shot, o: nat): Shot
    requires Lengths(s) && o < |s.kinds| && s.queue[o] != []
  {
    s.(queue := s.queue[o := s.queue[o][1..]], ran := s.ran[o := s.ran[o] + [s.queue[o][0]]], running := s.running + {o})
  }

  lemma PoppedIsOk(s: Shot, o: nat)
    requires Ok(s) && o < |s.kinds| && Flushes(s, s.kinds[o], o) && o !in s.running && s.queue[o] != []
    ensures Ok(Popped(s, o)) && Weight(Popped(s, o).queue) == Weight(s.queue) - Size(s.queue[o][0])
  {
    hide Complete;
    var s' := Popped(s, o);
    PoppedIsComplete(s, o);
    assert ObjectOk(s, o);
    OtherObjectsOk(s, s', o);
    assert s.queue[o] == [s.queue[o][0]] + s.queue[o][1..];
    assert ObjectOk(s', o);
    assert forall k :: KindOk(s, k) ==> KindOk(s', k);
    WeightAfter(s.queue, o, s.queue[o][1..]);
  }

  /** The task has run and the counter goes down; at zero the flush ends. */
  function Counted(s: Shot, o: nat): Shot
    requires Lengths(s) && o < |s.kinds| && s.count[o] > 0
  {
    s.(count := s.count[o := s.count[o] - 1], running := s.running - {o},
       current := if s.count[o] == 1 then s.current - {s.kinds[o]} else s.current)
  }

  lemma CountedIsOk(s: Shot, o: nat)
    requires Ok(s) && o < |s.kinds| && o in s.running && s.ran[o] != [] && Done(s, s.ran[o][|s.ran[o]| - 1])
    ensures o < |s.count| && s.count[o] > 0 && Ok(Counted(s, o))
  {
    hide Complete, Done;
    assert ObjectOk(s, o);
    CountedIsComplete(s, o);
    var s' := Counted(s, o);
    assert KindOk(s, s.kinds[o]);
    OtherObjectsOk(s, s', o);
    assert ObjectOk(s', o);
    forall k ensures KindOk(s', k) {
      assert KindOk(s, k);
    }
  }

  /** The next pending object is taken. */
  function Taken(s: Shot, k: Kind): Shot
    requires Pending(s, k) != []
  {
    s.(pending := s.pending[k := Pending(s, k)[1..]], current := s.current[k := Pending(s, k)[0]],
       flushes := s.flushes[k := ListOf(s.flushes, k) + [Pending(s, k)[0]]])
  }

  lemma TakenIsOk(s: Shot, k: Kind)
    requires Ok(s) && Pending(s, k) != [] && k !in s.current
    ensures Ok(Taken(s, k)) && Pending(s, k)[0] < |s.kinds| && s.kinds[Pending(s, k)[0]] == k && s.count[Pending(s, k)[0]] > 0
    ensures Pending(s, k)[0] !in s.running
  {
    hide KindOk, ObjectOk, Complete;
    var o, s' := Pending(s, k)[0], Taken(s, k);
    CompleteKept(s, s');
    assert KindOk(s, k);
    assert o in Pending(s, k);
    PendingObject(s, k, o);
    assert ObjectOk(s, o);
    TakenObjects(s, k);
    forall k' ensures KindOk(s', k') {
      assert KindOk(s, k');
      TakenKind(s, k, k');
    }
  }

  lemma PendingObject(s: Shot, k: Kind, o: nat)
    requires KindOk(s, k) && o in Pending(s, k)
    ensures o < |s.kinds| && s.kinds[o] == k
  {
  }

  lemma TakenObjects(s: Shot, k: Kind)
    requires Ok(s) && Pending(s, k) != [] && k !in s.current
    ensures forall o :: 0 <= o < |s.kinds| ==> ObjectOk(Taken(s, k), o)
    ensures var o := Pending(s, k)[0]; o < |s.kinds| && s.count[o] > 0 && o !in s.running
  {
    hide ObjectOk, KindOk;
    var o, s' := Pending(s, k)[0], Taken(s, k);
    assert o in Pending(s, k) && KindOk(s, k);
    PendingObject(s, k, o);
    assert Pending(s, k) == [o] + Pending(s', k);
    assert ObjectOk(s, o);
    TakenObject(s, k, o);
    OtherObjectsOk(s, s', o);
  }

  lemma TakenObject(s: Shot, k: Kind, o: nat)
    requires Lengths(s) && o < |s.kinds| && ObjectOk(s, o) && s.kinds[o] == k && Pending(s, k) != [] && Pending(s, k)[0] == o && k !in s.current
    ensures ObjectOk(Taken(s, k), o) && s.count[o] > 0 && o !in s.running
  {
  }

  lemma TakenKind(s: Shot, k: Kind, k': Kind)
    requires KindOk(s, k) && KindOk(s, k') && Pending(s, k) != []
    ensures KindOk(Taken(s, k), k')
  {
    if k' == k {
      var o, rest := Pending(s, k)[0], Pending(s, k)[1..];
      assert Pending(Taken(s, k), k) == rest && Pending(s, k) == [o] + rest;
      forall x | x in rest ensures x < |s.kinds| && s.kinds[x] == k {
        assert x in Pending(s, k);
      }
      forall i | 0 <= i < |rest| ensures rest[i] != o {
        assert Pending(s, k)[0] != Pending(s, k)[i + 1];
      }
      assert o in Pending(s, k) && o < |s.kinds| && s.kinds[o] == k;
      assert Taken(s, k).current[k] == o && o !in rest && NoDup(rest);
    }
  }

  /** The flag is cleared. */
  function Ended(s: Shot, k: Kind): Shot {
    s.(inProgress := s.inProgress - {k})
  }

  lemma EndedIsOk(s: Shot, k: Kind)
    requires Ok(s) && Pending(s, k) == [] && k !in s.current
    ensures Ok(Ended(s, k)) && Drained(Ended(s, k), k)
  {
    hide Complete;
    var s' := Ended(s, k);
    CompleteKept(s, s');
    forall o | 0 <= o < |s.kinds| ensures ObjectOk(s', o) && (s.kinds[o] == k ==> s.count[o] == 0) {
      assert ObjectOk(s, o);
    }
    forall k' ensures KindOk(s', k') {
      assert KindOk(s, k');
    }
  }

  // ---- the methods

  /** What a flush of an object of kind `k` leaves alone: as `Later`, but for kind `k` itself. */
  ghost predicate LaterBut(s: Shot, s': Shot, k: Kind) {
    && Lengths(s) && Lengths(s') && s'.kinds == s.kinds && Waits(s, s')
    && s'.inProgress == s.inProgress && s'.current == s.current - {k} && s'.running == s.running
    && Grows(s.dispatched, s'.dispatched) && Grows(s.ran, s'.ran)
    && forall o :: 0 <= o < |s.kinds| && s.kinds[o] in s.inProgress && s.kinds[o] != k ==> s'.ran[o] == s.ran[o]
  }

  /** ... while the flush of `o` is under way. */
  ghost predicate Flushing(s: Shot, s': Shot, k: Kind, o: nat) {
    && Lengths(s) && Lengths(s') && s'.kinds == s.kinds && Flushes(s, k, o) && Waits(s, s')
    && s'.inProgress == s.inProgress && s'.current == s.current && s'.running == s.running
    && Grows(s.dispatched, s'.dispatched) && Grows(s.ran, s'.ran)
    && forall o :: 0 <= o < |s.kinds| && s.kinds[o] in s.inProgress && s.kinds[o] != k ==> s'.ran[o] == s.ran[o]
  }

  /** ... and while a `Dispatch` of `job`, which was called at `s`, flushes objects of its kind. */
  ghost predicate DrainingBut(s: Shot, s': Shot, job: Job) {
    && Lengths(s) && Lengths(s') && s'.kinds == s.kinds && job.obj < |s.kinds|
    && s'.inProgress == s.inProgress + {s.kinds[job.obj]} && s'.running == s.running
    && s'.current - {s.kinds[job.obj]} == s.current
    && Grows(s.dispatched, s'.dispatched) && Grows(s.ran, s'.ran) && s.dispatched[job.obj] + [job] <= s'.dispatched[job.obj]
    && s.kinds[job.obj] !in s.inProgress && Waits(s, s') && s.log + [job] <= s'.log
    && FlushesInOrder(s, s', s.kinds[job.obj], job.obj)
    && forall o :: 0 <= o < |s.kinds| && s.kinds[o] in s.inProgress ==> s'.ran[o] == s.ran[o]
  }

  ghost predicate Draining(s: Shot, s': Shot, job: Job) {
    DrainingBut(s, s', job) && s.kinds[job.obj] !in s'.current
  }

  lemma DrainingNow(s: Shot, s': Shot, job: Job)
    requires Draining(s, s', job)
    ensures s.kinds == s'.kinds && job.obj < |s.kinds| && s.kinds[job.obj] !in s'.current && Lengths(s) && Lengths(s')
  {
  }

  lemma LaterRefl(s: Shot)
    requires Ok(s)
    ensures Later(s, s) && Lengths(s)
  {
    WaitsRefl(s);
  }

  lemma LaterTrans(a: Shot, b: Shot, c: Shot)
    requires Later(a, b) && Later(b, c)
    ensures Later(a, c)
  {
    hide Waits;
    WaitsTrans(a, b, c);
    GrowsTrans(a.dispatched, b.dispatched, c.dispatched);
    GrowsTrans(a.ran, b.ran, c.ran);
  }

  lemma GrowsTrans(a: seq<seq<Job>>, b: seq<seq<Job>>, c: seq<seq<Job>>)
    requires Grows(a, b) && Grows(b, c)
    ensures Grows(a, c)
  {
  }

  lemma CallsUpTo(js: seq<Job>, i: nat)
    requires i < |js|
    ensures Sizes(js[..i + 1]) == Sizes(js[..i]) + Size(js[i])
    ensures Sizes(js[..i + 1]) <= Sizes(js)
    decreases |js| - i
  {
    assert js[..i + 1][..i] == js[..i];
    if i + 1 == |js| {
      assert js[..i + 1] == js;
    } else {
      CallsUpTo(js, i + 1);
    }
  }

  lemma StillDispatched(s: Shot, s': Shot, js: seq<Job>, i: nat)
    requires i < |js| && AllDispatched(s, js[..i]) && Later(s, s')
    requires js[i].obj < |s.kinds| && s.dispatched[js[i].obj] + [js[i]] <= s'.dispatched[js[i].obj]
    ensures AllDispatched(s', js[..i + 1])
  {
    forall j | 0 <= j < i + 1 ensures js[..i + 1][j] in s'.dispatched[js[j].obj] {
      if j < i {
        assert js[..i][j] in s.dispatched[js[j].obj];
        assert s.dispatched[js[j].obj] <= s'.dispatched[js[j].obj];
      } else {
        var n := |s.dispatched[js[i].obj]|;
        assert s'.dispatched[js[i].obj][n] == (s.dispatched[js[i].obj] + [js[i]])[n];
      }
    }
  }

  lemma NothingInOrder(log: seq<Job>)
    ensures InOrder([], log)
  {
  }

  lemma NextInOrder(js: seq<Job>, i: nat, before: seq<Job>, after: seq<Job>)
    requires i < |js| && InOrder(js[..i], before) && before + [js[i]] <= after
    ensures InOrder(js[..i + 1], after)
  {
    assert js[..i + 1][..i] == js[..i];
    assert after[|before|] == (before + [js[i]])[|before|];
    assert after[..|before|] == before;
  }

  lemma HasTask(s: Shot, o: nat)
    requires Ok(s) && o < |s.kinds| && s.count[o] > 0 && o !in s.running
    ensures s.queue[o] != [] && Known(s.queue[o][0], |s.kinds|)
  {
    assert ObjectOk(s, o);
  }

  lemma SameWaits(before: Shot, begun: Shot, done: Shot, after: Shot)
    requires Waits(begun, done) && before.inProgress == begun.inProgress
    requires before.pending == begun.pending && before.parks == begun.parks && before.flushes == begun.flushes && before.log == begun.log
    requires done.pending == after.pending && done.parks == after.parks && done.flushes == after.flushes && done.log == after.log
    ensures Waits(before, after)
  {
    forall k | k in before.inProgress ensures ParkedMore(before, after, k) && ListOf(after.flushes, k) == ListOf(before.flushes, k) {
      assert ParkedMore(begun, done, k);
    }
  }

  /** One turn of the loop in `Flush`. */
  lemma TurnOfFlush(start: Shot, before: Shot, done: Shot, k: Kind, o: nat)
    requires Flushing(start, before, k, o) && Ok(before) && o < |before.kinds| && before.kinds[o] == k && before.queue[o] != [] && k in start.inProgress
    requires Later(Popped(before, o), done) && Ok(done) && o !in before.running && done.count[o] > 0
    ensures var after := Counted(done, o);
            && (if done.count[o] == 1 then LaterBut(start, after, k) else Flushing(start, after, k, o) && after.count[o] > 0)
            && o !in after.running && |after.count| == |after.kinds|
  {
    hide Waits;
    var begun, after := Popped(before, o), Counted(done, o);
    SameWaits(before, begun, done, after);
    WaitsTrans(start, before, after);
    assert Grows(before.ran, begun.ran);
    GrowsTrans(start.dispatched, before.dispatched, done.dispatched);
    GrowsTrans(start.ran, before.ran, begun.ran);
    GrowsTrans(start.ran, begun.ran, done.ran);
    assert after.running == before.running;
  }

  lemma StillRunning(s: Shot, s': Shot, o: nat)
    requires Later(s, s') && o in s.running
    ensures o in s'.running
  {
  }

  lemma FlushRefl(s: Shot, k: Kind, o: nat)
    requires Ok(s) && Flushes(s, k, o)
    ensures Flushing(s, s, k, o) && Lengths(s)
  {
    WaitsRefl(s);
  }

  lemma FlushingNow(s: Shot, s': Shot, k: Kind, o: nat)
    requires Flushing(s, s', k, o)
    ensures Lengths(s') && Flushes(s', k, o) && s'.inProgress == s.inProgress
  {
  }

  lemma KindInProgress(s: Shot, o: nat)
    requires Ok(s) && o < |s.kinds| && Flushes(s, s.kinds[o], o)
    ensures s.kinds[o] in s.inProgress
  {
    assert KindOk(s, s.kinds[o]);
  }

  lemma BeginsDraining(s: Shot, job: Job)
    requires Ok(s) && job.obj < |s.kinds| && s.count[job.obj] == 0 && s.kinds[job.obj] !in s.inProgress
    ensures var s' := Begun(Pushed(s, job), job.obj);
            DrainingBut(s, s', job) && Flushes(s', s.kinds[job.obj], job.obj) && job.obj !in s'.running && s'.count[job.obj] > 0
  {
    var k := s.kinds[job.obj];
    assert ObjectOk(s, job.obj);
    assert KindOk(s, k);
    var s' := Begun(Pushed(s, job), job.obj);
    assert Added(ListOf(s.parks, k), ListOf(s'.parks, k)) == [] && Pending(s', k) == [];
    WaitsRefl(s);
    forall k' | k' in s.inProgress ensures ParkedMore(s, s', k') {
      assert ParkedMore(s, s, k');
    }
  }

  lemma LogGrows(s: Shot, s': Shot)
    requires Waits(s, s')
    ensures s.log <= s'.log
  {
  }

  lemma StillDraining(s: Shot, a: Shot, b: Shot, job: Job)
    requires DrainingBut(s, a, job) && LaterBut(a, b, s.kinds[job.obj])
    ensures Draining(s, b, job)
  {
    hide Waits, FlushesInOrder;
    WaitsTrans(s, a, b);
    OrderKept(s, a, b, s.kinds[job.obj], job.obj);
    LogGrows(a, b);
    GrowsTrans(s.dispatched, a.dispatched, b.dispatched);
    GrowsTrans(s.ran, a.ran, b.ran);
  }

  lemma TakenStillDraining(s: Shot, a: Shot, job: Job)
    requires Draining(s, a, job) && Pending(a, s.kinds[job.obj]) != []
    ensures DrainingBut(s, Taken(a, s.kinds[job.obj]), job)
  {
    var k := s.kinds[job.obj];
    var b := Taken(a, k);
    assert b.current - {k} == a.current - {k};
    assert Pending(a, k) == [Pending(a, k)[0]] + Pending(b, k);
    assert ListOf(b.flushes, k) + Pending(b, k) == ListOf(a.flushes, k) + Pending(a, k);
    forall k' | k' in s.inProgress ensures ParkedMore(s, b, k') && ListOf(b.flushes, k') == ListOf(s.flushes, k') {
      assert ParkedMore(s, a, k');
    }
  }

  lemma EndsDraining(s: Shot, a: Shot, job: Job)
    requires Draining(s, a, job) && Pending(a, s.kinds[job.obj]) == []
    ensures Later(s, Ended(a, s.kinds[job.obj])) && s.dispatched[job.obj] + [job] <= a.dispatched[job.obj] && s.log + [job] <= a.log
    ensures var k := s.kinds[job.obj];
            && ListOf(s.parks, k) <= ListOf(a.parks, k)
            && ListOf(a.flushes, k) == ListOf(s.flushes, k) + [job.obj] + Added(ListOf(s.parks, k), ListOf(a.parks, k))
  {
    WaitsRefl(s);
    SameWaits(s, s, a, Ended(a, s.kinds[job.obj]));
    assert a.current == s.current;
  }

  lemma ParkedIsLater(s: Shot, job: Job)
    requires Lengths(s) && job.obj < |s.kinds|
    ensures Later(s, Pushed(s, job)) && Later(s, Parked(Pushed(s, job), job.obj))
  {
    WaitsRefl(s);
    var a, b := Pushed(s, job), Parked(Pushed(s, job), job.obj);
    forall k ensures ParkedMore(s, a, k) && ParkedMore(s, b, k) {
      assert ParkedMore(s, s, k);
      if k == s.kinds[job.obj] {
        assert Added(ListOf(s.parks, k), ListOf(b.parks, k)) == [job.obj];
      }
    }
  }

  class Thread {
    const kinds: seq<Kind>
    var count: seq<nat>
    var queue: seq<seq<Job>>
    var pending: map<Kind, seq<nat>>
    var inProgress: set<Kind>
    ghost var current: map<Kind, nat>
    ghost var running: set<nat>
    ghost var dispatched: seq<seq<Job>>
    ghost var ran: seq<seq<Job>>
    ghost var parks: map<Kind, seq<nat>>
    ghost var flushes: map<Kind, seq<nat>>
    ghost var log: seq<Job>

    ghost function Model(): Shot
      reads this
    {
      Shot(kinds, count, queue, pending, inProgress, current, running, dispatched, ran, parks, flushes, log)
    }

    constructor (kinds: seq<Kind>)
      ensures Ok(Model()) && this.kinds == kinds && inProgress == {}
    {
      this.kinds := kinds;
      count, queue := seq(|kinds|, _ => 0), seq(|kinds|, _ => []);
      dispatched, ran := seq(|kinds|, _ => []), seq(|kinds|, _ => []);
      pending, inProgress, current, running := map[], {}, map[], {};
      parks, flushes, log := map[], map[], [];
    }

    /** The counter goes up and the task is pushed. */
    method Push(job: Job) returns (was: nat)
      requires Lengths(Model()) && job.obj < |kinds|
      modifies this`count, this`queue, this`dispatched, this`log
      ensures Model() == Pushed(old(Model()), job) && was == old(count)[job.obj]
    {
      var o := job.obj;
      was := count[o];
      count := count[o := was + 1];
      queue := queue[o := queue[o] + [job]];
      dispatched := dispatched[o := dispatched[o] + [job]];
      log := log + [job];
    }

    /** `Task->Dispatch()`: the functor dispatches its tasks. */
    method Run(job: Job)
      requires Ok(Model()) && Known(job, |kinds|)
      modifies this
      ensures Ok(Model()) && Later(old(Model()), Model()) && Weight(queue) <= old(Weight(queue)) + Sizes(job.calls)
      ensures AllDispatched(Model(), job.calls)
      ensures old(log) <= log && InOrder(job.calls, log[|old(log)|..])
      decreases Weight(queue) + Sizes(job.calls), 4
    {
      hide Ok, Later, Weight, InOrder;
      LaterRefl(Model());
      NothingInOrder(log[|log|..]);
      assert job.calls[..0] == [];
      for i := 0 to |job.calls|
        invariant Ok(Model()) && Later(old(Model()), Model())
        invariant Weight(queue) <= old(Weight(queue)) + Sizes(job.calls[..i])
        invariant AllDispatched(Model(), job.calls[..i])
        invariant old(log) <= log && InOrder(job.calls[..i], log[|old(log)|..])
      {
        ghost var before := Model();
        CallsUpTo(job.calls, i);
        var sync := Dispatch(job.calls[i]);
        LaterTrans(old(Model()), before, Model());
        StillDispatched(before, Model(), job.calls, i);
        NextInOrder(job.calls, i, before.log[|old(log)|..], log[|old(log)|..]);
      }
      assert job.calls[..|job.calls|] == job.calls;
    }

    /** `Flush`: tasks are popped and run until the counter is back at zero. */
    method Flush(o: nat)
      requires Ok(Model()) && o < |kinds| && Flushes(Model(), kinds[o], o) && o !in running && count[o] > 0
      modifies this
      ensures Ok(Model()) && LaterBut(old(Model()), Model(), kinds[o]) && Weight(queue) < old(Weight(queue))
      decreases Weight(queue), 1
    {
      hide Ok, Weight, Later, LaterBut, Flushing, Known, Waits, Sizes, Done, AllDispatched, InOrder;
      ghost var start := Model();
      FlushRefl(start, kinds[o], o);
      KindInProgress(start, o);
      while true
        invariant Ok(Model()) && Flushing(start, Model(), kinds[o], o) && o !in running && o < |count| && count[o] > 0
        invariant Weight(queue) <= Weight(start.queue)
        decreases Weight(queue)
      {
        ghost var before := Model();
        FlushingNow(start, before, kinds[o], o);
        HasTask(before, o);
        PoppedIsOk(before, o);
        var task := queue[o][0];
        queue := queue[o := queue[o][1..]];
        ran := ran[o := ran[o] + [task]];
        running := running + {o};
        ghost var begun := Model();
        Run(task);
        ghost var done := Model();
        StillRunning(begun, done, o);
        RunIsDone(begun, done, o, task);
        CountedIsOk(done, o);
        TurnOfFlush(start, before, done, kinds[o], o);
        var was := count[o];
        count := count[o := was - 1];
        running := running - {o};
        current := if was == 1 then current - {kinds[o]} else current;
        if was == 1 {
          break;
        }
      }
    }

    /** `Dispatch`: true for the thread that became the owner. If a flush of the kind is under way the
        object is parked behind those that are pending, and no task runs before the call returns;
        otherwise everything that is or becomes dispatched to objects of the kind is run before it
        returns: the object is flushed first and then those that are parked meanwhile, in that order. */
    method Dispatch(job: Job) returns (owner: bool)
      requires Ok(Model()) && Known(job, |kinds|)
      modifies this
      ensures Ok(Model()) && Later(old(Model()), Model()) && Weight(queue) <= old(Weight(queue)) + Size(job)
      ensures owner <==> old(count)[job.obj] == 0
      ensures old(dispatched)[job.obj] + [job] <= dispatched[job.obj] && old(log) + [job] <= log
      ensures !owner ==> pending == old(pending) && ran == old(ran)
      ensures owner && kinds[job.obj] in old(inProgress) ==>
              ListOf(pending, kinds[job.obj]) == old(ListOf(pending, kinds[job.obj])) + [job.obj] && ran == old(ran)
      ensures owner && kinds[job.obj] !in old(inProgress) ==> Drained(Model(), kinds[job.obj])
      ensures AllDone(Model())
      ensures owner && kinds[job.obj] !in old(inProgress) ==>
              var k := kinds[job.obj];
              && ListOf(old(parks), k) <= ListOf(parks, k)
              && ListOf(flushes, k) == ListOf(old(flushes), k) + [job.obj] + Added(ListOf(old(parks), k), ListOf(parks, k))
      decreases Weight(queue) + Size(job), 3
    {
      ghost var s := Model();
      hide Ok, Weight, Later, LaterBut, DrainingBut, Drained, Added, Waits, AllDone;
      KnownObject(s, job);
      PushedWeighs(s, job);
      ParkedIsLater(s, job);
      var was := Push(job);
      if was != 0 {
        PushedIsOk(s, job);
        BegunTasksAreDone(Model());
        return false;
      }
      owner := true;
      var k := kinds[job.obj];
      if k in inProgress {
        ParkedIsOk(s, job);
        pending := pending[k := ListOf(pending, k) + [job.obj]];
        parks := parks[k := ListOf(parks, k) + [job.obj]];
      } else {
        FlushAll(s, job);
      }
      BegunTasksAreDone(Model());
    }

    lemma KnownObject(s: Shot, job: Job)
      requires Ok(s) && Known(job, |s.kinds|)
      ensures Lengths(s) && job.obj < |s.kinds|
    {
    }

    /** ... with the flag clear, after the push. */
    method FlushAll(ghost s: Shot, job: Job)
      requires Ok(s) && Known(job, |kinds|) && job.obj < |s.kinds| && Lengths(s) && Model() == Pushed(s, job)
      requires s.count[job.obj] == 0 && kinds[job.obj] !in inProgress && Weight(queue) == Weight(s.queue) + Size(job)
      modifies this
      ensures Ok(Model()) && Later(s, Model()) && Weight(queue) <= Weight(s.queue) + Size(job)
      ensures Drained(Model(), kinds[job.obj]) && |dispatched| == |kinds| && s.dispatched[job.obj] + [job] <= dispatched[job.obj] && s.log + [job] <= log
      ensures var k := kinds[job.obj];
              && ListOf(s.parks, k) <= ListOf(parks, k)
              && ListOf(flushes, k) == ListOf(s.flushes, k) + [job.obj] + Added(ListOf(s.parks, k), ListOf(parks, k))
      decreases Weight(queue), 2
    {
      hide Ok, Weight, Later, LaterBut, DrainingBut, Drained, Known, Waits, ParkedMore, Added, Size, Sizes;
      var k := kinds[job.obj];
      BegunIsOk(s, job);
      inProgress := inProgress + {k};
      current := current[k := job.obj];
      flushes := flushes[k := ListOf(flushes, k) + [job.obj]];
      BeginsDraining(s, job);
      Flush(job.obj);
      StillDraining(s, Begun(Pushed(s, job), job.obj), Model(), job);
      DrainPending(s, job);
      DrainingNow(s, Model(), job);
      EndedIsOk(Model(), k);
      EndsDraining(s, Model(), job);
      inProgress := inProgress - {k};
    }

    /** The loop over the pending queue, in the dispatch of `job` that began in `s`. */
    method DrainPending(ghost s: Shot, job: Job)
      requires Ok(Model()) && Known(job, |kinds|) && Draining(s, Model(), job) && Weight(queue) <= Weight(s.queue) + Size(job)
      modifies this
      ensures Ok(Model()) && Draining(s, Model(), job) && Weight(queue) <= Weight(s.queue) + Size(job)
      ensures ListOf(pending, kinds[job.obj]) == []
      decreases Weight(queue), 2
    {
      hide Ok, Weight, Later, LaterBut, Draining;
      var k := kinds[job.obj];
      DrainingNow(s, Model(), job);
      while ListOf(pending, k) != []
        invariant Ok(Model()) && Draining(s, Model(), job) && Weight(queue) <= Weight(s.queue) + Size(job)
        invariant Weight(queue) <= old(Weight(queue))
        decreases Weight(queue)
      {
        ghost var before := Model();
        DrainingNow(s, before, job);
        TakenIsOk(before, k);
        var next := ListOf(pending, k)[0];
        pending := pending[k := ListOf(pending, k)[1..]];
        current := current[k := next];
        flushes := flushes[k := ListOf(flushes, k) + [next]];
        ghost var taken := Model();
        TakenStillDraining(s, before, job);
        Flush(next);
        StillDraining(s, taken, Model(), job);
      }
    }
  }
}
