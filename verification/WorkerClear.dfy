/** How a stopped worker gives up what is still in its queues. */
module WorkerClear {
  import opened MpscQueue
  import opened TaskQueues

  /** A worker's five queues; `released` is the history of the tasks it has released. */
  class Worker {
    const tasks: MpscTaskQueue
    const delayedTasks: MpscTaskQueue
    const sharedObjectTasks: MpscTaskQueue
    const customObjectTasks: MpscTaskQueue
    const staticObjectTasks: MpscTaskQueue
    var released: seq<nat>

    ghost predicate OwnQueues() {
      && tasks !in {delayedTasks, sharedObjectTasks, customObjectTasks, staticObjectTasks}
      && delayedTasks !in {sharedObjectTasks, customObjectTasks, staticObjectTasks}
      && sharedObjectTasks !in {customObjectTasks, staticObjectTasks}
      && customObjectTasks != staticObjectTasks
    }

    /** Nobody is pushing any more. */
    ghost predicate Stopped()
      reads tasks, delayedTasks, sharedObjectTasks, customObjectTasks, staticObjectTasks
    {
      && OwnQueues()
      && tasks.Quiescent() && delayedTasks.Quiescent() && sharedObjectTasks.Quiescent()
      && customObjectTasks.Quiescent() && staticObjectTasks.Quiescent()
    }

    /** What is still queued, queue by queue. */
    ghost function Queued(): seq<nat>
      reads tasks, delayedTasks, sharedObjectTasks, customObjectTasks, staticObjectTasks
    {
      tasks.Contents() + delayedTasks.Contents() + sharedObjectTasks.Contents()
      + customObjectTasks.Contents() + staticObjectTasks.Contents()
    }

    constructor ()
      ensures Stopped() && released == [] && Queued() == []
      ensures fresh(tasks) && fresh(delayedTasks) && fresh(sharedObjectTasks) && fresh(customObjectTasks) && fresh(staticObjectTasks)
    {
      hide QInv, PcInv, MpscTaskQueue.Quiescent, MpscTaskQueue.Contents, MpscTaskQueue.Model;
      tasks := new MpscTaskQueue(true);
      delayedTasks := new MpscTaskQueue(true);
      sharedObjectTasks := new MpscTaskQueue(false);
      customObjectTasks := new MpscTaskQueue(false);
      staticObjectTasks := new MpscTaskQueue(false);
      released := [];
    }

    /** A `Pop` while nobody pushes takes the first task, and returns null only from an empty queue. */
    method PopAlone(queue: MpscTaskQueue) returns (task: Node)
      requires queue.Quiescent()
      modifies queue
      ensures queue.Quiescent() && task != Stub
      ensures old(queue.Contents()) == (if task.Task? then [task.id] else []) + queue.Contents()
      ensures task == Null ==> queue.Contents() == []
    {
      hide QInv, PcInv;
      queue.Logs();
      ghost var popped, before := queue.popped, queue.Contents();
      task := queue.Pop(_ => []);
      queue.Logs();
      Cancel(popped, before, (if task.Task? then [task.id] else []) + queue.Contents());
    }

    lemma Cancel(a: seq<nat>, b: seq<nat>, c: seq<nat>)
      requires a + b == a + c
      ensures b == c
    {
      assert b == (a + b)[|a|..];
      assert c == (a + c)[|a|..];
    }

    /** `while( auto* Task{ Queue.Pop() } ) Static_Reset( Task )`: it terminates, and releases every
        task of the queue once, in order. */
    method Drain(queue: MpscTaskQueue)
      requires queue.Quiescent()
      modifies this`released, queue
      ensures queue.Quiescent() && queue.Contents() == []
      ensures released == old(released) + old(queue.Contents())
    {
      hide MpscTaskQueue.Quiescent, MpscTaskQueue.Contents;
      var task := PopAlone(queue);
      while task != Null
        invariant queue.Quiescent() && task != Stub
        invariant task == Null ==> queue.Contents() == []
        invariant released + (if task.Task? then [task.id] else []) + queue.Contents() == old(released) + old(queue.Contents())
        decreases if task == Null then 0 else 1 + |queue.Contents()|
      {
        released := released + [task.id];
        task := PopAlone(queue);
      }
    }

    /** `Clear`: every task that is still queued is released exactly once, queue by queue in order,
        and nothing is left. */
    method Clear()
      requires Stopped()
      modifies this`released, tasks, delayedTasks, sharedObjectTasks, customObjectTasks, staticObjectTasks
      ensures Stopped() && Queued() == []
      ensures released == old(released) + old(Queued())
      ensures released == old(released) + old(tasks.Contents()) + old(delayedTasks.Contents()) + old(sharedObjectTasks.Contents())
                          + old(customObjectTasks.Contents()) + old(staticObjectTasks.Contents())
    {
      hide MpscTaskQueue.Quiescent, MpscTaskQueue.Contents;
      Drain(tasks);
      Drain(delayedTasks);
      Drain(sharedObjectTasks);
      Drain(customObjectTasks);
      Drain(staticObjectTasks);
    }
  }
}
