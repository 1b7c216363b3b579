# Skylake: models and proofs

Dafny models of the concurrent and binary-format parts of Skylake, with proofs of what they promise.
`dafny verify dfyconfig.toml` checks everything.

## What is modelled

**Task queues** (`MpscQueue`, `QueueRuns`, `TaskQueues`, `WorkerClear`). The intrusive queue with many
producers and one consumer that `AODTaskQueue` and `TaskQueue` share. `MpscQueue.PopStep`, `Exchange` and
`Link` are its statements, one function step per access to shared memory (`SkylakeLib/AOD/AOD_Queue.h:27-91`);
`QueueRuns` is the machine of all interleavings, in which node addresses may be reused; `TaskQueues` has the
class whose `Push` and `Pop` change `Head`, `Tail` and `Next` in place while an arbitrary schedule of other
producers runs between its statements; `WorkerClear` is `Worker::Clear`.

**Object-bound dispatch** (`AodMachine` and the other `Aod` modules). `AodMachine` is `Dispatch` and `Flush`
of static, shared and custom objects as a machine: any number of threads, objects and tasks, one step for
each access to a counter, a queue, a reference count, an in-progress flag or a pending queue. A thread's
nested calls of `Dispatch` are a stack of frames. Each statement is one function (`DoReset`, `DoIncrement`,
`DoExchange`, `DoLink`, `DoAcquire`, `DoCheck`, `DoPop`, `DoFree`, `DoDecrement`, `DoReleaseDrained`,
`DoDrain`, `DoClear`, `DoReleaseSelf`). `AodInvariant` states the invariant, `AodFrame` to `AodClients` prove
that every step keeps it, `AodTheorems`, `AodPending`, `AodControl`, `AodProgress` and `AodReturns` draw the
conclusions for all runs, and `AodParking` constructs runs. `AodDispatch` has `Dispatch` and `Flush` in the recursive, in-place form of the
source for one undisturbed thread, and proves that they end.

**TLSSync ring** (`TlsSync`, `TlsSyncTheorems`, `TlsSyncSystem`). Producers take tickets and fill slots,
workers dispatch every ticket in turn, the last one to release a ticket finalises it. The machine has any
number of workers, slots and tickets in flight; the class has the in-place methods and the loop of `TLSTick`.

**Datacenter** (`ByteStreams`, `Serialization`, `SerializedArrays`, `DatacenterFormat`, `DatacenterLayout`,
`DatacenterLoads`, `DatacenterFile`, `StringPool`, `InternedStrings`, `ElementTree`). The byte stream, the padded
block arrays and the whole file format: its round trip, the offset of every field in numbers, and what is loaded
from any bytes; the string pool with its two hash maps; the rebuilding of the element tree.

**Memory** (`ObjectPool`, `MemoryManager`, `MemoryTickets`, `SharedPointers`, `SharedResults`, `UnguardedPointers`,
`UnguardedRuns`, `SharedPtr`). The locked ring pool as a class; the lock-free pools with their size classes as a
machine; shared and locked shared pointers as a machine, with what their operations return and what the unguarded
ones need; and `TSharedPtr` as a class.

**Scheduling** (`Congruence`, `RoundRobin`). The double round-robin of `ScheduleTask`.

`Wrappers`, `Arithmetic` and `Masks` hold what several of them use.

## Assumptions

- Atomic operations are sequentially consistent, and a `std::rw_lock` is a correct reader-writer lock.
- `increment()` and `decrement()` return the old value, as their uses show (`SkylakeLib/AOD/AOD_Object.cpp:115`,
  `SkylakeLib/AOD/AOD_Object.cpp:137`, `SkylakeLib/Application/ServerInstance.cpp:397`).
- A client that calls `DoAsync` holds a reference to the object for the duration of the call.
- A `TSharedPtr` itself is used by one thread at a time: copying, moving and resetting it are one step of the machine,
  but for the destruction that a reset may bring.
- `ReadT` beyond the end of the buffer stops the program at its assertion; the model's load fails there.
- Functors, clocks and the OS allocator are parameters: what a functor calls, whether an allocation succeeds
  and which block it returns are arbitrary.
- History fields (chains, holders, stages, tickets seen and the like) are read by no step.

## Where the code and its comments differ

- `DoAsync` is documented to return `RExecutedSync` when the functor was dispatched in the call
  (`SkylakeLib/AOD/AOD_Object.h:39`, `SkylakeLib/AOD/AOD_Object.h:117`), but it also does when the object was only
  parked (`SkylakeLib/AOD/AOD_Object.cpp:157-160`). `AodReturns.TrueMeansRanIff` says when it
  has run, in terms of the flag at the call, and `AodParking.TrueBeforeRun` is a run in which it has not.
- The assertion in `TLSSyncQueue::Push` admits a full ring (`SkylakeLib/TLSSync/TLSSyncQueue.h:59-60`); agreement
  needs one slot to spare. `TlsSyncTheorems.AgreementIffWithinCapacity` is the exact bound.
- `TryForward` is documented to fail if less than the amount remains, but it also fails if exactly the amount
  remains (`SkylakeLibHeaderOnly/Static_Dev/Stream.h:198-207`). `Serialization.BlockArrayReadsBackIff` says what
  this means for a block array; in a whole datacenter something always follows.
- A block array that declares more items in use than its capacity is loaded without complaint, and the loader then
  goes back to where the capacity ends (`SkylakeDatacenterLib/Internal/Structure.h:512-522`): `Serialization.SkipOfPadding`,
  `DatacenterLoads.BlockExact`.
- The string map accepts more blocks than a 16-bit index can name: the index is cut
  (`SkylakeDatacenterLib/Internal/Structure.h:999-1000`), and an index of 65535 reads as the invalid one
  (`SkylakeDatacenterLib/Internal/Structure.h:945-962`). `StringPool.WellFormedIff` and `StringPool.RefreshFindsAllIff`
  are the exact bounds, `StringPool.TooManyBlocks` and `StringPool.RefreshLosesAString` strings that pass them.
- `new_ref_unguarded` (`SkylakeLib/Memory/SharedPointer.h:385-388`) reads the pointer three times without the lock
  (`SkylakeLib/Memory/SharedPointer.h:317-325`). `UnguardedPointers.UnguardedSoundIff` says what the reads must find,
  `UnguardedPointers.HeldHandleProtects` what a caller can do, and `UnguardedRuns` has runs in which a destroyed object
  is revived, another object is returned than was counted, and a null pointer is incremented.
- Elements that share a child are loaded without complaint, but parents and children do not agree then
  (`SkylakeDatacenterLib/Internal/Structure.h:1345-1349`): `ElementTree.Loader.InverseIffUnshared`.
- `Clear` of a datacenter keeps the language (`SkylakeDatacenterLib/Internal/Structure.h:1129-1141`).

## Model

| member | source | states |
|---|---|---|
| QueueRuns.PopsAreAPrefixOfExchanges | SkylakeLib/AOD/AOD_Queue.h:27-91 | over any interleaving of any number of producers and one consumer, the results of `Pop` followed by what is still in the list are exactly the tasks in the order of their `Head` exchanges: nothing is lost, doubled or reordered |
| QueueRuns.StubStaysInside | SkylakeLib/AOD/AOD_Queue.h:39-91 | `Pop` never returns the stub, and the stub occurs at most once between `Tail` and `Head` |
| QueueRuns.ReturnedNodeIsDetached | SkylakeLib/AOD/AOD_Queue.h:53-88 | a node that `Pop` returned is neither `Head` nor `Tail`, nor in the list, nor the `PrevNode` of any producer that has still to link, so it may be freed and pushed again at once |
| QueueRuns.StubIsDetachedWhenCleared | SkylakeLib/AOD/AOD_Queue.h:29-80 | when `Stub.Next` is cleared the stub is outside the list and no pending link targets it; the assertion that a pushed node's `Next` is null holds at every exchange |
| QueueRuns.NullMeansEmptyOrInFlight | SkylakeLib/AOD/AOD_Queue.h:41-90 | a `Pop` that returns null found the queue empty or overlapped with a producer between its exchange and its link |
| QueueRuns.PopIsWaitFree | SkylakeLib/AOD/AOD_Queue.h:39-91 | whatever the producers do, `Pop` returns after at most ten accesses to shared memory |
| QueueRuns.ProducerSteps | SkylakeLib/AOD/AOD_Queue.h:27-33 | a producer's node has a null `Next` when it is exchanged, becomes the head, and with the link the successor of the head before it; nothing else of the queue changes |
| QueueRuns.TaskQueueTakesTheSameSteps | SkylakeLib/Task/TaskQueue.h:38-87 | `TaskQueue::Pop`, whose last load goes through the field `Tail`, takes the same steps as `AODTaskQueue::Pop` in every reachable state |
| MpscQueue.PopStepKeepsInv | SkylakeLib/AOD/AOD_Queue.h:41-90 | every step of the consumer keeps the list linked up to pending links, its history equal to popped plus queued, and what its locals claim true |
| MpscQueue.ExchangeKeepsInv | SkylakeLib/AOD/AOD_Queue.h:31 | an exchange by anyone appends the node and leaves its predecessor's link pending |
| MpscQueue.LinkKeepsInv | SkylakeLib/AOD/AOD_Queue.h:32 | storing a pending link closes exactly that gap |
| TaskQueues.MpscTaskQueue.constructor | SkylakeLib/AOD/AOD_Queue.h:17 | a new queue is empty and quiescent |
| TaskQueues.MpscTaskQueue.ExchangeHead | SkylakeLib/AOD/AOD_Queue.h:31 | the in-place exchange is the machine's exchange and returns the previous head |
| TaskQueues.MpscTaskQueue.StoreNext | SkylakeLib/AOD/AOD_Queue.h:32 | the in-place store is the machine's link |
| TaskQueues.MpscTaskQueue.Push | SkylakeLib/AOD/AOD_Queue.h:27-33 | with other producers in between, the task is exchanged once and linked; alone, it is appended to the contents |
| TaskQueues.MpscTaskQueue.Pop | SkylakeLib/AOD/AOD_Queue.h:39-91 | under any schedule of producers between its accesses, `Pop` returns the oldest task not yet returned, detached, or null, which means empty or a gap seen; alone, it leaves the queue quiescent with no gap |
| TaskQueues.MpscTaskQueue.PopLast | SkylakeLib/AOD/AOD_Queue.h:66-90 | the last task is taken only when the stub was pushed behind it and linked |
| WorkerClear.Worker.PopAlone | SkylakeLib/Task/TaskQueue.h:38-87 | with no producer about, `Pop` takes the first task and returns null only from an empty queue |
| WorkerClear.Worker.Drain | SkylakeLib/Threading/Worker.cpp:97-100 | the drain loop ends and releases every task of the queue once, in order |
| WorkerClear.Worker.Clear | SkylakeLib/Threading/Worker.cpp:94-124 | after `Clear` all five queues are empty and every task that was queued was released exactly once: tasks, delayed tasks, then those of shared, custom and static objects, each queue in order |
| AodTheorems.SingleOwnership | SkylakeLib/AOD/AOD_Object.cpp:102-185 | in every reachable state the counter of an object is positive exactly when one frame past its 0-returning increment owns it or one pending queue holds it, never two of these, and a pending queue holds it once |
| AodTheorems.SingleConsumer | SkylakeLib/AOD/AOD_Object.cpp:216-241 | no two frames of any threads are inside `Pop` or hold a popped task of the same object |
| AodTheorems.CountEquation | SkylakeLib/AOD/AOD_Object.cpp:102-151 | the counter equals the tasks between increment and exchange, plus those in the queue, plus one while the owner has popped and not decremented; and these are exactly the tasks in those stages |
| AodTheorems.TasksRunOnceInOrder | SkylakeLib/AOD/AOD_Object.cpp:102-151 | over any run and any number of hand-offs the tasks of an object begin in the order of their exchanges, none twice, and the others are queued in that order |
| AodTheorems.NoNestedFlush | SkylakeLib/AOD/AOD_Object.cpp:271-295 | a thread has at most one flush of each kind under way, however deeply tasks call `DoAsync` |
| AodPending.FlushedInOrder | SkylakeLib/AOD/AOD_Object.cpp:271-288 | over any run the objects that are parked on a thread for a kind are flushed in the order in which they were parked, and those not yet flushed are in the pending queue in that order |
| AodControl.EveryStatementFollows | SkylakeLib/AOD/AOD_Object.cpp:243-296 | over any run each statement is followed by the one that follows it in the source: only the thread that found zero goes on behind its push, a flush ends only at a count of zero, the loop over the pending queue takes its front and ends only when it is empty |
| AodControl.TaskReturns | SkylakeLib/AOD/AOD_Object.cpp:223-227 | a task that returns is freed next |
| AodControl.CallBegins | SkylakeLib/AOD/AOD_Object.h:42-62 | a call puts a frame for its task on the thread's stack and adds the task's reference to the object |
| AodControl.ClientSteps | SkylakeLib/Memory/MemoryPolicy.h:39-67 | a new object has no tasks and one reference, or none if static; copying a client's reference adds one, dropping one takes one away and destroys the object exactly if it was the last |
| AodReturns.OutermostDispatchDrains | SkylakeLib/AOD/AOD_Object.cpp:279-295 | when a call that finds no flush of the object's kind under way on its thread returns true, its task has run and been freed, the pending queue of the kind is empty and the thread owns no object of the kind |
| AodReturns.TrueMeansRanIff | SkylakeLib/AOD/AOD_Object.cpp:271-295 | in every run a call of `DoAsync` returns with its task run and freed if and only if it returns true and the thread had no flush of the object's kind under way when it called; otherwise the task is still queued |
| AodParking.IdleObjectIsParked | SkylakeLib/AOD/AOD_Object.cpp:157-160 | any run that leads to a call on an object with counter zero, of a kind of which the thread has a flush under way, goes on, if no other thread interferes, so that the call returns true with its task still queued |
| AodParking.TrueBeforeRun | SkylakeLib/AOD/AOD_Object.cpp:157-160 | such a run exists from the initial state: a call returns true while its task is still queued |
| AodTheorems.NoUseAfterFree | SkylakeLib/AOD/AOD_Object.cpp:216-296 | the next statement of every thread touches only objects that are not destroyed and task nodes that are not freed |
| AodTheorems.FlushedObjectIsAlive | SkylakeLib/AOD/AOD_Object.cpp:216-296 | an object that is parked or being flushed is not destroyed |
| AodTheorems.ReferenceConservation | SkylakeLib/AOD/AOD_Object.cpp:266-292 | the reference count is the number of client references, live tasks' parents and owners' references, each exactly one; the object is destroyed exactly when there is none |
| AodProgress.FlushSpinsOnlyOnProducers | SkylakeLib/AOD/AOD_Object.cpp:104-126 | a `Pop` of a flush that returns null does so on an object with a positive count while, at some moment of that call, a producer was between its increment and the end of its push |
| AodClients.StepKeepsInv | SkylakeLib/AOD/AOD_Object.cpp:216-296 | every statement of every thread, and every action of clients, keeps the whole invariant of ownership, counts, flags, tasks, queues and references |
| AodSteps.ResetKeepsInv | SkylakeLib/AOD/AOD_Object.cpp:249 | clearing `Next` of a new task keeps the invariant |
| AodSteps.IncrementKeepsInv | SkylakeLib/AOD/AOD_Object.cpp:251 | the increment keeps the invariant; the thread that finds zero becomes the owner |
| AodSteps.ExchangeKeepsInv | SkylakeLib/AOD/AOD_Object.cpp:254-261 | the first half of the push keeps the invariant |
| AodSteps.LinkKeepsInv | SkylakeLib/AOD/AOD_Object.cpp:254-261 | the second half of the push, and the return of a thread that is not the owner, keep the invariant |
| AodSteps.AcquireKeepsInv | SkylakeLib/AOD/AOD_Object.cpp:266 | the owner's own reference keeps the invariant |
| AodSteps.CheckKeepsInv | SkylakeLib/AOD/AOD_Object.cpp:271-277 | parking the object behind those that are pending, with its reference, or setting the flag, keeps the invariant and changes no other pending queue |
| AodSteps.PopKeepsInv | SkylakeLib/AOD/AOD_Object.cpp:218-221 | every step of `Pop` in a flush keeps the invariant |
| AodSteps.FreeKeepsInv | SkylakeLib/AOD/AOD_Object.cpp:227 | freeing the task, with its reference to the parent, keeps the invariant |
| AodSteps.DecrementKeepsInv | SkylakeLib/AOD/AOD_Object.cpp:229-232 | the decrement keeps the invariant; at zero the object has no owner |
| AodSteps.ReleaseDrainedKeepsInv | SkylakeLib/AOD/AOD_Object.cpp:287 | releasing a flushed pending object keeps the invariant |
| AodSteps.DrainKeepsInv | SkylakeLib/AOD/AOD_Object.cpp:281-286 | taking the next pending object keeps the invariant |
| AodSteps.ClearKeepsInv | SkylakeLib/AOD/AOD_Object.cpp:290 | clearing the flag keeps the invariant |
| AodSteps.ReleaseSelfKeepsInv | SkylakeLib/AOD/AOD_Object.cpp:292 | the last release and the return keep the invariant |
| AodClients.DoAsyncKeepsInv | SkylakeLib/AOD/AOD_Object.h:42-62 | a call of `DoAsync`, whose task takes a reference to its parent, keeps the invariant |
| AodDispatch.Thread.Dispatch | SkylakeLib/AOD/AOD_Object.cpp:129-185 | for one thread alone: `Dispatch` ends; it returns true exactly when the counter was zero; with the flag set the object goes behind those that are pending and no task runs; otherwise the object is flushed first and then those parked meanwhile, in that order, everything dispatched to objects of the kind has run, and every task that was run has dispatched its own tasks in order |
| AodDispatch.Thread.Flush | SkylakeLib/AOD/AOD_Object.cpp:102-127 | the loop ends with the counter at zero, having popped at least one task, and leaves flags, running tasks, other kinds' records and what was parked before alone |
| AodDispatch.Thread.Run | SkylakeLib/AOD/AOD_Task.h:42-46 | the functor's calls occur in the log of calls in their order, are all dispatched, and change no flag |
| AodDispatch.Thread.FlushAll | SkylakeLib/AOD/AOD_Object.cpp:277-290 | with the flag clear: the object's flush and those of the objects parked during it, in the order of parking, until nothing of the kind is left |
| AodDispatch.BegunTasksAreDone | SkylakeLib/AOD/AOD_Object.cpp:106-116 | every task that was begun and does not run still has dispatched all its tasks, in order |
| AodDispatch.PoppedIsOk | SkylakeLib/AOD/AOD_Object.cpp:106-109 | a task begins only when no task of its object runs, and it is the oldest one queued |
| AodDispatch.EndedIsOk | SkylakeLib/AOD/AOD_Object.cpp:167-178 | when the flag is cleared no object of the kind has a task left and all that was dispatched to them was run |
| TlsSyncTheorems.AgreementIffWithinCapacity | SkylakeLib/TLSSync/TLSSyncQueue.h:53-90 | all workers dispatch prefixes of the ticket order in every run if and only if fewer tickets than slots may be in flight, or there is one worker and no more tickets than slots |
| TlsSyncTheorems.WorkersAgree | SkylakeLib/SkylakeLib.cpp:203-232 | within that bound every worker has at all times dispatched a prefix of the ticket order, each task once |
| TlsSyncTheorems.RereadWhenFull | SkylakeLib/TLSSync/TLSSyncQueue.h:53-62 | with as many tickets in flight as slots, which the assertion in `Push` allows, and two workers there is a run in which one of them dispatches a task twice |
| TlsSyncTheorems.OvertakenWhenOverfull | SkylakeLib/TLSSync/TLSSyncQueue.h:53-62 | with more tickets in flight than slots there is a run in which a later ticket is dispatched in place of the first |
| TlsSyncTheorems.FinalisedOnceInOrder | SkylakeLib/SkylakeLib.cpp:207-231 | within the bound last dispatches, pops and deallocations happen in ticket order, once for each ticket, and after every worker's first dispatch |
| TlsSyncTheorems.NoUseAfterFree | SkylakeLib/SkylakeLib.cpp:207-231 | no worker touches a freed task; a slot is empty when its ticket is stored and holds it when it is popped |
| TlsSyncTheorems.NothingIsLeft | SkylakeLib/SkylakeLib.cpp:203-232 | when every worker has found an empty slot and no ticket is pending, every task was dispatched by every worker, finalised and freed |
| TlsSync.ReadsItsTicket | SkylakeLib/TLSSync/TLSSyncQueue.h:77-90 | within the bound a worker that looks for its ticket finds that ticket or nothing |
| TlsSync.ReleaseKeepsInv | SkylakeLib/Memory/MemoryPolicy.h:64-67 | a release keeps the invariant; the last one makes its worker the only finaliser |
| TlsSync.LastKeepsInv | SkylakeLib/SkylakeLib.cpp:216-226 | finalising, popping and freeing keep the invariant |
| TlsSyncSystem.TLSSyncSystem.constructor | SkylakeLib/TLSSync/TLSSyncQueue.h:21-27 | a new ring is the machine's initial state |
| TlsSyncSystem.TLSSyncSystem.TakeTicket | SkylakeLib/TLSSync/TLSSyncQueue.h:55 | the increment of `Head` is the machine's step, and a task has one reference for each worker, as `MakeTLSSyncTaskRaw` gives it (`SkylakeLib/TLSSync/TLSSyncTask.h:97-112`) |
| TlsSyncSystem.TLSSyncSystem.Store | SkylakeLib/TLSSync/TLSSyncQueue.h:57-61 | the store is the machine's step, at the position given by the mask, into an empty slot |
| TlsSyncSystem.TLSSyncSystem.Push | SkylakeLib/TLSSync/TLSSyncQueue.h:53-62 | undisturbed, a push takes the next ticket and fills its slot |
| TlsSyncSystem.TLSSyncSystem.TLSFront | SkylakeLib/TLSSync/TLSSyncQueue.h:77-81 | the result is what the worker's slot holds |
| TlsSyncSystem.TLSSyncSystem.TLSNext | SkylakeLib/TLSSync/TLSSyncQueue.h:84-90 | the worker's index goes up even when the next slot is empty |
| TlsSyncSystem.TLSSyncSystem.TLSPop | SkylakeLib/TLSSync/TLSSyncQueue.h:65-74 | the worker's slot is emptied |
| TlsSyncSystem.TLSSyncSystem.TLSTick | SkylakeLib/SkylakeLib.cpp:203-232 | a tick takes the machine's steps, ends, and leaves the worker at a slot that is empty because its ticket is not taken or not stored |
| TlsSyncSystem.TLSSyncSystem.Clear | SkylakeLib/TLSSync/TLSSyncQueue.h:40-50 | every task in the ring is released once, slot by slot, and the ring is empty |
| Masks.PowerOfTwoTest | SkylakeLib/TLSSync/TLSSyncQueue.h:19 | the static assertion accepts exactly the powers of two |
| Masks.MaskIsModulo | SkylakeLib/TLSSync/TLSSyncQueue.h:57-61 | for a power of two the mask gives the remainder |
| Masks.WrapKeepsPosition | SkylakeLib/Memory/LocalObjectPool.h:191-194 | a 64-bit counter that wraps still points at the same position of a ring of a power of two |
| ByteStreams.ReadsBack | SkylakeLibHeaderOnly/Static_Dev/Stream.h:286-291 | a value that was written with `WriteT` is read back with `ReadT` |
| ByteStreams.ByteAt | SkylakeLibHeaderOnly/Static_Dev/Stream.h:455-459 | byte `i` of a written number is its digit of weight 256 to the power of `i`: low byte first |
| ByteStreams.BytesOfNumber | SkylakeLibHeaderOnly/Static_Dev/Stream.h:286-291 | a number that is read has the bytes as its digits |
| ByteStreams.Stream.WriteT | SkylakeLibHeaderOnly/Static_Dev/Stream.h:455-459 | byte `i` behind the position becomes the digit of weight 256^i, every other byte stays, and the position moves behind them |
| ByteStreams.Stream.Write | SkylakeLibHeaderOnly/Static_Dev/Stream.h:424-451 | all bytes are written or none; at the end of the buffer nothing is written and success is reported |
| ByteStreams.Stream.ReadT | SkylakeLibHeaderOnly/Static_Dev/Stream.h:286-291 | the number whose digits are the bytes at the position is read, unless it goes beyond the end |
| ByteStreams.Stream.Read | SkylakeLibHeaderOnly/Static_Dev/Stream.h:306-330 | the bytes at the position are read, unless they go beyond the end |
| ByteStreams.Stream.TryForward | SkylakeLibHeaderOnly/Static_Dev/Stream.h:199-207 | without a wrap of the 32-bit sum the position moves by the amount if more than the amount remains; with a wrap it moves back, if the cut sum is below the size |
| ByteStreams.TryForwardWithinTheBuffer | SkylakeLibHeaderOnly/Static_Dev/Stream.h:198-207 | without a wrap the skip succeeds exactly when more than the amount remains, unlike its comment says |
| Serialization.BlockArrayReadsBackIff | SkylakeDatacenterLib/Internal/Structure.h:471-538 | a saved block array is loaded again, consuming exactly its bytes, if and only if something follows it in the buffer; at the very end the load fails |
| Serialization.ArrayReadsBack | SkylakeDatacenterLib/Internal/Structure.h:378-418 | a saved array of invertible items is loaded again, consuming exactly its bytes |
| Serialization.SkipOfPadding | SkylakeDatacenterLib/Internal/Structure.h:512-522 | the skip over the padding leads, in 32 bits, to where the capacity ends, also when more items are declared in use than the capacity allows: then it leads back |
| SerializedArrays.SerializedArray.Save | SkylakeDatacenterLib/Internal/Structure.h:401-414 | the count and the items are put at the position |
| SerializedArrays.SerializedArray.Load | SkylakeDatacenterLib/Internal/Structure.h:382-397 | what the bytes say is appended to the items that are there, and the count is the loaded one |
| SerializedArrays.SerializedArray.AddItem | SkylakeDatacenterLib/Internal/Structure.h:454-459 | the item is appended and the 32-bit count goes up |
| SerializedArrays.SerializedBlockArray.Save | SkylakeDatacenterLib/Internal/Structure.h:495-535 | the header, the items and the padding up to the capacity are put at the position |
| SerializedArrays.SerializedBlockArray.Load | SkylakeDatacenterLib/Internal/Structure.h:475-522 | header and items are loaded and the padding is skipped by the declared size |
| SerializedArrays.SerializedBlockArray.AddItem | SkylakeDatacenterLib/Internal/Structure.h:576-588 | an item is refused exactly when the capacity is used up, except where the 32-bit sum wraps |
| SerializedArrays.SerializedBlockArray.CanFit | SkylakeDatacenterLib/Internal/Structure.h:589 | there is room exactly if used and wanted together do not exceed the capacity |
| SerializedArrays.SerializedBlockArray.SetMaxSize | SkylakeDatacenterLib/Internal/Structure.h:590-595 | the capacity of an empty block array is set |
| DatacenterFormat.DeclaredSizesAreTrue | SkylakeDatacenterLib/Internal/Structure.h:57-72 | the declared serial sizes are the sizes that attributes and elements, and the items that pad, are written with |
| DatacenterFormat.AttributeInverts | SkylakeDatacenterLib/Internal/Structure.h:83-101 | a saved attribute is loaded again |
| DatacenterLoads.ElementExact | SkylakeDatacenterLib/Internal/Structure.h:268-294 | an element is read from 20 bytes exactly if name, value location, number of attributes, their location, number of children and their location are at offsets 0, 4, 8, 10, 14 and 16 |
| DatacenterFormat.StringBlockReadsBack | SkylakeDatacenterLib/Internal/Structure.h:618-667 | a saved string block is loaded again, with both sizes and all characters |
| DatacenterFormat.StringMapReadsBack | SkylakeDatacenterLib/Internal/Structure.h:786-801 | a saved string map is loaded again: blocks and entries |
| DatacenterFormat.HeaderReadsBack | SkylakeDatacenterLib/Internal/Structure.h:1045-1060 | versions and the signed language are loaded again |
| DatacenterFormat.LoadsWhatWasSaved | SkylakeDatacenterLib/Internal/Structure.h:1026-1098 | every well-formed datacenter that was saved, even up to the end of the buffer, is loaded unchanged, consuming exactly the bytes written |
| DatacenterFormat.EncodingsDiffer | SkylakeDatacenterLib/Internal/Structure.h:1026-1098 | two well-formed datacenters with the same bytes are equal |
| DatacenterLayout.AttributeIff | SkylakeDatacenterLib/Internal/Structure.h:83-101 | the name of a saved attribute is the number of the 4 bytes at its offset 0, the value's block and position those of the 2 bytes at 4 and 6 |
| DatacenterLayout.ElementIff | SkylakeDatacenterLib/Internal/Structure.h:268-294 | of a saved element: name at 0, value location at 4 and 6, number of attributes at 8, their location at 10 and 12, number of children at 14, their location at 16 and 18 |
| DatacenterLayout.AttributeBlockIff | SkylakeDatacenterLib/Internal/Structure.h:471-538 | capacity at 0, used count at 4, attribute `i` at 8 + 8 i, and from the used count to the capacity attributes with the invalid name and location (`SkylakeDatacenterLib/Internal/Structure.h:243-244`) |
| DatacenterLayout.ElementBlockIff | SkylakeDatacenterLib/Internal/Structure.h:471-538 | the same with 20 bytes for an element; one that pads has the invalid name, no attributes and children and invalid locations (`SkylakeDatacenterLib/Internal/Structure.h:358-363`) |
| DatacenterLayout.StringBlockIff | SkylakeDatacenterLib/Internal/Structure.h:618-667 | total size at 0, used size at 2, character `i` at 4 + 2 i |
| DatacenterLayout.StringMapIff | SkylakeDatacenterLib/Internal/Structure.h:786-801 | the number of blocks and the blocks one after the other, then the number of entries and entry `i` at 4 + 4 i behind them |
| DatacenterLayout.HeaderIff | SkylakeDatacenterLib/Internal/Structure.h:1045-1060 | version at 0, format version at 4, language at 8 in two's complement |
| DatacenterLayout.DatacenterIff | SkylakeDatacenterLib/Internal/Structure.h:1053-1084 | the encoding of a datacenter is at a position exactly if every field is at its offset: header, attribute blocks, element blocks, value strings, name strings, each array behind its count; its size is the sum |
| DatacenterLoads.BlockExact | SkylakeDatacenterLib/Internal/Structure.h:475-522 | from any bytes a block array is loaded, and ends at `end`, exactly if its counts and items are at their offsets and `end`, where its capacity ends in 32 bits, is inside the buffer |
| DatacenterLoads.LoadsIff | SkylakeDatacenterLib/Internal/Structure.h:1045-1084 | from any bytes loading gives a datacenter exactly if its fields are at the offsets at which the loader looks; nothing else is ever loaded, and nothing is loaded from bytes that end too early |
| DatacenterFile.DatacenterObject.Save | SkylakeDatacenterLib/Internal/Structure.h:1053-1084 | saving puts every field of the object at its offset from the position, leaves all other bytes alone, and moves the position by the size |
| DatacenterFile.DatacenterObject.Load | SkylakeDatacenterLib/Internal/Structure.h:1045-1084 | loading into a cleared object succeeds exactly if there is a datacenter whose fields are at the offsets from the position, makes the object that datacenter and moves the position behind it; bytes that have a well-formed datacenter's fields at their offsets give it, wherever they come from |
| DatacenterFile.DatacenterObject.Clear | SkylakeDatacenterLib/Internal/Structure.h:1129-1141 | everything is cleared but the language |
| DatacenterFile.SaveThenLoad | SkylakeDatacenterLib/Internal/Structure.h:1026-1098 | saving one object and loading a cleared one from there gives an equal object |
| StringPool.WellFormedIff | SkylakeDatacenterLib/Internal/Structure.h:860-1003 | over any sequence of the two overloads from `Clear` the locations, strings and maps stay consistent if and only if the distinct strings, packed first fit, need at most 65536 blocks |
| StringPool.EveryStringOnce | SkylakeDatacenterLib/Internal/Structure.h:860-932 | and then the entries are exactly the inserted strings that fit a block, each once, in the order of their first insertions, and the blocks are these strings packed first fit |
| StringPool.LocationsKeepDecoding | SkylakeDatacenterLib/Internal/Structure.h:861-932 | every entry keeps its location, and the location its string, through all later insertions |
| StringPool.InsertKeepsIff | SkylakeDatacenterLib/Internal/Structure.h:973-1003 | an insertion keeps the pool well-formed if and only if the string is known or too long, or a block with an index below 65536 has room for it or can be opened, since the index of a block is cut to 16 bits |
| StringPool.CutIndexCollides | SkylakeDatacenterLib/Internal/Structure.h:999-1000 | a string that opens the block with index 65536 gets the location of the first string |
| StringPool.TooManyBlocks | SkylakeDatacenterLib/Internal/Structure.h:999-1000 | 65537 distinct strings that fill a block each are all accepted, and two entries get the same location |
| StringPool.QueryIsSearch | SkylakeDatacenterLib/Internal/Structure.h:817-844 | the hash lookup and the linear search give the same answer for every string |
| StringPool.OverloadsAgree | SkylakeDatacenterLib/Internal/Structure.h:861-932 | for known and new strings both overloads do the same to the pool, and the location that the one hands out is that of the entry whose index the other does, and decodes to the string |
| StringPool.IndexNamesTheString | SkylakeDatacenterLib/Internal/Structure.h:861-897 | the index that is handed out, for a known or a new string, is below the number of entries, and the string of that entry is the inserted one; nothing is handed out exactly if the string is unknown and has 65535 characters or more; earlier entries stay |
| StringPool.QueryIff | SkylakeDatacenterLib/Internal/Structure.h:832-857 | the queries answer with index and location of the one entry that has the string, and with the invalid ones exactly if none has it |
| StringPool.LocationStays | SkylakeDatacenterLib/Internal/Structure.h:692-720 | adding a string to a block changes no string that is in it |
| StringPool.NewStringIsThere | SkylakeDatacenterLib/Internal/Structure.h:692-720 | a new string is found at its location when its block's index was not cut |
| StringPool.RefreshFindsAllIff | SkylakeDatacenterLib/Internal/Structure.h:945-962 | refreshing gives every entry its string if and only if there are fewer than 65536 blocks |
| StringPool.RefreshLosesAString | SkylakeDatacenterLib/Internal/Structure.h:945-962 | after 65536 distinct strings that fill a block each the pool is consistent, and refreshing leaves an entry without its string |
| StringPool.IndicesAreValid | SkylakeDatacenterLib/Internal/Structure.h:888-891 | no entry ever gets the invalid string index |
| InternedStrings.Block.constructor | SkylakeDatacenterLib/Internal/Structure.h:669-690 | a new block is zeroed and unused |
| InternedStrings.Block.TryAddString | SkylakeDatacenterLib/Internal/Structure.h:692-720 | string and NUL are copied behind the used part if there is room for both, and nothing changes otherwise |
| InternedStrings.Block.GetString | SkylakeDatacenterLib/Internal/Structure.h:724-728 | the characters from the position up to the first NUL or the end of the block |
| InternedStrings.StringMapObject.InsertStringInBlock | SkylakeDatacenterLib/Internal/Structure.h:973-1003 | the first block with room takes the string, or else a new one; a string that fits no block changes nothing |
| InternedStrings.StringMapObject.InsertStringForIndex | SkylakeDatacenterLib/Internal/Structure.h:861-897 | the in-place insertion keeps the map consistent and hands out the index of the entry whose string is the inserted one, or nothing for an unknown string that fits no block |
| InternedStrings.StringMapObject.InsertStringForIndices | SkylakeDatacenterLib/Internal/Structure.h:900-932 | the in-place insertion keeps the map consistent and hands out the location of the entry whose string is the inserted one, from which the string is read |
| InternedStrings.StringMapObject.SearchIndex | SkylakeDatacenterLib/Internal/Structure.h:817-830 | the loop finds the entry that has the string, as the hash map does, and nothing exactly if no entry has it |
| InternedStrings.StringMapObject.Clear | SkylakeDatacenterLib/Internal/Structure.h:934-943 | the cleared map is the empty pool |
| ElementTree.Loader.Rebuild | SkylakeDatacenterLib/Internal/Structure.h:1343-1404 | whenever the recursion is finite, also if elements share children, it ends, visits the elements in preorder, and every element has afterwards the parent of its last visit and, for each visit, once more its declared children in index order and its declared attributes |
| ElementTree.Loader.EncodesTreeIff | SkylakeDatacenterLib/Internal/Structure.h:1343-1404 | the recursion is finite and finds all attributes and children if and only if every element that can be reached has its indices in range and none reaches itself |
| ElementTree.Loader.KidsInRangeIff | SkylakeDatacenterLib/Internal/Structure.h:1373-1389 | the children of an element are found exactly if they are consecutive elements of one existing block that end before position 65535: the cut of a position to 16 bits never matters |
| ElementTree.Loader.AttributesInRangeIff | SkylakeDatacenterLib/Internal/Structure.h:1358-1371 | and so are its attributes |
| ElementTree.Loader.ChildrenAreASlice | SkylakeDatacenterLib/Internal/Structure.h:1373-1378 | the declared children are the slice of the block `ChildrenIndices.first` from `ChildrenIndices.second` on, as long as `ChildrenCount` |
| ElementTree.Loader.AttributesAreASlice | SkylakeDatacenterLib/Internal/Structure.h:1358-1360 | attribute `i` is at the position `AttributeIndices.second` + `i` of the block `AttributeIndices.first` |
| ElementTree.RepeatAt | SkylakeDatacenterLib/Internal/Structure.h:1345-1349 | what is repeated occurs again after each length |
| ElementTree.Loader.RebuildChildren | SkylakeDatacenterLib/Internal/Structure.h:1373-1401 | the loop over the children visits their subtrees one after the other and appends to the parent the slice of the block that the element declares, read from its indices |
| ElementTree.Loader.CacheAttributes | SkylakeDatacenterLib/Internal/Structure.h:1358-1371 | exactly the declared attributes are appended, with consecutive positions in the declared block |
| ElementTree.Loader.PostLoadElements | SkylakeDatacenterLib/Internal/Structure.h:1336-1341 | from the root on: every element has the declared slices of children and attributes once for each visit, so exactly the slices if no element is visited twice; parents and children are inverse if and only if no element is visited twice |
| ElementTree.Loader.InverseIffUnshared | SkylakeDatacenterLib/Internal/Structure.h:1345-1349 | an element is another's parent exactly if that other has it among its children, for all elements, if and only if no element is reached from two places |
| ElementTree.Loader.CachesGrowWithVisits | SkylakeDatacenterLib/Internal/Structure.h:1345-1371 | an element that is visited several times has its children and attributes as many times |
| ElementTree.Loader.ChildrenAreVisited | SkylakeDatacenterLib/Internal/Structure.h:1373-1401 | every child that an element of the tree declares is visited from that element |
| ObjectPool.Pool.Preallocate | SkylakeLib/Memory/LocalObjectPool.h:46-62 | the pool is filled with the blocks obtained; it fails at the first that could not be, having put in those before it |
| ObjectPool.Pool.Allocate | SkylakeLib/Memory/LocalObjectPool.h:228-270 | the block at the head is taken, or the OS asked if there is none; while the ring is exact the OS is asked exactly when all blocks are outstanding, and otherwise a block that no caller has is handed out and the ring stays exact, also across a wrap of the counter |
| ObjectPool.Pool.Deallocate | SkylakeLib/Memory/LocalObjectPool.h:169-212 | the block goes to the tail and what was there to the OS; while the ring is exact a block of the pool finds an empty slot and the ring stays exact |
| ObjectPool.Pool.FreePool | SkylakeLib/Memory/LocalObjectPool.h:65-116 | every block in the pool is freed once and the pool is empty |
| ObjectPool.TakingKeepsExact | SkylakeLib/Memory/LocalObjectPool.h:237-240 | taking at the head keeps the empty slots exactly the positions from tail to head |
| ObjectPool.ReturningKeepsExact | SkylakeLib/Memory/LocalObjectPool.h:191-194 | returning at the tail keeps them so, and finds the slot empty |
| ObjectPool.OverflowIsNotForgotten | SkylakeLib/Memory/LocalObjectPool.h:237-259 | the bound is needed: after one allocation too many and one deallocation the OS is asked although the pool holds a block |
| ObjectPool.AskedWithABlockInThePool | SkylakeLib/Memory/LocalObjectPool.h:237-259 | a run of the pool's own operations, from its preallocation on, that ends so |
| MemoryManager.EveryBlockInOnePlace | SkylakeLib/Memory/StaticObjectPool.h:183-258 | over any interleaving of `fetch_add` and `exchange` steps a live block is in exactly one slot, with one caller or in one thread's hand; no two callers hold the same block |
| MemoryManager.BlocksKeepTheirSizes | SkylakeLib/Memory/GlobalMemoryManagement.h:280-361 | a block in a pool has the pool's size, a caller's block the size reported to it, at least what was asked for, and a block is given back to the OS with the size it was obtained with |
| MemoryManager.SameClass | SkylakeLib/Memory/GlobalMemoryManagement.h:480-529 | a block is freed to the pool that issued it, by the requested and by the reported size, whatever the block sizes are |
| MemoryManager.Branch | SkylakeLib/Memory/GlobalMemoryManagement.h:280-361 | the chain of branches chooses the first pool whose blocks are large enough, of 64, 128, 512, 1024, 524288 and 2097152 bytes, and the OS beyond |
| MemoryManager.StepKeepsInv | SkylakeLib/Memory/StaticObjectPool.h:183-258 | every step of every thread keeps all blocks where the history says they are, with their sizes, and moves the head or the tail of a pool by one exactly with the allocations or deallocations that begin there, which get its old value |
| MemoryTickets.Tickets | SkylakeLib/Memory/StaticObjectPool.h:183-258 | over any run the allocations from a pool stand at the positions 0, 1, 2 and so on, modulo 2^64, in the order of their `fetch_add`, and so do the deallocations to it |
| MemoryTickets.TakesWhatIsThere | SkylakeLib/Memory/StaticObjectPool.h:242-256 | an allocation empties the slot of its position and gives its block to the caller, or asks the OS if there is none |
| MemoryTickets.StoresTheBlock | SkylakeLib/Memory/StaticObjectPool.h:196-208 | a deallocation puts its block into the slot of its position and gives one that was there to the OS |
| MemoryTickets.FreesAndFills | SkylakeLib/Memory/StaticObjectPool.h:44-85 | a turn of `FreePool` empties its slot and frees the block; a turn of `Preallocate` puts a block of the pool's size into its slot |
| MemoryTickets.GetsAndDrops | SkylakeLib/Memory/StaticObjectPool.h:248-258 | a block that the OS gives goes to the caller with the size that is reported to it; a dropped block is the OS's again |
| MemoryTickets.FullPoolServes | SkylakeLib/Memory/StaticObjectPool.h:225-274 | from a full pool as many allocations as it has slots get a block of it each, without asking the OS, however they interleave with one another, with deallocations and with other pools, across wraps as well |
| MemoryTickets.EmptyPoolKeeps | SkylakeLib/Memory/StaticObjectPool.h:183-220 | into an empty pool as many deallocations as it has slots put their blocks, without giving one to the OS, however they interleave |
| SharedPointers.CountIsConserved | SkylakeLib/Memory/SharedPointer.h:317-333 | over any interleaving of the guarded operations, and of unguarded calls whose reads agree, the count is the number of shared pointers, raw references, locked shared pointers and unguarded calls that refer to the object |
| SharedPointers.DestroyedExactlyOnce | SkylakeLib/Memory/MemoryPolicy.h:657-691 | in such a run an object is destroyed at most once, only when nothing refers to it; when nothing refers to it it was destroyed or one thread is about to |
| SharedPointers.NeverRevives | SkylakeLib/Memory/SharedPointer.h:397-475 | no operation of such a run adds a reference to an object whose count has reached zero |
| SharedResults.PointersAfter | SkylakeLib/Memory/SharedPointer.h:27-90 | what each operation on shared pointers and raw references leaves: a copy refers to what its original does, a move leaves null, a reset null, a raw reference is to what the shared pointer referred to |
| SharedResults.NewRefReturnsThePointer | SkylakeLib/Memory/SharedPointer.h:427-431 | over any safe run the result of `new_ref` is what the cell's pointer was at every moment at which the call had the shared lock |
| SharedResults.ReadersKeepThePointer | SkylakeLib/Memory/SharedPointer.h:427-438 | no operation of any thread changes the pointer while a thread has the lock shared |
| SharedResults.WriterKeepsThePointer | SkylakeLib/Memory/SharedPointer.h:397-475 | nor, while a thread has it alone, of any other thread |
| SharedResults.SwapReturnsTheOld | SkylakeLib/Memory/SharedPointer.h:397-468 | `swap_ref` and `release` return what the cell referred to, put the given reference or null in its place and free the lock |
| SharedResults.ResetLeavesNull | SkylakeLib/Memory/SharedPointer.h:471-475 | `reset` releases the reference, destroys the object if it was the last one and leaves null and a free lock |
| SharedResults.CellsBeginAndEnd | SkylakeLib/Memory/SharedPointer.h:370-376 | a locked shared pointer takes over the reference it is made from, and its destructor releases it |
| SharedResults.NewRefAlone | SkylakeLib/Memory/SharedPointer.h:427-431 | a whole undisturbed call of `new_ref` leaves the cell and its lock as they were, returns its pointer and counts the object once more |
| SharedResults.SwapAlone | SkylakeLib/Memory/SharedPointer.h:397-468 | a whole undisturbed call of `swap_ref` or `release` returns the old pointer and leaves the new one and a free lock |
| SharedResults.ResetAlone | SkylakeLib/Memory/SharedPointer.h:471-475 | a whole undisturbed call of `reset` leaves null and a free lock, and destroys the object exactly if this was the last reference |
| UnguardedPointers.StepSoundIff | SkylakeLib/Memory/SharedPointer.h:317-325 | from a sound state any operation leads to a sound one, unless it is an unguarded increment that reads null or an object to which nothing refers, or an unguarded return that reads something else than was incremented |
| UnguardedPointers.UnguardedSoundIff | SkylakeLib/Memory/SharedPointer.h:317-325 | while all other operations are safe, the state stays sound throughout a call of `new_ref_unguarded` if and only if its test and its return read null, or its test does not, and its increment and its return read the same object, to which something refers at the increment |
| UnguardedPointers.SameReadsAgree | SkylakeLib/Memory/SharedPointer.h:317-325 | in particular if all three reads find the same object, to which something refers at the increment, or all find null |
| UnguardedPointers.HeldHandleProtects | SkylakeLib/Memory/SharedPointer.h:385-388 | a call is safe, and returns the cell's object, for a caller that has a shared pointer to it from the test to the increment, if no `swap_ref`, `release` or `reset` changes the pointer between the test and the return |
| UnguardedRuns.UnguardedRevives | SkylakeLib/Memory/SharedPointer.h:385-394 | there is a run in which `new_ref_unguarded` adds a reference to a destroyed object |
| UnguardedRuns.HeldHandleIsNotEnough | SkylakeLib/Memory/SharedPointer.h:317-325 | there is a run in which the caller has a shared pointer to the object throughout, a `swap_ref` comes between increment and return, and an object is destroyed in the end to which the cell refers |
| UnguardedRuns.ReleaseFaults | SkylakeLib/Memory/SharedPointer.h:317-325 | there is a run in which a `release` between test and increment makes the call increment through a null pointer |
| UnguardedRuns.FirstReadMayDiffer | SkylakeLib/Memory/SharedPointer.h:317-325 | there is a run that stays sound although the test finds another object than the increment and the return |
| SharedPointers.DropCellKeepsInv | SkylakeLib/Memory/SharedPointer.h:376 | the destructor of a locked shared pointer releases its reference once |
| SharedPointers.AcquireKeepsInv | SkylakeLib/Memory/SharedPointer.h:427-438 | the increment under the shared lock keeps counts, locks and deaths consistent |
| SharedPointers.SwapKeepsInv | SkylakeLib/Memory/SharedPointer.h:397-468 | swapping and releasing under the lock move references without losing one |
| SharedPointers.ReleaseInResetKeepsInv | SkylakeLib/Memory/SharedPointer.h:471-475 | the release inside `reset` keeps them consistent, with the pointer not yet null |
| SharedPtr.SharedObject.Deallocate | SkylakeLib/Memory/MemoryPolicy.h:738-767 | the count goes down by one and the destructor runs exactly when it reaches zero |
| SharedPtr.TSharedPtr.Copy | SkylakeLib/Memory/SharedPointer.h:32 | a copy refers to the same object and is counted: the references that others answer for are as many as before |
| SharedPtr.TSharedPtr.Move | SkylakeLib/Memory/SharedPointer.h:33 | a move takes the pointer and leaves null; of every object others answer for as many references as before |
| SharedPtr.TSharedPtr.Assign | SkylakeLib/Memory/SharedPointer.h:34-51 | after a copy assignment both pointers are counted, others answer for as many references as before, and exactly what nobody refers to any more is destroyed, also when both refer to one object |
| SharedPtr.TSharedPtr.AssignMove | SkylakeLib/Memory/SharedPointer.h:52-66 | a move assignment does the same and leaves null |
| SharedPtr.TSharedPtr.Reset | SkylakeLib/Memory/SharedPointer.h:79 | exactly the pointer's own reference is released, and the object destroyed exactly if it was the last; the pointer is null |
| SharedPtr.TSharedPtr.NewRefRaw | SkylakeLib/Memory/SharedPointer.h:317-325 | the raw pointer is counted beside the shared one; others answer for as many references as before |
| SharedPtr.TSharedPtr.ReleaseRawRef | SkylakeLib/Memory/SharedPointer.h:328-333 | the raw pointer answers for the reference in place of the shared one; others for as many as before |
| RoundRobin.EveryPairOnceIffCoprime | SkylakeLib/Task/Task.cpp:17-84 | of as many consecutive calls as there are pairs of a group and a worker, without a wrap of a counter, exactly one goes to each pair, from any counters, if and only if the two numbers have no common divisor but one |
| RoundRobin.Scheduler.ScheduleTasks | SkylakeLib/Task/Task.cpp:12-90 | consecutive calls choose the targets that the counters give, every worker is deferred exactly the tasks whose target it is, in order, and over a full round every pair is chosen once if and only if the numbers are coprime |
| RoundRobin.OncePerPeriod | SkylakeLib/Task/Task.cpp:17-84 | in any window of one period, the least common multiple, a pair is hit at most once, and it is hit exactly if the distances of group and worker from the counters are congruent by the greatest common divisor |
| RoundRobin.ReachedFromEqualCounters | SkylakeLib/Task/Task.cpp:17-84 | from equal counters exactly the pairs are reached whose group and worker are congruent by the greatest common divisor |
| RoundRobin.PowersOfTwoMissPairs | SkylakeLib/Task/Task.cpp:19-25 | when both numbers are powers of two from 2 on, half of the pairs are never chosen, however often the counters wrap |
| RoundRobin.Scheduler.ScheduleTask | SkylakeLib/Task/Task.cpp:12-90 | in the mask branch and in the modulo branch the first counter modulo the number of groups is the group, the second modulo the number of its workers, plus one, the slot, never the reserved one; both 16-bit counters go up by one, and the task is deferred there |
| RoundRobin.TargetWithoutWrap | SkylakeLib/Task/Task.cpp:42-82 | as long as no counter wraps, the target of a call is the hit pair |
| Congruence.GcdIsGreatest | SkylakeLib/Task/Task.cpp:17-84 | the number by which reached pairs are congruent is the greatest common divisor: every common divisor of the numbers of groups and workers divides it |

## Left out

- AodDispatch.Thread.Dispatch: one undisturbed thread only; interleavings of threads, and reference counts, are in the machine.
- AodDispatch.Thread.Flush: one undisturbed thread only, so it never waits for a producer; `AodProgress.FlushSpinsOnlyOnProducers` is about that.
- AodDispatch.Thread.Run: a functor is the finite list of the tasks it dispatches; what else it does is not modelled.
- SharedPointers.CountIsConserved: does not model 32-bit wrap of the reference count, which needs 2^32 live references.
- AodTheorems.CountEquation: does not model 64-bit wrap of `RemainingTasksCount`, which needs 2^64 tasks in flight.
- TlsSyncSystem.TLSSyncSystem.Push: nothing happens between the ticket and the store; they are separate in `TakeTicket`, `Store` and the machine.
- TlsSyncSystem.TLSSyncSystem.TLSTick: no other thread runs during the tick; all interleavings are in the machine.
- WorkerClear.Worker.Clear: nobody pushes any more, as after a worker has stopped.
- ElementTree.Loader.Rebuild: build capabilities off; indices on which the recursion does not end, and a datacenter without a root, are excluded by its precondition, since the original then recurses without end or dereferences null.
- DatacenterFile.DatacenterObject.Save: the stream has room for all bytes; without room the original stops at assertions.
- StringPool.EveryStringOnce: strings are NUL-free and of the stated length, as a C string with its `wcslen` is.
- MemoryManager.BlocksKeepTheirSizes: the guard that refuses sizes above 1 GiB, statistics and profiling are not modelled.
- TaskQueues.MpscTaskQueue.Push: only other producers run in between; pushes interleaved with the consumer are in `QueueRuns`.
- In the dispatcher machine task ids are not reused; reuse of node addresses is in `QueueRuns`.
- The failure of a task allocation in `DoAsync`: it returns before anything is touched.
- Delayed tasks, timers and due times of the dispatcher and of `TaskQueue` users.
- Post-load caching of names and values of attributes and elements (two plain loops), and the text accessors.
- Rebuilding the string hash maps on load: the original does not do it, so agreement is about maps grown by insertion.
- The `CTaskScheduling_UseIfInsteadOfModulo` branches, which are off.
- Thread-local memory managers (`SkylakeLib/Memory/LocalMemoryManager.h`), which have the same branch chains, and the thread-local deallocation of shared objects.
- Arrays under shared pointers, virtual deleters and casts: the same counting with other layouts.
- Several TLSSync queues on one thread, which share one thread index: one queue is modelled.
- A locked shared pointer is destroyed only when no thread is in one of its methods, as every C++ object must be.
- Destructors that let go of other shared pointers: in the machine a thread that is destroying an object does nothing else meanwhile.
- Weak memory orderings, alignment, padding and cache lines.
