# Multilevel round-robin scheduler with aging and I/O — a Dafny model

This project models the scheduling engine of a small C++ process-scheduler
simulator. A fixed pool of process control blocks (PCBs) is filed into
priority levels 1..maxPriority. Each level is a circular ready queue with a
fixed capacity. One loop iteration works as follows:

- If every block is finished and no I/O is pending, the loop stops.
- If no level holds a block but some blocks are waiting on I/O, the clock is
  fast-forwarded to the earliest I/O completion. The blocks whose I/O has
  completed are requeued.
- Otherwise the head of the lowest non-empty level runs. Running it has
  these steps:
  - A context-switch cost is charged when a different pid ran last.
  - The I/O queue is advanced by the time elapsed since the last loop head.
  - The block's first response is recorded.
  - The block runs for one slice: at most the time quantum, its remaining
    work and, when it is I/O-bound, what is left of its I/O interval.
  - Afterwards the block goes to the I/O manager, back to its level, or is
    stamped complete.
- Blocks that have waited long enough are aged: each moves up one level.

Around the engine sit two more parts:

- the configuration validation that produces the settings and the process
  list;
- the per-process and system metrics computed after a run.

## How the model is organized

- **Classes for the objects that change in place.** `Pcb.Pcb`,
  `ReadyQueues.ReadyQueue` (a class over an `array`), `IO.IOManager`,
  `RoundRobin.Scheduler`, `Config.ConfigLoader` and `Metrics.Metrics` are
  classes. Each method is proved against a pure function of the old state;
  for example, `ensures View() == CleanUp(old(View()), P)...`.
- **Pure functions and lemmas for the properties.** The scheduler's state as
  a value is a `World`:
  - the records of the pool;
  - the I/O manager's queue and finished list;
  - the level contents;
  - the clock and the time of the last loop head;
  - the pid that ran last;
  - the event log.

  Each stage of the loop body is a function on `World` (module
  `Scheduling`). The loop-head invariant `Inv` is proved to be established by
  the seeding and preserved by every iteration
  (`SchedulingInvariant`, `SchedulingPreservation`, `SchedulingDispatch`,
  `SchedulingProgress`, `SchedulingSeed`).
- **Termination of the run.**
  - Every dispatch strictly decreases the total remaining work.
  - A run given more iterations than that total ends with every block
    finished.
  - `RunFor` bounds the C++ `while (true)` by a fuel count. `RunDrains` shows
    that fuel above the total work is always enough.
- **From configuration to finished run.** `ConfiguredRun` joins the
  configuration validation, the pool construction and the drain theorem: a
  validated list of runnable processes always runs to completion. It also
  shows what validation lets through that cannot run (see Findings).
- **Errors.** The C++ code throws for a push onto a full queue, a pop from an
  empty queue, an invalid configuration and too many processes. The model
  returns `Result`/`Outcome` values carrying the same messages instead.

The loop-head invariant `Inv` says:

- Every block's priority is in 1..maxPriority.
- CPU time is conserved: remaining work plus CPU time used equals the burst.
- pids are distinct.
- Each block with remaining work is in exactly one place:
  - a ready block is queued, once, on the level of its priority;
  - a block waiting for I/O is in the I/O queue, once, with a positive
    countdown;
  - a block with no remaining work is FINISHED.
- The manager's finished list is empty, and the last-time stamp equals the
  clock.

## Model

| member | source | states |
|---|---|---|
| Pcb.InitialRecord | src/PCB.cpp:5-21 | A new block is READY with its whole burst remaining, its original priority equal to its priority, every counter at 0, no first response, and first-response and completion times of -1; its CPU time is conserved |
| Pcb.Pcb.constructor | src/PCB.cpp:5-21 | The new block's record is exactly the initial record of its arguments |
| Pcb.ComputeExecuteTime | src/PCB.cpp:41-51 | The slice is at most the time slice, at most the remaining work, and, for an I/O-bound block, at most what is left of its interval; it equals one of these bounds |
| Pcb.Executed | src/PCB.cpp:23-39 | A non-positive bound changes nothing and returns 0. Otherwise exactly the bound runs: remaining work drops by it and CPU use grows by it. The block is never left RUNNING: FINISHED iff no work remains, WAITING_IO iff I/O-bound with its interval used up, READY otherwise. Only those fields change, an I/O-bound slice never passes its interval, and CPU conservation is kept |
| Pcb.Conserved | src/PCB.cpp:23-39 | Defines CPU-time conservation: until a block finishes, its CPU total, the CPU time of its current interval and its remaining work add up to its burst; once finished, the total is the burst. `InitialRecord` establishes it and `Executed`, `Aged`, `IOStarted` and `IOReset` keep it |
| Pcb.Pcb.Execute | src/PCB.cpp:23-39 | The new record and the returned time are those of `Executed` on the old record |
| Pcb.Pcb.UpdateStatesAfterExecution | src/PCB.cpp:68-86 | The new record is the state transition of the old one: FINISHED (CPU time folded into the total, remaining work 0), WAITING_IO, or READY |
| Pcb.Aged | src/PCB.cpp:53-66 | Promotion happens iff the accumulated wait reaches threshold × quantum and the priority is above 1. When promoted, the old priority is kept, the priority drops by one and the wait is reset; otherwise only the wait grows. A priority-1 block never changes priority, and conservation holds |
| Pcb.Pcb.AgeProcess | src/PCB.cpp:53-66 | The new record and the returned promotion flag are those of `Aged` |
| Pcb.IOStarted | src/PCB.cpp:228-234 | The block is WAITING_IO with a countdown equal to its interval, and its slice CPU time is folded into the total and reset. Remaining work and priority are kept; conservation holds for an unfinished block |
| Pcb.Pcb.StartIO | src/PCB.cpp:228-234 | The new record is `IOStarted` of the old |
| Pcb.IOStartedIdempotent | src/PCB.cpp:228-234 | Starting I/O twice is the same as starting it once |
| Pcb.IOReset | src/PCB.cpp:221-226 | The block is READY with countdown and wait at 0; its work, slice CPU time and priority are untouched, and conservation holds |
| Pcb.Pcb.ResetIO | src/PCB.cpp:221-226 | The new record is `IOReset` of the old |
| Pcb.StateName | src/PCB.cpp:158-178 | Each of the four states has its own name, READY, RUNNING, WAITING IO or FINISHED, and each name belongs to one state only |
| Pcb.Pcb.SetState | src/PCB.cpp:190-193 | Only the state changes |
| Pcb.Pcb.SetPriority | src/PCB.cpp:195-198 | Only the priority changes |
| Pcb.Pcb.RecordFirstResponse | src/PCB.cpp:200-204 | The first-response flag is set and its time recorded; nothing else changes |
| Pcb.Pcb.SetIOTime | src/PCB.cpp:206-209 | Only the I/O countdown changes |
| Pcb.Pcb.SetCompletionTime | src/PCB.cpp:211-214 | Only the completion time changes |
| Pcb.Pcb.IncrementTotalIO | src/PCB.cpp:216-219 | Only the total I/O time grows, by the given time |
| ReadyQueues.ReadyQueue.constructor | include/ReadyQueue.h:34-38 | An empty valid queue of the given capacity, with head and tail at slot 0 |
| ReadyQueues.ReadyQueue.Empty | include/ReadyQueue.h:41-45 | True iff the queue holds nothing |
| ReadyQueues.ReadyQueue.Full | include/ReadyQueue.h:47-51 | True iff the queue holds as many elements as its capacity |
| ReadyQueues.ReadyQueue.Pop | include/ReadyQueue.h:53-65 | An empty queue gives "Queue empty" and is left unchanged; otherwise the result is the oldest element and the contents lose their first element |
| ReadyQueues.ReadyQueue.Push | include/ReadyQueue.h:67-78 | A full queue gives "Queue is full" and its buffer is unchanged; otherwise the element is appended at the back |
| ReadyQueues.WindowAppend | include/ReadyQueue.h:67-78 | Writing at the tail slot and growing the count appends to the contents |
| ReadyQueues.WindowAdvance | include/ReadyQueue.h:53-65 | Advancing the head and shrinking the count drops the first element of the contents |
| ReadyQueues.ReadyQueue.Clear | include/ReadyQueue.h:80-84 | The queue becomes empty with head and tail at slot 0 |
| ReadyQueues.ReadyQueue.Contains | include/ReadyQueue.h:137-150 | True iff the value is among the contents |
| ReadyQueues.ReadyQueue.Front | include/ReadyQueue.h:152-161 | The slot at the head, which is the oldest element when the queue is not empty |
| ReadyQueues.FirstIndex | include/ReadyQueue.h:97-106 | The position of the first occurrence of the value |
| ReadyQueues.ReadyQueue.Scan | include/ReadyQueue.h:97-112 | If the value is absent, the found slot is the capacity; otherwise it is the slot of its first occurrence |
| ReadyQueues.RemoveFirst | include/ReadyQueue.h:86-135 | Without the value, the sequence is unchanged. With it, the sequence is one shorter: the elements before the first occurrence stay and the later ones move up by one |
| ReadyQueues.ReadyQueue.ShiftFrom | include/ReadyQueue.h:114-120 | The buffer is the old buffer with each of the given number of slots, starting at the found slot, overwritten by its successor (wrapping) |
| ReadyQueues.ShiftChainRemoves | include/ReadyQueue.h:114-120 | When the shift covers the elements after the removed one without wrapping onto live slots, the window one shorter is the old contents without that element |
| ReadyQueues.ReadyQueue.DropLast | include/ReadyQueue.h:122-132 | The count drops by one, and the head resets to slot 0 when the queue becomes empty |
| ReadyQueues.ReadyQueue.RemoveAsWritten | include/ReadyQueue.h:86-135 | The C++ `remove` as written: finds the value iff present, shifts count-1 slots from where it was found, and drops the tail. The contents are correct only when that shift does not wrap onto live slots |
| ReadyQueues.RemoveAsWrittenCorrupts | include/ReadyQueue.h:114-120 | In a full queue of capacity 3 holding [1, 2, 3], removing 3 leaves [2, 2] where [1, 2] is meant |
| ReadyQueues.ReadyQueue.Remove | include/ReadyQueue.h:86-135 | Returns true iff the value was present, and the contents become the old contents with the first occurrence removed; absent, the buffer is unchanged |
| ReadyQueues.ReadyQueue.ToVectorAsWritten | include/ReadyQueue.h:163-175 | The C++ `toVector` as written: the cursor is reset to slot 0 after every element |
| ReadyQueues.ToVectorAsWrittenDiffers | include/ReadyQueue.h:173 | For the buffer [1, 2] with head 0 and count 2, the as-written snapshot is [1, 1] while the contents are [1, 2] |
| ReadyQueues.ReadyQueue.ToVector | include/ReadyQueue.h:163-175 | The snapshot is the contents, oldest first |
| IO.IOManager.constructor | src/IOManager.cpp:7-8 | A manager over the pool with empty I/O and finished lists |
| IO.StartAll | src/IOManager.cpp:17-23 | The loop of `updateIO` keeps the pool length and every field but the I/O ones, and changes nothing over an empty queue; `IO.StartAllAt` states the effect on each block |
| IO.IOManager.Enqueue | src/IOManager.cpp:10 | The index is appended to the I/O queue |
| IO.StartAllAt | src/IOManager.cpp:17-23 | Block j has started I/O iff it is queued and is waiting, I/O-bound and unfinished; every other block is untouched |
| IO.UpdateIOEffect | src/IOManager.cpp:12-24 | `updateIO` keeps both lists and starts I/O exactly on the queued blocks that are waiting, I/O-bound and unfinished; their countdown becomes their interval |
| IO.IOUpdated | src/IOManager.cpp:12-24 | `updateIO` keeps both lists and every field but the I/O ones; `IO.UpdateIOEffect` states which blocks start I/O |
| IO.IOManager.UpdateIO | src/IOManager.cpp:12-24 | The manager's view becomes `IOUpdated` of the old view |
| IO.IOManager.StartAt | src/IOManager.cpp:18-22 | Only block idx changes, to `IOStarted` of its record |
| IO.Tick | src/IOManager.cpp:35-37 | A positive countdown drops by the time, not below 0; a non-positive one is left alone |
| IO.Expired | src/IOManager.cpp:39-41 | A block is reported finished iff it is queued and its countdown is at most 0 after the tick; a queue without repeats reports none |
| IO.TickAll | src/IOManager.cpp:33-42 | The tick loop keeps the pool length and every field but the I/O ones, reports only pool indices, and changes nothing over an empty queue; `IO.TickAllDistinct` states the effect on each block |
| IO.TickAllDistinct | src/IOManager.cpp:33-42 | Over a queue without repeats, each queued block is ticked once, the others are untouched, and the reported blocks are `Expired` |
| IO.IOManager.TickQueue | src/IOManager.cpp:33-42 | The queue is kept; the finished list grows at its end by exactly the entries the tick reports |
| IO.IOManager.TickAt | src/IOManager.cpp:34-37 | Only block idx changes, to its ticked record |
| IO.ResetAll | src/IOManager.cpp:52-55 | The reset loop keeps the pool length and every field but the I/O ones; `IO.ResetAllAt` states the effect on each block |
| IO.ResetAllAt | src/IOManager.cpp:52-55 | Block j is reset iff it is in the finished list |
| IO.IOManager.ResetFinished | src/IOManager.cpp:52-55 | The records become `ResetAll` of the finished list |
| IO.IOManager.ResetAt | src/IOManager.cpp:53-54 | Only block idx changes, to `IOReset` of its record |
| IO.KeepWaiting | src/IOManager.cpp:58-62 | Exactly the queued entries that are still WAITING_IO are kept, without repeats; the queue is unchanged when all of them wait |
| IO.IOManager.StillWaiting | src/IOManager.cpp:58-62 | The kept queue is `KeepWaiting` of the current records |
| IO.IOManager.HandleIOQueue | src/IOManager.cpp:47-63 | The manager's view becomes `IOQueueHandled` of the old view |
| IO.IOQueueHandled | src/IOManager.cpp:47-63 | The queue handling keeps the pool length, the well-formedness of the lists and every field but the I/O ones; `IO.ProcessIOEffect` states the resulting lists and records |
| IO.ProcessIOEffect | src/IOManager.cpp:26-63 | The finished list grows by exactly the expired blocks. A block in it is ticked and then reset; any other block is ticked iff queued. The new queue holds exactly the queued blocks still waiting, all with positive countdowns and no repeats |
| IO.IOProcessed | src/IOManager.cpp:26-45 | With an empty queue nothing changes; otherwise the tick then the queue handling |
| IO.IOManager.ProcessIO | src/IOManager.cpp:26-45 | The manager's view becomes `IOProcessed` of the old view with the time slice |
| IO.IOManager.FinishedProcesses | src/IOManager.cpp:65-67 | The finished list as it stands |
| IO.IOManager.Size | src/IOManager.cpp:71 | The length of the I/O queue |
| IO.IOManager.IsEmpty | src/IOManager.cpp:69 | True iff the I/O queue is empty |
| IO.IOManager.ContainsPID | src/IOManager.cpp:73-78 | True iff some queued block has the pid |
| IO.HasPid | src/IOManager.cpp:73-78 | Defines that some queued block has the pid; `IO.IOManager.ContainsPID` computes it |
| IO.IOManager.Clear | src/IOManager.cpp:80-83 | Both lists become empty |
| IO.IOManager.ClearFinished | src/SchedulerClass.cpp:224 | The finished list becomes empty and the queue is kept |
| IO.MinRemaining | src/IOManager.cpp:85-95 | The result is at most INT_MAX and at most every queued countdown, and it is either INT_MAX or one of those countdowns |
| IO.IOManager.GetMinRemainingIOTime | src/IOManager.cpp:85-95 | The result is `MinRemaining` over the queue |
| Scheduling.Classify | src/SchedulerClass.cpp:150-156 | FINISHED iff no work remains; IO_WAIT iff work remains and the block waits for I/O; RUNNING otherwise |
| Scheduling.PushLevel | src/SchedulerClass.cpp:218 | Filing a block succeeds iff its level is below the capacity, and appends the index to that level only; otherwise "Queue is full" |
| Scheduling.RequeueFinished | src/SchedulerClass.cpp:209-220 | With nothing finished, nothing changes; on success only the levels change |
| Scheduling.DrainFinished | src/SchedulerClass.cpp:207-225 | On success, only the levels change and the finished list is cleared |
| Scheduling.HasWork | src/SchedulerClass.cpp:182-183 | Defines that some block has work left; `SchedulingProgress.IterateKeeps` proves an iteration goes on iff it holds |
| Scheduling.AnyLevelHasWork | src/SchedulerClass.cpp:193-194 | Defines that some level from 1 up is non-empty; `SchedulingPreservation.WorkIsQueued` relates it to the remaining work |
| Scheduling.CleanUp | src/SchedulerClass.cpp:179-232 | With no work and no I/O, the loop stops with the clock stamped. When work exists and either a level is non-empty or no I/O is pending, the state is left as it is and the loop goes on. A stop is only reported when all work and I/O are done |
| Scheduling.FirstNonEmpty | src/SchedulerClass.cpp:258-260 | The lowest non-empty level from level 1 up, or none when all are empty |
| Scheduling.DispatchTick | src/SchedulerClass.cpp:307-325 | With a non-positive delta nothing happens; otherwise the I/O tick and the requeue of ready blocks keep the state's shape |
| Scheduling.Responded | src/SchedulerClass.cpp:328-332 | The first response is recorded once: afterwards it is set, timed at the current clock if it was not set before and unchanged if it was; no other field and no other block changes |
| Scheduling.Ran | src/SchedulerClass.cpp:335-336 | The slice runs for 0 or for between 1 and one quantum; the clock moves by exactly that time and block i's remaining work drops by it; CPU conservation is kept; no other block, no level and no I/O queue changes |
| Scheduling.Routed | src/SchedulerClass.cpp:346-353 | A READY block that ran goes to the tail of its level, which fails iff that level is full; a WAITING_IO block the manager does not yet track joins the I/O queue; the clock and the pool length are kept |
| Scheduling.Completed | src/SchedulerClass.cpp:355-359 | The completion time becomes the current clock iff the block's work has run out; no other field and no other block changes |
| Scheduling.AgingCandidate | src/SchedulerClass.cpp:121-125 | Defines the filter of the aging pass: work left, not the block that ran, not waiting for I/O, filed on the level of its priority |
| Scheduling.AgePass | src/SchedulerClass.cpp:117-130 | The pass keeps the pool length and collects only indices it has scanned; `SchedulingDispatch.AgePassAt` and `SchedulingDispatch.AgePassAged` state which blocks are aged and which are promoted |
| Scheduling.Migrate | src/SchedulerClass.cpp:133-136 | On success, only the levels change |
| Scheduling.AgePassInRange | src/SchedulerClass.cpp:117-130 | The aging pass keeps every priority in range, and each aged block's old priority is one above its new one |
| Scheduling.QueuesAfterAging | src/SchedulerClass.cpp:81-139 | On success the shape is kept; `SchedulingDispatch.AgingKeeps` proves that from a loop head it succeeds and keeps the I/O lists, the clock, the invariant and the work |
| Scheduling.Logged | src/SchedulerClass.cpp:364-367 | The stamp becomes the clock and the last pid the pid served; the log only grows, by one event describing the block as it now stands |
| Scheduling.Entered | src/SchedulerClass.cpp:292-325 | On success the shape is kept and the index is a pool index; `SchedulingDispatch.EnteredKeeps` and `SchedulingResponse.EnteredDelta` state what is popped and the delta charged |
| Scheduling.Served | src/SchedulerClass.cpp:327-368 | On success the shape is kept; `SchedulingProgress.ServedKeeps` proves that it succeeds and spends a positive slice, and `SchedulingResponse.ServedResponse` gives the first response |
| Scheduling.Dispatch | src/SchedulerClass.cpp:258-369 | On success the shape is kept; `SchedulingProgress.DispatchKeeps` proves that from a loop head it succeeds, keeps the invariant and decreases the work |
| Scheduling.Iterate | src/SchedulerClass.cpp:251-371 | On success the shape is kept; `SchedulingProgress.IterateKeeps` proves that from a loop head it succeeds, goes on iff work remains, and keeps the invariant |
| Scheduling.RunFor | src/SchedulerClass.cpp:251-371 | On success the shape is kept; `SchedulingProgress.RunDrains` proves the loop stops with every block FINISHED, and `SchedulingSeed.StallForever` shows a state it never leaves |
| Scheduling.Clamp | src/SchedulerClass.cpp:242 | The result lies in the range, and is the value itself when the value is in range |
| Scheduling.SeedPriorityAsWritten | src/SchedulerClass.cpp:238-242 | The seeding guard as written: a priority in 0..max is kept (priority 0 included), a negative one becomes 1 and one above max becomes max |
| Scheduling.SeedPriority | src/SchedulerClass.cpp:238-242 | The evidently intended seeding: any priority outside 1..max is clamped into it, and one inside is kept |
| Scheduling.EmptyLevels | src/SchedulerClass.cpp:28-29 | maxPriority + 1 empty levels |
| Scheduling.SeedLevels | src/SchedulerClass.cpp:236-246 | On success, the records are the pool's with clamped priorities and every level holds indices of the pool; a full level gives "Queue is full" |
| Scheduling.SeedNext | src/SchedulerClass.cpp:238-245 | Filing block n fails iff its clamped level is at capacity |
| Scheduling.Initial | src/SchedulerClass.cpp:236-249 | On success, the loop starts at time 0 with an empty I/O queue |
| SchedulingInvariant.RoomFor | src/SchedulerClass.cpp:32-36 | A level without repeats that holds only pool indices, and not all of them, is shorter than the pool, so with the pool no larger than the capacity a push never fails |
| SchedulingInvariant.RemoveFirstMembers | include/ReadyQueue.h:86-135 | Removing a present element from a level without repeats leaves exactly the other elements, still without repeats |
| SchedulingInvariant.RemoveAsWrittenAgrees | include/ReadyQueue.h:114-120 | In an owned level the removed index sits early enough for the shift as written not to wrap onto live slots whenever the queue has at least 2·pool − 2 slots, as the source's N * 2 slots for N blocks do |
| SchedulingInvariant.ReadyNotQueued | src/IOManager.cpp:58-62 | Under ownership, a READY block is not in the I/O queue |
| SchedulingInvariant.PushKeeps | src/SchedulerClass.cpp:218 | Filing a ready, unfinished block on its own level succeeds and restores ownership |
| SchedulingInvariant.RequeueKeeps | src/SchedulerClass.cpp:209-220 | Requeueing finished blocks that are ready and unfinished succeeds and files each one on its level |
| SchedulingInvariant.DrainKeeps | src/SchedulerClass.cpp:207-225 | Draining the finished list succeeds, clears it, and restores ownership |
| SchedulingInvariant.TickOwned | src/IOManager.cpp:26-63 | An I/O tick keeps the block invariants and the remaining work. It reports every queued block whose countdown expires, touches no block outside the queue, and leaves the state drainable |
| SchedulingPreservation.WorkIsQueued | src/SchedulerClass.cpp:182-197 | Under the invariant, work remains iff some level is non-empty or I/O is pending |
| SchedulingPreservation.MinIsAttained | src/IOManager.cpp:85-95 | With I/O pending, the minimum countdown is positive and some queued block has it |
| SchedulingPreservation.ReadyIsFiled | src/SchedulerClass.cpp:193-194 | A ready block with work makes some level non-empty |
| SchedulingPreservation.FastForwardTick | src/SchedulerClass.cpp:200-205 | Fast-forwarding by the minimum countdown completes at least one block's I/O, keeping the invariants and the work |
| SchedulingPreservation.FastForwardKeeps | src/SchedulerClass.cpp:197-229 | After the fast-forward and the requeue, ownership holds, the work is unchanged and some level is non-empty |
| SchedulingPreservation.CleanUpFastForward | src/SchedulerClass.cpp:197-229 | When all levels are empty and I/O is pending, the cleanup is the fast-forward, the requeue and the stamp |
| SchedulingPreservation.CleanUpKeeps | src/SchedulerClass.cpp:179-232 | The cleanup never fails from a loop head. It goes on iff work remains, keeps the invariant and the work, and when it goes on some level is non-empty |
| SchedulingDispatch.PopKeeps | src/SchedulerClass.cpp:292 | The popped head is ready, unfinished, filed at its own priority, and not in the I/O queue |
| SchedulingDispatch.DispatchTickKeeps | src/SchedulerClass.cpp:307-325 | The dispatch-path I/O tick succeeds, keeps the invariants and the work, and leaves the dispatched block untouched |
| SchedulingDispatch.EnteredKeeps | src/SchedulerClass.cpp:292-325 | Entering a dispatch succeeds on the head of the level, and the block is ready, unfinished and at that priority |
| SchedulingDispatch.SliceRecord | src/SchedulerClass.cpp:335 | A slice of a ready block with work runs a positive time and keeps its record invariant and pid. The block is not left RUNNING, and it is FINISHED iff no work remains |
| SchedulingDispatch.SliceKeeps | src/SchedulerClass.cpp:328-336 | The first response and the slice spend exactly the computed slice from block i's work, and nothing else changes in the lists |
| SchedulingDispatch.EnqueueKeeps | src/SchedulerClass.cpp:346-350 | Handing a waiting block to the manager restores ownership |
| SchedulingDispatch.RouteKeeps | src/SchedulerClass.cpp:346-359 | Routing after a positive slice succeeds and restores ownership of the dispatched block |
| SchedulingDispatch.AgePassAt | src/SchedulerClass.cpp:120-130 | After the aging pass, a block is aged iff it is a candidate (work left, not the one that ran, not waiting, filed on its level) |
| SchedulingDispatch.AgePassAged | src/SchedulerClass.cpp:117-130 | The promoted list has no repeats and holds exactly the candidates that were promoted |
| SchedulingDispatch.Phase1Owned | src/SchedulerClass.cpp:117-130 | After the aging pass, each promoted block still sits on its old level and is ready with work |
| SchedulingDispatch.RemoveKeeps | src/SchedulerClass.cpp:134 | Removing a promoted block from its old level leaves the other blocks ownable |
| SchedulingDispatch.MoveKeeps | src/SchedulerClass.cpp:133-136 | Moving one promoted block from its old level to its new one succeeds |
| SchedulingDispatch.MigrateKeeps | src/SchedulerClass.cpp:133-136 | Moving all promoted blocks succeeds and keeps the I/O state; every block ends on the level of its new priority |
| SchedulingDispatch.AgingKeeps | src/SchedulerClass.cpp:117-136 | The whole aging step succeeds; it keeps the I/O lists, the clock, the invariants and the work |
| SchedulingResponse.EnteredDelta | src/SchedulerClass.cpp:297-303 | The delta of a dispatch is the context-switch time when another pid ran last and 0 otherwise, and the clock at the slice is the loop-head clock plus that delta |
| SchedulingResponse.ServedResponse | src/SchedulerClass.cpp:328-332 | The block served gets its first response, timed at the clock before its slice unless it already had one; no other block's response changes |
| SchedulingResponse.DispatchResponse | src/SchedulerClass.cpp:328-332 | From a loop head, the block dispatched has a first response, timed at the loop-head clock plus the switch charge on its first dispatch and unchanged afterwards; no other block's response changes |
| SchedulingProgress.ServedKeeps | src/SchedulerClass.cpp:327-368 | The loop body from the slice on succeeds, re-establishes the invariant, and spends a positive slice from the dispatched block only |
| SchedulingProgress.DispatchKeeps | src/SchedulerClass.cpp:258-369 | A dispatch from a loop head succeeds, keeps the invariant and strictly decreases the total remaining work |
| SchedulingProgress.IterateKeeps | src/SchedulerClass.cpp:251-371 | One iteration succeeds and keeps the invariant. It goes on iff work remains, decreasing that work when it does; when it stops, the records are unchanged and no I/O is pending |
| SchedulingProgress.AllFinished | src/SchedulerClass.cpp:182-190 | Under the invariant, no remaining work means every block is FINISHED |
| SchedulingProgress.RunDrains | src/SchedulerClass.cpp:251-371 | With more iterations than the total work, the loop stops, every block is FINISHED and no I/O is pending |
| SchedulingSeed.SeedLevelsFiles | src/SchedulerClass.cpp:236-246 | Seeding a pool no larger than the capacity succeeds and files each block exactly once, on the level of its clamped priority |
| SchedulingSeed.InitialInv | src/SchedulerClass.cpp:236-249 | Seeding a pool of fresh blocks with distinct pids establishes the loop-head invariant without changing any work |
| SchedulingSeed.SeededRunDrains | src/SchedulerClass.cpp:234-371 | The whole round-robin over such a pool, given enough iterations, finishes every block |
| SchedulingSeed.StallSpins | src/SchedulerClass.cpp:231 | With work left, no level non-empty and no I/O pending, an iteration goes on without changing anything |
| SchedulingSeed.StallForever | src/SchedulerClass.cpp:251-371 | In that state no number of iterations ever stops the loop |
| SchedulingSeed.PriorityZeroStalls | src/SchedulerClass.cpp:238-245 | A block configured with priority 0 is filed on level 0, which dispatch never scans, and the loop spins forever; the intended seeding would file it on level 1 |
| RoundRobin.Scheduler.constructor | src/SchedulerClass.cpp:28-54 | One empty queue of the capacity per level 0..maxPriority, an idle manager over the pool, and the clock at 0 |
| RoundRobin.Scheduler.PushRaw | src/SchedulerClass.cpp:218 | A push succeeds iff the level is below capacity, appending to that level only |
| RoundRobin.Scheduler.Push | src/SchedulerClass.cpp:218 | The state and outcome are those of `PushLevel` |
| RoundRobin.Scheduler.PopLevel | src/SchedulerClass.cpp:292 | Returns the level's head and leaves `Popped` of the old state |
| RoundRobin.Scheduler.RemoveLevel | src/SchedulerClass.cpp:134 | The state becomes `Unfiled` of the old |
| RoundRobin.Scheduler.RequeueOne | src/SchedulerClass.cpp:211-219 | A block with work (READY too, on the dispatch path) is pushed on its level; any other block is left alone |
| RoundRobin.Scheduler.Requeue | src/SchedulerClass.cpp:209-220 | The state and outcome are those of `RequeueFinished` over the finished list |
| RoundRobin.Scheduler.Drain | src/SchedulerClass.cpp:207-225 | The state and outcome are those of `DrainFinished` |
| RoundRobin.Scheduler.AnyWork | src/SchedulerClass.cpp:182-183 | True iff some block has work left |
| RoundRobin.Scheduler.LevelEmpty | src/SchedulerClass.cpp:260 | True iff the level is empty |
| RoundRobin.Scheduler.AnyLevelWork | src/SchedulerClass.cpp:193-194 | True iff some level from 1 up is non-empty |
| RoundRobin.Scheduler.TickClock | src/SchedulerClass.cpp:202-205 | The clock moves by d and the I/O queue is processed for d |
| RoundRobin.Scheduler.SetLastTime | src/SchedulerClass.cpp:227 | The last-time stamp becomes the clock |
| RoundRobin.Scheduler.FastForward | src/SchedulerClass.cpp:197-229 | The state and outcome are those of fast-forwarding by the minimum countdown, then draining and stamping |
| RoundRobin.Scheduler.CleanUpQueues | src/SchedulerClass.cpp:179-232 | The state and the go-on flag are those of `CleanUp` |
| RoundRobin.Scheduler.Tracks | src/SchedulerClass.cpp:346 | True iff the manager already queues the pid |
| RoundRobin.Scheduler.TrackIO | src/SchedulerClass.cpp:348-349 | The state becomes `IoTracked` of the old |
| RoundRobin.Scheduler.ChargeSwitch | src/SchedulerClass.cpp:297-300 | The state becomes `Switched` of the old |
| RoundRobin.Scheduler.TickIO | src/SchedulerClass.cpp:309 | The I/O queue is processed for d with the clock unchanged |
| RoundRobin.Scheduler.Pick | src/SchedulerClass.cpp:292-300 | Returns the head of the level and its pid; the state is popped and charged for the switch |
| RoundRobin.Scheduler.TickDispatch | src/SchedulerClass.cpp:303-325 | The delta is the clock less the last-time stamp; the state and outcome are those of `DispatchTick` |
| RoundRobin.Scheduler.Enter | src/SchedulerClass.cpp:292-325 | The state, index, pid and delta are those of `Entered` |
| RoundRobin.Scheduler.Respond | src/SchedulerClass.cpp:328-332 | The state becomes `Responded` of the old |
| RoundRobin.Scheduler.Execute | src/SchedulerClass.cpp:335-336 | The state and elapsed time are those of `Ran` |
| RoundRobin.Scheduler.RunSlice | src/SchedulerClass.cpp:328-336 | The first response, then the slice |
| RoundRobin.Scheduler.TrackIfWaiting | src/SchedulerClass.cpp:346-350 | A waiting block the manager does not yet queue is handed to it; otherwise nothing changes |
| RoundRobin.Scheduler.Route | src/SchedulerClass.cpp:346-353 | The state and outcome are those of `Routed` |
| RoundRobin.Scheduler.Complete | src/SchedulerClass.cpp:355-359 | The state becomes `Completed` of the old |
| RoundRobin.Scheduler.AgeAt | src/SchedulerClass.cpp:121-129 | A candidate block is aged and its promotion returned; any other block is left alone and reports no promotion |
| RoundRobin.Scheduler.AgeCandidates | src/SchedulerClass.cpp:117-130 | The records and the promoted list are those of the aging pass |
| RoundRobin.Scheduler.MoveUp | src/SchedulerClass.cpp:134-135 | The block is removed from its old level and pushed on its new one |
| RoundRobin.Scheduler.MigrateAll | src/SchedulerClass.cpp:133-136 | The state and outcome are those of `Migrate` |
| RoundRobin.Scheduler.AgeQueues | src/SchedulerClass.cpp:81-139 | The state and outcome are those of `QueuesAfterAging` |
| RoundRobin.Scheduler.Log | src/SchedulerClass.cpp:364-367 | The stamp, the last pid and the logged event |
| RoundRobin.Scheduler.Serve | src/SchedulerClass.cpp:327-368 | The state and outcome are those of `Served` |
| RoundRobin.Scheduler.DispatchFrom | src/SchedulerClass.cpp:258-369 | The state and outcome are those of `Dispatch` |
| RoundRobin.Scheduler.Step | src/SchedulerClass.cpp:251-371 | The state and the go-on flag are those of `Iterate` |
| RoundRobin.Scheduler.ClampPrio | src/SchedulerClass.cpp:238-244 | The block's priority becomes its clamped priority, which is a level index; nothing else changes |
| RoundRobin.Scheduler.SeedAt | src/SchedulerClass.cpp:236-246 | Records and levels are those of `SeedNext` |
| RoundRobin.Scheduler.SeedQueues | src/SchedulerClass.cpp:236-246 | Records and levels are those of `SeedLevels` over the whole pool |
| RoundRobin.Scheduler.Start | src/SchedulerClass.cpp:236-249 | The state and outcome are those of `Initial` |
| RoundRobin.Scheduler.Loop | src/SchedulerClass.cpp:251-371 | The state and outcome are those of `RunFor` |
| RoundRobin.Scheduler.RunRoundRobin | src/SchedulerClass.cpp:234-376 | The seeding, then the loop: the state and outcome are those of `RunFor` from `Initial` |
| Decimal.NatToStringRoundTrip | src/ConfigLoader.cpp:153 | Reading back the decimal digits of a number gives the number |
| Decimal.IntToStringInjective | src/ConfigLoader.cpp:153 | Distinct integers are rendered differently, so a message names its pid unambiguously |
| Config.SchedulerChecked | src/ConfigLoader.cpp:62-112 | Passes iff the section is present and every present value is valid (quantum > 0, 0 < maxPriority ≤ 10, threshold > 0). Each setting is its value when present and its default otherwise. The first failing check, in source order, gives its message |
| Config.ProcessConfigs | src/ConfigLoader.cpp:32-48 | One configuration per entry, in order, field for field |
| Config.FirstRepeat | src/ConfigLoader.cpp:139-149 | The first position whose pid occurred earlier, or none when there is none |
| Config.NoRepeatIffDistinct | src/ConfigLoader.cpp:139-154 | There is no repeat position iff all pids are distinct |
| Config.ProcessChecked | src/ConfigLoader.cpp:115-154 | Passes iff the array is present, non-empty and has distinct pids. A missing or empty array gives its message; otherwise the message names the pid of the first entry that repeats an earlier one |
| Config.EntriesRepeat | src/ConfigLoader.cpp:139-154 | The first repeat repeats an earlier entry's pid, and all entries before it are distinct |
| Config.Validated | src/ConfigLoader.cpp:55-59 | The scheduler section is validated first; the result is the settings iff both validations pass, and otherwise the first failure |
| Config.ValidatedProcesses | src/ConfigLoader.cpp:55-59 | A validated document has at least one process, and the pids are distinct |
| Config.ConfigLoader.constructor | src/ConfigLoader.cpp:13-17 | The loader holds the document |
| Config.ConfigLoader.Load | src/ConfigLoader.cpp:13-17 | Loading fails iff validation fails, with its message; otherwise the loader holds the document and the validated settings |
| Config.ConfigLoader.Validate | src/ConfigLoader.cpp:55-59 | Passes iff `Validated` succeeds, storing its settings |
| Config.ConfigLoader.ValidateSchedulerConfig | src/ConfigLoader.cpp:62-112 | Passes iff `SchedulerChecked` succeeds, storing its settings; otherwise its message |
| Config.ConfigLoader.ValidateProcessConfig | src/ConfigLoader.cpp:115-154 | The outcome is `ProcessChecked` of the document |
| Config.ConfigLoader.GetProcessConfig | src/ConfigLoader.cpp:32-48 | The list is `ProcessConfigs` of the array |
| Config.ConfigLoader.FindRepeat | src/ConfigLoader.cpp:139-149 | The first repeat position, or the list length when there is none |
| Loading.CheckProcessCount | src/SchedulerClass.cpp:32-36 | Passes iff the count is at most the capacity; otherwise the message ends with the capacity in decimal |
| Loading.InitialRecordOf | src/SchedulerClass.cpp:43-49 | A block built from a configuration carries its pid, priority, burst and I/O settings and the scheduler's threshold and quantum, is READY, has used no CPU and conserves CPU time |
| Loading.BuildPool | src/SchedulerClass.cpp:38-50 | One fresh, distinct block per configuration, in order, each with its initial record |
| Loading.LoadConfig | src/SchedulerClass.cpp:20-56 | Fails iff there are more processes than the capacity, with that message. Otherwise the scheduler has the settings, the pool built from the list, empty levels 0..maxPriority, an idle manager and the clock at 0 |
| Metrics.ProcessMetricsOf | src/Metrics.cpp:47-70 | Every block arrives at 0, so turnaround is the completion time, and its lifetime splits into CPU, I/O and waiting time. For a finished block whose CPU time is conserved, the waiting time is the completion time less the burst and the I/O time |
| Metrics.WaitingOfFinished | src/Metrics.cpp:59-65 | For a finished, conserved block, waiting time plus burst and I/O time is its turnaround |
| Metrics.TotalAppend | src/Metrics.cpp:27-30 | One more entry adds its figure to a total |
| Metrics.PerProcess | src/Metrics.cpp:24-33 | One entry per block, in pool order |
| Metrics.Summary | src/Metrics.cpp:35-39 | The averages times N are the totals; utilization and throughput are defined iff the total time is non-zero, and then utilization × time = CPU × 100 and throughput × time = N |
| Metrics.Calculated | src/Metrics.cpp:9-45 | The per-process list is `ProcessMetricsOf` of each block; the average turnaround and waiting times times N are the totals over that list |
| Metrics.Lookup | src/Metrics.cpp:115-122 | Finds an entry iff some entry has the pid, and then it is the first such entry; otherwise "Process not found" |
| Metrics.LookupOwn | src/Metrics.cpp:115-122 | With distinct pids, looking up a block's pid finds that block's own figures |
| Metrics.Metrics.constructor | src/Metrics.cpp:5-7 | Over the pool, not yet calculated |
| Metrics.Metrics.Calculate | src/Metrics.cpp:9-45 | The one-pass accumulation equals `Calculated` over the pool's records, and the result is cached |
| Metrics.Metrics.GetProcessMetrics | src/Metrics.cpp:109-123 | Before calculation the result is "Metrics not calculated yet"; afterwards it is `Lookup` on the cached list |
| Metrics.Metrics.GetAvgTurnaroundTime | src/Metrics.cpp:124-131 | Before calculation the result is the same error; afterwards it is the cached average |
| Metrics.Metrics.GetCpuUtilization | src/Metrics.cpp:132-139 | Before calculation the result is the same error; afterwards it is the cached utilization |
| Reporting.DrainedRunMetrics | src/Metrics.cpp:47-70 | After a run that drains the pool, every block is FINISHED, so its waiting time is its lifetime less its burst and I/O time, and its pid looks up its own figures |
| ConfiguredRun.RunnableSeedable | src/SchedulerClass.cpp:43-49 | A block built from a configuration is one the seeding accepts iff the configuration has a positive burst and, when I/O-bound, an interval in 1..INT_MAX |
| ConfiguredRun.UncheckedEntry | src/ConfigLoader.cpp:115-154 | A document with default settings and one process validates whatever the process's burst and interval |
| ConfiguredRun.ConfiguredSeedable | src/SchedulerClass.cpp:20-56 | A validated list of runnable processes no longer than the capacity gives a pool the seeding accepts |
| ConfiguredRun.ConfiguredRunDrains | src/SchedulerClass.cpp:234-376 | For such a list, the round-robin with enough iterations stops with every block FINISHED, nothing waiting on I/O, and each waiting time its lifetime less its burst and I/O time |
| ConfiguredRun.BurstZeroLeftReady | src/SchedulerClass.cpp:182-187 | A lone process with no work stops the loop at once, still READY with no completion time, so its turnaround is -1 |
| ConfiguredRun.IntervalZeroStalls | src/SchedulerClass.cpp:335-353 | A lone I/O-bound process with a non-positive interval runs a slice of 0, is then in no queue with its whole burst left, and the loop never stops |

## Left out

- File and JSON I/O are not modelled: `loadFromFile`, the JSON parse, `toJson`, `writeToFile`, the event-log flush, and `createJSON`/`appendToJSON`. The configuration arrives as an already parsed `ConfigData` value, and the event log is a sequence of `Event` values.
- JSON typing errors are not modelled: a non-integer where `get<int>` expects one would throw, but the model's entries are typed.
- Debug output (`debug(...)`, `std::cerr`, `printQueue`) is not modelled, because it has no effect on the state.
- `priorityScheduling`, `run()`, `getProcessByPID`/`pidToIndex`-style helpers and the threads of `src/PriorityScheduler.cpp` are not part of this model.
- context_switch_time: `SchedulerConfig` has no such field, and `loadConfig` reads a value validation never sets. The model takes it as a parameter of `Loading.LoadConfig` (`Params.contextSwitchTime`).
- MAX_PROCESS_SIZE and the ready-queue capacity: the header that defines `MAX_PROCESS_SIZE` is not part of this model. The model makes both a single parameter, `Params.capacity`; include/SchedulerClass.h:113 declares queues of capacity `N * 2`.
- Default settings: the header that defines `DEFAULT_TIME_QUANTUM`, `DEFAULT_MAX_PRIORITY` and `DEFAULT_AGING_THRESHOLD` is not part of this model. The model uses the documented defaults 4, 3 and 5.
- The outer `while (true)` is bounded by a fuel count in `Scheduling.RunFor`. `SchedulingProgress.RunDrains` proves that fuel above the total remaining work always reaches the stop, and `SchedulingSeed.StallForever` shows the stall case, where no fuel suffices.
- 32-bit integers: overflow of the clock, the counters and the metric totals is not modelled; all arithmetic is unbounded. `INT_MAX` appears only as the empty minimum of `getMinRemainingIOTime`.
- Metrics.Summary: the averages, utilization and throughput are exact reals rather than rounded doubles. Division by a zero total time (infinity or NaN in IEEE arithmetic) is modelled as `None`.
- Metrics: the averages divide by the header constant `N = 6`, whatever the pool length, as the code does. The `metrics` object the scheduler emplaces is built separately over the pool, not held by `RoundRobin.Scheduler`.
- Config.ConfigLoader.ValidateSchedulerConfig: on failure the contract does not describe the settings already stored by the earlier checks. `Load` discards such a loader.
- Config.ConfigLoader.GetProcessConfig: requires the `processes` key to be present. Reading a missing key of a const JSON object is undefined behaviour in the C++, and every caller has already validated the document.
- lastProcess: the scheduler keeps a copy of the last PCB but reads only its pid, so the model keeps the pid only.
- SchedulingSeed.InitialInv: requires a pool the seeding accepts (`SchedulingSeed.Seedable`): every burst positive, every I/O-bound interval in 1..INT_MAX, distinct pids, no more blocks than the capacity. Validation accepts other lists (`ConfiguredRun.UncheckedEntry`); what happens to them is under Findings.
- SchedulingSeed.SeededRunDrains: the drain theorem holds only for such pools. A block with a burst of 0 or less is left READY (`ConfiguredRun.BurstZeroLeftReady`); an I/O-bound block with an interval of 0 or less stalls the loop (`ConfiguredRun.IntervalZeroStalls`). `ConfiguredRun.ConfiguredRunDrains` states the drain for every validated list of runnable processes.
- Reporting.DrainedRunMetrics: the metric identities after a drained run are stated only for pools `SchedulingSeed.Seedable` accepts, for the same reason.
- RoundRobin.Scheduler.RemoveLevel: uses the corrected `ReadyQueue.Remove`. The as-written shift agrees with it only while the found offset plus the count is at most the slot count plus 1; `SchedulingInvariant.RemoveAsWrittenAgrees` proves this for an owned level when the slots number at least 2·pool − 2, as the source's N * 2 slots do, but the model cannot apply it, because `Params.capacity` is both the queue size and the process limit.
- RoundRobin.Scheduler.MoveUp: removes with the corrected `ReadyQueue.Remove`, for the reason given for `RemoveLevel`.
- Scheduling.Unfiled: removes with the corrected `RemoveFirst`, for the reason given for `RemoveLevel`.
- Scheduling.SeedNext: seeds with the corrected clamp `prio < 1` (`Scheduling.SeedPriority`) rather than the source's `prio < 0` (src/SchedulerClass.cpp:238). The as-written guard is `Scheduling.SeedPriorityAsWritten`, and `SchedulingSeed.PriorityZeroStalls` builds the world it produces directly (see Findings).
- Scheduling.SeedLevels: seeds with the corrected clamp, as `SeedNext` does.
- Scheduling.Initial: seeds with the corrected clamp, as `SeedNext` does.
- RoundRobin.Scheduler.ClampPrio: clamps with `prio < 1` rather than the source's `prio < 0`, as `SeedNext` does.
- RoundRobin.Scheduler.SeedAt: seeds with the corrected clamp, as `SeedNext` does.
- RoundRobin.Scheduler.SeedQueues: seeds with the corrected clamp, as `SeedNext` does.
- RoundRobin.Scheduler.Start: seeds with the corrected clamp, as `SeedNext` does.
- RoundRobin.Scheduler.RunRoundRobin: seeds with the corrected clamp, as `SeedNext` does.
- Pcb.Pcb getters (`getPid`, `getRemainingTime`, ...) and the `is*` predicates are not separate members; they are reads of `Record()`.

## Findings

| source | as written | input that shows it | evidently intended | confidence | as-written member | corrected member |
|---|---|---|---|---|---|---|
| include/ReadyQueue.h:173 | `i = (i % 1) % N` resets the cursor to slot 0 after each element | buffer [1, 2], head 0, count 2: the snapshot is [1, 1] | advance with `i = (i + 1) % N` | high; not executed | ReadyQueues.ReadyQueue.ToVectorAsWritten, ReadyQueues.ToVectorAsWrittenDiffers | ReadyQueues.ReadyQueue.ToVector |
| include/ReadyQueue.h:115 | the shift runs count-1 times from the found slot, whatever the position of the element found, so it can wrap onto live slots | capacity 3, contents [1, 2, 3] from slot 0, remove(3): contents [2, 2] | shift only the elements after the one removed | medium (latent while the capacity is at least twice the pool); not executed | ReadyQueues.ReadyQueue.RemoveAsWritten, ReadyQueues.RemoveAsWrittenCorrupts | ReadyQueues.ReadyQueue.Remove |
| src/SchedulerClass.cpp:238 | the seeding guard tests `prio < 0`, so a priority of 0 is filed on level 0, which dispatch (levels 1..max) never scans | one process with priority 0 and burst 5: the loop never breaks | clamp every priority outside 1..max, `prio < 1` | medium; not executed | Scheduling.SeedPriorityAsWritten, SchedulingSeed.PriorityZeroStalls | Scheduling.SeedPriority, SchedulingSeed.SeededRunDrains |
| src/ConfigLoader.cpp:115-154 | validation never checks `io_interval`, so an I/O-bound process with an interval of 0 or less is accepted; each slice then runs for 0, the block is READY without being requeued (src/SchedulerClass.cpp:352 requeues only after a positive slice), and the loop never breaks | one I/O-bound process with burst 5 and io_interval 0 | reject such a process, or run only lists of runnable processes | medium; not executed | ConfiguredRun.IntervalZeroStalls, ConfiguredRun.UncheckedEntry | ConfiguredRun.Runnable, ConfiguredRun.ConfiguredRunDrains |
| src/ConfigLoader.cpp:115-154 | validation never checks `burst`, so a process with a burst of 0 or less is accepted; it is never FINISHED, and when it is alone the loop stops at once, leaving its completion time at -1 and its reported turnaround at -1 | one process with burst 0 | reject a non-positive burst | low; not executed | ConfiguredRun.BurstZeroLeftReady, ConfiguredRun.UncheckedEntry | ConfiguredRun.Runnable, ConfiguredRun.ConfiguredRunDrains |
