# Verified model of the process scheduler and memory manager

The simulator runs jobs on a simulated CPU, one clock tick at a time, under one
of three schedulers: Round-Robin with a demand-paging memory manager, preemptive
highest-priority-first (HPF), or first-come-first-served on two CPUs with work
stealing. This project models the schedulers, the memory manager, the child
processes, the job generator and the message queues between them in Dafny, and
proves what they keep over whole runs.

Everything that the program updates in place is modelled twice. The values and
the transitions on them (`Mmu`, `RoundRobin`, `Hpf`, `Stealing`, `Arrival`) carry
the theorems. The classes (`MmuMachine`, `RrMachine`, `HpfMachine`,
`StealingMachine`, `ArrivalMachine`, `ChildProcess`, `PcbQueue`) have the
program's own form: fields, arrays, loops, and in `PcbQueue` and `HpfMachine` linked
nodes; the queues of `RrMachine` are sequences of process ids, and `ListsAgree` ties
them to the linked lists. Every method of a class is proved to take the abstract
value of its object where the transition takes it.

## How the model reads the program

* One pass of a scheduler's main loop is one tick. The loop body fits in a tick,
  `wait_N_secs(1,1)` takes exactly one, and a grant of the semaphore lets the
  running child do exactly one turn of its loop. Signal handlers and phases of
  the loop are atomic.
* A run of Round-Robin depends only on the jobs, the request list of each job, the
  quantum and `k` (`RoundRobin.Config`); `RoundRobin.Run` is the state before
  iteration n. Undefined behaviour of the C code (a page table read outside its
  bounds) sets `trapped`; a `waitpid` for a child that will never be granted
  another tick sets `hung`.
* `RrInvariants.ConfigOk` states what is assumed of the input: ids are unique and
  positive, runtimes positive, `0 < limit <= 64` and the quantum at least 1.
* `RrTicks.Sound` says that the iterations of a run up to a tick do none of three
  things: serve a page fault of a child that has already exited, serve a request
  for the page whose number is the limit, or start a process when page tables
  and pinned pages take up all 32 frames. `EndsWellExactly` shows that the run of
  an input ends well if and only if it is sound. With at most 22 jobs the third
  thing cannot happen (`FewEndWellExactly`), and `RrStatic.StaticOk` is a condition on
  the input alone that excludes all three. What does not speak of time holds in
  every run, sound or not, until a page table is read outside its bounds
  (`RrAlways`); `TrapsExactly` says when that is.
* A page fault that finds no frame, and a page 0 that finds none, do not make a run
  unsound: scheduling and accounting go on as usual. But the access is lost, for
  the request is not repeated (`FaultFindsFrame`). With at most 21 live processes
  this does not happen, either (`FewLiveAreServed`).
* Generator and scheduler run in lock step: in each tick the generator has its
  turn first. `RunInStep` and `RunReceives` show for whole runs that the messages
  between them amount to what the transition `Receive` reads off the input.
* A sub-scheduler of the two-CPU scheduler is followed through any sequence of
  messages, steal and stall signals, loop bodies and clock ticks
  (`StealingTime.Event`); all of both CPUs and the main scheduler through any
  interleaving of their steps (`Stealing.Step`).
* Weighted turnarounds are computed over the reals.

## Where code and documentation differ

The model follows the code.

* HPF is preemptive (`scheduler/scheduler_functions.c:245`); the repository's `README.md:104` calls it
  non-preemptive.
* Jobs are routed by ready count (`scheduler/scheduler_functions.c:291`);
  `README.md:114` says by remaining work. A steal is started by the main scheduler
  when the remaining times differ by more than M
  (`scheduler/scheduler_functions.c:619`), signalled by `SIGURG`, and both CPUs are
  stalled; `README.md:120-122` describes a peer-to-peer steal by `SIGUSR2` and a stall
  of the receiver.
* A process of size `limit` has pages 0 to `limit - 1`, but `MMU/mmu_functions.c:28` lets
  page `limit` through. `CheckTrapsExactly` shows that this is the one page that
  is read out of bounds.
* A page fault on the last tick of a process leaves its finish signal to the
  next process on the CPU. `SignalLostExactly` gives the exact condition;
  `HangsWithinThree` shows when the scheduler then waits for ever, and
  `LastTickFaultHangs` gives an input. Where it does not hang, the turnaround it
  records for the process is longer than runtime and waiting time
  (`ExitedTooEarly`).
* A start that finds all frames taken by page tables and pinned pages leaves the
  process without a page table (`StartFails`), and the program fails at its first
  request or its exit.
* A stall signal that comes in a tick which the running process has already used
  makes the account count that tick twice, as run and as waited for.
  `TurnaroundExactly` shows that turnaround, runtime and waiting time are off by
  exactly the number of such signals, and `LateStallDoubles` gives a sequence of
  events with one.
* `enqueue_priority` does not look at the arrival time of the front.
  `InsertSortedExactly` gives the exact condition under which it keeps the order;
  `PriorityOrder` shows that the scheduler never calls it otherwise.
* A child sends its requests in file order and compares only the next one with
  its clock. A request that repeats a tick or is out of order blocks all that
  follow; `SentExactly` gives the exact condition.

## Model

| member | source | states |
|---|---|---|
| MmuProofs.InverseTables | MMU/mmu_functions.c:73-97 | Entry v of a started process is valid with frame i exactly if frame i is an occupied non-table frame holding page v of it, and then the R and M bits of entry and frame agree. |
| MmuProofs.OneTableFrame | MMU/mmu_functions.c:118-145 | Every started live process owns a table frame, occupied and with a table of its size; no two processes share one; and every frame that holds a table is owned like this. |
| MmuProofs.PinnedFrames | MMU/mmu_functions.c:211-219 | A frame is reserved exactly if it is the pending frame of a process; that process is unique, owns the frame, and its pending page is the page in it. |
| MmuProofs.AdmitKeeps | rr_scheduler/rr_scheduler_functions.c:515-521 | Admitting a process with a fresh id keeps the memory invariant. |
| MmuProofs.ChoiceMeaning | MMU/mmu_functions.c:238-280 | The one-pass scan takes frame i as free exactly if it is the lowest free frame, evicts i exactly if memory is full and i is the first of the best victims among unreserved non-table frames, pages not used recently coming before used ones and of these clean before dirty ones, and finds nothing exactly if all frames are tables or reserved. |
| MmuProofs.EvictKeeps | MMU/mmu_functions.c:156-164 | Eviction clears exactly the entry that mapped the victim, in whichever process owns it, and leaves a memory that satisfies the invariant. |
| MmuProofs.TableFault | MMU/mmu_functions.c:118-145 | A table fault gives the process an empty page table of its own size in the frame chosen, which holds no page and counts as used and clean, or changes nothing if there is none. |
| MmuProofs.PageFault | MMU/mmu_functions.c:222-281 | A fault of either page type keeps the invariant, places exactly the faulting page on the chosen frame with R set and M set for a write, pins it for a demand fault, and sets the deadline 20 ticks ahead exactly if a dirty page was evicted, else 10. |
| MmuProofs.FaultIsPlaced | MMU/mmu_functions.c:148-281 | Whichever branch serves the fault, the resulting memory is the old one with the victim evicted and the page placed; the fault of a page whose victim belongs to the same process is no exception. |
| MmuProofs.CheckKeeps | MMU/mmu_functions.c:24-46 | Translating a page of a started process reads outside its table exactly for the page at the limit. Otherwise the invariant stays: beyond the limit the page is invalid and nothing changes, a miss changes nothing, a hit sets R, and M on a write, in exactly that entry and its frame. |
| MmuProofs.CheckTrapsExactly | MMU/mmu_functions.c:26-31 | On a started process the page table is read out of bounds if and only if the page equals the limit. |
| MmuProofs.ClearKeeps | MMU/mmu_functions.c:283-302 | Clearing resets R in every frame and entry, leaves M and every mapping, and never runs over a page table. |
| MmuProofs.WakeKeeps | rr_scheduler/rr_scheduler_functions.c:436-448 | Waking a process unpins its frame, which still holds the page it faulted on, and changes no entry of any process. |
| MmuProofs.FreeKeeps | MMU/mmu_functions.c:324-350 | The exit of a process frees its table frame and all its pages and nothing else. |
| MmuProofs.FrameAvailable | MMU/mmu_functions.c:238-281 | Started and fault-pending processes together never own more than 32 frames, and the scan fails exactly if they own all 32. |
| MmuHistory.CallMatches | MMU/mmu_functions.c:31-40 | Every call of the memory manager keeps the invariant and the agreement of all R and M bits with the history of loads, uses and clears. |
| MmuHistory.HistoryMatches | MMU/mmu_functions.c:73-350 | After any sequence of permitted calls, in any interleaving of processes, the memory invariant holds. |
| MmuHistory.BitsTellHistory | MMU/mmu_functions.c:196-211 | After any such sequence, for every valid entry M is set exactly if a write to the page was served since it was loaded, R exactly if it was loaded or used since the last clear, and both bits equal those of its frame. |
| RrBits.RequestBits | rr_scheduler/rr_scheduler_functions.c:369-404 | Serving a request in a run keeps the bits in agreement with the history, which gains a use for a hit and a load for a fault that finds a frame. |
| RrBits.BitsOverRun | MMU/mmu_functions.c:31-40 | At every tick of every sound run, for every loaded page, M is set exactly if a write was served since it was loaded, R exactly if it was loaded or used since the last clear, and both equal the bits of its frame. |
| MmuMachine.MemoryUnit.constructor | MMU/mmu_functions.c:5-6 | The frame array starts out free and satisfies the invariant. |
| MmuMachine.MemoryUnit.Check | MMU/mmu_functions.c:24-46 | The update in place is the transition Check, with the same outcome. |
| MmuMachine.MemoryUnit.PutPageInFrame | MMU/mmu_functions.c:73-97 | The update in place is the transition PutPage. |
| MmuMachine.MemoryUnit.DefinePageTable | MMU/mmu_functions.c:118-145 | The table-building loop yields the transition DefineTable. |
| MmuMachine.MemoryUnit.Swap | MMU/mmu_functions.c:148-220 | The sequence of updates is the transition Swap. |
| MmuMachine.MemoryUnit.FaultHandler | MMU/mmu_functions.c:222-281 | The scan loop with its early return is the transition FaultHandler, whose choice ChoiceMeaning and whose effect PageFault and TableFault spell out. |
| MmuMachine.MemoryUnit.InitProcess | rr_scheduler/rr_scheduler_functions.c:91-98 | Two faults, table and page 0, are the transition InitProcess. |
| MmuMachine.MemoryUnit.ClearRecent | MMU/mmu_functions.c:283-302 | The nested loops are the transition ClearRecent. |
| MmuMachine.MemoryUnit.FreeReserved | MMU/mmu_functions.c:319-322 | Unpinning in place is the transition FreeReserved. |
| MmuMachine.MemoryUnit.FreePageTable | MMU/mmu_functions.c:324-350 | The loop over the frames is the transition FreeProcess. |
| RrInvariants.RequestsKeep | rr_scheduler/rr_scheduler_functions.c:332-426 | Serving the request of the running process keeps the kernel invariant, unless it is a fault of an exited child or for the page at the limit; afterwards none is under way, and a fault has moved the process to the end of the block queue, with a deadline 10 or 20 ticks ahead, and nobody else. |
| RrInvariants.StartSucceeds | rr_scheduler/rr_scheduler_functions.c:91-98 | If page tables and pinned pages leave a frame, an unstarted process obtains an empty page table; page 0 is loaded exactly if they leave two, and no other page is. |
| RrInvariants.StartFails | rr_scheduler/rr_scheduler_functions.c:91-98 | If they leave none, both faults of the start do nothing at all: the process is left without a page table. |
| RrInvariants.BlockEndKeeps | rr_scheduler/rr_scheduler_functions.c:428-453 | The block-end check keeps the kernel invariant. |
| RrInvariants.FinishKeeps | rr_scheduler/rr_scheduler_functions.c:455-503 | The exit of the running process keeps the kernel invariant, its turnaround being runtime plus waiting time. |
| RrInvariants.ReceiveKeeps | rr_scheduler/rr_scheduler_functions.c:505-548 | Admission keeps the kernel invariant. |
| RrInvariants.DispatchKeeps | rr_scheduler/rr_scheduler_functions.c:100-151 | Starting (if memory has room for a page table) or resuming the front process at time t keeps the kernel invariant with time conserved at t, and touches no other control block. |
| RrInvariants.StopKeeps | rr_scheduler/rr_scheduler_functions.c:204-217 | Stopping the running process keeps the kernel invariant. |
| RrInvariants.ChildStepKeeps | process/RR_process.c:150-168 | One grant consumes exactly one tick of the runtime and keeps the kernel invariant at the next tick. |
| RrBlockEnd.BlockEndSplits | rr_scheduler/rr_scheduler_functions.c:428-453 | Walking the block queue while unlinking from it is a stable split by deadline: the due ones go behind the ready queue in order, the others stay in order, and nobody due is left. |
| RrBlockEnd.ListsAgree | rr_scheduler/rr_scheduler_functions.c:428-453 | The transition on queues of ids does to the control blocks in block and ready queue what the walk over the linked lists (PcbQueue.CheckBlockEnd) does. |
| RrTicks.AlgoKeeps | rr_scheduler/rr_scheduler_functions.c:189-237 | RR_algo keeps the invariant if memory has room for the process it starts, if any; it gives the CPU to the front of the queue, and counts a quantum exactly for an extension or a preemption. When it extends, preempts or dispatches is told by WhoRuns in terms of queue, clock and arrival times. |
| RrTicks.ClearCheckCounts | rr_scheduler/rr_scheduler.c:142-146 | Checked after at most one more quantum, a clear happens exactly when the counter has just reached a multiple of k, and none is skipped. |
| RrTicks.TickKeeps | rr_scheduler/rr_scheduler.c:104-158 | One iteration that serves no fault of an exited child and no request for the page at the limit, and starts no process that memory has no room for, keeps the invariant, brings every blocked process one tick closer to its deadline, and its effect on queues, CPU and remaining work is as `Effect` says. |
| RrTicks.RunKeeps | rr_scheduler/rr_scheduler.c:104-158 | Every state of every run of such iterations (a sound run) satisfies the invariant. |
| RrSchedule.WhoRuns | rr_scheduler/rr_scheduler_functions.c:189-237 | After every iteration of every sound run: a fault or an exit has left the CPU empty for one tick; a free CPU has gone to who is next in line (queue, ended blocks, arrivals); a process has kept the CPU for its quantum, and then it was put off for the front of the queue, which takes over with the next tick, unless nobody was waiting or nobody but a job that arrived at this very tick: then it has another quantum. |
| RrSchedule.QueueInOrder | rr_scheduler/rr_scheduler_functions.c:204-237 | After every iteration but the first of every sound run the whole ready queue, as a sequence: who was queued, who ended its block in the order of the block queue, who arrived in the order of the input; at the end of a quantum who arrived, the process put off, who ended its block. |
| RrAlways.AlwaysSane | rr_scheduler/rr_scheduler.c:104-158 | Every state of every run, sound or not, until a page table is read out of bounds, satisfies the part of the invariant that does not speak of time: memory, queues, messages, and where every job is. |
| RrAlways.TrapsExactly | MMU/mmu_functions.c:24-31 | In such a state the next iteration reads outside a page table if and only if it serves a request for the page at the limit or of a process without a page table, or takes the exit of one. |
| RrAlways.ReadyFaultWhole | rr_scheduler/rr_scheduler_functions.c:391-402 | The branch for a faulting process in the ready queue, which by RequestsAreOwn no run takes, would move it to the end of the block queue with a deadline 10 or 20 ticks ahead and keep everything in order. |
| RrTheorems.LivePartition | rr_scheduler/rr_scheduler_functions.c:522-523 | At every tick of every run, sound or not, until a page table is read out of bounds, the live processes are the disjoint union of CPU, ready and block queue, and with the finished ones and the jobs to come they are exactly the input. |
| RrTheorems.StatesMatch | rr_scheduler/rr_scheduler_functions.c:100-151 | In every such run the state in a control block says where its process is (CPU, ready or block queue, finished), and a process not stopped yet has waited exactly from its arrival to its start. |
| RrTheorems.RequestsAreOwn | rr_scheduler/rr_scheduler_functions.c:361-402 | In every such run at every tick the request queue is empty and at most one message is under way, from the running process: the branch for other owners is never taken. |
| RrTheorems.TimeConserved | rr_scheduler/rr_scheduler_functions.c:204-217 | At every tick, for every started process, the time from arrival to its last stop (or to now, if it runs) is its waiting time plus the time it has run. |
| RrTheorems.RemainingIsExact | rr_scheduler/rr_scheduler_functions.c:100-107 | The remaining time the scheduler keeps for a process is what its child still has to run. |
| RrTheorems.NeverStuck | rr_scheduler/rr_scheduler_functions.c:459-469 | In no sound run is a page table read out of bounds or an exit awaited that cannot come. |
| RrTheorems.TablesInverse | MMU/mmu_functions.c:148-220 | At every tick of every run, sound or not, until a page table is read out of bounds, frame table and page tables are inverse of each other, bits included. |
| RrTheorems.TableFrames | MMU/mmu_functions.c:118-145 | In every such run, at every tick: each process with a page table was started and has it, occupied and of its size, in the frame it names, no two in the same, and no other frame holds a table; in a sound run every started live process has one. |
| RrTheorems.TableStays | MMU/mmu_functions.c:238-281 | In every such run the page table of a process stays in the same frame as long as the process is live: it is never evicted or moved. |
| RrTheorems.NobodyOverdue | rr_scheduler/rr_scheduler.c:117-123 | After the iteration of a tick nobody whose deadline has come is still blocked, whether the check ran first, during preemption or late; nobody waits more than 20 ticks. |
| RrTheorems.ClearsCounted | rr_scheduler/rr_scheduler.c:142-146 | After each check the number of clears is the number of quantums divided by k. |
| RrTheorems.FiguresAreExact | rr_scheduler/rr_scheduler_functions.c:482-496 | At every tick of every run, sound or not, the online figures are the mean and the sum of squared deviations of numbers that, times its runtime, give the time from arrival to finish of each process finished so far, and the sums of waiting times and runtimes. |
| RrTheorems.FiguresOfSoundRuns | rr_scheduler/rr_scheduler_functions.c:482-496 | In a sound run each of these numbers, times the runtime, is the runtime plus the waiting time of the process. |
| RrPinned.ReservedIsBlocked | MMU/mmu_functions.c:211-219 | At every tick of every run, sound or not, until a page table is read out of bounds, a frame is reserved exactly if it is the pending frame of a blocked process; nobody else has one, no two share one, and it holds the pending page of its process. |
| RrPinned.PinnedUntilWoken | rr_scheduler/rr_scheduler_functions.c:436-448 | From fault to wake-up, whatever other processes do, the control block of a blocked process stays as it is, and the frame it was given, if any, stays reserved and keeps holding the pending page. |
| RrPinned.FaultFindsFrame | rr_scheduler/rr_scheduler_functions.c:370-415 | A demand fault obtains a frame for its page exactly if started and pending processes do not own all 32. If they do, the process is blocked for 10 ticks, no frame changes, and the access is lost: in either case the request is gone from message queue and request list, the child that sent it is past it, and nobody else is touched. |
| RrLiveness.PotentialDrops | rr_scheduler/rr_scheduler.c:104-158 | Every iteration of an unfinished run lowers a measure of remaining work, requests under way, arrivals to come, switches and block deadlines. |
| RrLiveness.Terminates | rr_scheduler/rr_scheduler.c:104-158 | Every sound run is over after an explicit number of ticks, with every job finished exactly once and turnaround = runtime + waiting. |
| RrEndings.EndsWellExactly | rr_scheduler/rr_scheduler.c:104-158 | At any time from that number of ticks on: the loop is over with every job finished once, turnaround = runtime + waiting, and nothing read out of bounds, if and only if the run up to then is sound. |
| RrEndings.UnsoundEndsBadly | rr_scheduler/rr_scheduler_functions.c:359-503 | Once an iteration serves a fault of an exited child or a request for the page at the limit, or starts a process that memory has no room for, the run does not end well at any later tick, whatever happens. |
| RrEndings.ExitedTooEarly | rr_scheduler/rr_scheduler_functions.c:455-503 | A process whose fault is served after its child has exited never gets a correct account: if it is recorded as finished, at any later tick, its turnaround exceeds runtime + waiting. |
| RrFates.FatedForever | rr_scheduler/rr_scheduler.c:104-158 | In any run, sound or not: a process that has exited too early is accounted for too late or not at all, one that was started without a page table makes the program fail before it is accounted for, and a page table never moves. |
| RrCapacity.AtMostTen | rr_scheduler/rr_scheduler_functions.c:359-453 | Faults are at least two ticks apart and last for at most 20, so at most ten are pending at once. |
| RrCapacity.FewLiveIsSound | MMU/mmu_functions.c:238-281 | As long as at most 22 processes are live, no start lacks a frame for its page table: only the requests can make such a run unsound. (For the pages themselves see `RrPages`.) |
| RrPages.FewAreServed | rr_scheduler/rr_scheduler_functions.c:359-426 | In a sound run, every iteration with at most 21 live processes has room for every page asked for: a fault leaves its process blocked with the page in a pinned frame of its own, and whoever is started finds page 0 in memory. |
| RrPages.FewLiveAreServed | rr_scheduler/rr_scheduler_functions.c:91-98 | As long as at most 21 processes are live and no request is a fault of an exited child or for the page at the limit, the run is sound and no page table, initial page or faulted page ever lacks a frame. |
| RrPages.FewJobsAreServed | rr_scheduler/rr_scheduler.c:104-158 | For inputs of at most 21 jobs without a request for a last tick or for the page at the limit this holds at every tick, with no hypothesis on the run. |
| RrLiveness.BoundedWaiting | rr_scheduler/rr_scheduler_functions.c:189-237 | A process with k others ahead of it in the ready queue gets the CPU within (k+1)*(quantum+1) ticks, despite quantum extensions, faults, exits and arrivals. |
| RrStatic.StaticIsSound | rr_scheduler/rr_scheduler.c:104-158 | Inputs of at most 22 jobs without a request for a last tick or for the page at the limit have only sound runs. |
| RrStatic.StaticRunIsSound | rr_scheduler/rr_scheduler.c:104-158 | Such an input meets the condition under which `Execute` and `Simulate` end. |
| RrStatic.FewEndWellExactly | rr_scheduler/rr_scheduler.c:104-158 | With at most 22 jobs a run ends well if and only if it never serves a fault of an exited child or a request for the page at the limit. |
| RrStatic.StaticTerminates | rr_scheduler/rr_scheduler.c:104-158 | For these inputs termination and accounting hold with no hypothesis on the run. |
| RrStatic.SignalLostExactly | rr_scheduler/rr_scheduler_functions.c:410-415 | A finish signal is left to an empty CPU exactly if the request being served is a fault of a child that has already exited. |
| RrLostSignal.HangsWithinThree | rr_scheduler/rr_scheduler_functions.c:457-469 | After any fault of an exited child with another process ready that has at least two ticks to run: unless that one faults in its first tick, the scheduler hangs within three iterations, waiting for its exit. |
| RrLostSignal.LastTickFaultHangs | rr_scheduler/rr_scheduler_functions.c:457-469 | A concrete input of two jobs on which a fault on the last tick of the first makes the scheduler wait for ever for the second. |
| RrMachine.Scheduler.GetProcess | MMU/mmu_functions.c:101-116 | The walk finds an id exactly if it is running or in the list of live processes, which are the processes that have a control block. |
| RrMachine.Scheduler.HandleRequests | rr_scheduler/rr_scheduler_functions.c:332-357 | The update in place is the transition HandleRequests. |
| RrMachine.Scheduler.CheckReqs | rr_scheduler/rr_scheduler_functions.c:359-426 | The update in place is the transition CheckReqs. |
| RrMachine.Scheduler.CheckBlockEnd | rr_scheduler/rr_scheduler_functions.c:428-453 | The walk is the transition CheckBlockEnd. |
| RrMachine.Scheduler.HandleFinished | rr_scheduler/rr_scheduler_functions.c:455-503 | The update in place is the transition HandleFinished. |
| RrMachine.Scheduler.ReceiveProcesses | rr_scheduler/rr_scheduler_functions.c:505-548 | On any messages that end the call, the loop that takes them lowest type first admits, records and leaves behind what the recursive reading of the messages says. |
| RrArrivals.KernelReceives | rr_scheduler/rr_scheduler_functions.c:505-548 | With generator and clock in step a call does not wait, and the kernel transition Receive, which looks at the input alone, is what the loop over the messages does: same jobs, same order, same final state. |
| RrArrivals.RunInStep | process_generator/process_generator.c:148-182 | Before every iteration of every run, whatever iterations skipped the call: what is under way and what the generator still has are exactly what the kernel has still to admit. |
| RrArrivals.RunReceives | rr_scheduler/rr_scheduler.c:131-136 | In every run every call of receiveProcesses returns, takes every process under way, and does to the kernel what the transition says. |
| RrMachine.Scheduler.RunProcess | rr_scheduler/rr_scheduler_functions.c:100-151 | The update in place is the transition RunProcess. |
| RrMachine.Scheduler.RrAlgo | rr_scheduler/rr_scheduler_functions.c:189-237 | The update in place is the transition RrAlgo, whose outcome WhoRuns and QueueInOrder spell out. |
| RrMachine.Scheduler.ClearCheck | rr_scheduler/rr_scheduler.c:142-146 | The update in place is the transition ClearCheck. |
| RrMachine.Scheduler.Iterate | rr_scheduler/rr_scheduler.c:104-158 | One pass of the loop is the transition Iteration, and checkBlockEnd runs exactly once in it. |
| RrMachine.Scheduler.Execute | rr_scheduler/rr_scheduler.c:104-158 | With the generator at work beside it the main loop ends for every input whose run is sound (by EndsWellExactly, for no other does it end like this), with every job finished once and fully accounted for. |
| RrMachine.Simulate | rr_scheduler/rr_scheduler.c:77-158 | A channel, a generator and a scheduler created for such an input and run to the end return every job of the input, once, with turnaround = runtime + waiting. |
| ChildProcess.SentExactly | process/RR_process.c:155-164 | The first k requests are sent within n ticks exactly if their ticks are between 0 and n-1 and strictly increase. |
| ChildProcess.Process.Live | process/RR_process.c:150-168 | The child uses up its runtime and sends the longest ordered part of its program, in order. |
| ChildProcess.RequestsFollowTicks | process/RR_process.c:150-168 | At every tick of every run each child has sent exactly the requests its consumed ticks call for; blocking and preemption neither repeat nor skip any. |
| PcbQueue.Queue.constructor | data_structures/PCB/Sch_PCB.c:5-16 | A new queue is empty and coherent. |
| PcbQueue.Queue.Enqueue | data_structures/PCB/Sch_PCB.c:23-44 | The contents gain x at the end; front, rear, size and links stay coherent. |
| PcbQueue.Queue.Dequeue | data_structures/PCB/Sch_PCB.c:46-61 | The front is taken; on an empty queue, where the program exits, nothing is. |
| PcbQueue.Queue.DequeueRear | data_structures/PCB/Sch_PCB.c:63-86 | The rear is taken, or nothing from an empty queue. |
| PcbQueue.Queue.DequeueById | data_structures/PCB/Sch_PCB.c:175-208 | The first control block with the id is unlinked, wherever it is; the others keep their order. |
| PcbQueue.Queue.EnqueuePriority | data_structures/PCB/Sch_PCB.c:114-151 | The control block is linked in at the place the walk stops. |
| PcbQueue.Queue.TotalRemainingTime | data_structures/PCB/Sch_PCB.c:163-173 | The loop computes the sum of the remaining times. |
| PcbQueue.CheckBlockEnd | rr_scheduler/rr_scheduler_functions.c:428-453 | On the linked lists themselves, a walk that unlinks the node it is at visits every node once and is a stable split by deadline. |
| Hpf.InsertSortedExactly | data_structures/PCB/Sch_PCB.c:114-151 | enqueue_priority keeps the order by priority and arrival exactly unless the front has the same priority and arrived later than the new process; otherwise the new process goes behind exactly those that are more urgent or its equals. |
| Hpf.InsertByPriority | data_structures/PCB/Sch_PCB.c:114-151 | enqueue_priority always keeps the order by priority and adds exactly the new process. |
| Hpf.PreemptKeeps | scheduler/scheduler_functions.c:245-259 | The guard of the preemption rules the bad case out: the stopped process gets into its place. |
| Hpf.AlgoKeeps | scheduler/scheduler_functions.c:238-267 | HPF_algo keeps the invariant, and afterwards the process on the CPU is at least as urgent as every ready one. |
| Hpf.PriorityOrder | scheduler/scheduler.c:131-275 | In every run, at every tick: queue sorted by priority, running process most urgent, no job lost or duplicated, finished processes accounted for; and if the jobs come in order of arrival, processes of the same priority are queued in that order. |
| Hpf.WhoRuns | scheduler/scheduler_functions.c:238-267 | After every iteration of every run: an exit has left the CPU empty for one tick; a process on the CPU was put off, queued with what it has left, exactly if one of strictly better priority waited or arrived, and has run for a tick otherwise; a free CPU has gone at once to one of the most urgent of those waiting or arriving, which has run for a tick. |
| Hpf.StatesMatch | scheduler/scheduler_functions.c:121-168 | At every tick of every HPF run the state in a control block says where its process is. |
| Hpf.FiguresAreExact | scheduler/scheduler.c:170-195 | At every tick of every HPF run the online figures are mean and sum of squared deviations of the weighted turnarounds of the finished processes, which times the runtime are runtime plus waiting time. |
| Hpf.TimeConserved | scheduler/scheduler_functions.c:121-168 | At every tick of an HPF run the time from arrival to the last stop of a started process (or to now, on the CPU) is its waiting time plus the time it has run; up to its first stop it has waited from its arrival to its start. |
| Hpf.Terminates | scheduler/scheduler.c:131-275 | Every run is over after an explicit number of ticks, with every job finished once, in whatever order the jobs come. |
| HpfMachine.Scheduler.Algo | scheduler/scheduler_functions.c:238-267 | On the linked ready queue the update in place is the transition Algo. |
| HpfMachine.Scheduler.Receive | scheduler/scheduler.c:206-231 | On any messages that end it, the loop that takes them lowest type first queues by priority and leaves behind what the recursive reading of the messages says. |
| HpfArrivals.RunReceives | scheduler/scheduler.c:206-231 | In every HPF run every receive loop ends, takes every process under way, and does what the transition Receive says. |
| HpfMachine.Scheduler.Finish | scheduler/scheduler.c:157-200 | The update in place is the transition Finish. |
| HpfMachine.Scheduler.Execute | scheduler/scheduler.c:131-275 | With the generator at work beside it the main loop ends for every input, with every job finished once and fully accounted for. |
| HpfMachine.Simulate | scheduler/scheduler.c:131-275 | A channel, a generator and a scheduler created for any input and run to the end return every job of the input, once, with turnaround = runtime + waiting. |
| Routing.RouteConserves | scheduler/scheduler_functions.c:281-314 | The projected counts and remaining times describe exactly what was sent to each CPU, and every queued process was sent to one of them. |
| Routing.RouteBalances | scheduler/scheduler_functions.c:286-306 | The larger final count is the maximum of both initial counts and half of all processes, rounded up. |
| Routing.GreedyIsOptimal | scheduler/scheduler_functions.c:286-306 | No other assignment of the same queue, out of all 2^n, ends with a smaller larger count. |
| Routing.RouteKeepsOrder | scheduler/scheduler_functions.c:286-306 | Each CPU receives its processes in queue order. |
| Routing.MessageTrip | scheduler/scheduler_functions.c:597-606 | The trip from control block to message and back keeps what identifies a process and restores its runtime; it is the identity exactly on processes that have never run. |
| Stealing.StepKeeps | scheduler/scheduler_functions.c:608-699 | Every step of main scheduler or sub-scheduler keeps the protocol invariant and the number of places in which any given process is. |
| Stealing.ExactlyOnePlace | sub-sched/sub_scheduler.c:206-285 | After any interleaving of steps every process of the input is in exactly one place, and nothing else is anywhere. |
| Stealing.StartedStays | sub-sched/sub_scheduler.c:265-275 | A process that has started never leaves its CPU. |
| Stealing.TickKeeps | sub-sched/sub_scheduler.c:87-184 | A whole tick of a sub-scheduler neither loses nor duplicates a process, and keeps what it has started. |
| Stealing.StolenIsIntact | sub-sched/sub_scheduler.c:245-285 | What is stolen is the rear of the drained queue, has never run, and is restored by the receiver exactly as it was; nothing is stolen only if the queue is empty. |
| Stealing.StealNeverStuck | scheduler/scheduler_functions.c:635-653 | While the main scheduler waits, exactly one of the signalled CPU and the reply is what it waits for; outside a steal nothing of one is left over. |
| Stealing.StealFromBusier | scheduler/scheduler_functions.c:608-699 | A steal, step by step: the CPU with more remaining time, by more than the limit, gives up the last process of its queue, which goes to the end of the mailbox of the other, and both are to be stalled; if it has none waiting, nothing else happens. |
| Stealing.RoutedInOrder | scheduler/scheduler_functions.c:277-316 | Routing empties the queue of the main scheduler: each CPU is sent its own processes in queue order, CPU 1 those for which it had no more ready processes than CPU 2. |
| Stealing.InputInOrder | scheduler/scheduler.c:206-231 | After any interleaving what the main scheduler has not routed yet is the rest of the input, in order. |
| Stealing.ToldAfterInput | scheduler/scheduler.c:266-273 | After any interleaving both sub-schedulers have been told of the end of the input exactly if it was sent out, and then no job is still to come. |
| StealingService.LoopServes | sub-sched/sub_scheduler.c:87-184 | The loop body of a tick, for any state that any sequence of events leads to: an exited process is finished and the CPU rests for this tick; one that has not exited runs for a tick; and a free CPU starts at once whoever has waited longest, which runs for a tick; both unless a stall signal came within the last three ticks. |
| StealingService.SignalReads | sub-sched/sub_scheduler.c:206-285 | A steal or stall signal makes the CPU read its messages and leaves the process on it as far as it is; a steal takes the last process of the queue. |
| StealingOrder.ServedInOrder | sub-sched/sub_scheduler_functions.c:123-140 | After any sequence of events the processes of a CPU, those started first and in the order of their starts, are those that it was sent, in the order of the messages, without the stolen ones. |
| StealingOrder.NobodyOvertaken | sub-sched/sub_scheduler_functions.c:123-140 | When a process has started on a CPU, every process that came to it before has started before it or was stolen. |
| StealingOrder.StartsAreFinal | sub-sched/sub_scheduler.c:265-275 | No event changes who has started on a CPU, or in which order. |
| StealingTime.TurnaroundExactly | sub-sched/sub_scheduler.c:206-243 | After any sequence of messages, steals, stalls, loop bodies and clock ticks at a sub-scheduler: the turnaround of a finished process is runtime plus waiting time, stalls included, less one tick for each stall signal that stopped it in a tick it had already used; the account is exact if and only if there was none. |
| StealingTime.RunningExactly | sub-sched/sub_scheduler.c:148-161 | The same for the process on the CPU, up to now or, while it is stalled, up to its stop. |
| StealingTime.PromptStallsConserve | sub-sched/sub_scheduler.c:287-300 | If every stall signal comes before the loop body of its tick, every finished process has turnaround = runtime + waiting. |
| StealingTime.LateStallDoubles | sub-sched/sub_scheduler.c:206-243 | A concrete sequence of events in which a process that runs for 2 and waits for 3 ticks has a turnaround of 4. |
| StealingMachine.SubScheduler.Drain | sub-sched/sub_scheduler.c:89-106 | The receive loop is the transition Drain. |
| StealingMachine.SubScheduler.StealHandler | sub-sched/sub_scheduler.c:245-285 | The handler is the transition StealHandler and sends exactly its reply. |
| StealingMachine.SubScheduler.StallSignal | sub-sched/sub_scheduler.c:206-243 | The handler is the transition StallSignal. |
| StealingMachine.SubScheduler.Unstall | sub-sched/sub_scheduler.c:148-161 | The end of a stall is the transition Unstall. |
| StealingMachine.SubScheduler.Dispatch | sub-sched/sub_scheduler_functions.c:123-140 | FCFS_algo is the transition Dispatch, which by LoopServes and ServedInOrder starts who has waited longest, and publishes a load that counts the dispatched process. |
| StealingMachine.SubScheduler.UpdateLoad | sub-sched/sub_scheduler.c:339-359 | The slots of this CPU become its queue length and remaining time, the running child's included; the other CPU's slots stay. |
| StealingMachine.SubScheduler.FinishLogic | sub-sched/sub_scheduler.c:287-320 | The update in place is the transition Finish, after which by LoopServes the CPU rests for this tick alone, and keeps the online figures those of the finished processes. |
| StealingMachine.SubScheduler.Tick | sub-sched/sub_scheduler.c:87-184 | One tick of the main loop is the transition Tick, and the load it publishes is that of its final state. |
| StealingMachine.MainScheduler.RouteAll | scheduler/scheduler_functions.c:277-316 | The routing loop sends what the plan says, in order, and publishes its projections. |
| StealingMachine.MainScheduler.ChooseBusier | scheduler/scheduler_functions.c:612-633 | The four load slots are read; a CPU is chosen exactly if the remaining times differ by more than the limit, and it is the busier one. |
| StealingMachine.MainScheduler.ForwardStolen | scheduler/scheduler_functions.c:635-684 | A stolen process goes to the other CPU alone, and the four numbers read before the steal are corrected, not below zero, and written over all four slots, whatever these hold by then. |
| Arrival.TakeLowest | rr_scheduler/rr_scheduler_functions.c:511-537 | Lowest-type-first reading takes the oldest process under way, and anything else only if there is none. |
| Arrival.AdmissionsArePrefix | rr_scheduler/rr_scheduler_functions.c:505-548 | However generator and scheduler interleave: admissions are a prefix of the input in order; a call that returns on sentinel t has admitted every job arriving up to t; after the final message all have been admitted, once. |
| Arrival.MessagesConserved | process_generator/process_generator.c:148-182 | However generator and scheduler interleave: what is under way is what was sent, in that order, without what was taken; no message is lost or duplicated. |
| Arrival.CallReturnsExactly | rr_scheduler/rr_scheduler_functions.c:511-545 | A call admits the process it takes and goes on, skips a sentinel of an earlier tick, and returns on any other sentinel or on the final message. |
| Arrival.GeneratorGoesOn | process_generator/process_generator.c:148-182 | At any moment until everything is sent the generator can do exactly one thing: the next tick, the next due job, the sentinel when none is due, or the final message. |
| ArrivalMachine.ReceiveLowest | rr_scheduler/rr_scheduler_functions.c:511 | The loop removes the first message of the lowest type. |
| ArrivalMachine.Generator.SendTick | process_generator/process_generator.c:148-182 | At a tick exactly the jobs due go out, in order, then the sentinel, and after the last job the final message. |
| ArrivalMachine.ReceptionTakesAll | rr_scheduler/rr_scheduler_functions.c:505-548 | A call returns exactly if a sentinel of its tick or later, or the final message, is under way, and then it has taken every process under way, in order, before the message that ended it. |
| ArrivalMachine.GeneratorInStep | process_generator/process_generator.c:148-182 | Tick by tick the generator keeps in step with what the scheduler has still to admit; with no jobs, too. |
| ArrivalMachine.CallInStep | rr_scheduler/rr_scheduler_functions.c:505-548 | In step with the clock a call takes exactly the jobs that have arrived and returns on the sentinel of its own tick, or on the final message once the generator is done; after a sentinel both sides are in step for the next tick. |
| Statistics.WelfordIsTwoPass | rr_scheduler/rr_scheduler_functions.c:482-492 | After any number of finishes mean * n is the sum of the weighted turnarounds and M2 the sum of their squared deviations from the mean; the weighted turnaround of a process, times its runtime, is the time from its arrival to its finish. |
| Statistics.SumsOfFinished | rr_scheduler/rr_scheduler_functions.c:484-496 | The other figures are the plain sums over the finished processes, of these weighted turnarounds, of waiting times and of runtimes, and the last finish time. |
| Statistics.ReportedFigures | rr_scheduler/rr_scheduler_functions.c:321-325 | At reporting the mean equals the recorded sum divided by the number of processes. |

## Left out

- RrTicks.RunKeeps: assumes sound runs, and so does everything about time that follows from it; of the states after an iteration that is not sound the theorems say that queues, jobs and memory are in order until the program fails (`AlwaysSane`), what becomes of the process concerned (`FatedForever`), and that the run does not end well (`UnsoundEndsBadly`).
- RrLiveness.BoundedWaiting: assumes a sound run up to the bound; after a fault of an exited child the scheduler can hang, see `HangsWithinThree`.
- Page numbers of 64 and above: outside the 10-bit address space, and handled in `swap` alone.
- Page tables as separately allocated arrays: here a table is a sequence stored in its frame, so aliasing of tables and use after free are not modelled.
- Control blocks as heap objects: they are values in a map by id (Round-Robin) or in the list nodes (HPF, FCFS); `get_process` is a lookup, and `GetProcess` shows that the list walk finds the same.
- The `requests` and generator queues as linked lists: the same list as the PCB queue, used through its sequence.
- `dequeue`, `peek` and `peek_rear` on an empty queue exit the program; `Queue.Dequeue` returns None there, the other two are not modelled.
- System V calls, fork, exec, signals and shared memory as such: only their effect is modelled. Signal handlers are atomic; interleavings inside a queue operation are not modelled.
- The gating of the two-CPU scheduler: the semaphore that lets both sub-schedulers start a tick, and the check of the threshold only every N ticks or during a stall; here it may be checked whenever no steal is under way.
- The shutdown of the sub-schedulers (message type 6): replies to a steal are assumed to be of type 11 or 12.
- Agreement of the load slots with the true queues between updates: the code lets them go stale, so routing and stealing are proved for arbitrary contents.
- A claim that a steal shrinks the imbalance: a tail job larger than the gap does not.
- Rounding of `float`, CPU utilisation and the standard deviation itself (the square root of M2 / n).
- Log files, input parsing, prompts, `parse_hexa_address`, `validate`, `select_cpu`, `receiveFirstProcess`, `update_waiting_times`, and the older `RR_algo` in `scheduler/scheduler_functions.c`.
- 32-bit overflow of clocks, counters and sums.
