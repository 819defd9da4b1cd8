/** The Round-Robin scheduler, its child processes and the memory manager as
    one kernel in lock-step ticks. Each function is one phase of the loop. */
module RoundRobin {
  import opened Common
  import opened Mmu
  import Statistics

  /** What a run depends on: the input file, the request file of every process,
      the quantum and the number of quantums between two R-bit clears. */
  datatype Config = Config(jobs: seq<Job>, programs: map<int, seq<Request>>, quantum: int, k: int)

  /** The private state of a child process: its own remaining time, the ticks it
      has consumed, and its position in its request list. */
  datatype Child = Child(remaining: int, ran: int, next: nat)

  /** All state of the simulation between two iterations; `clock` is the time of
      the next iteration. Control blocks live in mem.pcbs, queues hold ids. */
  datatype Kernel = Kernel(
    clock: int, mem: Mem,
    current: seq<int>, ready: seq<int>, blocked: seq<int>, running: Option<int>,
    children: map<int, Child>, mailbox: seq<Request>, requests: seq<Request>,
    shm: int, finishSignal: bool,
    quantums: int, lastClear: int, clears: nat,
    preemptAt: int, switchUntil: int, checked: bool,
    incoming: seq<Job>, receiving: bool, lastSync: int,
    perf: Statistics.Perf, finished: seq<Pcb>, hung: bool)

  function Boot(cfg: Config): Kernel {
    Kernel(0, Mem(seq(FRAMES, _ => BOOT_FRAME), map[], false),
           [], [], [], None, map[], [], [], 0, false,
           0, -1, 0, -1, -1, false, cfg.jobs, true, -1, Statistics.INITIAL, [], false)
  }

  // ---- handleRequests ------------------------------------------------------

  /** msgrcv on the request queue: the first message of type id, if any. */
  function TakeMail(mail: seq<Request>, id: int): (Option<Request>, seq<Request>) {
    if mail == [] then (None, [])
    else if mail[0].sender == id then (Some(mail[0]), mail[1..])
    else
      var (m, rest) := TakeMail(mail[1..], id);
      (m, [mail[0]] + rest)
  }

  function HandleRequests(s: Kernel): Kernel {
    if s.running.None? then s
    else
      var (m, rest) := TakeMail(s.mailbox, s.running.value);
      CheckReqs(if m.Some?
                then s.(mailbox := rest, requests := s.requests + [m.value.(tick := s.clock)])
                else s)
  }

  function CheckReqs(s: Kernel): Kernel {
    if s.requests == [] || s.requests[0].sender !in s.mem.pcbs then s
    else
      var r := s.requests[0];
      var (mem, res) := Check(s.mem, r.sender, r.page, r.write);
      if r.tick > s.clock then s.(mem := mem)
      else
        var s1 := s.(mem := mem, requests := s.requests[1..]);
        if !res.Miss? then s1
        else if s1.running == Some(r.sender) then BlockRunning(s1, r)
        else BlockReady(s1, r)
  }

  /** The running process faulted: it leaves the CPU for the block queue. */
  function BlockRunning(s: Kernel, r: Request): Kernel
    requires r.sender in s.mem.pcbs
  {
    var p := r.sender;
    var c := s.mem.pcbs[p].(remaining := s.shm, lastStopped := s.clock, state := Blocked);
    s.(mem := FaultHandler(SetPcb(s.mem, p, c), s.clock, p, r.page, Demand, r.write),
       quantums := s.quantums + 1, blocked := s.blocked + [p],
       switchUntil := s.clock + 1, running := None, preemptAt := -1)
  }

  /** The branch for a faulting process that is not running. */
  function BlockReady(s: Kernel, r: Request): Kernel
    requires r.sender in s.mem.pcbs
  {
    var p := r.sender;
    if p !in s.ready then s
    else s.(mem := FaultHandler(SetPcb(s.mem, p, s.mem.pcbs[p].(state := Blocked)), s.clock, p, r.page, Demand, r.write),
            ready := Without(s.ready, p), blocked := s.blocked + [p])
  }

  // ---- checkBlockEnd -------------------------------------------------------

  predicate Due(s: Kernel, p: int) {
    p in s.mem.pcbs && s.mem.pcbs[p].unblockAt <= s.clock
  }

  function WakeOne(s: Kernel, p: int): Kernel {
    s.(mem := Wake(s.mem, p), blocked := Without(s.blocked, p), ready := s.ready + [p])
  }

  /** The walk over the nodes `rest` of the block queue. */
  function WakeWalk(s: Kernel, rest: seq<int>): Kernel
    decreases |rest|
  {
    if rest == [] then s
    else WakeWalk(if Due(s, rest[0]) then WakeOne(s, rest[0]) else s, rest[1..])
  }

  function CheckBlockEnd(s: Kernel): Kernel {
    WakeWalk(s, s.blocked)
  }

  // ---- handleFinishedProcesses ---------------------------------------------

  /** A finish signal is credited to the running process; waiting for a child
      that has not exited would block the scheduler for ever (`hung`). */
  function HandleFinished(s: Kernel): Kernel {
    if s.running.None? || !s.finishSignal || s.running.value !in s.mem.pcbs then s
    else
      var p := s.running.value;
      if p in s.children && s.children[p].remaining > 0 then s.(hung := true) else FinishRunning(s, p)
  }

  function FinishRunning(s: Kernel, p: int): Kernel
    requires p in s.mem.pcbs
  {
    var c := s.mem.pcbs[p].(finish := s.clock, remaining := s.shm, state := Done);
    s.(finishSignal := false, switchUntil := s.clock + 1, quantums := s.quantums + 1,
       perf := Statistics.Record(s.perf, c), finished := s.finished + [c],
       current := Without(s.current, p), mem := FreeProcess(s.mem, p), children := s.children - {p},
       running := None, preemptAt := -1)
  }

  // ---- receiveProcesses ----------------------------------------------------

  /** The next job becomes a ready process. */
  function AdmitNext(s: Kernel): Kernel
    requires s.incoming != []
  {
    var j := s.incoming[0];
    s.(mem := SetPcb(s.mem, j.id, CreatePcb(j)), ready := s.ready + [j.id], current := s.current + [j.id],
       incoming := s.incoming[1..])
  }

  /** Admission of the jobs at the head of the input that have arrived. */
  function AdmitArrived(s: Kernel): Kernel
    decreases |s.incoming|
  {
    if s.incoming == [] || s.incoming[0].arrival > s.clock then s else AdmitArrived(AdmitNext(s))
  }

  /** Everything that has arrived is admitted; the sentinel of this tick ends
      the call until the generator is done, its final message afterwards. */
  function Receive(cfg: Config, s: Kernel): Kernel {
    var s1 := AdmitArrived(s);
    if s.clock <= LastArrival(cfg.jobs) then s1.(lastSync := s.clock) else s1.(receiving := false)
  }

  // ---- RR_algo -------------------------------------------------------------

  function Begun(c: Pcb, t: int): Pcb {
    if c.start == -1 then c.(start := t, waiting := t - c.arrival) else c
  }

  /** The forked process with its memory set up as in mem. */
  function Launched(s: Kernel, p: int, mem: Mem): Kernel
    requires p in s.mem.pcbs
  {
    if p !in mem.pcbs then s.(mem := mem)
    else
      s.(mem := SetPcb(mem, p, mem.pcbs[p].(forked := true, state := Running)),
         children := s.children[p := Child(s.mem.pcbs[p].remaining, 0, 0)], shm := s.mem.pcbs[p].remaining)
  }

  /** runProcess at time t, for a process that was never started. */
  function Launch(s: Kernel, p: int, t: int): Kernel
    requires p in s.mem.pcbs
  {
    Launched(s, p, InitProcess(SetPcb(s.mem, p, Begun(s.mem.pcbs[p], t)), t, p))
  }

  /** runProcess at time t, for a stopped process. */
  function Resume(s: Kernel, p: int, t: int): Kernel
    requires p in s.mem.pcbs
  {
    var c1 := Begun(s.mem.pcbs[p], t);
    var c2 := c1.(waiting := c1.waiting + (if c1.lastStopped >= 0 then t - c1.lastStopped else 0),
                  state := Running);
    s.(mem := SetPcb(s.mem, p, c2), shm := c1.remaining)
  }

  function RunProcess(s: Kernel, p: int, t: int): Kernel {
    if p !in s.mem.pcbs then s
    else if s.mem.pcbs[p].forked then Resume(s, p, t)
    else Launch(s, p, t)
  }

  function TakeFront(s: Kernel): Kernel
    requires s.ready != []
  {
    s.(running := Some(s.ready[0]), ready := s.ready[1..])
  }

  function Dispatch(s: Kernel, q: int, t: int): Kernel
    requires s.ready != []
  {
    RunProcess(TakeFront(s), s.ready[0], t).(preemptAt := t + q)
  }

  predicate FrontJustArrived(s: Kernel) {
    s.ready != [] && s.ready[0] in s.mem.pcbs && s.mem.pcbs[s.ready[0]].arrival == s.clock
  }

  function StopRunning(s: Kernel, p: int): Kernel
    requires p in s.mem.pcbs
  {
    var c := s.mem.pcbs[p].(remaining := s.shm, lastStopped := s.clock, state := Waiting);
    s.(mem := SetPcb(s.mem, p, c), quantums := s.quantums + 1, ready := s.ready + [p],
       running := None, switchUntil := s.clock + 1)
  }

  /** The preempted process is back in the queue and the put-off block-end
      check is done. */
  function PutBack(s: Kernel, p: int): Kernel
    requires p in s.mem.pcbs
  {
    var s1 := StopRunning(s, p);
    if s1.checked then s1 else CheckBlockEnd(s1).(checked := true)
  }

  /** Preemption takes one tick: the next process starts at clock + 1. */
  function Preempt(s: Kernel, p: int, q: int): Kernel
    requires p in s.mem.pcbs
  {
    SwitchTo(PutBack(s, p), q, s.clock + 1)
  }

  function SwitchTo(s: Kernel, q: int, t: int): Kernel {
    if s.ready == [] then s else Dispatch(s, q, t)
  }

  function RrAlgo(s: Kernel, q: int): Kernel {
    match s.running
    case Some(p) =>
      if s.clock < s.preemptAt then s
      else if s.ready == [] || FrontJustArrived(s) then
        s.(preemptAt := s.clock + q, quantums := s.quantums + 1)
      else if p in s.mem.pcbs then Preempt(s, p, q)
      else s
    case None => if s.ready == [] then s else Dispatch(s, q, s.clock)
  }

  // ---- The loop ------------------------------------------------------------

  predicate ClearDue(s: Kernel, k: int) {
    k > 0 && s.quantums > 0 && s.quantums % k == 0 && s.quantums > s.lastClear
  }

  function ClearNow(s: Kernel): Kernel {
    s.(mem := ClearRecent(s.mem), lastClear := s.quantums, clears := s.clears + 1)
  }

  /** clear_recent every k quantums. */
  function ClearCheck(s: Kernel, k: int): Kernel {
    if ClearDue(s, k) then ClearNow(s) else s
  }

  function Program(cfg: Config, p: int): seq<Request> {
    if p in cfg.programs then cfg.programs[p] else []
  }

  /** One granted tick of the running child. */
  function ChildStep(cfg: Config, s: Kernel): Kernel {
    if s.running.None? || s.running.value !in s.children || s.children[s.running.value].remaining <= 0 then s
    else
      var p := s.running.value;
      var ch := s.children[p];
      var prog := Program(cfg, p);
      var send := ch.next < |prog| && prog[ch.next].tick == ch.ran;
      s.(mailbox := if send then s.mailbox + [prog[ch.next].(sender := p)] else s.mailbox,
         children := s.children[p := Child(ch.remaining - 1, ch.ran + 1, if send then ch.next + 1 else ch.next)],
         shm := ch.remaining - 1,
         finishSignal := s.finishSignal || ch.remaining == 1)
  }

  /** The part of an iteration that a context switch suspends. */
  function Schedule(cfg: Config, s: Kernel): Kernel {
    var s0 := s.(switchUntil := -1);
    var s1 := if s0.receiving && s0.clock > s0.lastSync then Receive(cfg, s0) else s0;
    var s2 := if s1.clock > 0 then RrAlgo(s1, cfg.quantum) else s1;
    var s3 := ClearCheck(s2, cfg.k);
    if s3.clock >= s3.switchUntil then ChildStep(cfg, s3) else s3
  }

  /** The first block-end check is put off at a quantum boundary. */
  function FirstCheck(s: Kernel): Kernel {
    if s.preemptAt != s.clock || s.running.None?
    then CheckBlockEnd(s).(checked := true)
    else s.(checked := false)
  }

  function Settle(cfg: Config, s: Kernel): Kernel {
    HandleFinished(FirstCheck(HandleRequests(s)))
  }

  function Advance(cfg: Config, s: Kernel): Kernel {
    if s.switchUntil == -1 || s.clock >= s.switchUntil then Schedule(cfg, s) else s
  }

  function LateCheck(s: Kernel): Kernel {
    if s.checked then s else CheckBlockEnd(s)
  }

  function Iteration(cfg: Config, s: Kernel): Kernel {
    var s1 := Settle(cfg, s);
    if s1.hung then s1
    else
      var s2 := LateCheck(Advance(cfg, s1));
      s2.(clock := s.clock + 1)
  }

  predicate Finished(s: Kernel) {
    s.ready == [] && s.blocked == [] && !s.receiving && s.running.None?
  }

  /** One pass of the main loop; a stuck or trapped kernel makes no step. */
  function Tick(cfg: Config, s: Kernel): Kernel {
    if Finished(s) || s.hung || s.mem.trapped then s else Iteration(cfg, s)
  }

  function Run(cfg: Config, n: nat): Kernel {
    if n == 0 then Boot(cfg) else Tick(cfg, Run(cfg, n - 1))
  }
}
