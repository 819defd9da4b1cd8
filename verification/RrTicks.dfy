/** One whole iteration of the Round-Robin loop, and every run of it. */
module RrTicks {
  import opened Common
  import opened Mmu
  import opened MmuProofs
  import opened RoundRobin
  import opened RrInvariants
  import opened RrBlockEnd
  import opened RrWork

  // ---- The timing part of the invariant -------------------------------------

  /** Every blocked process has between lo and hi ticks to go. */
  ghost predicate Deadlines(s: Kernel, lo: int, hi: int) {
    forall p :: p in s.blocked ==>
      p in s.mem.pcbs && s.clock + lo <= s.mem.pcbs[p].unblockAt <= s.clock + hi
  }

  /** How many positive multiples of k are at most n. */
  function Multiples(n: int, k: int): (r: nat)
    requires k > 0
  {
    if n <= 0 then 0 else Multiples(n - 1, k) + (if n % k == 0 then 1 else 0)
  }

  /** The largest positive multiple of k up to n, or -1. */
  function LastMultiple(n: int, k: int): int
    requires k > 0
  {
    if n <= 0 then -1 else if n % k == 0 then n else LastMultiple(n - 1, k)
  }

  /** The quantums counted when the clear was last considered: at most one has
      been counted since, by the fault or exit that emptied the CPU. */
  function Seen(s: Kernel): int {
    if s.running.None? && s.switchUntil != -1 then s.quantums - 1 else s.quantums
  }

  /** R bits were cleared once for each multiple of k reached, the last time at
      the last of them. */
  predicate ClearsOk(s: Kernel, k: int) {
    k > 0 ==> Seen(s) >= 0 && s.clears == Multiples(Seen(s), k) && s.lastClear == LastMultiple(Seen(s), k)
  }

  ghost predicate Timing(cfg: Config, s: Kernel) {
    && (s.running.None? ==> s.preemptAt == -1)
    && (s.running.Some? ==> s.clock <= s.preemptAt <= s.clock + cfg.quantum)
    && s.switchUntil <= s.clock && s.lastSync < s.clock
    && Deadlines(s, 0, 19)
    && (!s.receiving ==> s.incoming == [])
    && (s.clock == 0 ==> s.ready == [] && s.running.None? && s.blocked == [])
    && (forall p :: p in s.mem.pcbs ==> s.mem.pcbs[p].arrival < s.clock)
    && ClearsOk(s, cfg.k)
  }

  /** The invariant between two iterations. */
  ghost predicate Inv(cfg: Config, s: Kernel) {
    Core(cfg, s, s.clock) && Timing(cfg, s)
  }

  // ---- Settle: requests, block end, finish ----------------------------------

  lemma CheckBlockEndTimes(cfg: Config, s: Kernel, t: int, hi: int)
    requires Core(cfg, s, t) && Deadlines(s, 0, hi)
    ensures var s' := CheckBlockEnd(s);
      && Core(cfg, s', t) && Deadlines(s', 1, hi) && Alike(s, s')
      && s' == s.(mem := s'.mem, blocked := s'.blocked, ready := s'.ready)
      && s.ready <= s'.ready && s'.mem.pcbs.Keys == s.mem.pcbs.Keys
  {
    BlockEndKeeps(cfg, s, t);
    BlockEndSplits(s);
    BlockEndFrame(s, s.blocked);
    SplitTimes(s, CheckBlockEnd(s), hi);
  }

  lemma SplitTimes(s: Kernel, s': Kernel, hi: int)
    requires QueuesOk(s) && Deadlines(s, 0, hi)
    requires s'.clock == s.clock && s'.children == s.children && s'.mem.pcbs.Keys == s.mem.pcbs.Keys
    requires forall p :: p in s.mem.pcbs ==>
               s'.mem.pcbs[p] == if p in s.blocked && Due(s, p) then Woken(s, p) else s.mem.pcbs[p]
    requires forall p :: p in s'.blocked ==> p in s.blocked && !Due(s', p)
    ensures Deadlines(s', 1, hi) && Alike(s, s')
  {
  }

  lemma CheckedKeeps(cfg: Config, s: Kernel, hi: int)
    requires Core(cfg, s, s.clock) && Deadlines(s, 0, hi)
    ensures var s' := CheckBlockEnd(s).(checked := true);
      && Core(cfg, s', s.clock) && Deadlines(s', 1, hi) && Alike(s, s')
      && s' == s.(mem := s'.mem, blocked := s'.blocked, ready := s'.ready, checked := true)
      && s.ready <= s'.ready && s'.mem.pcbs.Keys == s.mem.pcbs.Keys
  {
    CheckBlockEndTimes(cfg, s, s.clock, hi);
    CoreTransfers(cfg, CheckBlockEnd(s), CheckBlockEnd(s).(checked := true), s.clock);
  }

  predicate Emptied(s: Kernel) {
    FaultNow(s) || s.finishSignal
  }

  /** The kernel once requests, block ends and finishes are dealt with: the CPU
      is as before, or was emptied just now by a fault or an exit. */
  ghost predicate Settled(cfg: Config, s: Kernel, s': Kernel, hi: int) {
    && Core(cfg, s', s.clock) && s'.mailbox == [] && !s'.finishSignal
    && s' == s.(mem := s'.mem, children := s'.children, current := s'.current, ready := s'.ready,
                blocked := s'.blocked, running := s'.running, mailbox := [], finishSignal := false,
                preemptAt := s'.preemptAt, switchUntil := s'.switchUntil, quantums := s'.quantums,
                checked := s'.checked, perf := s'.perf, finished := s'.finished)
    && CpuSettled(s, s')
    && Deadlines(s', if s'.checked then 1 else 0, hi)
    && s.ready <= s'.ready && Alike(s, s')
    && Work(s') == Work(s)
    && |s'.current| == |s.current| - (if s.finishSignal then 1 else 0)
  }

  /** The CPU was emptied by a fault or an exit, or all is as it was. */
  predicate CpuSettled(s: Kernel, s': Kernel) {
    && (Emptied(s) ==> s.running.Some? && s'.running.None? && s'.preemptAt == -1
                       && s'.switchUntil == s.clock + 1 && s'.quantums == s.quantums + 1)
    && (!Emptied(s) ==> s'.running == s.running && s'.preemptAt == s.preemptAt
                        && s'.switchUntil == s.switchUntil && s'.quantums == s.quantums)
    && (s'.running.Some? ==> (s'.checked <==> s.preemptAt != s.clock))
  }

  lemma BlockedInTime(cfg: Config, s: Kernel, s1: Kernel, hi: int)
    requires Core(cfg, s, s.clock) && Deadlines(s, 0, hi)
    requires FaultNow(s) ==> hi >= 20 && Blocks(cfg, s, s1, s.running.value)
    requires !FaultNow(s) ==> s1.blocked == s.blocked && s1.mem.pcbs == s.mem.pcbs && s1.clock == s.clock
    ensures Deadlines(s1, 0, hi)
  {
    if FaultNow(s) {
      Place(s, s.running.value);
    }
  }

  lemma FirstCheckKeeps(cfg: Config, s: Kernel, hi: int)
    requires Core(cfg, s, s.clock) && Deadlines(s, 0, hi)
    ensures var s' := FirstCheck(s);
      && Core(cfg, s', s.clock) && Deadlines(s', if s'.checked then 1 else 0, hi) && Alike(s, s')
      && s' == s.(mem := s'.mem, blocked := s'.blocked, ready := s'.ready, checked := s'.checked)
      && (s'.checked <==> s.preemptAt != s.clock || s.running.None?)
      && s.ready <= s'.ready && s'.mem.pcbs.Keys == s.mem.pcbs.Keys
  {
    if s.preemptAt != s.clock || s.running.None? {
      CheckedKeeps(cfg, s, hi);
    } else {
      CoreTransfers(cfg, s, FirstCheck(s), s.clock);
    }
  }

  /** From s to s' the running process exited, if it had signalled its end. */
  ghost predicate Finishes(s: Kernel, s': Kernel) {
    && (!s.finishSignal ==> s' == s)
    && (s.finishSignal ==>
          && s.running.Some? && s.running.value !in s.blocked
          && s' == s.(finishSignal := false, switchUntil := s.clock + 1, quantums := s.quantums + 1,
                      perf := s'.perf, finished := s'.finished, current := Without(s.current, s.running.value),
                      mem := s'.mem, children := s.children - {s.running.value}, running := None, preemptAt := -1)
          && s'.mem.pcbs == s.mem.pcbs - {s.running.value}
          && Work(s') == Work(s) && |s'.current| == |s.current| - 1)
    && Alike(s, s')
  }

  lemma FinishShape(cfg: Config, s: Kernel)
    requires Core(cfg, s, s.clock)
    ensures Finishes(s, HandleFinished(s))
  {
    if s.finishSignal {
      var p := s.running.value;
      Place(s, p);
      assert ProcInv(cfg, s, p);
      assert MmuProofs.ProcOk(s.mem, p);
      WorkFinish(s, HandleFinished(s), p);
    }
  }

  lemma SettleKeeps(cfg: Config, s: Kernel, hi: int)
    requires Core(cfg, s, s.clock) && RequestOk(s)
    requires Deadlines(s, 0, hi) && (FaultNow(s) ==> hi >= 20)
    requires s.running.None? ==> s.preemptAt == -1
    ensures Settled(cfg, s, Settle(cfg, s), hi)
  {
    var s1 := HandleRequests(s);
    RequestsKeep(cfg, s);
    WorkSame(s, s1);
    BlockedInTime(cfg, s, s1, hi);
    FirstCheckKeeps(cfg, s1, hi);
    WorkSame(s1, FirstCheck(s1));
    SettleFrom(cfg, s, s1, FirstCheck(s1), hi);
  }

  /** The last step of Settle, from what the first two did. */
  lemma SettleFrom(cfg: Config, s: Kernel, s1: Kernel, s2: Kernel, hi: int)
    requires Core(cfg, s, s.clock) && !LastTickFault(s) && (s.running.None? ==> s.preemptAt == -1)
    requires !FaultNow(s) ==> s1 == s.(mem := s1.mem, mailbox := [])
    requires FaultNow(s) ==>
      && s1 == s.(mem := s1.mem, mailbox := [], quantums := s.quantums + 1, blocked := s1.blocked,
                  switchUntil := s.clock + 1, running := None, preemptAt := -1)
    requires s1.mem.pcbs.Keys == s.mem.pcbs.Keys && Alike(s, s1) && Work(s1) == Work(s)
    requires Core(cfg, s2, s.clock) && Deadlines(s2, if s2.checked then 1 else 0, hi) && Alike(s1, s2)
    requires s2 == s1.(mem := s2.mem, blocked := s2.blocked, ready := s2.ready, checked := s2.checked)
    requires s2.checked <==> s1.preemptAt != s1.clock || s1.running.None?
    requires s1.ready <= s2.ready && Work(s2) == Work(s1) && s2.mem.pcbs.Keys == s1.mem.pcbs.Keys
    ensures Settled(cfg, s, HandleFinished(s2), hi)
  {
    FinishKeeps(cfg, s2);
    FinishShape(cfg, s2);
    AlikeChain(s, s1, s2);
    SettledBy(cfg, s, s1, s2, HandleFinished(s2), hi);
  }

  lemma SettledBy(cfg: Config, s: Kernel, s1: Kernel, s2: Kernel, s3: Kernel, hi: int)
    requires Core(cfg, s, s.clock) && !LastTickFault(s) && (s.running.None? ==> s.preemptAt == -1)
    requires !FaultNow(s) ==> s1 == s.(mem := s1.mem, mailbox := [])
    requires FaultNow(s) ==>
      && s1 == s.(mem := s1.mem, mailbox := [], quantums := s.quantums + 1, blocked := s1.blocked,
                  switchUntil := s.clock + 1, running := None, preemptAt := -1)
    requires s1.mem.pcbs.Keys == s.mem.pcbs.Keys && Work(s1) == Work(s)
    requires s2.mem.pcbs.Keys == s1.mem.pcbs.Keys && Alike(s, s2) && Deadlines(s2, if s2.checked then 1 else 0, hi)
    requires s2 == s1.(mem := s2.mem, blocked := s2.blocked, ready := s2.ready, checked := s2.checked)
    requires s2.checked <==> s1.preemptAt != s1.clock || s1.running.None?
    requires s1.ready <= s2.ready && Work(s2) == Work(s1)
    requires Core(cfg, s3, s.clock) && Finishes(s2, s3)
    ensures Settled(cfg, s, s3, hi)
  {
    AlikeChain(s, s2, s3);
    SignalNoFault(cfg, s);
    CpuSettledBy(s, s1, s2, s3);
  }

  lemma SignalNoFault(cfg: Config, s: Kernel)
    requires Core(cfg, s, s.clock) && !LastTickFault(s)
    ensures s.finishSignal ==> s.running.Some? && !FaultNow(s)
  {
  }

  lemma CpuSettledBy(s: Kernel, s1: Kernel, s2: Kernel, s3: Kernel)
    requires s.finishSignal ==> s.running.Some? && !FaultNow(s)
    requires !FaultNow(s) ==> s1 == s.(mem := s1.mem, mailbox := [])
    requires FaultNow(s) ==>
      && s1 == s.(mem := s1.mem, mailbox := [], quantums := s.quantums + 1, blocked := s1.blocked,
                  switchUntil := s.clock + 1, running := None, preemptAt := -1)
    requires s2 == s1.(mem := s2.mem, blocked := s2.blocked, ready := s2.ready, checked := s2.checked)
    requires s2.checked <==> s1.preemptAt != s1.clock || s1.running.None?
    requires Finishes(s2, s3)
    ensures CpuSettled(s, s3)
  {
  }

  // ---- RR_algo --------------------------------------------------------------

  /** What scheduling touches. */
  ghost predicate AlgoFrame(s: Kernel, s': Kernel) {
    && s' == s.(mem := s'.mem, children := s'.children, shm := s'.shm, ready := s'.ready, blocked := s'.blocked,
                running := s'.running, preemptAt := s'.preemptAt, quantums := s'.quantums,
                switchUntil := s'.switchUntil, checked := s'.checked)
    && s'.mem.pcbs.Keys == s.mem.pcbs.Keys && Alike(s, s')
  }

  predicate Preempts(s: Kernel) {
    s.running.Some? && s.clock >= s.preemptAt && s.ready != [] && !FrontJustArrived(s)
  }

  predicate Extends(s: Kernel) {
    s.running.Some? && s.clock >= s.preemptAt && (s.ready == [] || FrontJustArrived(s))
  }

  /** The kernel at the moment RR_algo gives the CPU to the front process. */
  function Switching(s: Kernel): Kernel {
    if Preempts(s) && s.running.value in s.mem.pcbs then PutBack(s, s.running.value) else s
  }

  /** If RR_algo is to start a process, memory has room for its page table. */
  predicate RoomToSwitch(s: Kernel) {
    Preempts(s) || s.running.None? ==> RoomForFront(Switching(s))
  }

  /** Ready for RR_algo at the current tick. */
  ghost predicate Schedulable(cfg: Config, s: Kernel, hi: int) {
    && Core(cfg, s, s.clock) && s.mailbox == [] && !s.finishSignal
    && s.switchUntil == -1
    && Deadlines(s, if s.checked then 1 else 0, hi)
  }

  /** The front of the queue got the CPU. */
  ghost predicate FrontRuns(s: Kernel, s': Kernel)
    requires s.ready != []
  {
    s'.running == Some(s.ready[0]) && s.ready[1..] <= s'.ready
  }

  lemma DispatchTimes(cfg: Config, s: Kernel, q: int, t: int, lo: int, hi: int)
    requires Core(cfg, s, s.clock) && s.running.None? && s.ready != [] && s.mailbox == []
    requires RoomForFront(s) && t >= 0 && Deadlines(s, lo, hi)
    ensures var s' := Dispatch(s, q, t);
      && Core(cfg, s', t) && AlgoFrame(s, s') && Deadlines(s', lo, hi)
      && FrontRuns(s, s') && s'.ready == s.ready[1..] && s'.blocked == s.blocked
      && s'.preemptAt == t + q && s'.quantums == s.quantums && s'.switchUntil == s.switchUntil
      && s'.checked == s.checked
  {
    DispatchKeeps(cfg, s, q, t);
    FrontOut(s.ready);
    Place(s, s.ready[0]);
  }

  /** The process on the CPU went to the end of the queue; whoever had ended
      its block came in behind it. */
  ghost predicate Back(cfg: Config, s: Kernel, s1: Kernel, p: int, hi: int) {
    && Core(cfg, s1, s.clock) && AlgoFrame(s, s1) && Deadlines(s1, 1, hi) && s1.checked
    && s1.running.None? && s1.quantums == s.quantums + 1 && s1.switchUntil == s.clock + 1
    && s.ready + [p] <= s1.ready
  }

  lemma PutBackKeeps(cfg: Config, s: Kernel, p: int, hi: int)
    requires Schedulable(cfg, s, hi) && s.running == Some(p)
    ensures p in s.mem.pcbs && Back(cfg, s, PutBack(s, p), p, hi)
  {
    StopKeeps(cfg, s, p);
    Place(s, p);
    var s1 := StopRunning(s, p);
    StopFrame(cfg, s, p, s1, if s.checked then 1 else 0, hi);
    if !s1.checked {
      CheckedKeeps(cfg, s1, hi);
      AlikeChain(s, s1, PutBack(s, p));
    }
  }

  lemma StopFrame(cfg: Config, s: Kernel, p: int, s1: Kernel, lo: int, hi: int)
    requires p in s.mem.pcbs && p !in s.blocked && s1 == StopRunning(s, p) && Deadlines(s, lo, hi)
    ensures AlgoFrame(s, s1) && Deadlines(s1, lo, hi)
  {
  }

  /** What preemption does: see PreemptKeeps. */
  ghost predicate Switched(cfg: Config, s: Kernel, s': Kernel, q: int, hi: int)
    requires s.ready != []
  {
    && Core(cfg, s', s.clock + 1) && AlgoFrame(s, s') && Deadlines(s', 1, hi) && s'.checked
    && FrontRuns(s, s') && s'.preemptAt == s.clock + 1 + q
    && s'.quantums == s.quantums + 1 && s'.switchUntil == s.clock + 1
  }

  lemma SwitchKeeps(cfg: Config, s: Kernel, s1: Kernel, p: int, q: int, hi: int)
    requires Schedulable(cfg, s, hi) && s.ready != [] && Back(cfg, s, s1, p, hi) && RoomForFront(s1)
    ensures Switched(cfg, s, SwitchTo(s1, q, s.clock + 1), q, hi)
  {
    PrefixOf(s.ready, [p], s1.ready);
    TailPrefix(s.ready, s1.ready);
    DispatchTimes(cfg, s1, q, s.clock + 1, 1, hi);
    SwitchedBy(cfg, s, s1, Dispatch(s1, q, s.clock + 1), p, q, hi);
  }

  lemma PrefixOf(a: seq<int>, b: seq<int>, c: seq<int>)
    requires a + b <= c
    ensures a <= c
  {
    assert c[..|a|] == c[..|a + b|][..|a|];
  }

  lemma SwitchedBy(cfg: Config, s: Kernel, s1: Kernel, s': Kernel, p: int, q: int, hi: int)
    requires Back(cfg, s, s1, p, hi) && s.ready != [] && s1.ready != []
    requires s1.ready[0] == s.ready[0] && s.ready[1..] <= s1.ready[1..]
    requires Core(cfg, s', s.clock + 1) && AlgoFrame(s1, s') && Deadlines(s', 1, hi)
    requires FrontRuns(s1, s') && s'.ready == s1.ready[1..]
    requires s'.preemptAt == s.clock + 1 + q && s'.quantums == s1.quantums && s'.switchUntil == s1.switchUntil
    requires s'.checked == s1.checked
    ensures Switched(cfg, s, s', q, hi)
  {
    AlikeChain(s, s1, s');
  }

  /** Preemption puts the process at the end of the queue, lets ended blocks
      in behind it, and gives the CPU to the front one tick later. */
  lemma PreemptKeeps(cfg: Config, s: Kernel, p: int, q: int, hi: int)
    requires Schedulable(cfg, s, hi) && s.running == Some(p) && s.ready != []
    requires p in s.mem.pcbs && RoomForFront(PutBack(s, p))
    ensures Switched(cfg, s, Preempt(s, p, q), q, hi)
  {
    PutBackKeeps(cfg, s, p, hi);
    PreemptKeepsBy(cfg, s, PutBack(s, p), p, q, hi);
  }

  lemma PreemptKeepsBy(cfg: Config, s: Kernel, s1: Kernel, p: int, q: int, hi: int)
    requires Schedulable(cfg, s, hi) && s.running == Some(p) && s.ready != [] && p in s.mem.pcbs
    requires s1 == PutBack(s, p) && Back(cfg, s, s1, p, hi) && RoomForFront(s1)
    ensures Switched(cfg, s, Preempt(s, p, q), q, hi)
  {
    SwitchKeeps(cfg, s, s1, p, q, hi);
    PreemptIs(s, p, q, s.clock + 1);
  }

  /** What one call of RR_algo does. */
  ghost predicate Algo(cfg: Config, s: Kernel, s': Kernel, hi: int) {
    && Core(cfg, s', if Preempts(s) then s.clock + 1 else s.clock)
    && AlgoFrame(s, s') && Deadlines(s', if s'.checked then 1 else 0, hi)
    && s'.switchUntil == (if Preempts(s) then s.clock + 1 else -1)
    && s'.quantums == s.quantums + (if Preempts(s) || Extends(s) then 1 else 0)
    && s'.preemptAt == (if Preempts(s) then s.clock + 1 + cfg.quantum
                        else if Extends(s) || (s.running.None? && s.ready != []) then s.clock + cfg.quantum
                        else s.preemptAt)
    && (if s.ready != [] && (Preempts(s) || s.running.None?) then FrontRuns(s, s')
        else s'.running == s.running && s'.ready == s.ready)
  }

  lemma AlgoKeeps(cfg: Config, s: Kernel, hi: int)
    requires Schedulable(cfg, s, hi) && RoomToSwitch(s)
    ensures Algo(cfg, s, RrAlgo(s, cfg.quantum), hi)
  {
    var q := cfg.quantum;
    if s.running.Some? {
      Place(s, s.running.value);
      if Preempts(s) {
        PreemptAlgo(cfg, s, s.running.value, hi);
      } else {
        AlgoIsRunOn(s, q);
        RunOnAlgo(cfg, s, RrAlgo(s, q), hi);
      }
    } else if s.ready != [] {
      DispatchTimes(cfg, s, q, s.clock, if s.checked then 1 else 0, hi);
      AlgoIsDispatch(s, q);
      DispatchedAlgo(cfg, s, Dispatch(s, q, s.clock), hi);
    }
  }

  lemma PreemptAlgo(cfg: Config, s: Kernel, p: int, hi: int)
    requires Schedulable(cfg, s, hi) && Preempts(s) && s.running == Some(p) && p in s.mem.pcbs && RoomForFront(PutBack(s, p))
    ensures Algo(cfg, s, RrAlgo(s, cfg.quantum), hi)
  {
    PreemptKeeps(cfg, s, p, cfg.quantum, hi);
    AlgoIsPreempt(s, cfg.quantum);
    SwitchedAlgo(cfg, s, Preempt(s, p, cfg.quantum), hi);
  }

  lemma SwitchedAlgo(cfg: Config, s: Kernel, s': Kernel, hi: int)
    requires Preempts(s) && Switched(cfg, s, s', cfg.quantum, hi)
    ensures Algo(cfg, s, s', hi)
  {
  }

  lemma RunOnAlgo(cfg: Config, s: Kernel, s': Kernel, hi: int)
    requires Schedulable(cfg, s, hi) && s.running.Some? && !Preempts(s)
    requires s' == if Extends(s) then s.(preemptAt := s.clock + cfg.quantum, quantums := s.quantums + 1) else s
    ensures Algo(cfg, s, s', hi)
  {
    CoreTransfers(cfg, s, s', s.clock);
  }

  lemma DispatchedAlgo(cfg: Config, s: Kernel, s': Kernel, hi: int)
    requires s.running.None? && s.ready != [] && s.switchUntil == -1
    requires Core(cfg, s', s.clock) && AlgoFrame(s, s') && Deadlines(s', if s.checked then 1 else 0, hi)
    requires FrontRuns(s, s') && s'.preemptAt == s.clock + cfg.quantum && s'.quantums == s.quantums
    requires s'.switchUntil == s.switchUntil && s'.checked == s.checked
    ensures Algo(cfg, s, s', hi)
  {
  }

  lemma AlgoIsRunOn(s: Kernel, q: int)
    requires s.running.Some? && !Preempts(s)
    ensures RrAlgo(s, q) == if Extends(s) then s.(preemptAt := s.clock + q, quantums := s.quantums + 1) else s
  {
  }

  lemma AlgoIsPreempt(s: Kernel, q: int)
    requires Preempts(s) && s.running.value in s.mem.pcbs
    ensures RrAlgo(s, q) == Preempt(s, s.running.value, q)
  {
  }

  lemma AlgoIsDispatch(s: Kernel, q: int)
    requires s.running.None? && s.ready != []
    ensures RrAlgo(s, q) == Dispatch(s, q, s.clock)
  {
  }

  lemma AlgoIsIdle(s: Kernel, q: int)
    requires if s.running.None? then s.ready == [] else !Preempts(s) || s.running.value !in s.mem.pcbs
    ensures var s' := RrAlgo(s, q); s' == s.(preemptAt := s'.preemptAt, quantums := s'.quantums)
  {
  }

  lemma PreemptIs(s: Kernel, r: int, q: int, next: int)
    requires r in s.mem.pcbs && next == s.clock + 1
    ensures Preempt(s, r, q) == SwitchTo(PutBack(s, r), q, next)
  {
  }

  // ---- clear_recent ----------------------------------------------------------

  lemma {:induction false} LastMultipleBelow(n: int, k: int)
    requires k > 0 && n >= 0
    ensures LastMultiple(n, k) <= n
    ensures n % k == 0 && n > 0 ==> LastMultiple(n, k) == n
  {
    if n > 0 { LastMultipleBelow(n - 1, k); }
  }

  /** One check, at most one quantum after the last: a clear happens exactly
      when the counter has just reached a multiple of k. */
  lemma ClearCheckCounts(s: Kernel, k: int, seen: int)
    requires k > 0 && seen >= 0 && (s.quantums == seen || s.quantums == seen + 1)
    requires s.clears == Multiples(seen, k) && s.lastClear == LastMultiple(seen, k)
    ensures var s' := ClearCheck(s, k);
      && s'.clears == Multiples(s.quantums, k) && s'.lastClear == LastMultiple(s.quantums, k)
      && (ClearDue(s, k) <==> s.quantums == seen + 1 && s.quantums % k == 0)
  {
    LastMultipleBelow(seen, k);
  }

  /** The count of multiples is the quotient. */
  lemma {:induction false} MultiplesIsQuotient(n: nat, k: int)
    requires k > 0
    ensures Multiples(n, k) == n / k
  {
    if n == 0 {
      DivUnique(0, k, 0, 0);
    } else {
      MultiplesIsQuotient(n - 1, k);
      QuotientStep(n, k);
    }
  }

  lemma QuotientStep(n: int, k: int)
    requires k > 0 && n > 0
    ensures n / k == (n - 1) / k + (if n % k == 0 then 1 else 0)
  {
    var q, r := n / k, n % k;
    if r == 0 {
      DivUnique(n - 1, k, q - 1, k - 1);
    } else {
      DivUnique(n - 1, k, q, r - 1);
    }
  }

  lemma DivUnique(n: int, k: int, q: int, r: int)
    requires k > 0 && 0 <= r < k && n == q * k + r
    ensures n / k == q
  {
    var d := q - n / k;
    assert d * k == q * k - (n / k) * k;
    assert -k < d * k < k;
    MulSmall(d, k);
  }

  lemma MulSmall(d: int, k: int)
    requires k > 0 && -k < d * k < k
    ensures d == 0
  {
  }

  // ---- receiveProcesses ------------------------------------------------------

  lemma {:induction false} AdmitFrame(s: Kernel)
    ensures var s' := AdmitArrived(s);
      && s' == s.(mem := s'.mem, ready := s'.ready, current := s'.current, incoming := s'.incoming)
      && s.ready <= s'.ready
      && (s'.incoming == [] || s'.incoming[0].arrival > s.clock)
    decreases |s.incoming|
  {
    if s.incoming != [] && s.incoming[0].arrival <= s.clock {
      AdmitFrame(AdmitNext(s));
    }
  }

  /** Admission leaves the live processes alone and no work is lost. */
  ghost predicate Admits(s: Kernel, s': Kernel, lo: int, hi: int) {
    && Deadlines(s', lo, hi) && Work(s') == Work(s)
    && |s'.current| + |s'.incoming| == |s.current| + |s.incoming|
    && (forall p :: p in s.mem.pcbs ==> p in s'.mem.pcbs && s'.mem.pcbs[p] == s.mem.pcbs[p])
  }

  lemma AdmitNextEffect(cfg: Config, s: Kernel, t: int, lo: int, hi: int)
    requires ConfigOk(cfg) && Core(cfg, s, t) && Deadlines(s, lo, hi)
    requires s.incoming != [] && s.incoming[0].arrival <= s.clock
    ensures Core(cfg, AdmitNext(s), t) && Admits(s, AdmitNext(s), lo, hi)
  {
    JobIsFresh(cfg, s);
    AdmitNextKeeps(cfg, s, t);
    WorkAdmit(s);
  }

  lemma {:induction false} AdmitEffect(cfg: Config, s: Kernel, t: int, lo: int, hi: int)
    requires ConfigOk(cfg) && Core(cfg, s, t) && Deadlines(s, lo, hi)
    ensures Admits(s, AdmitArrived(s), lo, hi)
    decreases |s.incoming|
  {
    if s.incoming != [] && s.incoming[0].arrival <= s.clock {
      AdmitNextEffect(cfg, s, t, lo, hi);
      AdmitEffect(cfg, AdmitNext(s), t, lo, hi);
    }
  }

  function Received(cfg: Config, s: Kernel): Kernel {
    var s0 := s.(switchUntil := -1);
    if s0.receiving && s0.clock > s0.lastSync then Receive(cfg, s0) else s0
  }

  lemma HeadArrives(cfg: Config, incoming: seq<Job>)
    requires 0 < |incoming| <= |cfg.jobs| && incoming == cfg.jobs[|cfg.jobs| - |incoming|..]
    ensures incoming[0].arrival <= LastArrival(cfg.jobs)
  {
    assert incoming[0] == cfg.jobs[|cfg.jobs| - |incoming|];
  }

  ghost predicate Admitted(cfg: Config, s: Kernel, s': Kernel, lo: int, hi: int) {
    && Core(cfg, s', s.clock) && Deadlines(s', lo, hi)
    && s' == s.(mem := s'.mem, ready := s'.ready, current := s'.current, incoming := s'.incoming,
                switchUntil := -1, receiving := s'.receiving, lastSync := s'.lastSync)
    && s'.lastSync <= s.clock && (!s'.receiving ==> s'.incoming == [])
    && s.ready <= s'.ready
    && (s'.receiving ==> s.clock <= LastArrival(cfg.jobs))
    && Admits(s, s', lo, hi)
  }

  lemma ReceivedKeeps(cfg: Config, s: Kernel, lo: int, hi: int)
    requires ConfigOk(cfg) && Core(cfg, s, s.clock) && Deadlines(s, lo, hi) && s.lastSync < s.clock
    requires !s.receiving ==> s.incoming == []
    ensures Admitted(cfg, s, Received(cfg, s), lo, hi)
  {
    var s0 := s.(switchUntil := -1);
    CoreTransfers(cfg, s, s0, s.clock);
    WorkIgnores(s, s0);
    if s.receiving {
      ReceiveAdmits(cfg, s0, lo, hi);
      assert Received(cfg, s) == Receive(cfg, s0);
      AdmittedSame(cfg, s, s0, Receive(cfg, s0), lo, hi);
    }
  }

  lemma AdmittedSame(cfg: Config, s: Kernel, s0: Kernel, s': Kernel, lo: int, hi: int)
    requires s0 == s.(switchUntil := -1) && Work(s) == Work(s0) && Admitted(cfg, s0, s', lo, hi)
    ensures Admitted(cfg, s, s', lo, hi)
  {
  }

  lemma ReceiveAdmits(cfg: Config, s: Kernel, lo: int, hi: int)
    requires ConfigOk(cfg) && Core(cfg, s, s.clock) && Deadlines(s, lo, hi) && s.lastSync < s.clock
    requires s.receiving && s.switchUntil == -1
    ensures Admitted(cfg, s, Receive(cfg, s), lo, hi)
  {
    AdmitFrame(s);
    AdmitEffect(cfg, s, s.clock, lo, hi);
    AdmitArrivedKeeps(cfg, s, s.clock);
    ReceiveFrom(cfg, s, AdmitArrived(s), lo, hi);
  }

  lemma ReceiveFrom(cfg: Config, s: Kernel, s1: Kernel, lo: int, hi: int)
    requires ConfigOk(cfg) && s.lastSync <= s.clock
    requires Core(cfg, s1, s.clock) && Admits(s, s1, lo, hi)
    requires s1 == s.(mem := s1.mem, ready := s1.ready, current := s1.current, incoming := s1.incoming)
    requires s.ready <= s1.ready && (s1.incoming == [] || s1.incoming[0].arrival > s.clock)
    requires s.switchUntil == -1 && s.receiving
    ensures s.clock <= LastArrival(cfg.jobs) ==> Admitted(cfg, s, s1.(lastSync := s.clock), lo, hi)
    ensures s.clock > LastArrival(cfg.jobs) ==> Admitted(cfg, s, s1.(receiving := false), lo, hi)
  {
    if s.clock <= LastArrival(cfg.jobs) {
      var s' := s1.(lastSync := s.clock);
      CoreTransfers(cfg, s1, s', s.clock);
      WorkIgnores(s1, s');
    } else {
      var s' := s1.(receiving := false);
      if s1.incoming != [] {
        HeadArrives(cfg, s1.incoming);
      }
      CoreTransfers(cfg, s1, s', s.clock);
      WorkIgnores(s1, s');
    }
  }

  // ---- Schedule --------------------------------------------------------------

  function Decided(cfg: Config, s: Kernel): Kernel {
    if s.clock > 0 then RrAlgo(s, cfg.quantum) else s
  }

  /** No context switch is under way. */
  ghost predicate Resumable(cfg: Config, s: Kernel, hi: int) {
    && Core(cfg, s, s.clock) && s.mailbox == [] && !s.finishSignal
    && Deadlines(s, if s.checked then 1 else 0, hi)
    && s.lastSync < s.clock && s.switchUntil <= s.clock
    && (!s.receiving ==> s.incoming == [])
    && (s.running.None? ==> s.preemptAt == -1)
    && (s.running.Some? ==> s.clock <= s.preemptAt <= s.clock + cfg.quantum)
    && (s.clock == 0 ==> s.running.None?)
    && ClearsOk(s, cfg.k)
  }

  /** A scheduling pass from s, with r the kernel after the arrivals of this
      tick: one tick of time was accounted to the process on the CPU, ... */
  ghost predicate PassCore(cfg: Config, s: Kernel, r: Kernel, s': Kernel, next: int, hi: int) {
    && Core(cfg, s', next) && s'.clock == s.clock
    && Deadlines(s', if s'.checked then 1 else 0, hi)
    && s'.current == r.current && s'.incoming == r.incoming && s'.receiving == r.receiving
  }

  /** ... and the clocks and counters are in order. */
  ghost predicate PassTiming(cfg: Config, s: Kernel, s': Kernel) {
    && s'.lastSync <= s.clock && s'.switchUntil <= s.clock + 1
    && (!s'.receiving ==> s'.incoming == [])
    && (s'.running.None? ==> s'.preemptAt == -1)
    && (s'.running.Some? ==> s.clock + 1 <= s'.preemptAt <= s.clock + 1 + cfg.quantum)
    && ClearsOk(s', cfg.k)
  }

  ghost predicate Pass(cfg: Config, s: Kernel, r: Kernel, s': Kernel, next: int, hi: int) {
    PassCore(cfg, s, r, s', next, hi) && PassTiming(cfg, s, s')
  }

  /** The same pass, as seen by the processes. */
  ghost predicate Progress(cfg: Config, r: Kernel, s': Kernel) {
    if r.clock == 0 || (r.running.None? && r.ready == []) then
      s'.running == r.running && s'.ready == r.ready && s'.mailbox == [] && Work(s') == Work(r)
    else if Preempts(r) then
      FrontRuns(r, s') && s'.preemptAt == r.clock + 1 + cfg.quantum && s'.mailbox == [] && Work(s') == Work(r)
    else if r.running.None? then
      FrontRuns(r, s') && s'.preemptAt == r.clock + cfg.quantum && Work(s') == Work(r) - 1
    else
      && s'.running == r.running && s'.ready == r.ready && Work(s') == Work(r) - 1
      && s'.preemptAt == if Extends(r) then r.clock + cfg.quantum else r.preemptAt
  }

  /** The kernel after the scheduling decision, before clear and grant. */
  ghost predicate Choice(cfg: Config, r: Kernel, s: Kernel, hi: int) {
    if r.clock > 0 then Algo(cfg, r, s, hi) else s == r && r.running.None?
  }

  lemma ClearedKeeps(cfg: Config, s: Kernel, seen: int, t: int, hi: int)
    requires Core(cfg, s, t) && Deadlines(s, if s.checked then 1 else 0, hi)
    requires cfg.k > 0 ==>
      && seen >= 0 && (s.quantums == seen || s.quantums == seen + 1)
      && s.clears == Multiples(seen, cfg.k) && s.lastClear == LastMultiple(seen, cfg.k)
    requires s.running.None? ==> s.switchUntil == -1
    ensures var s' := ClearCheck(s, cfg.k);
      && Core(cfg, s', t) && Deadlines(s', if s'.checked then 1 else 0, hi) && ClearsOk(s', cfg.k)
      && s' == s.(mem := s'.mem, clears := s'.clears, lastClear := s'.lastClear)
      && s'.mem.pcbs == s.mem.pcbs && Work(s') == Work(s)
  {
    ClearNowKeeps(cfg, s, t);
    if cfg.k > 0 {
      ClearCheckCounts(s, cfg.k, seen);
    }
    WorkIgnores(s, ClearCheck(s, cfg.k));
  }

  lemma ChildStepFrame(cfg: Config, s: Kernel)
    ensures var s' := ChildStep(cfg, s);
      s' == s.(mailbox := s'.mailbox, children := s'.children, shm := s'.shm, finishSignal := s'.finishSignal)
  {
  }

  /** A granted child that has not finished does one tick of work. */
  lemma ChildStepWork(cfg: Config, s: Kernel)
    requires Core(cfg, s, s.clock) && !s.finishSignal
    ensures Work(ChildStep(cfg, s)) == Work(s) - (if s.running.Some? then 1 else 0)
  {
    if s.running.Some? {
      WorkStep(s, ChildStep(cfg, s), s.running.value);
    }
  }

  function Granted(cfg: Config, s: Kernel): Kernel {
    if s.clock >= s.switchUntil then ChildStep(cfg, s) else s
  }

  /** A grant at a kernel of time t, where t is one tick ahead exactly when a
      switch is under way. */
  lemma GrantedKeeps(cfg: Config, s: Kernel, t: int, next: int)
    requires Core(cfg, s, t) && s.mailbox == [] && !s.finishSignal
    requires next == s.clock + 1 && t == if s.clock >= s.switchUntil then s.clock else next
    ensures var s' := Granted(cfg, s);
      && Core(cfg, s', next)
      && s' == s.(mailbox := s'.mailbox, children := s'.children, shm := s'.shm, finishSignal := s'.finishSignal)
      && Work(s') == Work(s) - (if s.running.Some? && s.clock >= s.switchUntil then 1 else 0)
      && (s.running.None? || s.clock < s.switchUntil ==> s' == s)
  {
    if s.clock >= s.switchUntil {
      ChildStepKeeps(cfg, s);
      ChildStepFrame(cfg, s);
      ChildStepWork(cfg, s);
    }
  }

  /** The kernel after the scheduling decision s1 and the clear check. */
  ghost predicate Checked(cfg: Config, s: Kernel, s1: Kernel, s2: Kernel, hi: int) {
    && Core(cfg, s2, if s1.switchUntil == -1 then s.clock else s.clock + 1)
    && Deadlines(s2, if s2.checked then 1 else 0, hi) && ClearsOk(s2, cfg.k)
    && s2 == s1.(mem := s2.mem, clears := s2.clears, lastClear := s2.lastClear)
    && s2.mem.pcbs == s1.mem.pcbs && Work(s2) == Work(s1)
  }

  lemma GrantCore(cfg: Config, s: Kernel, r: Kernel, s1: Kernel, s2: Kernel, next: int, hi: int)
    requires next == s.clock + 1
    requires ConfigOk(cfg) && Resumable(cfg, s, hi) && Checked(cfg, s, s1, s2, hi)
    requires Admitted(cfg, s, r, if s.checked then 1 else 0, hi) && Choice(cfg, r, s1, hi)
    ensures PassCore(cfg, s, r, Granted(cfg, s2), next, hi)
  {
    GrantedKeeps(cfg, s2, if s1.switchUntil == -1 then s.clock else next, next);
  }

  lemma GrantTiming(cfg: Config, s: Kernel, r: Kernel, s1: Kernel, s2: Kernel, hi: int)
    requires ConfigOk(cfg) && Resumable(cfg, s, hi) && Checked(cfg, s, s1, s2, hi)
    requires Admitted(cfg, s, r, if s.checked then 1 else 0, hi) && Choice(cfg, r, s1, hi)
    ensures PassTiming(cfg, s, Granted(cfg, s2))
  {
    ChildStepFrame(cfg, s2);
    GrantedTiming(cfg, s, r, s1, s2, Granted(cfg, s2), hi);
  }

  lemma GrantedTiming(cfg: Config, s: Kernel, r: Kernel, s1: Kernel, s2: Kernel, s3: Kernel, hi: int)
    requires ConfigOk(cfg) && Resumable(cfg, s, hi) && Checked(cfg, s, s1, s2, hi)
    requires Admitted(cfg, s, r, if s.checked then 1 else 0, hi) && Choice(cfg, r, s1, hi)
    requires s3 == s2.(mailbox := s3.mailbox, children := s3.children, shm := s3.shm, finishSignal := s3.finishSignal)
    ensures PassTiming(cfg, s, s3)
  {
    if r.clock > 0 {
      AlgoTiming(cfg, s, r, s1, hi);
    }
  }

  lemma AlgoTiming(cfg: Config, s: Kernel, r: Kernel, s1: Kernel, hi: int)
    requires cfg.quantum >= 1 && Algo(cfg, r, s1, hi) && s.clock > 0
    requires r == s.(mem := r.mem, ready := r.ready, current := r.current, incoming := r.incoming,
                     switchUntil := -1, receiving := r.receiving, lastSync := r.lastSync)
    requires s.running.None? ==> s.preemptAt == -1
    requires s.running.Some? ==> s.clock <= s.preemptAt <= s.clock + cfg.quantum
    ensures s1.switchUntil <= s.clock + 1
    ensures s1.running.None? ==> s1.preemptAt == -1 && s1.switchUntil == -1
    ensures s1.running.Some? ==> s.clock + 1 <= s1.preemptAt <= s.clock + 1 + cfg.quantum
    ensures s1.lastSync == r.lastSync && s1.receiving == r.receiving && s1.incoming == r.incoming
  {
  }

  lemma GrantProgress(cfg: Config, s: Kernel, r: Kernel, s1: Kernel, s2: Kernel, hi: int)
    requires ConfigOk(cfg) && Resumable(cfg, s, hi) && Checked(cfg, s, s1, s2, hi)
    requires Admitted(cfg, s, r, if s.checked then 1 else 0, hi) && Choice(cfg, r, s1, hi)
    ensures Progress(cfg, r, Granted(cfg, s2))
  {
    if r.clock > 0 {
      WorkSame(r, s1);
    }
    GrantedKeeps(cfg, s2, if s1.switchUntil == -1 then s.clock else s.clock + 1, s.clock + 1);
  }

  lemma ScheduleIs(cfg: Config, s: Kernel)
    ensures Schedule(cfg, s) == Granted(cfg, ClearCheck(Decided(cfg, Received(cfg, s)), cfg.k))
  {
  }

  /** A decision counts at most one quantum, and clears nothing. */
  lemma DecisionSeen(cfg: Config, s: Kernel, r: Kernel, s1: Kernel, hi: int)
    requires ConfigOk(cfg) && Resumable(cfg, s, hi)
    requires Admitted(cfg, s, r, if s.checked then 1 else 0, hi) && Choice(cfg, r, s1, hi)
    ensures Core(cfg, s1, if s1.switchUntil == -1 then s.clock else s.clock + 1)
    ensures Deadlines(s1, if s1.checked then 1 else 0, hi) && (s1.running.None? ==> s1.switchUntil == -1)
    ensures s1.clears == s.clears && s1.lastClear == s.lastClear
    ensures s1.quantums == Seen(s) || s1.quantums == Seen(s) + 1
  {
    if r.clock > 0 {
      AlgoSeen(cfg, s, r, s1, hi);
    }
  }

  lemma AlgoSeen(cfg: Config, s: Kernel, r: Kernel, s1: Kernel, hi: int)
    requires Algo(cfg, r, s1, hi) && r.switchUntil == -1 && r.clock > 0
    requires r.clock == s.clock && r.running == s.running && r.quantums == s.quantums
    requires r.clears == s.clears && r.lastClear == s.lastClear
    ensures Core(cfg, s1, if s1.switchUntil == -1 then s.clock else s.clock + 1)
    ensures s1.clears == s.clears && s1.lastClear == s.lastClear
    ensures s1.quantums == Seen(s) || s1.quantums == Seen(s) + 1
    ensures s1.running.None? ==> s1.switchUntil == -1
  {
  }

  lemma DecisionChecked(cfg: Config, s: Kernel, r: Kernel, s1: Kernel, hi: int)
    requires ConfigOk(cfg) && Resumable(cfg, s, hi)
    requires Admitted(cfg, s, r, if s.checked then 1 else 0, hi) && Choice(cfg, r, s1, hi)
    ensures Checked(cfg, s, s1, ClearCheck(s1, cfg.k), hi)
  {
    DecisionSeen(cfg, s, r, s1, hi);
    ClearedKeeps(cfg, s1, Seen(s), if s1.switchUntil == -1 then s.clock else s.clock + 1, hi);
  }

  lemma DecisionKeeps(cfg: Config, s: Kernel, r: Kernel, s1: Kernel, s2: Kernel, next: int, hi: int)
    requires next == s.clock + 1
    requires ConfigOk(cfg) && Resumable(cfg, s, hi) && Checked(cfg, s, s1, s2, hi)
    requires Admitted(cfg, s, r, if s.checked then 1 else 0, hi) && Choice(cfg, r, s1, hi)
    ensures Pass(cfg, s, r, Granted(cfg, s2), next, hi)
    ensures Progress(cfg, r, Granted(cfg, s2))
  {
    GrantCore(cfg, s, r, s1, s2, next, hi);
    GrantTiming(cfg, s, r, s1, s2, hi);
    GrantProgress(cfg, s, r, s1, s2, hi);
  }

  /** At the clock of this tick, RR_algo has room. */
  predicate RoomAt(r: Kernel) {
    r.clock > 0 ==> RoomToSwitch(r)
  }

  lemma ScheduleKeeps(cfg: Config, s: Kernel, next: int, hi: int)
    requires next == s.clock + 1
    requires ConfigOk(cfg) && Resumable(cfg, s, hi) && RoomAt(Received(cfg, s))
    ensures Admitted(cfg, s, Received(cfg, s), if s.checked then 1 else 0, hi)
    ensures Pass(cfg, s, Received(cfg, s), Schedule(cfg, s), next, hi)
    ensures Progress(cfg, Received(cfg, s), Schedule(cfg, s))
  {
    ReceivedKeeps(cfg, s, if s.checked then 1 else 0, hi);
    var r := Received(cfg, s);
    if r.clock > 0 {
      AlgoKeeps(cfg, r, hi);
    }
    ScheduleIs(cfg, s);
    var s1 := Decided(cfg, r);
    DecisionChecked(cfg, s, r, s1, hi);
    DecisionKeeps(cfg, s, r, s1, ClearCheck(s1, cfg.k), next, hi);
  }

  // ---- One iteration, and every run -------------------------------------------

  /** What one iteration does to the processes, between two states of a run. */
  ghost predicate Effect(cfg: Config, s: Kernel, s': Kernel) {
    if Emptied(s) then
      && s'.running.None? && s'.mailbox == [] && s.ready <= s'.ready && Work(s') == Work(s)
      && |s'.current| + |s'.incoming| == |s.current| + |s.incoming| - (if s.finishSignal then 1 else 0)
      && s'.receiving == s.receiving
    else
      && |s'.current| + |s'.incoming| == |s.current| + |s.incoming|
      && (s'.receiving ==> s.clock <= LastArrival(cfg.jobs))
      && (Work(s') < Work(s) || s'.mailbox == []) && Work(s') <= Work(s)
      && (s.running.Some? && s.clock < s.preemptAt ==>
            && s'.running == s.running && s'.preemptAt == s.preemptAt && s.ready <= s'.ready && Work(s') < Work(s))
      && (s.running.Some? && s.clock == s.preemptAt && s.ready != [] ==>
            FrontRuns(s, s') && s'.preemptAt == s.clock + 1 + cfg.quantum)
      && (s.running.Some? && s.clock == s.preemptAt ==>
            s'.running.Some? && (Work(s') < Work(s) || s'.preemptAt == s.clock + 1 + cfg.quantum))
      && (s.running.None? && s.ready != [] ==>
            FrontRuns(s, s') && s'.preemptAt == s.clock + cfg.quantum && Work(s') < Work(s))
      && (s.running.None? ==> Work(s') < Work(s) || s'.running.None?)
  }

  /** The same for the scheduling part, from a settled kernel without a switch. */
  lemma PassEffect(cfg: Config, s: Kernel, s1: Kernel, r: Kernel, s2: Kernel, next: int, hi: int)
    requires Inv(cfg, s) && Settled(cfg, s, s1, hi) && !Emptied(s)
    requires Admitted(cfg, s1, r, if s1.checked then 1 else 0, hi)
    requires PassCore(cfg, s1, r, s2, next, hi) && Progress(cfg, r, s2)
    ensures Effect(cfg, s, s2)
  {
    if s.ready != [] {
      FrontStays(cfg, s, s1, r, hi);
    }
  }

  /** The front of the queue is still there after the arrivals, and it did not
      arrive just now. */
  lemma FrontStays(cfg: Config, s: Kernel, s1: Kernel, r: Kernel, hi: int)
    requires Inv(cfg, s) && Settled(cfg, s, s1, hi) && s.ready != []
    requires Admitted(cfg, s1, r, if s1.checked then 1 else 0, hi)
    ensures r.ready != [] && r.ready[0] == s.ready[0] && s.ready <= r.ready && s.ready[1..] <= r.ready[1..]
    ensures !FrontJustArrived(r)
  {
    var p := s.ready[0];
    FrontOut(s.ready);
    Place(s, p);
    FrontSame(s.ready, s1.ready);
    FrontSame(s1.ready, r.ready);
    Place(s1, p);
    TailPrefix(s.ready, r.ready);
  }

  lemma FrontSame(a: seq<int>, b: seq<int>)
    requires a != [] && a <= b
    ensures b[0] == a[0]
  {
  }

  lemma TailPrefix(a: seq<int>, b: seq<int>)
    requires a != [] && a <= b
    ensures b[0] == a[0] && a[1..] <= b[1..]
  {
    assert b[1..][..|a| - 1] == b[..|a|][1..];
  }

  /** An iteration up to its late block-end check. */
  ghost predicate Advanced(cfg: Config, s: Kernel, s2: Kernel, next: int, hi: int) {
    && Core(cfg, s2, next) && s2.clock == s.clock
    && Deadlines(s2, if s2.checked then 1 else 0, hi)
    && PassTiming(cfg, s, s2) && Effect(cfg, s, s2)
  }

  lemma AdvanceKeeps(cfg: Config, s: Kernel, s1: Kernel, next: int, hi: int)
    requires ConfigOk(cfg) && Inv(cfg, s) && Settled(cfg, s, s1, hi) && next == s.clock + 1
    requires Emptied(s) || RoomAt(Received(cfg, s1))
    ensures Advanced(cfg, s, Advance(cfg, s1), next, hi)
  {
    if Emptied(s) {
      EmptiedAdvances(cfg, s, s1, next, hi);
    } else {
      AdvanceIs(cfg, s1);
      ScheduleAdvances(cfg, s, s1, next, hi);
    }
  }

  lemma AdvanceIs(cfg: Config, s: Kernel)
    requires s.switchUntil <= s.clock
    ensures Advance(cfg, s) == Schedule(cfg, s)
  {
  }

  lemma ScheduleAdvances(cfg: Config, s: Kernel, s1: Kernel, next: int, hi: int)
    requires ConfigOk(cfg) && Inv(cfg, s) && Settled(cfg, s, s1, hi) && !Emptied(s) && next == s.clock + 1
    requires RoomAt(Received(cfg, s1))
    ensures Advanced(cfg, s, Schedule(cfg, s1), next, hi)
  {
    SettledResumable(cfg, s, s1, hi);
    ScheduleKeeps(cfg, s1, next, hi);
    PassAdvances(cfg, s, s1, Received(cfg, s1), Schedule(cfg, s1), next, hi);
  }

  lemma SettledResumable(cfg: Config, s: Kernel, s1: Kernel, hi: int)
    requires Inv(cfg, s) && Settled(cfg, s, s1, hi) && !Emptied(s)
    ensures Resumable(cfg, s1, hi)
  {
  }

  lemma PassAdvances(cfg: Config, s: Kernel, s1: Kernel, r: Kernel, s2: Kernel, next: int, hi: int)
    requires Inv(cfg, s) && Settled(cfg, s, s1, hi) && !Emptied(s)
    requires Admitted(cfg, s1, r, if s1.checked then 1 else 0, hi)
    requires Pass(cfg, s1, r, s2, next, hi) && Progress(cfg, r, s2)
    ensures Advanced(cfg, s, s2, next, hi)
  {
    PassEffect(cfg, s, s1, r, s2, next, hi);
  }

  lemma EmptiedAdvances(cfg: Config, s: Kernel, s1: Kernel, next: int, hi: int)
    requires Inv(cfg, s) && Settled(cfg, s, s1, hi) && Emptied(s) && next == s.clock + 1
    ensures Advance(cfg, s1) == s1 && Advanced(cfg, s, s1, next, hi)
  {
  }

  lemma LateCheckKeeps(cfg: Config, s: Kernel, s2: Kernel, next: int, hi: int)
    requires Advanced(cfg, s, s2, next, hi) && hi <= 20 && next == s.clock + 1
    ensures var s' := LateCheck(s2).(clock := next);
      Inv(cfg, s') && Effect(cfg, s, s') && Deadlines(s', 0, hi - 1)
  {
    if !s2.checked {
      CheckBlockEndTimes(cfg, s2, next, hi);
      WorkSame(s2, LateCheck(s2));
    }
    WorkIgnores(LateCheck(s2), LateCheck(s2).(clock := next));
    NextTick(cfg, s, s2, LateCheck(s2), next, hi);
    EffectExtends(cfg, s, s2, LateCheck(s2).(clock := next));
  }

  lemma NextTick(cfg: Config, s: Kernel, s2: Kernel, s3: Kernel, next: int, hi: int)
    requires PassTiming(cfg, s, s2) && Core(cfg, s3, next) && Deadlines(s3, 1, hi) && hi <= 20
    requires s2.clock == s.clock && next == s.clock + 1
    requires s3 == s2.(mem := s3.mem, blocked := s3.blocked, ready := s3.ready)
    ensures Inv(cfg, s3.(clock := next)) && Deadlines(s3.(clock := next), 0, hi - 1)
  {
    LaterCore(cfg, s3, s3.(clock := next));
    LaterDeadlines(s3, s3.(clock := next), hi);
    LaterTiming(cfg, s, s2, s3, s3.(clock := next));
  }

  lemma LaterCore(cfg: Config, s: Kernel, s': Kernel)
    requires Core(cfg, s, s'.clock) && s' == s.(clock := s.clock + 1)
    ensures Core(cfg, s', s'.clock) && forall p :: p in s'.mem.pcbs ==> s'.mem.pcbs[p].arrival < s'.clock
  {
    LaterProcs(cfg, s, s');
  }

  lemma LaterTiming(cfg: Config, s: Kernel, s2: Kernel, s3: Kernel, s': Kernel)
    requires PassTiming(cfg, s, s2) && s2.clock == s.clock && s'.clock == s.clock + 1 && s'.clock > 0
    requires s3 == s2.(mem := s3.mem, blocked := s3.blocked, ready := s3.ready) && s' == s3.(clock := s'.clock)
    requires Deadlines(s', 0, 19) && forall p :: p in s'.mem.pcbs ==> s'.mem.pcbs[p].arrival < s'.clock
    ensures Timing(cfg, s')
  {
  }

  lemma LaterProcs(cfg: Config, s: Kernel, s': Kernel)
    requires s' == s.(clock := s.clock + 1) && forall p :: p in s.mem.pcbs ==> ProcInv(cfg, s, p)
    ensures forall p :: p in s'.mem.pcbs ==> ProcInv(cfg, s', p) && s'.mem.pcbs[p].arrival < s'.clock
  {
    forall p | p in s'.mem.pcbs ensures ProcInv(cfg, s', p) && s'.mem.pcbs[p].arrival < s'.clock {
      assert ProcInv(cfg, s, p);
    }
  }

  lemma LaterDeadlines(s: Kernel, s': Kernel, hi: int)
    requires s' == s.(clock := s.clock + 1) && Deadlines(s, 1, hi)
    ensures Deadlines(s', 0, hi - 1)
  {
  }

  lemma EffectExtends(cfg: Config, s: Kernel, s2: Kernel, s': Kernel)
    requires Effect(cfg, s, s2) && s2.ready <= s'.ready && Work(s') == Work(s2)
    requires s' == s2.(mem := s'.mem, blocked := s'.blocked, ready := s'.ready, clock := s'.clock)
    ensures Effect(cfg, s, s')
  {
  }

  lemma TickIs(cfg: Config, s: Kernel)
    requires !Settle(cfg, s).hung && !Finished(s) && !s.hung && !s.mem.trapped
    ensures Tick(cfg, s) == LateCheck(Advance(cfg, Settle(cfg, s))).(clock := s.clock + 1)
  {
  }

  lemma SettledTick(cfg: Config, s: Kernel, s1: Kernel, hi: int)
    requires ConfigOk(cfg) && Inv(cfg, s) && Settled(cfg, s, s1, hi) && hi <= 20
    requires Emptied(s) || RoomAt(Received(cfg, s1))
    ensures var s' := LateCheck(Advance(cfg, s1)).(clock := s.clock + 1);
      Inv(cfg, s') && Effect(cfg, s, s') && Deadlines(s', 0, hi - 1)
  {
    AdvanceKeeps(cfg, s, s1, s.clock + 1, hi);
    LateCheckKeeps(cfg, s, Advance(cfg, s1), s.clock + 1, hi);
  }

  /** The iteration from s starts no process that memory has no room for. */
  predicate RoomForStep(cfg: Config, s: Kernel) {
    Emptied(s) || RoomAt(Received(cfg, Settle(cfg, s)))
  }

  /** One pass of the loop keeps the invariant, provided the request it serves
      is neither a fault of an exited child nor one for the page at the limit, and
      memory has room for the process it starts, if any; and every blocked
      process comes one tick closer to its deadline. */
  lemma TickKeeps(cfg: Config, s: Kernel, hi: int)
    requires ConfigOk(cfg) && Inv(cfg, s) && !Finished(s)
    requires RequestOk(s) && RoomForStep(cfg, s)
    requires Deadlines(s, 0, hi) && hi <= 20 && (FaultNow(s) ==> hi == 20)
    ensures Inv(cfg, Tick(cfg, s)) && Effect(cfg, s, Tick(cfg, s)) && Deadlines(Tick(cfg, s), 0, hi - 1)
  {
    SettleKeeps(cfg, s, hi);
    SettledTick(cfg, s, Settle(cfg, s), hi);
    TickIs(cfg, s);
  }

  lemma TickClock(cfg: Config, s: Kernel)
    requires Inv(cfg, s) && !Finished(s) && RequestOk(s)
    ensures Tick(cfg, s).clock == s.clock + 1
  {
    SettleKeeps(cfg, s, 20);
    TickIs(cfg, s);
  }

  lemma BootOk(cfg: Config)
    requires ConfigOk(cfg)
    ensures Inv(cfg, Boot(cfg))
  {
    var s := Boot(cfg);
    assert cfg.jobs[0..] == cfg.jobs;
    forall i | 0 <= i < FRAMES ensures FrameOk(s.mem, i) {
      assert s.mem.ram[i] == BOOT_FRAME;
    }
    assert FinishedIds(s.finished) == [];
  }

  /** The iteration from s, if there is one, serves no fault of an exited child
      and no request for the page at the limit, and starts no process that memory
      has no room for. */
  predicate StepOk(cfg: Config, s: Kernel) {
    Finished(s) || (RequestOk(s) && RoomForStep(cfg, s))
  }

  predicate SoundAt(cfg: Config, i: nat) {
    StepOk(cfg, Run(cfg, i))
  }

  ghost predicate Sound(cfg: Config, n: nat) {
    forall i: nat :: i < n ==> SoundAt(cfg, i)
  }

  lemma SoundPrefix(cfg: Config, n: nat, m: int)
    requires n <= m && Sound(cfg, m)
    ensures Sound(cfg, n)
  {
  }

  lemma RunNext(cfg: Config, n: nat)
    ensures Run(cfg, n + 1) == Tick(cfg, Run(cfg, n))
  {
  }

  lemma {:induction false} FromStepToStep(p: nat -> bool, n: nat)
    requires p(0) && forall i: nat :: p(i) ==> p(i + 1)
    ensures p(n)
  {
    if n > 0 {
      FromStepToStep(p, n - 1);
      assert p(n - 1 + 1);
    }
  }

  lemma RunBack(cfg: Config, n: nat, s: Kernel) returns (before: Kernel)
    requires n > 0 && s == Run(cfg, n)
    ensures before == Run(cfg, n - 1) && s == Tick(cfg, before)
  {
    before := Run(cfg, n - 1);
  }

  /** Every state of every such run satisfies the invariant. */
  lemma {:induction false} RunKeeps(cfg: Config, n: nat, s: Kernel)
    requires ConfigOk(cfg) && Sound(cfg, n) && s == Run(cfg, n)
    ensures Inv(cfg, s)
    decreases n
  {
    if n == 0 {
      BootOk(cfg);
    } else {
      var before := RunBack(cfg, n, s);
      RunKeeps(cfg, n - 1, before);
      assert SoundAt(cfg, n - 1);
      RunStep(cfg, before);
    }
  }

  lemma RunStep(cfg: Config, s: Kernel)
    requires ConfigOk(cfg) && Inv(cfg, s) && StepOk(cfg, s)
    ensures Inv(cfg, Tick(cfg, s))
  {
    if !Finished(s) {
      TickKeeps(cfg, s, 20);
    }
  }
}
