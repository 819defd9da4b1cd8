/** A page fault on the last tick of a process makes its finish signal go to the
    next one, and the scheduler hangs: whenever the next one has two ticks to run
    and does not fault at once, and on a concrete input. */
module RrLostSignal {
  import opened Common
  import opened Mmu
  import opened MmuProofs
  import opened RoundRobin
  import opened RrCapacity
  import opened RrInvariants
  import RrEndings
  import RrFates
  import opened RrTicks

  // ---- Whenever it happens -----------------------------------------------------

  /** Between ticks, with the CPU empty: a finish signal is pending, and q is
      next, with at least two ticks to run. */
  ghost predicate SignalWaits(cfg: Config, s: Kernel, q: int) {
    && MemInv(s.mem) && RrFates.Names(s) && !s.hung && s.clock > 0 && s.switchUntil <= s.clock
    && s.running.None? && s.finishSignal && s.mailbox == [] && s.requests == []
    && (forall j :: j in s.incoming ==> j in cfg.jobs)
    && s.ready != [] && s.ready[0] == q && NextUp(s, q)
  }

  /** q can be resumed, or started, for at least two ticks. */
  predicate NextUp(s: Kernel, q: int) {
    && q in s.mem.pcbs && s.mem.pcbs[q].pendingFrame == -1
    && if s.mem.pcbs[q].forked
       then q in s.children && s.children[q].remaining >= 2
       else s.mem.pcbs[q].remaining >= 2 && s.mem.pcbs[q].frameIndex == -1
  }

  /** q has run for a tick, has not exited, and finds the signal of another. */
  ghost predicate WrongSignal(s: Kernel, q: int) {
    && !s.mem.trapped && !s.hung && s.running == Some(q) && q in s.mem.pcbs
    && q in s.children && s.children[q].remaining > 0 && s.finishSignal
    && s.requests == [] && |s.mailbox| <= 1 && (s.mailbox != [] ==> s.mailbox[0].sender == q)
  }

  /** Waking others concerns neither the memory invariant nor q. */
  lemma {:induction false} WalkSafely(s: Kernel, rest: seq<int>, q: int)
    requires MemInv(s.mem) && NextUp(s, q)
    ensures MemInv(WakeWalk(s, rest).mem) && NextUp(WakeWalk(s, rest), q)
    decreases |rest|
  {
    if rest != [] {
      var s1 := if Due(s, rest[0]) then WakeOne(s, rest[0]) else s;
      if rest[0] in s.mem.pcbs {
        WakeKeeps(s.mem, rest[0]);
      }
      WalkSafely(s1, rest[1..], q);
    }
  }

  /** The iteration that serves the fault of the exited child. */
  lemma SignalIsLeft(cfg: Config, s: Kernel, q: int)
    requires ConfigOk(cfg) && Inv(cfg, s) && LastTickFault(s)
    requires s.ready != [] && s.ready[0] == q && Left(s, q) >= 2
    ensures SignalWaits(cfg, Tick(cfg, s), q)
  {
    FaultLeaves(cfg, s, HandleRequests(s), q);
    LeftBy(cfg, s, HandleRequests(s), s.running.value, q);
  }

  lemma LeftBy(cfg: Config, s: Kernel, s1: Kernel, p: int, q: int)
    requires !Finished(s) && !s.hung && !s.mem.trapped && s.clock > 0 && s1 == HandleRequests(s)
    requires RrFates.Fated(s1, p, RrFates.TooLate, s.clock)
    requires MemInv(s1.mem) && s1.running.None? && s1.finishSignal && s1.mailbox == [] && s1.requests == []
    requires s1.ready != [] && s1.ready[0] == q && s1.switchUntil == s.clock + 1 && s1.clock == s.clock && !s1.hung
    requires NextUp(s1, q) && forall j :: j in s1.incoming ==> j in cfg.jobs
    ensures SignalWaits(cfg, Tick(cfg, s), q)
  {
    LeftWaiting(cfg, s1, p, q);
    EmptiedTick(cfg, s, s1, CheckBlockEnd(s1).(checked := true));
  }

  lemma LeftWaiting(cfg: Config, s: Kernel, p: int, q: int)
    requires RrFates.Fated(s, p, RrFates.TooLate, s.clock)
    requires MemInv(s.mem) && s.running.None? && s.finishSignal && s.mailbox == [] && s.requests == []
    requires s.ready != [] && s.ready[0] == q && s.switchUntil == s.clock + 1 && s.clock > 0 && !s.hung
    requires NextUp(s, q) && forall j :: j in s.incoming ==> j in cfg.jobs
    ensures SignalWaits(cfg, CheckBlockEnd(s).(checked := true, clock := s.clock + 1), q)
  {
    WalkSafely(s, s.blocked, q);
    BlockEndFrame(s, s.blocked);
    IdleNames(s);
    assert CheckBlockEnd(s).ready[0] == s.ready[0];
  }

  lemma EmptiedTick(cfg: Config, s: Kernel, s1: Kernel, s2: Kernel)
    requires !Finished(s) && !s.hung && !s.mem.trapped && s1 == HandleRequests(s) && s1.running.None? && !s1.hung
    requires s2 == CheckBlockEnd(s1).(checked := true) && s1.switchUntil == s.clock + 1 && s1.clock == s.clock >= 0
    ensures Tick(cfg, s) == s2.(clock := s.clock + 1)
  {
    BlockEndFrame(s1, s1.blocked);
    assert Settle(cfg, s) == s2;
    assert Advance(cfg, s2) == s2;
    TickIs(cfg, s);
  }

  lemma FaultLeaves(cfg: Config, s: Kernel, s1: Kernel, q: int)
    requires ConfigOk(cfg) && Inv(cfg, s) && LastTickFault(s) && s1 == HandleRequests(s)
    requires s.ready != [] && s.ready[0] == q && Left(s, q) >= 2
    ensures RrFates.Fated(s1, s.running.value, RrFates.TooLate, s.clock)
    ensures MemInv(s1.mem) && s1.running.None? && s1.finishSignal && s1.mailbox == [] && s1.requests == []
    ensures s1.ready == s.ready && s1.switchUntil == s.clock + 1 && s1.clock == s.clock && s.clock > 0 && !s1.hung
    ensures NextUp(s1, q) && forall j :: j in s1.incoming ==> j in cfg.jobs
  {
    var p := s.running.value;
    RrEndings.LastTickDooms(cfg, s, p);
    FaultInRange(cfg, s);
    TranslationKeeps(cfg, s);
    ServedRequest(s);
    var r := s.mailbox[0].(tick := s.clock);
    assert ProcInv(cfg, Translated(s), p);
    BlockedMem(cfg, Translated(s), r, BlockRunning(Translated(s), r).mem);
    Place(s, q);
    assert ProcInv(cfg, s, q);
    assert s.ready[0] in s.ready;
  }

  /** The next one: q gets the CPU, runs for a tick, and the signal is still
      there. */
  lemma SignalGoesToNext(cfg: Config, s: Kernel, q: int)
    requires ConfigOk(cfg) && SignalWaits(cfg, s, q)
    ensures WrongSignal(Tick(cfg, s), q)
  {
    var s1 := CheckBlockEnd(s).(checked := true);
    IdleSettles(cfg, s, q);
    var r := Received(cfg, s1);
    ReceivedSafely(cfg, s1, q);
    var d := Dispatch(r, cfg.quantum, r.clock);
    DispatchedSafely(r, cfg.quantum, r.clock, q);
    assert Decided(cfg, r) == d;
    ScheduleIs(cfg, s1);
    RunsOn(cfg, d, q);
    AdvanceIs(cfg, s1);
    TickIs(cfg, s);
    assert Tick(cfg, s) == Schedule(cfg, s1).(clock := s.clock + 1);
  }

  lemma IdleSettles(cfg: Config, s: Kernel, q: int)
    requires SignalWaits(cfg, s, q)
    ensures var s1 := CheckBlockEnd(s).(checked := true);
      Settle(cfg, s) == s1 && SignalWaits(cfg, s1, q) && s1.clock == s.clock && s1.checked
  {
    WalkSafely(s, s.blocked, q);
    BlockEndFrame(s, s.blocked);
    IdleNames(s);
    assert CheckBlockEnd(s).ready[0] == s.ready[0];
  }

  lemma IdleNames(s: Kernel)
    requires RrFates.Names(s)
    ensures RrFates.Names(CheckBlockEnd(s))
  {
    NamesWalk(s, s.blocked);
  }

  lemma {:induction false} NamesWalk(s: Kernel, rest: seq<int>)
    requires RrFates.Names(s) && forall i :: 0 <= i < |rest| ==> RrFates.Known(s, rest[i])
    ensures RrFates.Names(WakeWalk(s, rest))
    decreases |rest|
  {
    if rest != [] {
      WakeRecords(s.mem, rest[0]);
      NamesWalk(if Due(s, rest[0]) then WakeOne(s, rest[0]) else s, rest[1..]);
    }
  }

  /** Arrivals concern neither the memory invariant nor q. */
  ghost predicate Undisturbed(cfg: Config, s: Kernel, q: int) {
    && MemInv(s.mem) && RrFates.Names(s) && (forall j :: j in s.incoming ==> j in cfg.jobs)
    && s.ready != [] && s.ready[0] == q && NextUp(s, q)
  }

  lemma {:induction false} AdmitsSafely(cfg: Config, s: Kernel, q: int)
    requires ConfigOk(cfg) && Undisturbed(cfg, s, q)
    ensures Undisturbed(cfg, AdmitArrived(s), q)
    decreases |s.incoming|
  {
    if s.incoming != [] && s.incoming[0].arrival <= s.clock {
      AdmitsOne(cfg, s, q);
      AdmitsSafely(cfg, AdmitNext(s), q);
    }
  }

  lemma AdmitsOne(cfg: Config, s: Kernel, q: int)
    requires ConfigOk(cfg) && Undisturbed(cfg, s, q) && s.incoming != []
    ensures Undisturbed(cfg, AdmitNext(s), q)
  {
    var j := s.incoming[0];
    assert j in s.incoming && j in cfg.jobs;
    RrFates.AdmitNames(s);
    AdmitKeeps(s.mem, j.id, CreatePcb(j));
    assert forall i :: i in s.incoming[1..] ==> i in s.incoming;
  }

  lemma ReceivedSafely(cfg: Config, s: Kernel, q: int)
    requires ConfigOk(cfg) && SignalWaits(cfg, s, q)
    ensures var r := Received(cfg, s);
      && MemInv(r.mem) && r.ready != [] && r.ready[0] == q && NextUp(r, q)
      && r.running.None? && r.finishSignal && r.mailbox == [] && r.requests == [] && !r.hung
      && r.clock == s.clock && r.switchUntil == -1 && r.checked == s.checked
  {
    var s0 := s.(switchUntil := -1);
    AdmitsSafely(cfg, s0, q);
    AdmitFrame(s0);
    SyncOnly(cfg, s0);
  }

  /** Receiving is admission, but for the sentinel and the final message. */
  lemma SyncOnly(cfg: Config, s: Kernel)
    ensures var s1 := AdmitArrived(s); var s2 := Receive(cfg, s);
      s2 == s1.(lastSync := s2.lastSync, receiving := s2.receiving)
  {
  }

  /** Even without room for its page table the process gets the CPU. */
  lemma DispatchedSafely(s: Kernel, quantum: int, t: int, q: int)
    requires MemInv(s.mem) && s.ready != [] && s.ready[0] == q && NextUp(s, q)
    ensures var d := Dispatch(s, quantum, t);
      && MemInv(d.mem) && d.running == Some(q) && q in d.mem.pcbs && q in d.children && d.children[q].remaining >= 2
      && d == s.(mem := d.mem, ready := s.ready[1..], running := Some(q), children := d.children, shm := d.shm,
                 preemptAt := t + quantum)
  {
    if s.mem.pcbs[q].forked {
      ResumedSafely(TakeFront(s), t, q);
    } else {
      LaunchedSafely(TakeFront(s), t, q);
    }
  }

  /** The kernel s' runs q, and little else is different from s. */
  predicate RunsInstead(s: Kernel, s': Kernel, q: int) {
    && q in s'.mem.pcbs && q in s'.children && s'.children[q].remaining >= 2
    && s' == s.(mem := s'.mem, children := s'.children, shm := s'.shm)
  }

  lemma ResumedSafely(s: Kernel, t: int, q: int)
    requires MemInv(s.mem) && NextUp(s, q) && s.mem.pcbs[q].forked
    ensures MemInv(Resume(s, q, t).mem) && RunsInstead(s, Resume(s, q, t), q)
  {
    OtherFields(s.mem, Resume(s, q, t).mem);
  }

  lemma LaunchedSafely(s: Kernel, t: int, q: int)
    requires MemInv(s.mem) && NextUp(s, q) && !s.mem.pcbs[q].forked
    ensures MemInv(Launch(s, q, t).mem) && RunsInstead(s, Launch(s, q, t), q)
  {
    var mem1 := SetPcb(s.mem, q, Begun(s.mem.pcbs[q], t));
    OtherFields(s.mem, mem1);
    InitSafely(mem1, t, q);
    var mem2 := InitProcess(mem1, t, q);
    OtherFields(mem2, Launched(s, q, mem2).mem);
  }

  lemma InitSafely(mem: Mem, t: int, q: int)
    requires MemInv(mem) && q in mem.pcbs && mem.pcbs[q].frameIndex == -1 && mem.pcbs[q].pendingFrame == -1
    ensures MemInv(InitProcess(mem, t, q)) && q in InitProcess(mem, t, q).pcbs
  {
    if HasRoom(mem) {
      StartSucceeds(mem, t, q);
    } else {
      StartFails(mem, t, q);
    }
  }

  /** Clear check and grant. */
  lemma RunsOn(cfg: Config, d: Kernel, q: int)
    requires MemInv(d.mem) && d.running == Some(q) && q in d.mem.pcbs && q in d.children && d.children[q].remaining >= 2
    requires d.finishSignal && d.mailbox == [] && d.requests == [] && !d.hung && d.switchUntil <= d.clock
    ensures var s' := Granted(cfg, ClearCheck(d, cfg.k));
      WrongSignal(s', q) && s'.checked == d.checked && s'.clock == d.clock
  {
    ClearKeeps(d.mem);
    var s1 := ClearCheck(d, cfg.k);
    assert MemInv(s1.mem) && s1.mem.pcbs == d.mem.pcbs && s1.children == d.children;
  }

  /** ... and the third: the signal is taken for the exit of q. */
  lemma WaitsForWrongExit(cfg: Config, s: Kernel, q: int)
    requires WrongSignal(s, q) && !FaultNow(s)
    ensures Tick(cfg, s).hung && Tick(cfg, s).running == Some(q)
  {
    ServedInPlace(s, q);
    CheckedInPlace(HandleRequests(s), q);
    HungBy(cfg, s, FirstCheck(HandleRequests(s)), q);
  }

  lemma CheckedInPlace(s: Kernel, q: int)
    requires s.running == Some(q) && q in s.mem.pcbs
    ensures var s' := FirstCheck(s);
      && s'.running == Some(q) && q in s'.mem.pcbs && s'.children == s.children && s'.finishSignal == s.finishSignal
  {
    BlockEndFrame(s, s.blocked);
    WakeWalkRecords(s, s.blocked);
  }

  lemma HungBy(cfg: Config, s: Kernel, s2: Kernel, q: int)
    requires WrongSignal(s, q) && s2 == FirstCheck(HandleRequests(s))
    requires s2.running == Some(q) && q in s2.mem.pcbs && s2.children == s.children && s2.finishSignal
    ensures Tick(cfg, s).hung && Tick(cfg, s).running == Some(q)
  {
    assert HandleFinished(s2) == s2.(hung := true);
    assert Settle(cfg, s) == HandleFinished(s2);
  }

  lemma ServedInPlace(s: Kernel, q: int)
    requires WrongSignal(s, q) && !FaultNow(s)
    ensures var s1 := HandleRequests(s);
      && s1.running == Some(q) && s1.mem.pcbs == s.mem.pcbs && s1.children == s.children && s1.finishSignal && !s1.hung
  {
    if s.mailbox == [] {
      assert HandleRequests(s) == s;
    } else {
      ServedRequest(s);
      RrFates.CheckBenign(s.mem, q, s.mailbox[0].page, s.mailbox[0].write);
    }
  }

  /** After any fault of an exited child with another process ready that has at
      least two ticks to run: unless that one faults in its first tick, the
      scheduler waits for its exit two iterations later, for ever. */
  lemma HangsWithinThree(cfg: Config, s: Kernel)
    requires ConfigOk(cfg) && Inv(cfg, s) && LastTickFault(s)
    requires s.ready != [] && Left(s, s.ready[0]) >= 2
    requires !FaultNow(Tick(cfg, Tick(cfg, s)))
    ensures Tick(cfg, Tick(cfg, Tick(cfg, s))).hung && Tick(cfg, Tick(cfg, Tick(cfg, s))).running == Some(s.ready[0])
  {
    SignalIsLeft(cfg, s, s.ready[0]);
    SignalGoesToNext(cfg, Tick(cfg, s), s.ready[0]);
    WaitsForWrongExit(cfg, Tick(cfg, Tick(cfg, s)), s.ready[0]);
  }

  // ---- A concrete input ----------------------------------------------------------

  /** Process 1 runs for one tick and touches page 1 in it; process 2 is behind
      it in the queue. */
  const FIRST := Job(1, 0, 1, 0, 0, 2)
  const SECOND := Job(2, 0, 3, 0, 0, 1)
  const INPUT := Config([FIRST, SECOND], map[1 := [Request(0, 1, false, 0)]], 5, 0)

  ghost predicate Calm(s: Kernel) {
    MemInv(s.mem) && s.requests == [] && !s.hung && s.switchUntil <= s.clock
  }

  /** Both processes are ready at tick 1. */
  ghost predicate BothReady(s: Kernel) {
    && Calm(s) && s.clock == 1 && s.running.None? && s.ready == [1, 2] && s.blocked == [] && s.current == [1, 2]
    && s.mem.pcbs == map[1 := CreatePcb(FIRST), 2 := CreatePcb(SECOND)]
    && s.children == map[] && s.mailbox == [] && s.incoming == [] && s.receiving && s.lastSync == 0 && !s.finishSignal
  }

  /** At tick 2 process 1 has exited with a request under way. */
  ghost predicate Exited(s: Kernel) {
    && Calm(s) && s.clock == 2 && s.running == Some(1) && s.ready == [2] && s.blocked == [] && s.current == [1, 2]
    && s.mem.pcbs.Keys == {1, 2} && s.mem.pcbs[2] == CreatePcb(SECOND) && s.mem.pcbs[1].limit == 2
    && s.mem.pcbs[1].pendingFrame == -1
    && HasEntry(s.mem, 1, 1) && !Entry(s.mem, 1, 1).valid
    && s.children == map[1 := Child(0, 1, 1)] && s.mailbox == [Request(1, 1, false, 0)]
    && s.incoming == [] && !s.receiving && s.finishSignal
  }

  /** At tick 3 it is blocked, its finish signal still pending. */
  ghost predicate SignalPending(s: Kernel) {
    && Calm(s) && s.clock == 3 && s.running.None? && s.ready == [2] && s.blocked == [1] && s.current == [1, 2]
    && s.mem.pcbs.Keys == {1, 2} && s.mem.pcbs[2] == CreatePcb(SECOND) && s.mem.pcbs[1].unblockAt >= 12
    && s.children == map[1 := Child(0, 1, 1)] && s.mailbox == [] && s.incoming == [] && !s.receiving && s.finishSignal
  }

  /** At tick 4 process 2 has run for one of its three ticks. */
  ghost predicate OtherRuns(s: Kernel) {
    && Calm(s) && s.clock == 4 && s.running == Some(2) && 2 in s.mem.pcbs
    && 2 in s.children && s.children[2].remaining == 2 && s.mailbox == [] && s.finishSignal
  }

  lemma FirstTick(s: Kernel)
    requires s == Boot(INPUT)
    ensures BothReady(Tick(INPUT, s))
  {
    forall i | 0 <= i < FRAMES ensures FrameOk(s.mem, i) {
      assert s.mem.ram[i] == BOOT_FRAME;
    }
    var s0 := s.(checked := true);
    assert Settle(INPUT, s) == s0;
    var s1 := AdmitNext(s0);
    assert s1.incoming == [SECOND];
    AdmitKeeps(s.mem, 1, CreatePcb(FIRST));
    var s2 := AdmitNext(s1);
    AdmitKeeps(s1.mem, 2, CreatePcb(SECOND));
    assert s2.incoming == [];
    assert AdmitArrived(s0) == AdmitArrived(s1) == AdmitArrived(s2) == s2;
    assert INPUT.jobs[1..] == [SECOND] && INPUT.jobs[1..][1..] == [];
    assert LastArrival([SECOND]) == 0;
    assert LastArrival(INPUT.jobs) == 0;
  }

  lemma ReceivedNothing(s: Kernel)
    requires s.incoming == [] && s.clock > 0
    ensures Receive(INPUT, s) == s.(receiving := false)
  {
    assert INPUT.jobs[1..] == [SECOND] && INPUT.jobs[1..][1..] == [];
    assert LastArrival([SECOND]) == 0;
    assert LastArrival(INPUT.jobs) == 0;
  }

  /** The first block-end check and the finish handling of an idle kernel. */
  lemma SettlesIdle(s: Kernel)
    requires s.running.None? && s.mailbox == [] && forall p :: p in s.blocked ==> !Due(s, p)
    ensures Settle(INPUT, s) == s.(checked := true)
  {
    NobodyWakes(s, s.blocked);
  }

  lemma {:induction false} NobodyWakes(s: Kernel, rest: seq<int>)
    requires forall p :: p in rest ==> !Due(s, p)
    ensures WakeWalk(s, rest) == s
  {
    if rest != [] {
      assert rest[0] in rest;
      NobodyWakes(s, rest[1..]);
    }
  }

  /** An idle kernel gives the CPU to p, which is started and runs one tick. */
  lemma StartsNext(s: Kernel, s1: Kernel, s2: Kernel, p: int, t: int)
    requires s.running.None? && s.clock == t > 0 && s.mailbox == [] && s.switchUntil <= t
    requires s.ready != [] && s.ready[0] == p && p in s.mem.pcbs && !s.mem.pcbs[p].forked
    requires s1 == Received(INPUT, s) && s1.ready == s.ready && s1.mem == s.mem && s1.clock == t && s1.running.None?
    requires s2 == Launch(TakeFront(s1), p, t)
    ensures Schedule(INPUT, s) == Granted(INPUT, s2.(preemptAt := t + 5))
  {
    ScheduleIs(INPUT, s);
    assert RrAlgo(s1, 5) == Dispatch(s1, 5, t);
    assert Dispatch(s1, 5, t) == s2.(preemptAt := t + 5);
  }

  lemma TwoHaveRoom(mem: Mem)
    requires mem.pcbs.Keys == {1, 2}
    ensures HasRoom(mem)
  {
    SmallerSet(StartedSet(mem), {1, 2});
    SmallerSet(PendingSet(mem), {1, 2});
  }

  lemma SecondTick(s: Kernel)
    requires BothReady(s)
    ensures Exited(Tick(INPUT, s))
  {
    SettlesIdle(s);
    var s0 := s.(checked := true);
    ReceivedNothing(s0.(switchUntil := -1));
    var s1 := s0.(switchUntil := -1, receiving := false);
    assert Received(INPUT, s0) == s1;
    TwoHaveRoom(s1.mem);
    var s2 := LaunchResult(TakeFront(s1), 1, 1);
    StartsNext(s0, s1, s2, 1, 1);
    AdvanceIs(INPUT, s0);
    TickIs(INPUT, s);
    assert HasEntry(s2.mem, 1, 1);
    ExitsAtOnce(s2.(preemptAt := 6));
  }

  lemma ExitsAtOnce(s: Kernel)
    requires s.running == Some(1) && s.children == map[1 := Child(1, 0, 0)] && s.mailbox == [] && s.switchUntil <= s.clock
    ensures Granted(INPUT, s) ==
              s.(mailbox := [Request(1, 1, false, 0)], children := map[1 := Child(0, 1, 1)], shm := 0, finishSignal := true)
  {
    assert Program(INPUT, 1) == [Request(0, 1, false, 0)];
  }

  lemma ThirdTick(s: Kernel)
    requires Exited(s)
    ensures SignalPending(Tick(INPUT, s))
  {
    var r := s.mailbox[0];
    assert MmuProofs.ProcOk(s.mem, 1);
    assert Started(s.mem, 1);
    CheckKeeps(s.mem, 1, 1, false);
    ServedRequest(s);
    var s1 := s.(mailbox := []);
    assert Translated(s) == s1;
    var c := s.mem.pcbs[1].(remaining := s.shm, lastStopped := s.clock, state := Blocked);
    OtherFields(s.mem, SetPcb(s.mem, 1, c));
    PageFault(SetPcb(s.mem, 1, c), 2, 1, 1, Demand, false);
    var s2 := BlockRunning(s1, r.(tick := 2));
    assert HandleRequests(s) == s2;
    SettlesIdle(s2);
    assert Settle(INPUT, s) == s2.(checked := true);
  }

  lemma FourthTick(s: Kernel)
    requires SignalPending(s)
    ensures OtherRuns(Tick(INPUT, s))
  {
    SettlesIdle(s);
    var s0 := s.(checked := true);
    var s4 := SecondRuns(s0);
    TickEnds(s, s0, s4);
  }

  lemma SecondRuns(s: Kernel) returns (s': Kernel)
    requires SignalPending(s)
    ensures s' == Advance(INPUT, s) && OtherRuns(s'.(clock := 4)) && s'.checked == s.checked
  {
    var s1 := s.(switchUntil := -1);
    var s2 := SecondStarts(s1);
    StartsNext(s, s1, s2, 2, 3);
    AdvanceIs(INPUT, s);
    var s3 := s2.(preemptAt := 8);
    RunsOneTick(s3);
    s' := s3.(children := s3.children[2 := Child(2, 1, 0)], shm := 2);
  }

  lemma SecondStarts(s: Kernel) returns (s': Kernel)
    requires SignalPending(s)
    ensures s' == Launch(TakeFront(s), 2, 3) && Begins(TakeFront(s), s', 2, 3)
  {
    TwoHaveRoom(s.mem);
    s' := LaunchResult(TakeFront(s), 2, 3);
  }

  lemma TickEnds(s: Kernel, s0: Kernel, s4: Kernel)
    requires s0 == Settle(INPUT, s) && s4 == Advance(INPUT, s0) && !s0.hung && !Finished(s) && !s.hung && !s.mem.trapped
    requires s4.checked
    ensures Tick(INPUT, s) == s4.(clock := s.clock + 1)
  {
  }

  lemma RunsOneTick(s: Kernel)
    requires s.running == Some(2) && 2 in s.children && s.children[2] == Child(3, 0, 0) && s.switchUntil <= s.clock
    ensures Granted(INPUT, s) == s.(children := s.children[2 := Child(2, 1, 0)], shm := 2)
  {
    assert Program(INPUT, 2) == [];
  }

  lemma FifthTick(s: Kernel)
    requires OtherRuns(s)
    ensures Tick(INPUT, s).hung && Tick(INPUT, s).running == Some(2)
  {
    WaitsForWrongExit(INPUT, s, 2);
  }

  lemma {:induction false} Progress(n: nat, s: Kernel)
    requires s == Run(INPUT, n)
    ensures n == 0 ==> s == Boot(INPUT)
    ensures n == 1 ==> BothReady(s)
    ensures n == 2 ==> Exited(s)
    ensures n == 3 ==> SignalPending(s)
    ensures n == 4 ==> OtherRuns(s)
    ensures n >= 5 ==> s.hung && s.running == Some(2)
    decreases n
  {
    if n > 0 {
      var before := RunBack(INPUT, n, s);
      Progress(n - 1, before);
      if n == 1 {
        FirstTick(before);
      } else if n == 2 {
        SecondTick(before);
      } else if n == 3 {
        ThirdTick(before);
      } else if n == 4 {
        FourthTick(before);
      } else if n == 5 {
        FifthTick(before);
      }
    }
  }

  /** From the fifth iteration on the scheduler waits for the exit of process 2,
      which is never granted another tick: the run hangs, unfinished. */
  lemma LastTickFaultHangs(n: nat)
    requires n >= 5
    ensures ConfigOk(INPUT) && Run(INPUT, n).hung && !Finished(Run(INPUT, n))
  {
    Progress(n, Run(INPUT, n));
    InputOk();
  }

  lemma InputOk()
    ensures ConfigOk(INPUT)
  {
    assert Ids(INPUT.jobs) == [1, 2];
  }
}
