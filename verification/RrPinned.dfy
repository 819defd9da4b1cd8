/** Pinned frames over whole runs: from the fault of a process to its wake-up
    one frame is reserved for it and keeps holding the page it asked for. */
module RrPinned {
  import opened Common
  import opened Mmu
  import opened MmuProofs
  import opened RoundRobin
  import opened RrInvariants
  import opened RrBlockEnd
  import opened RrTicks
  import opened RrAlways

  /** Whoever is blocked in s' was blocked in s, with the same control block. */
  ghost predicate Kept(s: Kernel, s': Kernel) {
    forall p :: p in s'.blocked ==>
      p in s.blocked && p in s.mem.pcbs && p in s'.mem.pcbs && s'.mem.pcbs[p] == s.mem.pcbs[p]
  }

  /** ... or is the running process, which faulted just now. */
  ghost predicate Pins(s: Kernel, s': Kernel) {
    forall p :: p in s'.blocked ==>
      && p in s'.mem.pcbs
      && ((p in s.blocked && p in s.mem.pcbs && s'.mem.pcbs[p] == s.mem.pcbs[p]) || JustBlocked(s, s', p))
  }

  predicate JustBlocked(s: Kernel, s': Kernel, p: int)
    requires p in s'.mem.pcbs
  {
    FaultNow(s) && s.running == Some(p) && s'.mem.pcbs[p].lastStopped == s.clock && s'.mem.pcbs[p].unblockAt <= s.clock + 20
  }

  lemma PinsThenKept(s: Kernel, s1: Kernel, s2: Kernel)
    requires Pins(s, s1) && Kept(s1, s2)
    ensures Pins(s, s2)
  {
  }

  lemma KeptChain(a: Kernel, b: Kernel, c: Kernel)
    requires Kept(a, b) && Kept(b, c)
    ensures Kept(a, c)
  {
  }

  // ---- Phase by phase --------------------------------------------------------

  /** The process p waits for the page it faulted on, in a frame of its own. */
  predicate FreshlyPinned(s: Kernel, s': Kernel, p: int) {
    && s.running == Some(p) && s.mailbox != [] && p in s'.mem.pcbs
    && s'.mem.pcbs[p].pendingPage == s.mailbox[0].page && s'.mem.pcbs[p].pendingFrame != -1
    && Holds(s'.mem, s'.mem.pcbs[p].pendingFrame, p, s.mailbox[0].page)
  }

  /** ... or just for 10 ticks to pass: no frame has changed. */
  predicate WaitsInVain(s: Kernel, s': Kernel, p: int) {
    && p in s'.mem.pcbs && s'.mem.pcbs[p].pendingPage == -1 && s'.mem.pcbs[p].pendingFrame == -1
    && s'.mem.pcbs[p].unblockAt == s.clock + 10 && s'.mem.ram == s.mem.ram
  }

  /** The request is gone from message queue and request list, and the child that
      sent it is past it. */
  predicate RequestGone(s: Kernel, s': Kernel) {
    s'.mailbox == [] && s'.requests == [] && s'.children == s.children
  }

  /** A faulting process gets a frame for its page if and only if started and
      pending processes do not own all of memory. If they do, it is blocked all
      the same, but its access is lost: the request is not repeated. */
  lemma FaultFindsFrame(cfg: Config, s: Kernel)
    requires Core(cfg, s, s.clock) && FaultNow(s) && RequestOk(s)
    ensures HasRoom(s.mem) ==> FreshlyPinned(s, HandleRequests(s), s.running.value)
    ensures !HasRoom(s.mem) ==> WaitsInVain(s, HandleRequests(s), s.running.value)
    ensures RequestGone(s, HandleRequests(s)) && Others(s, HandleRequests(s), s.running.value)
  {
    RequestsKeep(cfg, s);
    TranslationKeeps(cfg, s);
    ServedRequest(s);
    var p := s.running.value;
    assert ProcInv(cfg, s, p);
    var mem := SetPcb(s.mem, p, s.mem.pcbs[p].(remaining := s.shm, lastStopped := s.clock, state := Blocked));
    OtherFields(s.mem, mem);
    SameRoom(s.mem, mem);
    FrameAvailable(mem);
    PageFault(mem, s.clock, p, s.mailbox[0].page, Demand, s.mailbox[0].write);
  }

  lemma RequestsPin(cfg: Config, s: Kernel)
    requires Core(cfg, s, s.clock) && RequestOk(s)
    ensures Pins(s, HandleRequests(s))
  {
    RequestsKeep(cfg, s);
    BlockedLive(s);
    if FaultNow(s) {
      BlocksPins(cfg, s, HandleRequests(s), s.running.value);
    }
  }

  lemma BlocksPins(cfg: Config, s: Kernel, s': Kernel, p: int)
    requires Blocks(cfg, s, s', p) && FaultNow(s) && s.running == Some(p) && p !in s.blocked
    requires forall q :: q in s.blocked ==> q in s.mem.pcbs
    ensures Pins(s, s')
  {
  }

  lemma BlockedLive(s: Kernel)
    requires QueuesOk(s)
    ensures forall p :: p in s.blocked ==> p in s.mem.pcbs && s.running != Some(p) && p !in s.ready
  {
    forall p | p in s.blocked ensures p in s.mem.pcbs && s.running != Some(p) && p !in s.ready {
      Place(s, p);
    }
  }

  lemma BlockEndKept(s: Kernel)
    requires QueuesOk(s)
    ensures Kept(s, CheckBlockEnd(s))
  {
    BlockEndSplits(s);
    BlockedLive(s);
    forall p | p in CheckBlockEnd(s).blocked ensures !Due(s, p) {
      assert p in Select(s, s.blocked, false);
    }
  }

  lemma FirstCheckKept(s: Kernel)
    requires QueuesOk(s)
    ensures Kept(s, FirstCheck(s))
  {
    BlockEndKept(s);
    BlockedLive(s);
  }

  lemma SettlePins(cfg: Config, s: Kernel)
    requires Core(cfg, s, s.clock) && RequestOk(s) && Deadlines(s, 0, 20)
    ensures Pins(s, Settle(cfg, s))
  {
    var s1 := HandleRequests(s);
    RequestsKeep(cfg, s);
    RequestsPin(cfg, s);
    BlockedInTime(cfg, s, s1, 20);
    RestKept(cfg, s1);
    PinsThenKept(s, s1, HandleFinished(FirstCheck(s1)));
  }

  lemma RestKept(cfg: Config, s: Kernel)
    requires Core(cfg, s, s.clock) && Deadlines(s, 0, 20)
    ensures Kept(s, HandleFinished(FirstCheck(s)))
  {
    FirstCheckKept(s);
    FirstCheckKeeps(cfg, s, 20);
    FinishKept(cfg, FirstCheck(s));
    KeptChain(s, FirstCheck(s), HandleFinished(FirstCheck(s)));
  }

  lemma FinishKept(cfg: Config, s: Kernel)
    requires Core(cfg, s, s.clock)
    ensures Kept(s, HandleFinished(s))
  {
    BlockedLive(s);
    FinishShape(cfg, s);
  }

  lemma ReceivedKept(cfg: Config, s: Kernel, lo: int, hi: int)
    requires QueuesOk(s) && Admitted(cfg, s, Received(cfg, s), lo, hi)
    ensures Kept(s, Received(cfg, s))
  {
    BlockedLive(s);
  }

  lemma DispatchKept(cfg: Config, s: Kernel, q: int, t: int)
    requires Core(cfg, s, s.clock) && s.running.None? && s.ready != [] && s.mailbox == []
    requires RoomForFront(s) && t >= 0
    ensures Kept(s, Dispatch(s, q, t))
  {
    DispatchKeeps(cfg, s, q, t);
    BlockedLive(s);
    assert s.ready[0] in s.ready;
  }

  lemma StopKept(s: Kernel, p: int)
    requires QueuesOk(s) && s.running == Some(p) && p in s.mem.pcbs
    ensures Kept(s, StopRunning(s, p))
  {
    BlockedLive(s);
  }

  lemma PutBackKept(cfg: Config, s: Kernel, p: int, hi: int)
    requires Schedulable(cfg, s, hi) && s.running == Some(p)
    ensures p in s.mem.pcbs && Kept(s, PutBack(s, p)) && Back(cfg, s, PutBack(s, p), p, hi)
  {
    PutBackKeeps(cfg, s, p, hi);
    StopKeeps(cfg, s, p);
    StopKept(s, p);
    var s1 := StopRunning(s, p);
    if !s1.checked {
      BlockEndKept(s1);
      KeptChain(s, s1, CheckBlockEnd(s1));
    }
  }

  lemma PreemptKept(cfg: Config, s: Kernel, p: int, q: int, hi: int)
    requires Schedulable(cfg, s, hi) && s.running == Some(p) && s.ready != []
    requires p in s.mem.pcbs && RoomForFront(PutBack(s, p))
    ensures Kept(s, Preempt(s, p, q))
  {
    PutBackKept(cfg, s, p, hi);
    PreemptKeptBy(cfg, s, PutBack(s, p), p, q, hi);
  }

  lemma PreemptKeptBy(cfg: Config, s: Kernel, s1: Kernel, p: int, q: int, hi: int)
    requires Schedulable(cfg, s, hi) && s.running == Some(p) && s.ready != [] && p in s.mem.pcbs
    requires s1 == PutBack(s, p) && Kept(s, s1) && Back(cfg, s, s1, p, hi) && RoomForFront(s1)
    ensures Kept(s, Preempt(s, p, q))
  {
    SwitchKept(cfg, s, s1, p, q, s.clock + 1, hi);
    PreemptIs(s, p, q, s.clock + 1);
  }

  lemma SwitchKept(cfg: Config, s: Kernel, s1: Kernel, p: int, q: int, t: int, hi: int)
    requires Schedulable(cfg, s, hi) && s.ready != [] && Back(cfg, s, s1, p, hi) && Kept(s, s1) && t >= 0
    requires RoomForFront(s1)
    ensures Kept(s, SwitchTo(s1, q, t))
  {
    PrefixOf(s.ready, [p], s1.ready);
    DispatchKept(cfg, s1, q, t);
    KeptChain(s, s1, Dispatch(s1, q, t));
  }

  lemma DecidedKept(cfg: Config, s: Kernel, hi: int)
    requires s.clock > 0 ==> Schedulable(cfg, s, hi)
    requires Core(cfg, s, s.clock) && RoomAt(s)
    ensures Kept(s, Decided(cfg, s))
  {
    BlockedLive(s);
    if s.clock > 0 {
      if Preempts(s) {
        Place(s, s.running.value);
        PreemptKept(cfg, s, s.running.value, cfg.quantum, hi);
        AlgoIsPreempt(s, cfg.quantum);
      } else if s.running.None? && s.ready != [] {
        DispatchKept(cfg, s, cfg.quantum, s.clock);
      }
    }
  }

  lemma GrantedKept(cfg: Config, s: Kernel)
    requires QueuesOk(s)
    ensures Kept(s, Granted(cfg, ClearCheck(s, cfg.k)))
  {
    ClearKept(s, cfg.k);
    StepKept(cfg, ClearCheck(s, cfg.k));
    KeptChain(s, ClearCheck(s, cfg.k), Granted(cfg, ClearCheck(s, cfg.k)));
  }

  lemma ClearKept(s: Kernel, k: int)
    requires QueuesOk(s)
    ensures Kept(s, ClearCheck(s, k)) && QueuesOk(ClearCheck(s, k))
  {
    BlockedLive(s);
  }

  lemma StepKept(cfg: Config, s: Kernel)
    requires QueuesOk(s)
    ensures Kept(s, Granted(cfg, s))
  {
    BlockedLive(s);
    ChildStepFrame(cfg, s);
  }

  lemma ScheduleKept(cfg: Config, s: Kernel, hi: int)
    requires ConfigOk(cfg) && Resumable(cfg, s, hi) && RoomAt(Received(cfg, s))
    ensures Kept(s, Schedule(cfg, s))
  {
    var lo := if s.checked then 1 else 0;
    ReceivedKeeps(cfg, s, lo, hi);
    var r := Received(cfg, s);
    ReceivedKept(cfg, s, lo, hi);
    if r.clock > 0 {
      AlgoKeeps(cfg, r, hi);
    }
    DecidedKept(cfg, r, hi);
    ScheduleIs(cfg, s);
    GrantedKept(cfg, Decided(cfg, r));
    KeptChain(s, r, Decided(cfg, r));
    KeptChain(s, Decided(cfg, r), Schedule(cfg, s));
  }

  lemma AdvanceKept(cfg: Config, s: Kernel, s1: Kernel, hi: int)
    requires ConfigOk(cfg) && Inv(cfg, s) && Settled(cfg, s, s1, hi)
    requires Emptied(s) || RoomAt(Received(cfg, s1))
    ensures Kept(s1, Advance(cfg, s1))
  {
    if Emptied(s) {
      EmptiedAdvances(cfg, s, s1, s.clock + 1, hi);
      BlockedLive(s1);
    } else {
      AdvanceIs(cfg, s1);
      SettledResumable(cfg, s, s1, hi);
      ScheduleKept(cfg, s1, hi);
    }
  }

  lemma LateKept(s: Kernel, next: int)
    requires QueuesOk(s)
    ensures Kept(s, LateCheck(s).(clock := next))
  {
    BlockedLive(s);
    BlockEndKept(s);
  }

  lemma TickPins(cfg: Config, s: Kernel)
    requires ConfigOk(cfg) && Inv(cfg, s) && !Finished(s) && StepOk(cfg, s)
    ensures Pins(s, Tick(cfg, s))
  {
    SettleKeeps(cfg, s, 20);
    var s1 := Settle(cfg, s);
    TickIs(cfg, s);
    SettlePins(cfg, s);
    AdvanceKeeps(cfg, s, s1, s.clock + 1, 20);
    AdvanceKept(cfg, s, s1, 20);
    LateKept(Advance(cfg, s1), s.clock + 1);
    KeptChain(s1, Advance(cfg, s1), Tick(cfg, s));
    PinsThenKept(s, s1, Tick(cfg, s));
  }

  // ---- Over whole runs -------------------------------------------------------

  /** In every run, until a page table is read out of bounds, the reserved frames
      are exactly the pending frames of blocked processes, one each: frame i is
      reserved if and only if it is the pending frame of a blocked process, and
      then it holds that process's pending page. */
  lemma ReservedIsBlocked(cfg: Config, n: nat, i: int, s: Kernel)
    requires ConfigOk(cfg) && s == Run(cfg, n) && !s.mem.trapped && 0 <= i < FRAMES
    ensures |s.mem.ram| == FRAMES
    ensures s.mem.ram[i].reserved <==> exists p :: p in s.blocked && p in s.mem.pcbs && s.mem.pcbs[p].pendingFrame == i
    ensures forall p :: p in s.mem.pcbs && s.mem.pcbs[p].pendingFrame != -1 ==>
              p in s.blocked && Holds(s.mem, s.mem.pcbs[p].pendingFrame, p, s.mem.pcbs[p].pendingPage)
    ensures forall p, q | p in s.mem.pcbs && q in s.mem.pcbs && s.mem.pcbs[p].pendingFrame != -1 ::
              s.mem.pcbs[p].pendingFrame == s.mem.pcbs[q].pendingFrame ==> p == q
  {
    AlwaysSane(cfg, n, s);
    PinnedFrames(s.mem, i);
    forall p | p in s.mem.pcbs && s.mem.pcbs[p].pendingFrame != -1
      ensures p in s.blocked && Holds(s.mem, s.mem.pcbs[p].pendingFrame, p, s.mem.pcbs[p].pendingPage)
    {
      assert Fits(s, p);
      assert MmuProofs.ProcOk(s.mem, p);
      Place(s, p);
    }
  }

  lemma PendingIsBlocked(cfg: Config, s: Kernel, p: int, t: int)
    requires Core(cfg, s, t) && p in s.mem.pcbs && s.mem.pcbs[p].pendingFrame != -1
    ensures p in s.blocked
    ensures var c := s.mem.pcbs[p]; Holds(s.mem, c.pendingFrame, p, c.pendingPage) && s.mem.ram[c.pendingFrame].reserved
  {
    assert ProcInv(cfg, s, p);
    assert MmuProofs.ProcOk(s.mem, p);
    Place(s, p);
  }

  predicate BlockedAt(cfg: Config, i: nat, p: int) {
    p in Run(cfg, i).blocked
  }

  ghost predicate StaysBlocked(cfg: Config, n: nat, m: nat, p: int) {
    forall i: nat :: n <= i <= m ==> BlockedAt(cfg, i, p)
  }

  predicate SamePcb(s: Kernel, s': Kernel, p: int) {
    p in s.mem.pcbs && p in s'.mem.pcbs && s'.mem.pcbs[p] == s.mem.pcbs[p]
  }

  lemma BlockedIsLive(cfg: Config, n: nat, p: int, s: Kernel)
    requires ConfigOk(cfg) && Sound(cfg, n) && s == Run(cfg, n) && p in s.blocked
    ensures SamePcb(s, s, p)
  {
    RunKeeps(cfg, n, s);
    Place(s, p);
  }

  function PcbAt(cfg: Config, n: nat, p: int): Option<Pcb> {
    PcbOf(Run(cfg, n), p)
  }

  function PcbOf(s: Kernel, p: int): Option<Pcb> {
    if p in s.mem.pcbs then Some(s.mem.pcbs[p]) else None
  }

  lemma {:induction false} Constant<T>(f: nat -> T, n: nat, m: nat)
    requires n <= m && forall i: nat :: n <= i < m ==> f(i + 1) == f(i)
    ensures f(m) == f(n)
    decreases m
  {
    if n != m {
      Constant(f, n, m - 1);
      assert f(m - 1 + 1) == f(m - 1);
    }
  }

  lemma SameWhileBlocked(cfg: Config, n: nat, m: nat, p: int)
    requires ConfigOk(cfg) && Sound(cfg, m) && StaysBlocked(cfg, n, m, p) && n <= m
    ensures PcbAt(cfg, m, p) == PcbAt(cfg, n, p)
  {
    var f := (i: nat) => PcbAt(cfg, i, p);
    forall i: nat | n <= i < m ensures f(i + 1) == f(i) {
      SameNext(cfg, i, m, p, n);
    }
    Constant(f, n, m);
  }

  lemma SameNext(cfg: Config, i: nat, m: nat, p: int, n: nat)
    requires ConfigOk(cfg) && Sound(cfg, m) && StaysBlocked(cfg, n, m, p) && n <= i < m
    ensures PcbAt(cfg, i + 1, p) == PcbAt(cfg, i, p)
  {
    SoundPrefix(cfg, i + 1, m);
    assert BlockedAt(cfg, i, p) && BlockedAt(cfg, i + 1, p);
    PinnedNext(cfg, i, Run(cfg, i), Run(cfg, i + 1), p);
  }

  lemma PinnedNext(cfg: Config, n: nat, s: Kernel, s': Kernel, p: int)
    requires ConfigOk(cfg) && Sound(cfg, n + 1) && s == Run(cfg, n) && s' == Run(cfg, n + 1)
    requires p in s.blocked && p in s'.blocked
    ensures SamePcb(s, s', p)
  {
    RunKeeps(cfg, n, s);
    RunNext(cfg, n);
    assert SoundAt(cfg, n);
    PinnedStep(cfg, s, s', p);
  }

  lemma PinnedStep(cfg: Config, s: Kernel, s': Kernel, p: int)
    requires ConfigOk(cfg) && Inv(cfg, s) && StepOk(cfg, s)
    requires s' == Tick(cfg, s) && p in s.blocked && p in s'.blocked
    ensures p in s.mem.pcbs && p in s'.mem.pcbs && s'.mem.pcbs[p] == s.mem.pcbs[p]
  {
    Place(s, p);
    if !Finished(s) {
      TickPins(cfg, s);
    }
  }

  /** From fault to wake-up: as long as p stays blocked, whatever the other
      processes do, its control block stays as it is, and if it was given a frame,
      that frame stays reserved and keeps holding its pending page. */
  lemma PinnedUntilWoken(cfg: Config, n: nat, m: nat, p: int, s: Kernel, s': Kernel)
    requires ConfigOk(cfg) && Sound(cfg, m) && n <= m && s == Run(cfg, n) && s' == Run(cfg, m)
    requires StaysBlocked(cfg, n, m, p)
    ensures p in s.mem.pcbs && p in s'.mem.pcbs && s'.mem.pcbs[p] == s.mem.pcbs[p]
    ensures var c := s.mem.pcbs[p];
      c.pendingFrame != -1 ==> Holds(s'.mem, c.pendingFrame, p, c.pendingPage) && s'.mem.ram[c.pendingFrame].reserved
  {
    SameWhileBlocked(cfg, n, m, p);
    SoundPrefix(cfg, n, m);
    assert BlockedAt(cfg, n, p) && BlockedAt(cfg, m, p);
    BlockedIsLive(cfg, n, p, s);
    RunKeeps(cfg, m, s');
    if s.mem.pcbs[p].pendingFrame != -1 {
      PendingIsBlocked(cfg, s', p, s'.clock);
    }
  }
}
