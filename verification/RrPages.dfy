/** The accesses that memory always has room for: while at most 21 processes are
    live, every process that is started finds page 0 in memory, and every page
    fault gets its page. */
module RrPages {
  import opened Common
  import opened Mmu
  import opened MmuProofs
  import opened RoundRobin
  import opened RrInvariants
  import opened RrBlockEnd
  import opened RrTicks
  import opened RrPinned
  import opened RrCapacity
  import opened RrStatic

  // ---- Demand faults --------------------------------------------------------------

  /** Started and pending processes leave a frame: the live ones are at most 21,
      and ten of them, at most, wait for a page. */
  lemma FewLeaveFrame(cfg: Config, s: Kernel)
    requires Core(cfg, s, s.clock) && Deadlines(s, 0, 20) && Spaced(s) && |s.current| <= 21
    ensures HasRoom(s.mem)
  {
    BlockedLive(s);
    PendingAreFew(cfg, s, s);
    LiveCount(cfg, s);
    SmallerSet(StartedSet(s.mem), s.mem.pcbs.Keys);
  }

  /** The process p has faulted in s; in s' it waits, with its page in a frame that
      is its own as long as it waits. */
  predicate FaultServed(s: Kernel, s': Kernel, p: int) {
    FreshlyPinned(s, s', p) && p in s'.blocked
  }

  lemma FaultGetsFrame(cfg: Config, s: Kernel)
    requires ConfigOk(cfg) && Inv(cfg, s) && FaultNow(s) && RequestOk(s) && Spaced(s) && |s.current| <= 21
    ensures FaultServed(s, Tick(cfg, s), s.running.value)
  {
    FewLeaveFrame(cfg, s);
    FaultFindsFrame(cfg, s);
    RequestsKeep(cfg, s);
    SettleKeeps(cfg, s, 20);
    EmptiedAdvances(cfg, s, Settle(cfg, s), s.clock + 1, 20);
    TickIs(cfg, s);
    FaultTick(cfg, s, HandleRequests(s));
    StillPinned(cfg, s, HandleRequests(s), s.running.value);
  }

  /** After a fault the iteration does a block-end check and no more. */
  lemma FaultTick(cfg: Config, s: Kernel, s1: Kernel)
    requires s1 == HandleRequests(s) && s1.running.None? && Advance(cfg, Settle(cfg, s)) == Settle(cfg, s)
    requires Tick(cfg, s) == LateCheck(Advance(cfg, Settle(cfg, s))).(clock := s.clock + 1)
    ensures Tick(cfg, s) == CheckBlockEnd(s1).(checked := true, clock := s.clock + 1)
  {
    BlockEndFrame(s1, s1.blocked);
  }

  lemma StillPinned(cfg: Config, s: Kernel, s1: Kernel, p: int)
    requires Blocks(cfg, s, s1, p) && FreshlyPinned(s, s1, p)
    ensures FreshlyPinned(s, CheckBlockEnd(s1), p) && p in CheckBlockEnd(s1).blocked
  {
    assert p in s1.blocked && !Due(s1, p);
    BlockEndSplits(s1);
    BlockEndKeeps(cfg, s1, s.clock);
    assert MmuProofs.ProcOk(CheckBlockEnd(s1).mem, p);
  }

  // ---- Page 0 -----------------------------------------------------------------------

  predicate InMemory(mem: Mem, p: int, v: int) {
    HasEntry(mem, p, v) && Entry(mem, p, v).valid
  }

  lemma HeldIsInMemory(mem: Mem, i: int, p: int, v: int)
    requires MemInv(mem) && Holds(mem, i, p, v)
    ensures InMemory(mem, p, v)
  {
    assert FrameOk(mem, i);
  }

  /** A loaded page stays in its frame through block ends, clears and grants. */
  lemma {:induction false} WalkHolds(s: Kernel, rest: seq<int>, i: int, p: int, v: int)
    requires Holds(s.mem, i, p, v)
    ensures Holds(WakeWalk(s, rest).mem, i, p, v)
    decreases |rest|
  {
    if rest != [] {
      WalkHolds(if Due(s, rest[0]) then WakeOne(s, rest[0]) else s, rest[1..], i, p, v);
    }
  }

  lemma ClearHolds(s: Kernel, k: int, i: int, p: int, v: int)
    requires Holds(s.mem, i, p, v)
    ensures Holds(ClearCheck(s, k).mem, i, p, v)
  {
  }

  lemma RestHolds(cfg: Config, s: Kernel, next: int, i: int, p: int, v: int)
    requires Holds(s.mem, i, p, v)
    ensures Holds(LateCheck(Granted(cfg, ClearCheck(s, cfg.k))).(clock := next).mem, i, p, v)
  {
    ClearHolds(s, cfg.k, i, p, v);
    var s1 := Granted(cfg, ClearCheck(s, cfg.k));
    ChildStepFrame(cfg, ClearCheck(s, cfg.k));
    WalkHolds(s1, s1.blocked, i, p, v);
  }

  /** From s to s' the process p was started, with page 0 in frame i. */
  predicate StartedWith(s: Kernel, s': Kernel, p: int, i: int) {
    p !in s.children && p in s'.children && s'.running == Some(p) && Holds(s'.mem, i, p, 0)
  }

  lemma LaunchServed(s: Kernel, p: int, t: int) returns (i: int)
    requires MemInv(s.mem) && p in s.mem.pcbs
    requires s.mem.pcbs[p].frameIndex == -1 && s.mem.pcbs[p].pendingFrame == -1
    requires |StartedSet(s.mem)| + |PendingSet(s.mem)| + 2 <= FRAMES
    ensures Holds(Launch(s, p, t).mem, i, p, 0)
    ensures Launch(s, p, t).running == s.running && Launch(s, p, t).children.Keys == s.children.Keys + {p}
  {
    var mem1 := SetPcb(s.mem, p, Begun(s.mem.pcbs[p], t));
    OtherFields(s.mem, mem1);
    SameRoom(s.mem, mem1);
    StartSucceeds(mem1, t, p);
    var mem := InitProcess(mem1, t, p);
    assert MmuProofs.ProcOk(mem, p);
    assert EntryOk(mem, p, 0);
    i := Entry(mem, p, 0).frame;
  }

  lemma DispatchServed(cfg: Config, s: Kernel, q: int, t: int, p: int) returns (i: int)
    requires Core(cfg, s, s.clock) && s.running.None? && s.ready != [] && Spares(s, 2)
    requires p in Dispatch(s, q, t).children && p !in s.children
    ensures StartedWith(s, Dispatch(s, q, t), p, i)
  {
    var f := s.ready[0];
    Place(s, f);
    assert ProcInv(cfg, s, f);
    if s.mem.pcbs[f].forked {
      assert false;
    } else {
      i := LaunchServed(TakeFront(s), f, t);
    }
  }

  lemma DecisionServed(cfg: Config, s: Kernel, hi: int, p: int) returns (i: int)
    requires Schedulable(cfg, s, hi) && Spares(Switching(s), 2)
    requires p in RrAlgo(s, cfg.quantum).children && p !in s.children
    ensures StartedWith(s, RrAlgo(s, cfg.quantum), p, i)
  {
    if Preempts(s) {
      Place(s, s.running.value);
      i := PreemptServed(cfg, s, s.running.value, hi, p, s.clock + 1);
    } else if s.running.None? && s.ready != [] {
      AlgoIsDispatch(s, cfg.quantum);
      i := DispatchServed(cfg, s, cfg.quantum, s.clock, p);
    } else {
      AlgoIsIdle(s, cfg.quantum);
      assert false;
    }
  }

  lemma PreemptServed(cfg: Config, s: Kernel, r: int, hi: int, p: int, next: int) returns (i: int)
    requires Schedulable(cfg, s, hi) && Preempts(s) && s.running == Some(r) && r in s.mem.pcbs && next == s.clock + 1
    requires Spares(PutBack(s, r), 2)
    requires p in RrAlgo(s, cfg.quantum).children && p !in s.children
    ensures StartedWith(s, RrAlgo(s, cfg.quantum), p, i)
  {
    PutBackKeeps(cfg, s, r, hi);
    BlockEndFrame(StopRunning(s, r), StopRunning(s, r).blocked);
    AlgoIsPreempt(s, cfg.quantum);
    PreemptIs(s, r, cfg.quantum, next);
    assert PutBack(s, r).children == s.children;
    i := DispatchServed(cfg, PutBack(s, r), cfg.quantum, next, p);
  }

  lemma SettleChildren(cfg: Config, s: Kernel)
    requires Core(cfg, s, s.clock) && RequestOk(s) && Deadlines(s, 0, 20)
    ensures Settle(cfg, s).children.Keys <= s.children.Keys
  {
    RequestsKeep(cfg, s);
    BlockedInTime(cfg, s, HandleRequests(s), 20);
    CheckedChildren(cfg, HandleRequests(s));
  }

  lemma CheckedChildren(cfg: Config, s: Kernel)
    requires Core(cfg, s, s.clock) && Deadlines(s, 0, 20)
    ensures HandleFinished(FirstCheck(s)).children.Keys <= s.children.Keys
  {
    FirstCheckKeeps(cfg, s, 20);
    FinishShape(cfg, FirstCheck(s));
  }

  lemma GrantedChildren(cfg: Config, s: Kernel, next: int)
    ensures LateCheck(Granted(cfg, ClearCheck(s, cfg.k))).(clock := next).children.Keys == s.children.Keys
  {
    GrantChildren(cfg, ClearCheck(s, cfg.k));
    LateChildren(Granted(cfg, ClearCheck(s, cfg.k)), next);
  }

  lemma GrantChildren(cfg: Config, s: Kernel)
    ensures Granted(cfg, s).children.Keys == s.children.Keys
  {
  }

  lemma LateChildren(s: Kernel, next: int)
    ensures LateCheck(s).(clock := next).children == s.children
  {
    BlockEndFrame(s, s.blocked);
  }

  /** Whoever is started in the iteration from s finds page 0 in memory after it. */
  lemma StartGetsPage(cfg: Config, s: Kernel, p: int)
    requires ConfigOk(cfg) && Inv(cfg, s) && RequestOk(s) && !Finished(s) && Spaced(s) && LiveInStep(cfg, s) <= 21
    requires p in Tick(cfg, s).children && p !in s.children
    ensures InMemory(Tick(cfg, s).mem, p, 0)
  {
    StepHasRoom(cfg, s, 2);
    TickKeeps(cfg, s, 20);
    SettleKeeps(cfg, s, 20);
    SettleChildren(cfg, s);
    TickIs(cfg, s);
    var i := AdvanceServed(cfg, s, Settle(cfg, s), p);
    HeldIsInMemory(Tick(cfg, s).mem, i, p, 0);
  }

  lemma AdvanceServed(cfg: Config, s: Kernel, s1: Kernel, p: int) returns (i: int)
    requires ConfigOk(cfg) && Inv(cfg, s) && Settled(cfg, s, s1, 20) && s1 == Settle(cfg, s) && StepSpares(cfg, s, 2)
    requires p in LateCheck(Advance(cfg, s1)).(clock := s.clock + 1).children && p !in s1.children
    ensures Holds(LateCheck(Advance(cfg, s1)).(clock := s.clock + 1).mem, i, p, 0)
  {
    if Emptied(s) {
      EmptiedAdvances(cfg, s, s1, s.clock + 1, 20);
      BlockEndFrame(s1, s1.blocked);
      assert false;
    } else {
      SettledResumable(cfg, s, s1, 20);
      AdvanceIs(cfg, s1);
      i := ScheduleServed(cfg, s1, s.clock + 1, p);
    }
  }

  lemma ScheduleServed(cfg: Config, s: Kernel, next: int, p: int) returns (i: int)
    requires ConfigOk(cfg) && Resumable(cfg, s, 20) && (s.clock > 0 ==> Spares(Switching(Received(cfg, s)), 2))
    requires p in LateCheck(Schedule(cfg, s)).(clock := next).children && p !in s.children
    ensures Holds(LateCheck(Schedule(cfg, s)).(clock := next).mem, i, p, 0)
  {
    ScheduleIs(cfg, s);
    ReceivedKeeps(cfg, s, if s.checked then 1 else 0, 20);
    var r := Received(cfg, s);
    GrantedChildren(cfg, Decided(cfg, r), next);
    i := DecisionServed(cfg, r, 20, p);
    RestHolds(cfg, Decided(cfg, r), next, i, p, 0);
  }

  // ---- Over whole runs ----------------------------------------------------------------

  lemma {:induction false} SpacedRun(cfg: Config, n: nat, s: Kernel)
    requires ConfigOk(cfg) && Sound(cfg, n) && s == Run(cfg, n)
    ensures Inv(cfg, s) && Spaced(s)
    decreases n
  {
    if n == 0 {
      BootOk(cfg);
    } else {
      var before := RunBack(cfg, n, s);
      SpacedRun(cfg, n - 1, before);
      assert SoundAt(cfg, n - 1);
      SpacedKeeps(cfg, before);
      RunStep(cfg, before);
    }
  }

  /** In the iteration from s to s' memory had room for every page asked for. */
  ghost predicate Served(s: Kernel, s': Kernel) {
    && (FaultNow(s) ==> FaultServed(s, s', s.running.value))
    && (forall p :: p in s'.children && p !in s.children ==> InMemory(s'.mem, p, 0))
  }

  ghost predicate ServedAt(cfg: Config, i: nat) {
    Served(Run(cfg, i), Run(cfg, i + 1))
  }

  /** After a fault nobody exits, so those live before it are live after it. */
  lemma LiveAtFault(cfg: Config, s: Kernel)
    requires ConfigOk(cfg) && Inv(cfg, s) && FaultNow(s) && RequestOk(s)
    ensures |s.current| <= LiveInStep(cfg, s)
  {
    SettleKeeps(cfg, s, 20);
    LiveAfterFault(cfg, s, Settle(cfg, s));
  }

  lemma LiveAfterFault(cfg: Config, s: Kernel, s1: Kernel)
    requires ConfigOk(cfg) && Inv(cfg, s) && FaultNow(s) && !LastTickFault(s) && Settled(cfg, s, s1, 20)
    ensures |s.current| <= |Received(cfg, s1).current|
  {
    SignalNoFault(cfg, s);
    ReceivedKeeps(cfg, s1, if s1.checked then 1 else 0, 20);
    LiveCount(cfg, s1);
    LiveAdmitted(cfg, s1, Received(cfg, s1), if s1.checked then 1 else 0, 20);
  }

  lemma LiveAdmitted(cfg: Config, s: Kernel, r: Kernel, lo: int, hi: int)
    requires Admitted(cfg, s, r, lo, hi) && |s.mem.pcbs.Keys| == |s.current|
    ensures |s.current| <= |r.current|
  {
    LiveCount(cfg, r);
    forall p | p in s.mem.pcbs.Keys ensures p in r.mem.pcbs.Keys {
      assert p in s.mem.pcbs;
    }
    SmallerSet(s.mem.pcbs.Keys, r.mem.pcbs.Keys);
  }

  lemma StepServed(cfg: Config, s: Kernel)
    requires ConfigOk(cfg) && Inv(cfg, s) && Spaced(s) && StepOk(cfg, s) && LiveInStep(cfg, s) <= 21
    ensures Served(s, Tick(cfg, s))
  {
    if !Finished(s) {
      if FaultNow(s) {
        LiveAtFault(cfg, s);
        FaultGetsFrame(cfg, s);
      }
      forall p | p in Tick(cfg, s).children && p !in s.children ensures InMemory(Tick(cfg, s).mem, p, 0) {
        StartGetsPage(cfg, s, p);
      }
    }
  }

  /** Whatever happened before: in a sound run every iteration with at most 21
      live processes serves every access. */
  lemma FewAreServed(cfg: Config, n: nat)
    requires ConfigOk(cfg) && Sound(cfg, n + 1) && LiveInStep(cfg, Run(cfg, n)) <= 21
    ensures ServedAt(cfg, n)
  {
    SoundPrefix(cfg, n, n + 1);
    var s := Run(cfg, n);
    SpacedRun(cfg, n, s);
    assert SoundAt(cfg, n);
    StepServed(cfg, s);
    RunNext(cfg, n);
  }

  predicate FewerAt(cfg: Config, i: nat) {
    RequestOkAt(cfg, i) && LiveInStep(cfg, Run(cfg, i)) <= 21
  }

  /** As long as at most 21 processes are live, no page table, no initial page and
      no faulted page ever lacks a frame. */
  lemma FewLiveAreServed(cfg: Config, n: nat)
    requires ConfigOk(cfg) && forall i: nat :: i < n ==> FewerAt(cfg, i)
    ensures Sound(cfg, n) && forall i: nat :: i < n ==> ServedAt(cfg, i)
  {
    forall i: nat | i < n ensures FewAt(cfg, i) {
      assert FewerAt(cfg, i);
    }
    FewLiveIsSound(cfg, n);
    forall i: nat | i < n ensures ServedAt(cfg, i) {
      assert FewerAt(cfg, i);
      SoundPrefix(cfg, i + 1, n);
      FewAreServed(cfg, i);
    }
  }

  /** With at most 21 jobs, none of which asks for a page in its last tick or for
      the page at its limit, every process gets every page it asks for. */
  lemma FewJobsAreServed(cfg: Config, n: nat)
    requires StaticOk(cfg) && |cfg.jobs| <= 21
    ensures ServedAt(cfg, n)
  {
    StaticIsSound(cfg, n + 1);
    var s := Run(cfg, n);
    RunKeeps(cfg, n, s);
    assert SoundAt(cfg, n);
    if Finished(s) {
      RunNext(cfg, n);
    } else {
      FewLive(cfg, s);
      FewAreServed(cfg, n);
    }
  }
}
