/** Which runs of the Round-Robin scheduler end well, exactly: those in which no
    iteration serves a fault of an exited child or a request for the page at the
    limit, or starts a process that memory has no room for. Whoever is hit by one
    of these is never accounted for correctly, whatever happens afterwards. */
module RrEndings {
  import opened Common
  import opened Mmu
  import opened MmuProofs
  import opened RoundRobin
  import opened RrInvariants
  import opened RrTicks
  import opened RrFates
  import opened RrFrames
  import opened RrLiveness

  // ---- From a failing iteration on ---------------------------------------------------

  /** The fault of an exited child. */
  lemma LastTickDooms(cfg: Config, s: Kernel, p: int)
    requires ConfigOk(cfg) && Inv(cfg, s) && LastTickFault(s) && s.running == Some(p)
    ensures Fated(HandleRequests(s), p, TooLate, s.clock)
  {
    CoreNames(cfg, s, s.clock);
    LiveOnce(cfg, s, p);
    ExitedBlocks(cfg, s, p);
    BlockedFated(cfg, s, s.(mailbox := []), HandleRequests(s), p);
  }

  /** It is blocked like any other. */
  lemma ExitedBlocks(cfg: Config, s: Kernel, p: int)
    requires Inv(cfg, s) && LastTickFault(s) && s.running == Some(p)
    ensures p in s.mem.pcbs && p in HandleRequests(s).mem.pcbs
    ensures var s2 := HandleRequests(s); var c := s.mem.pcbs[p]; var c' := s2.mem.pcbs[p];
      && MemInv(s2.mem) && Others(s.(mailbox := []), s2, p)
      && c' == c.(remaining := s.shm, lastStopped := s.clock, state := Blocked, unblockAt := c'.unblockAt,
                  pendingPage := c'.pendingPage, pendingFrame := c'.pendingFrame)
      && s2 == s.(mailbox := [], mem := s2.mem, quantums := s.quantums + 1, blocked := s.blocked + [p],
                  switchUntil := s.clock + 1, running := None, preemptAt := -1)
  {
    FaultInRange(cfg, s);
    TranslationKeeps(cfg, s);
    ServedRequest(s);
    var s1 := Translated(s);
    var r := s.mailbox[0].(tick := s.clock);
    assert ProcInv(cfg, s1, p);
    BlockedMem(cfg, s1, r, BlockRunning(s1, r).mem);
  }

  lemma BlockedFated(cfg: Config, s: Kernel, s1: Kernel, s2: Kernel, p: int)
    requires Core(cfg, s, s.clock) && s.running == Some(p) && s.children[p].remaining == 0 && Names(s)
    requires Known(s, p) && forall c :: c in s.finished ==> c.id != p
    requires s1 == s.(mailbox := []) && MemInv(s2.mem) && Others(s1, s2, p)
    requires var c := s.mem.pcbs[p]; var c' := s2.mem.pcbs[p];
      c' == c.(remaining := s.shm, lastStopped := s.clock, state := Blocked, unblockAt := c'.unblockAt,
               pendingPage := c'.pendingPage, pendingFrame := c'.pendingFrame)
    requires s2 == s1.(mem := s2.mem, quantums := s.quantums + 1, blocked := s.blocked + [p],
                       switchUntil := s.clock + 1, running := None, preemptAt := -1)
    ensures Fated(s2, p, TooLate, s.clock)
  {
    assert ProcInv(cfg, s, p);
    assert MmuProofs.ProcOk(s2.mem, p);
  }

  /** The access outside a page table. */
  lemma LimitDooms(cfg: Config, s: Kernel, p: int)
    requires ConfigOk(cfg) && Inv(cfg, s) && LimitAccess(s) && s.running == Some(p)
    ensures Fated(HandleRequests(s), p, Broken, s.clock)
  {
    if FaultNow(s) {
      FaultInRange(cfg, s);
    }
    assert ProcInv(cfg, s, p);
    ServedRequest(s);
    assert HandleRequests(s) == Translated(s);
    CheckTrapsExactly(s.mem, p, s.mailbox[0].page, s.mailbox[0].write);
    CheckBenign(s.mem, p, s.mailbox[0].page, s.mailbox[0].write);
    CoreNames(cfg, s, s.clock);
    TrappedFated(s, Translated(s), p);
  }

  lemma TrappedFated(s: Kernel, s1: Kernel, p: int)
    requires Names(s) && p in s.mem.pcbs && s1 == s.(mailbox := [], mem := s1.mem)
    requires s1.mem.pcbs == s.mem.pcbs && s1.mem.trapped
    ensures Fated(s1, p, Broken, s.clock)
  {
  }

  /** The start that memory has no room for. */
  lemma CrowdedDooms(cfg: Config, s: Kernel, q: int, t: int, next: int)
    requires ConfigOk(cfg) && Core(cfg, s, s.clock) && s.running.None? && !RoomForFront(s) && t >= 0
    ensures Fated(Dispatch(s, q, t), s.ready[0], Broken, next)
  {
    var p := s.ready[0];
    assert ProcInv(cfg, s, p);
    CoreNames(cfg, s, s.clock);
    LiveOnce(cfg, s, p);
    FrontOut(s.ready);
    CrowdedStart(s, q, t, p);
    StartedTableless(s, Dispatch(s, q, t), p, Dispatch(s, q, t).mem.pcbs[p], next);
  }

  /** It leaves the process on the CPU without a page table. */
  lemma CrowdedStart(s: Kernel, q: int, t: int, p: int)
    requires MemInv(s.mem) && s.ready != [] && p == s.ready[0] && p in s.mem.pcbs && !HasRoom(s.mem)
    requires !s.mem.pcbs[p].forked && s.mem.pcbs[p].frameIndex == -1
    ensures var d := Dispatch(s, q, t);
      && d == s.(mem := d.mem, ready := s.ready[1..], running := Some(p), children := d.children, shm := d.shm,
                 preemptAt := t + q)
      && p in d.mem.pcbs && d.mem.pcbs == s.mem.pcbs[p := d.mem.pcbs[p]]
      && d.mem.pcbs[p].id == s.mem.pcbs[p].id && d.mem.pcbs[p].forked && d.mem.pcbs[p].frameIndex == -1
  {
    var mem1 := SetPcb(s.mem, p, Begun(s.mem.pcbs[p], t));
    OtherFields(s.mem, mem1);
    SameRoom(s.mem, mem1);
    StartFails(mem1, t, p);
  }

  lemma StartedTableless(s: Kernel, s': Kernel, p: int, c: Pcb, next: int)
    requires Names(s) && s.ready != [] && p == s.ready[0] && p in s.mem.pcbs && forall d :: d in s.finished ==> d.id != p
    requires forall x :: x in s.ready[1..] ==> x in s.ready
    requires c.id == p && c.forked && c.frameIndex == -1 && s'.mem.pcbs == s.mem.pcbs[p := c]
    requires s' == s.(mem := s'.mem, ready := s.ready[1..], running := Some(p), children := s'.children, shm := s'.shm,
                      preemptAt := s'.preemptAt)
    ensures Fated(s', p, Broken, next)
  {
  }

  lemma DecidedDooms(cfg: Config, r: Kernel, hi: int, next: int) returns (p: int)
    requires ConfigOk(cfg) && Schedulable(cfg, r, hi) && r.clock > 0 && !RoomToSwitch(r) && next == r.clock + 1
    ensures Fated(Decided(cfg, r), p, Broken, next) && p in Ids(cfg.jobs)
  {
    if Preempts(r) {
      Place(r, r.running.value);
      RrTicks.PutBackKeeps(cfg, r, r.running.value, hi);
      p := SwitchDooms(cfg, r, PutBack(r, r.running.value), next);
    } else {
      p := IdleDooms(cfg, r, next);
    }
  }

  lemma IdleDooms(cfg: Config, r: Kernel, next: int) returns (p: int)
    requires ConfigOk(cfg) && Core(cfg, r, r.clock) && r.running.None? && !RoomForFront(r) && next == r.clock + 1
    ensures Fated(RrAlgo(r, cfg.quantum), p, Broken, next) && p in Ids(cfg.jobs)
  {
    AlgoIsDispatch(r, cfg.quantum);
    CrowdedDooms(cfg, r, cfg.quantum, r.clock, next);
    p := r.ready[0];
    LiveOnce(cfg, r, p);
  }

  lemma SwitchDooms(cfg: Config, r: Kernel, x: Kernel, next: int) returns (p: int)
    requires ConfigOk(cfg) && Preempts(r) && r.running.value in r.mem.pcbs && x == PutBack(r, r.running.value)
    requires Core(cfg, x, x.clock) && x.running.None? && !RoomForFront(x) && next == r.clock + 1 && next > 0
    ensures Fated(RrAlgo(r, cfg.quantum), p, Broken, next) && p in Ids(cfg.jobs)
  {
    AlgoIsPreempt(r, cfg.quantum);
    PreemptIs(r, r.running.value, cfg.quantum, next);
    CrowdedDooms(cfg, x, cfg.quantum, next, next);
    p := x.ready[0];
    LiveOnce(cfg, x, p);
  }

  lemma StartDooms(cfg: Config, s: Kernel) returns (p: int)
    requires ConfigOk(cfg) && Inv(cfg, s) && RequestOk(s) && !RoomForStep(cfg, s) && !Finished(s)
    ensures Fated(Tick(cfg, s), p, Broken, Tick(cfg, s).clock) && p in Ids(cfg.jobs)
  {
    RrTicks.SettleKeeps(cfg, s, 20);
    var s1 := Settle(cfg, s);
    SettledResumable(cfg, s, s1, 20);
    AdvanceIs(cfg, s1);
    p := ScheduleDooms(cfg, s1, s.clock + 1);
    LateDooms(cfg, s, s1, Schedule(cfg, s1), p);
  }

  lemma LateDooms(cfg: Config, s: Kernel, s1: Kernel, s2: Kernel, p: int)
    requires s1 == Settle(cfg, s) && !s1.hung && !Finished(s) && !s.hung && !s.mem.trapped && s2 == Advance(cfg, s1)
    requires Fated(s2, p, Broken, s.clock + 1) && s.clock >= 0
    ensures Fated(Tick(cfg, s), p, Broken, Tick(cfg, s).clock)
  {
    RrFates.LateCheckKeeps(s2, p, Broken, s.clock + 1);
    TickIs(cfg, s);
  }

  lemma ScheduleDooms(cfg: Config, s: Kernel, next: int) returns (p: int)
    requires ConfigOk(cfg) && Resumable(cfg, s, 20) && !RoomAt(Received(cfg, s)) && next == s.clock + 1
    ensures Fated(Schedule(cfg, s), p, Broken, next) && p in Ids(cfg.jobs)
  {
    RrTicks.ReceivedKeeps(cfg, s, if s.checked then 1 else 0, 20);
    p := DecidedDooms(cfg, Received(cfg, s), 20, next);
    ScheduleBooks(cfg, s);
    RrFates.GrantedKeeps(cfg, Decided(cfg, Received(cfg, s)), p, Broken, next);
    ScheduleIs(cfg, s);
  }

  /** Of the process whose request fails. */
  function FateOf(s: Kernel): Fate {
    if LastTickFault(s) then TooLate else Broken
  }

  lemma RequestDooms(cfg: Config, s: Kernel, p: int)
    requires ConfigOk(cfg) && Inv(cfg, s) && !RequestOk(s) && s.running == Some(p)
    ensures Fated(Tick(cfg, s), p, FateOf(s), Tick(cfg, s).clock)
  {
    if LastTickFault(s) {
      LastTickDooms(cfg, s, p);
    } else {
      LimitDooms(cfg, s, p);
    }
    RequestBooks(s);
    RrFates.SettleFrom(HandleRequests(s), p, FateOf(s));
    RrFates.SettledKeeps(cfg, s, Settle(cfg, s), p, FateOf(s));
  }

  lemma FailureDooms(cfg: Config, s: Kernel) returns (p: int, fate: Fate)
    requires ConfigOk(cfg) && Inv(cfg, s) && !StepOk(cfg, s)
    ensures Fated(Tick(cfg, s), p, fate, Tick(cfg, s).clock) && !fate.Tabled? && p in Ids(cfg.jobs)
  {
    if RequestOk(s) {
      fate := Broken;
      p := StartDooms(cfg, s);
    } else {
      p, fate := s.running.value, FateOf(s);
      RequestDooms(cfg, s, p);
      LiveOnce(cfg, s, p);
    }
  }

  // ---- The theorems --------------------------------------------------------------------

  /** The loop is over, nothing went wrong, and every job of the input has
      finished once, with turnaround = runtime + waiting. */
  ghost predicate EndedWell(cfg: Config, s: Kernel) {
    && Finished(s) && !s.hung && !s.mem.trapped
    && multiset(FinishedIds(s.finished)) == multiset(Ids(cfg.jobs))
    && forall c :: c in s.finished ==> HasJob(cfg, c) && Accounted(c)
  }

  lemma FatedEndsBadly(cfg: Config, s: Kernel, p: int, fate: Fate, t: int)
    requires Fated(s, p, fate, t) && !fate.Tabled? && p in Ids(cfg.jobs)
    ensures !EndedWell(cfg, s)
  {
    assert p in multiset(Ids(cfg.jobs));
    assert p in multiset(FinishedIds(s.finished)) <==> p in FinishedIds(s.finished);
    NotAmongFinished(s.finished, p);
  }

  lemma {:induction false} FirstUnsound(cfg: Config, n: nat) returns (i: nat)
    requires !Sound(cfg, n)
    ensures i < n && Sound(cfg, i) && !SoundAt(cfg, i)
    decreases n
  {
    if n > 0 && !Sound(cfg, n - 1) {
      i := FirstUnsound(cfg, n - 1);
    } else {
      i := n - 1;
    }
  }

  /** A run that is not sound has not ended well, at no later tick. */
  lemma UnsoundEndsBadly(cfg: Config, n: nat)
    requires ConfigOk(cfg) && !Sound(cfg, n)
    ensures !EndsWellAt(cfg, n)
  {
    var i := FirstUnsound(cfg, n);
    UnsoundFrom(cfg, i, n);
  }

  lemma UnsoundFrom(cfg: Config, i: nat, n: nat)
    requires ConfigOk(cfg) && Sound(cfg, i) && !SoundAt(cfg, i) && i < n
    ensures !EndsWellAt(cfg, n)
  {
    var p, fate := UnsoundDoomsAt(cfg, i);
    UnsoundStays(cfg, i + 1, n, p, fate);
  }

  ghost predicate EndsWellAt(cfg: Config, n: nat) {
    EndedWell(cfg, Run(cfg, n))
  }

  lemma UnsoundStays(cfg: Config, i: nat, n: nat, p: int, fate: Fate)
    requires FatedAt(cfg, i, p, fate) && !fate.Tabled? && p in Ids(cfg.jobs) && i <= n
    ensures !EndsWellAt(cfg, n)
  {
    FatedForever(cfg, i, n, p, fate);
    BadAtEnd(cfg, Run(cfg, n), n, p, fate);
  }

  lemma UnsoundDoomsAt(cfg: Config, i: nat) returns (p: int, fate: Fate)
    requires ConfigOk(cfg) && Sound(cfg, i) && !SoundAt(cfg, i)
    ensures FatedAt(cfg, i + 1, p, fate) && !fate.Tabled? && p in Ids(cfg.jobs)
  {
    p, fate := UnsoundDooms(cfg, i, Run(cfg, i));
  }

  lemma UnsoundDooms(cfg: Config, i: nat, s: Kernel) returns (p: int, fate: Fate)
    requires ConfigOk(cfg) && Sound(cfg, i) && s == Run(cfg, i) && !SoundAt(cfg, i)
    ensures FatedAt(cfg, i + 1, p, fate) && !fate.Tabled? && p in Ids(cfg.jobs)
  {
    RunKeeps(cfg, i, s);
    p, fate := FailureDooms(cfg, s);
    RunNext(cfg, i);
  }

  lemma BadAtEnd(cfg: Config, s: Kernel, n: nat, p: int, fate: Fate)
    requires s == Run(cfg, n) && FatedAt(cfg, n, p, fate) && !fate.Tabled? && p in Ids(cfg.jobs)
    ensures !EndedWell(cfg, s)
  {
    FatedEndsBadly(cfg, s, p, fate, s.clock);
  }

  /** The run of an input ends well if and only if it is sound: no fault of an
      exited child or request for the page at the limit is ever served, and no
      process is started when page tables and pinned pages take up all frames. */
  lemma EndsWellExactly(cfg: Config, n: nat)
    requires ConfigOk(cfg) && n >= Bound(cfg)
    ensures EndedWell(cfg, Run(cfg, n)) <==> Sound(cfg, n)
  {
    if Sound(cfg, n) {
      SoundEndsWell(cfg, n);
    } else {
      UnsoundEndsBadly(cfg, n);
      assert !EndsWellAt(cfg, n);
    }
  }

  lemma SoundEndsWell(cfg: Config, n: nat)
    requires ConfigOk(cfg) && Sound(cfg, n) && n >= Bound(cfg)
    ensures EndedWell(cfg, Run(cfg, n))
  {
    Terminates(cfg, n);
    RunKeeps(cfg, n, Run(cfg, n));
  }

  /** A process whose fault is served after its exit is never accounted for: if
      it finishes at all, its turnaround exceeds its runtime and waiting time. */
  lemma ExitedTooEarly(cfg: Config, n: nat, m: nat, p: int)
    requires ConfigOk(cfg) && Sound(cfg, n) && n < m
    requires LastTickFault(Run(cfg, n)) && Run(cfg, n).running == Some(p)
    ensures forall c :: c in Run(cfg, m).finished && c.id == p ==> c.finish - c.arrival > c.runtime + c.waiting
  {
    RunKeeps(cfg, n, Run(cfg, n));
    RequestDooms(cfg, Run(cfg, n), p);
    RunNext(cfg, n);
    assert FatedAt(cfg, n + 1, p, TooLate);
    FatedForever(cfg, n + 1, m, p, TooLate);
    assert FatedAt(cfg, m, p, TooLate);
  }
}
