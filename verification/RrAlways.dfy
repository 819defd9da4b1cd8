/** What holds in every run of the Round-Robin scheduler, sound or not, until the
    program reads outside a page table: queues, jobs and memory stay consistent
    whatever happens to the accounting. */
module RrAlways {
  import opened Common
  import opened Mmu
  import opened MmuProofs
  import opened RoundRobin
  import opened RrInvariants
  import opened RrTicks
  import RrFates

  /** A process has a page table only if it was started, and a pinned frame only
      while it is blocked. Its state says where it is, and until it is stopped for
      the first time it has waited from its arrival to its start. */
  predicate Fits(s: Kernel, p: int)
    requires p in s.mem.pcbs
  {
    var c := s.mem.pcbs[p];
    && (c.frameIndex != -1 ==> c.forked) && (s.running == Some(p) || p in s.ready ==> c.pendingFrame == -1)
    && (s.running == Some(p) ==> c.state == Running)
    && (p in s.ready ==> c.state == Waiting) && (p in s.blocked ==> c.state == Blocked)
    && (if c.forked then c.lastStopped == -1 ==> s.running == Some(p) && c.waiting == c.start - c.arrival
        else c.start == -1)
  }

  /** The part of the invariant that does not speak of time. */
  ghost predicate Whole(cfg: Config, s: Kernel) {
    && MemInv(s.mem) && QueuesOk(s) && MailOk(s) && AllJobs(cfg, s) && s.clock >= 0
    && (forall p :: p in s.mem.pcbs ==> Fits(s, p))
    && forall c :: c in s.finished ==> c.state == Done
  }

  ghost predicate Sane(cfg: Config, s: Kernel) {
    s.mem.trapped || Whole(cfg, s)
  }

  // ---- When the program fails --------------------------------------------------------

  /** The next iteration serves a request for the page at the limit, or one of a
      process without a page table. */
  predicate BadRequest(s: Kernel) {
    && s.running.Some? && s.running.value in s.mem.pcbs && s.mailbox != []
    && (s.mailbox[0].page == s.mem.pcbs[s.running.value].limit || s.mem.pcbs[s.running.value].frameIndex == -1)
  }

  /** It takes the exit of a process without a page table. */
  predicate BadExit(s: Kernel) {
    && s.running.Some? && s.finishSignal && s.running.value in s.mem.pcbs
    && s.mem.pcbs[s.running.value].frameIndex == -1
    && !(s.running.value in s.children && s.children[s.running.value].remaining > 0)
  }

  // ---- A trap is for ever ----------------------------------------------------------

  predicate StillTrapped(s: Kernel, s': Kernel) {
    s.mem.trapped ==> s'.mem.trapped
  }

  lemma SettledTrapped(s: Kernel)
    ensures StillTrapped(s, FirstCheck(s)) && StillTrapped(s, HandleFinished(FirstCheck(s)))
  {
    WakeWalkRecords(s, s.blocked);
  }

  lemma {:induction false} AdmitTrapped(s: Kernel)
    ensures StillTrapped(s, AdmitArrived(s))
    decreases |s.incoming|
  {
    if s.incoming != [] && s.incoming[0].arrival <= s.clock {
      AdmitTrapped(AdmitNext(s));
    }
  }

  lemma RunTrapped(s: Kernel, p: int, t: int)
    ensures StillTrapped(s, RunProcess(s, p, t))
  {
    if p in s.mem.pcbs {
      RrFates.InitStarts(SetPcb(s.mem, p, Begun(s.mem.pcbs[p], t)), t, p);
    }
  }

  lemma SwitchTrapped(s: Kernel, q: int, t: int)
    ensures StillTrapped(s, SwitchTo(s, q, t))
  {
    if s.ready != [] {
      RunTrapped(TakeFront(s), s.ready[0], t);
    }
  }

  lemma PreemptTrapped(s: Kernel, p: int, q: int, next: int)
    requires p in s.mem.pcbs && next == s.clock + 1
    ensures StillTrapped(s, Preempt(s, p, q))
  {
    WakeWalkRecords(StopRunning(s, p), StopRunning(s, p).blocked);
    SwitchTrapped(PutBack(s, p), q, next);
    PreemptIs(s, p, q, next);
  }

  lemma AlgoTrapped(s: Kernel, q: int)
    ensures StillTrapped(s, RrAlgo(s, q))
  {
    if Preempts(s) && s.running.value in s.mem.pcbs {
      PreemptTrapped(s, s.running.value, q, s.clock + 1);
      AlgoIsPreempt(s, q);
    } else if s.running.None? && s.ready != [] {
      SwitchTrapped(s, q, s.clock);
      AlgoIsDispatch(s, q);
    } else {
      AlgoIsIdle(s, q);
    }
  }

  lemma GrantedTrapped(cfg: Config, s: Kernel)
    ensures StillTrapped(s, Granted(cfg, ClearCheck(s, cfg.k)))
  {
    ChildStepFrame(cfg, ClearCheck(s, cfg.k));
  }

  lemma ReceivedTrapped(cfg: Config, s: Kernel)
    ensures StillTrapped(s, Received(cfg, s))
  {
    AdmitTrapped(s.(switchUntil := -1));
  }

  lemma AdvanceTrapped(cfg: Config, s: Kernel)
    ensures StillTrapped(s, Advance(cfg, s))
  {
    ReceivedTrapped(cfg, s);
    var r := Received(cfg, s);
    AlgoTrapped(r, cfg.quantum);
    GrantedTrapped(cfg, Decided(cfg, r));
    ScheduleIs(cfg, s);
  }

  lemma LateTrapped(s: Kernel)
    ensures StillTrapped(s, LateCheck(s))
  {
    WakeWalkRecords(s, s.blocked);
  }

  // ---- Phase by phase --------------------------------------------------------------

  lemma RequestsWhole(cfg: Config, s: Kernel)
    requires Whole(cfg, s)
    ensures var s' := HandleRequests(s);
      && (s'.mem.trapped <==> BadRequest(s))
      && (!BadRequest(s) ==> Whole(cfg, s') && s'.mailbox == [] && (BadExit(s') <==> BadExit(s)))
  {
    if s.running.Some? && s.mailbox != [] {
      ServedRequest(s);
      TranslatedWhole(cfg, s, Translated(s), s.running.value);
      if FaultNow(s) {
        var r := s.mailbox[0].(tick := s.clock);
        BlockedWhole(cfg, Translated(s), r, BlockRunning(Translated(s), r));
      }
    } else {
      assert HandleRequests(s) == s;
    }
  }

  lemma TranslatedWhole(cfg: Config, s: Kernel, s1: Kernel, p: int)
    requires Whole(cfg, s) && s.mailbox != [] && s.running == Some(p) && s1 == Translated(s)
    ensures s1.mem.pcbs == s.mem.pcbs && s1.mailbox == [] && p == s.mailbox[0].sender && p in s.mem.pcbs
    ensures s1.mem.trapped <==> BadRequest(s)
    ensures !BadRequest(s) ==> Whole(cfg, s1)
    ensures FaultNow(s) ==> !BadRequest(s)
    ensures FaultNow(s) ==>
      var r := s.mailbox[0];
      && s1.mem == s.mem && Started(s.mem, p) && r.page < s.mem.pcbs[p].limit
      && HasEntry(s.mem, p, r.page) && !Entry(s.mem, p, r.page).valid
  {
    var r := s.mailbox[0];
    assert MmuProofs.ProcOk(s.mem, p);
    if Started(s.mem, p) {
      CheckKeeps(s.mem, p, r.page, r.write);
      if r.page != s.mem.pcbs[p].limit {
        SamePcbsWhole(cfg, s, s1);
      }
    }
  }

  /** Frames and clocks play no part in it. */
  lemma SamePcbsWhole(cfg: Config, s: Kernel, s': Kernel)
    requires Whole(cfg, s) && MemInv(s'.mem) && s'.mem.pcbs == s.mem.pcbs
    requires s'.ready == s.ready && s'.blocked == s.blocked && s'.running == s.running && s'.current == s.current
    requires s'.requests == s.requests && (s'.mailbox == s.mailbox || s'.mailbox == [])
    requires s'.incoming == s.incoming && s'.finished == s.finished && s'.clock >= 0
    ensures Whole(cfg, s')
  {
    forall p | p in s'.mem.pcbs ensures Fits(s', p) {
      assert Fits(s, p);
    }
  }

  lemma BlockedWhole(cfg: Config, s: Kernel, r: Request, s': Kernel)
    requires Whole(cfg, s) && s.running == Some(r.sender) && Started(s.mem, r.sender) && s.mailbox == []
    requires r.page < s.mem.pcbs[r.sender].limit
    requires HasEntry(s.mem, r.sender, r.page) && !Entry(s.mem, r.sender, r.page).valid
    requires s' == BlockRunning(s, r)
    ensures Whole(cfg, s')
  {
    var p := r.sender;
    assert Fits(s, p);
    Place(s, p);
    var mem1 := SetPcb(s.mem, p, s.mem.pcbs[p].(remaining := s.shm, lastStopped := s.clock, state := Blocked));
    OtherFields(s.mem, mem1);
    PageFault(mem1, s.clock, p, r.page, Demand, r.write);
    LeftCpu(cfg, s, s', p);
  }

  /** p left the CPU for one of the queues. */
  lemma LeftCpu(cfg: Config, s: Kernel, s': Kernel, p: int)
    requires Whole(cfg, s) && MemInv(s'.mem) && s.running == Some(p) && p in s.mem.pcbs && p in s'.mem.pcbs
    requires s'.mem.pcbs == s.mem.pcbs[p := s'.mem.pcbs[p]] && s.mailbox == []
    requires var c, c' := s.mem.pcbs[p], s'.mem.pcbs[p];
      && c'.frameIndex == c.frameIndex && c'.forked == c.forked && c'.start == c.start && c'.lastStopped >= 0
      && if s'.ready == s.ready then s'.blocked == s.blocked + [p] && c'.state == Blocked
         else s'.ready == s.ready + [p] && s'.blocked == s.blocked && c'.pendingFrame == -1 && c'.state == Waiting
    requires s' == s.(mem := s'.mem, ready := s'.ready, blocked := s'.blocked, running := None,
                      quantums := s'.quantums, switchUntil := s'.switchUntil, preemptAt := s'.preemptAt)
    ensures Whole(cfg, s')
  {
    Place(s, p);
    assert s'.mem.pcbs.Keys == s.mem.pcbs.Keys;
    assert QueuesOk(s');
    assert Fits(s, p);
    OneMoved(s, s', p);
  }

  /** Nobody but p has changed its place. */
  lemma OneMoved(s: Kernel, s': Kernel, p: int)
    requires p in s.mem.pcbs && p in s'.mem.pcbs && s'.mem.pcbs == s.mem.pcbs[p := s'.mem.pcbs[p]]
    requires forall q :: q in s.mem.pcbs ==> Fits(s, q)
    requires forall q :: q in s'.ready ==> q == p || q in s.ready
    requires forall q :: q in s'.blocked ==> q == p || q in s.blocked
    requires forall q :: q != p ==> (s'.running == Some(q) <==> s.running == Some(q))
    requires Fits(s', p)
    ensures forall q :: q in s'.mem.pcbs ==> Fits(s', q)
  {
    forall q | q in s'.mem.pcbs ensures Fits(s', q) {
      if q != p {
        assert Fits(s, q);
      }
    }
  }

  /** The branch for a faulting process that waits in the ready queue, which no run
      takes: it would move the process to the end of the block queue, with a deadline,
      and keep everything whole. */
  lemma ReadyFaultWhole(cfg: Config, s: Kernel, r: Request)
    requires Whole(cfg, s) && r.sender in s.ready && Started(s.mem, r.sender) && s.mem.pcbs[r.sender].lastStopped >= 0
    requires r.page < s.mem.pcbs[r.sender].limit
    requires HasEntry(s.mem, r.sender, r.page) && !Entry(s.mem, r.sender, r.page).valid
    ensures var s' := BlockReady(s, r); var p := r.sender;
      && Whole(cfg, s') && s'.running == s.running && s'.ready == Without(s.ready, p) && s'.blocked == s.blocked + [p]
      && (s'.mem.pcbs[p].unblockAt == s.clock + 10 || s'.mem.pcbs[p].unblockAt == s.clock + 20)
      && (!ChooseFrame(s.mem.ram).NoFrame? ==> s'.mem.pcbs[p].pendingPage == r.page)
  {
    var p := r.sender;
    assert Fits(s, p);
    Place(s, p);
    ReadyMem(s, r, p, BlockReady(s, r).mem);
    LeftReady(cfg, s, BlockReady(s, r), p);
  }

  lemma ReadyMem(s: Kernel, r: Request, p: int, mem: Mem)
    requires MemInv(s.mem) && p == r.sender && p in s.ready && Started(s.mem, p) && s.mem.pcbs[p].pendingFrame == -1
    requires r.page < s.mem.pcbs[p].limit && HasEntry(s.mem, p, r.page) && !Entry(s.mem, p, r.page).valid
    requires mem == BlockReady(s, r).mem
    ensures MemInv(mem) && p in mem.pcbs && mem.pcbs == s.mem.pcbs[p := mem.pcbs[p]]
    ensures var c, c' := s.mem.pcbs[p], mem.pcbs[p];
      && c'.frameIndex == c.frameIndex && c'.forked == c.forked && c'.start == c.start
      && c'.lastStopped == c.lastStopped && c'.state == Blocked
      && (c'.unblockAt == s.clock + 10 || c'.unblockAt == s.clock + 20)
      && (!ChooseFrame(s.mem.ram).NoFrame? ==> c'.pendingPage == r.page)
  {
    var mem1 := SetPcb(s.mem, p, s.mem.pcbs[p].(state := Blocked));
    OtherFields(s.mem, mem1);
    PageFault(mem1, s.clock, p, r.page, Demand, r.write);
  }

  lemma ReadyQueues(s: Kernel, s': Kernel, p: int)
    requires QueuesOk(s) && p in s.ready && p in s.mem.pcbs && p in s'.mem.pcbs
    requires s'.mem.pcbs == s.mem.pcbs[p := s'.mem.pcbs[p]]
    requires s'.ready == Without(s.ready, p) && s'.blocked == s.blocked + [p] && s'.running == s.running
    requires s'.current == s.current && s'.requests == s.requests
    ensures QueuesOk(s')
  {
    Place(s, p);
    assert s'.mem.pcbs.Keys == s.mem.pcbs.Keys;
  }

  lemma LeftReady(cfg: Config, s: Kernel, s': Kernel, p: int)
    requires Whole(cfg, s) && MemInv(s'.mem) && p in s.ready && p in s.mem.pcbs && p in s'.mem.pcbs
    requires s'.mem.pcbs == s.mem.pcbs[p := s'.mem.pcbs[p]]
    requires var c, c' := s.mem.pcbs[p], s'.mem.pcbs[p];
      c'.frameIndex == c.frameIndex && c'.forked == c.forked && c'.start == c.start && c'.lastStopped >= 0 && c'.state == Blocked
    requires s' == s.(mem := s'.mem, ready := Without(s.ready, p), blocked := s.blocked + [p])
    ensures Whole(cfg, s')
  {
    ReadyQueues(s, s', p);
    ReadyFits(s, s', p);
  }

  lemma ReadyFits(s: Kernel, s': Kernel, p: int)
    requires QueuesOk(s') && p in s.mem.pcbs && p in s'.mem.pcbs && forall q :: q in s.mem.pcbs ==> Fits(s, q)
    requires s'.mem.pcbs == s.mem.pcbs[p := s'.mem.pcbs[p]]
    requires var c, c' := s.mem.pcbs[p], s'.mem.pcbs[p];
      c'.frameIndex == c.frameIndex && c'.forked == c.forked && c'.start == c.start && c'.lastStopped >= 0 && c'.state == Blocked
    requires s'.ready == Without(s.ready, p) && s'.blocked == s.blocked + [p] && s'.running == s.running
    ensures forall q :: q in s'.mem.pcbs ==> Fits(s', q)
  {
    assert Fits(s, p);
    assert p in s'.blocked;
    Place(s', p);
    OneMoved(s, s', p);
  }

  lemma WakeWhole(cfg: Config, s: Kernel, p: int)
    requires Whole(cfg, s) && p in s.blocked
    ensures Whole(cfg, WakeOne(s, p))
  {
    Place(s, p);
    WakeKeeps(s.mem, p);
    var s' := WakeOne(s, p);
    assert s'.mem.pcbs.Keys == s.mem.pcbs.Keys;
    WakeQueues(s, s', p);
    WakeFits(s, s', p);
  }

  lemma WakeFits(s: Kernel, s': Kernel, p: int)
    requires QueuesOk(s) && p in s.blocked && p in s.mem.pcbs && forall q :: q in s.mem.pcbs ==> Fits(s, q)
    requires s'.mem.pcbs == s.mem.pcbs[p := s.mem.pcbs[p].(state := Waiting, pendingPage := -1, pendingFrame := -1)]
    requires s'.ready == s.ready + [p] && s'.blocked == Without(s.blocked, p) && s'.running == s.running
    ensures forall q :: q in s'.mem.pcbs ==> Fits(s', q)
  {
    forall q | q in s'.mem.pcbs ensures Fits(s', q) {
      assert Fits(s, q);
      Place(s, q);
    }
  }

  lemma {:induction false} WalkWhole(cfg: Config, s: Kernel, rest: seq<int>)
    requires Whole(cfg, s) && multiset(rest) <= multiset(s.blocked)
    ensures Whole(cfg, WakeWalk(s, rest))
    decreases |rest|
  {
    if rest != [] {
      FrontOut(rest);
      assert rest[0] in multiset(rest);
      if Due(s, rest[0]) {
        WakeWhole(cfg, s, rest[0]);
        WalkWhole(cfg, WakeOne(s, rest[0]), rest[1..]);
      } else {
        WalkWhole(cfg, s, rest[1..]);
      }
    }
  }

  lemma CheckWhole(cfg: Config, s: Kernel)
    requires Whole(cfg, s)
    ensures Whole(cfg, CheckBlockEnd(s)) && CheckBlockEnd(s).mailbox == s.mailbox
    ensures Whole(cfg, FirstCheck(s)) && FirstCheck(s).mailbox == s.mailbox
    ensures Whole(cfg, LateCheck(s))
  {
    WalkWhole(cfg, s, s.blocked);
    BlockEndFrame(s, s.blocked);
    SamePcbsWhole(cfg, CheckBlockEnd(s), CheckBlockEnd(s).(checked := true));
    SamePcbsWhole(cfg, s, s.(checked := false));
  }

  lemma CheckExit(s: Kernel)
    ensures BadExit(FirstCheck(s)) <==> BadExit(s)
  {
    WakeWalkRecords(s, s.blocked);
    BlockEndFrame(s, s.blocked);
    SameExit(s, CheckBlockEnd(s));
  }

  lemma SameExit(s: Kernel, s': Kernel)
    requires s' == s.(mem := s'.mem, blocked := s'.blocked, ready := s'.ready) && SameRecords(s.mem, s'.mem)
    ensures BadExit(s') <==> BadExit(s)
  {
    if s.running.Some? {
      var p := s.running.value;
      assert p in s'.mem.pcbs.Keys <==> p in s.mem.pcbs.Keys;
      if p in s.mem.pcbs {
        assert SameRecord(s.mem.pcbs[p], s'.mem.pcbs[p]);
      }
    }
  }

  lemma FinishWhole(cfg: Config, s: Kernel)
    requires Whole(cfg, s) && s.mailbox == []
    ensures var s' := HandleFinished(s);
      && (s'.mem.trapped <==> BadExit(s))
      && (!BadExit(s) ==> Whole(cfg, s') && s'.mailbox == [])
  {
    if s.running.Some? && s.finishSignal {
      var p := s.running.value;
      Place(s, p);
      if p in s.children && s.children[p].remaining > 0 {
        SamePcbsWhole(cfg, s, s.(hung := true));
      } else {
        assert MmuProofs.ProcOk(s.mem, p);
        if Started(s.mem, p) {
          ExitWhole(cfg, s, p, FinishRunning(s, p));
        }
      }
    }
  }

  lemma ExitWhole(cfg: Config, s: Kernel, p: int, s': Kernel)
    requires Whole(cfg, s) && s.mailbox == [] && s.running == Some(p) && Started(s.mem, p) && s' == FinishRunning(s, p)
    ensures Whole(cfg, s')
  {
    FreeKeeps(s.mem, p);
    GoneQueues(s, s', p);
    assert MmuProofs.ProcOk(s.mem, p);
    ExitJobs(cfg, s, p, s', s'.finished[|s.finished|]);
    forall q | q in s'.mem.pcbs ensures Fits(s', q) {
      assert Fits(s, q);
    }
  }

  lemma AdmitWhole(cfg: Config, s: Kernel)
    requires ConfigOk(cfg) && Whole(cfg, s) && s.mailbox == [] && s.incoming != []
    ensures Whole(cfg, AdmitNext(s)) && AdmitNext(s).mailbox == []
  {
    var j := s.incoming[0];
    var s' := AdmitNext(s);
    assert cfg.jobs[|cfg.jobs| - |s.incoming|] == j;
    assert j in cfg.jobs;
    JobIsFresh(cfg, s);
    AdmitKeeps(s.mem, j.id, CreatePcb(j));
    AdmitQueues(cfg, s);
    forall q | q in s'.mem.pcbs ensures Fits(s', q) {
      if q != j.id {
        assert Fits(s, q);
      }
    }
  }

  lemma {:induction false} ArrivedWhole(cfg: Config, s: Kernel)
    requires ConfigOk(cfg) && Whole(cfg, s) && s.mailbox == []
    ensures Whole(cfg, AdmitArrived(s)) && AdmitArrived(s).mailbox == []
    decreases |s.incoming|
  {
    if s.incoming != [] && s.incoming[0].arrival <= s.clock {
      AdmitWhole(cfg, s);
      ArrivedWhole(cfg, AdmitNext(s));
    }
  }

  lemma ReceivedWhole(cfg: Config, s: Kernel)
    requires ConfigOk(cfg) && Whole(cfg, s) && s.mailbox == []
    ensures Whole(cfg, Received(cfg, s)) && Received(cfg, s).mailbox == []
  {
    var s0 := s.(switchUntil := -1);
    SamePcbsWhole(cfg, s, s0);
    ArrivedWhole(cfg, s0);
    SamePcbsWhole(cfg, AdmitArrived(s0), AdmitArrived(s0).(lastSync := s.clock));
    SamePcbsWhole(cfg, AdmitArrived(s0), AdmitArrived(s0).(receiving := false));
    AdmitFrame(s0);
  }

  lemma StopWhole(cfg: Config, s: Kernel, p: int)
    requires Whole(cfg, s) && s.mailbox == [] && s.running == Some(p)
    ensures p in s.mem.pcbs && Whole(cfg, StopRunning(s, p))
  {
    Place(s, p);
    assert Fits(s, p);
    OtherFields(s.mem, StopRunning(s, p).mem);
    LeftCpu(cfg, s, StopRunning(s, p), p);
  }

  lemma PutBackWhole(cfg: Config, s: Kernel, p: int)
    requires Whole(cfg, s) && s.mailbox == [] && s.running == Some(p)
    ensures p in s.mem.pcbs && Whole(cfg, PutBack(s, p)) && PutBack(s, p).mailbox == [] && PutBack(s, p).running.None?
  {
    StopWhole(cfg, s, p);
    var s1 := StopRunning(s, p);
    CheckWhole(cfg, s1);
    BlockEndFrame(s1, s1.blocked);
    SamePcbsWhole(cfg, CheckBlockEnd(s1), CheckBlockEnd(s1).(checked := true));
  }

  lemma DispatchWhole(cfg: Config, s: Kernel, q: int, t: int)
    requires Whole(cfg, s) && s.mailbox == [] && s.running.None? && s.ready != []
    ensures Whole(cfg, Dispatch(s, q, t)) && Dispatch(s, q, t).mailbox == []
  {
    var p := s.ready[0];
    FrontOut(s.ready);
    Place(s, p);
    assert Fits(s, p);
    if s.mem.pcbs[p].forked {
      OtherFields(s.mem, Resume(TakeFront(s), p, t).mem);
      OnCpu(cfg, s, Dispatch(s, q, t), p);
    } else {
      LaunchWhole(cfg, s, q, t, p);
    }
  }

  lemma LaunchWhole(cfg: Config, s: Kernel, q: int, t: int, p: int)
    requires Whole(cfg, s) && s.mailbox == [] && s.running.None? && s.ready != [] && p == s.ready[0]
    requires p in s.mem.pcbs && !s.mem.pcbs[p].forked && s.mem.pcbs[p].frameIndex == -1 && s.mem.pcbs[p].pendingFrame == -1
    requires s.mem.pcbs[p].start == -1
    ensures Whole(cfg, Dispatch(s, q, t)) && Dispatch(s, q, t).mailbox == []
  {
    var mem1 := SetPcb(s.mem, p, Begun(s.mem.pcbs[p], t));
    OtherFields(s.mem, mem1);
    StartMem(mem1, t, p);
    var s' := Launched(TakeFront(s), p, InitProcess(mem1, t, p));
    LaunchedPcbs(s, p, mem1, InitProcess(mem1, t, p), s');
    assert Dispatch(s, q, t) == s'.(preemptAt := t + q);
    OnCpu(cfg, s, s'.(preemptAt := t + q), p);
  }

  /** With or without room for a page table. */
  lemma StartMem(mem: Mem, t: int, p: int)
    requires MemInv(mem) && p in mem.pcbs && mem.pcbs[p].frameIndex == -1 && mem.pcbs[p].pendingFrame == -1
    ensures var mem' := InitProcess(mem, t, p);
      && MemInv(mem') && p in mem'.pcbs && mem'.pcbs == mem.pcbs[p := mem'.pcbs[p]]
      && mem'.pcbs[p] == mem.pcbs[p].(frameIndex := mem'.pcbs[p].frameIndex, unblockAt := mem'.pcbs[p].unblockAt)
  {
    if HasRoom(mem) {
      StartSucceeds(mem, t, p);
    } else {
      StartFails(mem, t, p);
    }
  }

  lemma LaunchedPcbs(s: Kernel, p: int, mem1: Mem, mem2: Mem, s': Kernel)
    requires s.ready != [] && p in s.mem.pcbs && p in mem1.pcbs && mem1.pcbs == s.mem.pcbs[p := mem1.pcbs[p]]
    requires mem1.pcbs[p].pendingFrame == -1 && mem1.pcbs[p].waiting == mem1.pcbs[p].start - mem1.pcbs[p].arrival
    requires MemInv(mem2) && p in mem2.pcbs && mem2.pcbs == mem1.pcbs[p := mem2.pcbs[p]]
    requires mem2.pcbs[p] == mem1.pcbs[p].(frameIndex := mem2.pcbs[p].frameIndex, unblockAt := mem2.pcbs[p].unblockAt)
    requires s' == Launched(TakeFront(s), p, mem2)
    ensures MemInv(s'.mem) && p in s'.mem.pcbs && s'.mem.pcbs == s.mem.pcbs[p := s'.mem.pcbs[p]]
    ensures var c := s'.mem.pcbs[p];
      c.forked && c.pendingFrame == -1 && c.state == Running && c.waiting == c.start - c.arrival
  {
    OtherFields(mem2, s'.mem);
  }

  /** The front process p took the CPU. */
  lemma OnCpu(cfg: Config, s: Kernel, s': Kernel, p: int)
    requires Whole(cfg, s) && MemInv(s'.mem) && s.running.None? && s.ready != [] && p == s.ready[0]
    requires p in s.mem.pcbs && p in s'.mem.pcbs && s'.mem.pcbs == s.mem.pcbs[p := s'.mem.pcbs[p]]
    requires var c := s'.mem.pcbs[p];
      && c.forked && c.pendingFrame == -1 && c.state == Running
      && (c.lastStopped == -1 ==> c.waiting == c.start - c.arrival)
    requires s' == s.(mem := s'.mem, ready := s.ready[1..], running := Some(p), children := s'.children, shm := s'.shm,
                      preemptAt := s'.preemptAt)
    ensures Whole(cfg, s')
  {
    TakeFrontQueues(s, s');
    FrontOut(s.ready);
    forall q | q in s'.mem.pcbs ensures Fits(s', q) {
      assert Fits(s, q);
    }
  }

  lemma AlgoWhole(cfg: Config, s: Kernel)
    requires Whole(cfg, s) && s.mailbox == []
    ensures Whole(cfg, RrAlgo(s, cfg.quantum)) && RrAlgo(s, cfg.quantum).mailbox == []
  {
    if s.running.Some? {
      Place(s, s.running.value);
    }
    if Preempts(s) {
      PreemptWhole(cfg, s, s.running.value, s.clock + 1);
      AlgoIsPreempt(s, cfg.quantum);
    } else if s.running.None? && s.ready != [] {
      DispatchWhole(cfg, s, cfg.quantum, s.clock);
      AlgoIsDispatch(s, cfg.quantum);
    } else {
      AlgoIsIdle(s, cfg.quantum);
      SamePcbsWhole(cfg, s, RrAlgo(s, cfg.quantum));
    }
  }

  lemma PreemptWhole(cfg: Config, s: Kernel, p: int, next: int)
    requires Whole(cfg, s) && s.mailbox == [] && s.running == Some(p) && p in s.mem.pcbs && next == s.clock + 1
    ensures Whole(cfg, Preempt(s, p, cfg.quantum)) && Preempt(s, p, cfg.quantum).mailbox == []
  {
    PutBackWhole(cfg, s, p);
    PreemptIs(s, p, cfg.quantum, next);
    if PutBack(s, p).ready != [] {
      DispatchWhole(cfg, PutBack(s, p), cfg.quantum, next);
    }
  }

  lemma GrantedWhole(cfg: Config, s: Kernel)
    requires Whole(cfg, s) && s.mailbox == []
    ensures Whole(cfg, Granted(cfg, ClearCheck(s, cfg.k)))
  {
    ClearKeeps(s.mem);
    SamePcbsWhole(cfg, s, ClearCheck(s, cfg.k));
    StepWhole(cfg, ClearCheck(s, cfg.k));
  }

  lemma StepWhole(cfg: Config, s: Kernel)
    requires Whole(cfg, s) && s.mailbox == []
    ensures Whole(cfg, Granted(cfg, s))
  {
    if s.running.Some? {
      Place(s, s.running.value);
    }
    ChildStepFrame(cfg, s);
    var s' := Granted(cfg, s);
    SamePcbsWhole(cfg, s, s'.(mailbox := []));
    forall p | p in s'.mem.pcbs ensures Fits(s', p) {
      assert Fits(s, p);
    }
  }

  lemma AdvanceWhole(cfg: Config, s: Kernel)
    requires ConfigOk(cfg) && Whole(cfg, s) && s.mailbox == []
    ensures Whole(cfg, Advance(cfg, s))
  {
    if s.switchUntil == -1 || s.clock >= s.switchUntil {
      ReceivedWhole(cfg, s);
      DecidedWhole(cfg, Received(cfg, s));
      ScheduleIs(cfg, s);
    }
  }

  lemma DecidedWhole(cfg: Config, s: Kernel)
    requires Whole(cfg, s) && s.mailbox == []
    ensures Whole(cfg, Granted(cfg, ClearCheck(Decided(cfg, s), cfg.k)))
  {
    if s.clock > 0 {
      AlgoWhole(cfg, s);
    }
    GrantedWhole(cfg, Decided(cfg, s));
  }

  lemma SettleWhole(cfg: Config, s: Kernel)
    requires Whole(cfg, s)
    ensures var s' := Settle(cfg, s);
      && (s'.mem.trapped <==> BadRequest(s) || BadExit(s))
      && (!s'.mem.trapped ==> Whole(cfg, s') && s'.mailbox == [])
  {
    RequestsWhole(cfg, s);
    var s1 := HandleRequests(s);
    if BadRequest(s) {
      SettledTrapped(s1);
    } else {
      CheckWhole(cfg, s1);
      CheckExit(s1);
      FinishWhole(cfg, FirstCheck(s1));
    }
  }

  /** Exactly when an iteration leaves the bounds of a page table; otherwise it
      keeps everything whole, even if it never returns from an exit. */
  lemma TrapsExactly(cfg: Config, s: Kernel)
    requires ConfigOk(cfg) && Whole(cfg, s)
    ensures Tick(cfg, s).mem.trapped <==> !Finished(s) && !s.hung && (BadRequest(s) || BadExit(s))
    ensures Sane(cfg, Tick(cfg, s))
  {
    if !Finished(s) && !s.hung {
      SettleWhole(cfg, s);
      var s' := TickOf(cfg, s, Settle(cfg, s));
      SettledSane(cfg, Settle(cfg, s), s', s.clock + 1);
    }
  }

  lemma TickOf(cfg: Config, s: Kernel, s1: Kernel) returns (s': Kernel)
    requires s1 == Settle(cfg, s) && !Finished(s) && !s.hung && !s.mem.trapped
    ensures s' == Tick(cfg, s)
    ensures s' == if s1.hung then s1 else LateCheck(Advance(cfg, s1)).(clock := s.clock + 1)
  {
    s' := Tick(cfg, s);
  }

  lemma SettledSane(cfg: Config, s1: Kernel, s': Kernel, next: int)
    requires ConfigOk(cfg) && (!s1.mem.trapped ==> Whole(cfg, s1) && s1.mailbox == []) && next >= 0
    requires s' == if s1.hung then s1 else LateCheck(Advance(cfg, s1)).(clock := next)
    ensures Sane(cfg, s') && (s'.mem.trapped <==> s1.mem.trapped)
  {
    if !s1.hung {
      RestSane(cfg, s1, next);
    }
  }

  lemma RestSane(cfg: Config, s: Kernel, next: int)
    requires ConfigOk(cfg) && (!s.mem.trapped ==> Whole(cfg, s) && s.mailbox == []) && next >= 0
    ensures var s' := LateCheck(Advance(cfg, s)).(clock := next);
      Sane(cfg, s') && (s'.mem.trapped <==> s.mem.trapped)
  {
    if s.mem.trapped {
      AdvanceTrapped(cfg, s);
      LateTrapped(Advance(cfg, s));
    } else {
      AdvanceWhole(cfg, s);
      CheckWhole(cfg, Advance(cfg, s));
      SamePcbsWhole(cfg, LateCheck(Advance(cfg, s)), LateCheck(Advance(cfg, s)).(clock := next));
    }
  }

  ghost predicate SaneAt(cfg: Config, n: nat) {
    Sane(cfg, Run(cfg, n))
  }

  lemma NextSane(cfg: Config, n: nat, s: Kernel)
    requires ConfigOk(cfg) && s == Run(cfg, n) && Sane(cfg, s)
    ensures SaneAt(cfg, n + 1)
  {
    RunNext(cfg, n);
    if !s.mem.trapped {
      TrapsExactly(cfg, s);
    }
  }

  lemma BootWhole(cfg: Config)
    requires ConfigOk(cfg)
    ensures Whole(cfg, Boot(cfg))
  {
    BootOk(cfg);
  }

  /** Every state of every run, until the program fails. */
  lemma AlwaysSane(cfg: Config, n: nat, s: Kernel)
    requires ConfigOk(cfg) && s == Run(cfg, n) && !s.mem.trapped
    ensures Whole(cfg, s)
  {
    forall i: nat | SaneAt(cfg, i) ensures SaneAt(cfg, i + 1) {
      NextSane(cfg, i, Run(cfg, i));
    }
    BootWhole(cfg);
    assert SaneAt(cfg, 0);
    FromStepToStep((i: nat) => SaneAt(cfg, i), n);
    assert SaneAt(cfg, n);
  }
  lemma WholeNames(cfg: Config, s: Kernel)
    requires ConfigOk(cfg) && Whole(cfg, s)
    ensures RrFates.Names(s)
  {
    RrFates.JobsName(cfg, s);
  }
}
