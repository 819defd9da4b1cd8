/** What becomes of a process once something about it is settled: an argument
    about every later state of a run, whatever else goes wrong in it. */
module RrFates {
  import opened Common
  import opened Mmu
  import opened MmuProofs
  import opened RoundRobin
  import opened RrInvariants
  import opened RrFrames
  import opened RrTicks

  // ---- What the memory manager leaves alone, in any state -----------------------

  /** Traps stay, frames stay as many as they are, and control blocks change only
      in what a page fault or a wake-up sets. */
  ghost predicate Benign(mem: Mem, mem': Mem) {
    SameRecords(mem, mem') && |mem'.ram| == |mem.ram| && (mem.trapped ==> mem'.trapped)
  }

  lemma BenignChain(a: Mem, b: Mem, c: Mem)
    requires Benign(a, b) && Benign(b, c)
    ensures Benign(a, c)
  {
  }

  lemma EntryBenign(mem: Mem, p: int, v: int, e: Pte)
    ensures Benign(mem, SetEntry(mem, p, v, e)) && SetEntry(mem, p, v, e).pcbs == mem.pcbs
  {
  }

  lemma CheckBenign(mem: Mem, p: int, page: nat, write: bool)
    ensures Benign(mem, Check(mem, p, page, write).0) && Check(mem, p, page, write).0.pcbs == mem.pcbs
  {
  }

  lemma PutPageBenign(mem: Mem, p: int, page: nat, i: int, write: bool)
    ensures Benign(mem, PutPage(mem, p, page, i, write))
  {
    if 0 <= i < |mem.ram| {
      var f := mem.ram[i].(occupied := true, pid := p, table := None, r := true, vpage := page, m := write);
      EntryBenign(SetFrame(mem, i, f), p, page, Pte(true, i, true, write));
    }
  }

  lemma UseFreeBenign(mem: Mem, now: int, p: int, i: int, page: nat, kind: Fault, write: bool)
    requires 0 <= i < |mem.ram| && !kind.Table?
    ensures Benign(mem, UseFree(mem, now, p, i, page, kind, write))
  {
    var mem1 := if kind.Demand? then SetFrame(mem, i, mem.ram[i].(reserved := true)) else mem;
    var mem2 := if p in mem1.pcbs
                then SetPcb(mem1, p, mem1.pcbs[p].(unblockAt := now + Delay(mem1, i)))
                else mem1;
    PutPageBenign(mem2, p, page, i, write);
  }

  lemma DropBenign(mem: Mem, i: int)
    ensures Benign(mem, DropMapping(mem, i)) && DropMapping(mem, i).pcbs == mem.pcbs
  {
  }

  lemma SwapBenign(mem: Mem, now: int, p: int, i: int, page: nat, kind: Fault, write: bool)
    requires 0 <= i < |mem.ram| && !kind.Table?
    ensures Benign(mem, Swap(mem, now, p, i, page, kind, write))
  {
    DropBenign(mem, i);
    var mem1 := DropMapping(mem, i);
    if p in mem1.pcbs {
      var until := if kind.Initial? then now else now + Delay(mem, i);
      var c := mem1.pcbs[p];
      var mem2 := if kind.Demand? then SetPcb(mem1, p, c.(state := Blocked, unblockAt := until)) else mem1;
      EntryBenign(mem2, p, page, Pte(true, i, true, write));
    }
  }

  lemma FaultBenign(mem: Mem, now: int, p: int, page: nat, kind: Fault, write: bool)
    requires !kind.Table?
    ensures Benign(mem, FaultHandler(mem, now, p, page, kind, write))
  {
    var mem0 := StartFault(mem, now, p, kind);
    assert Benign(mem, mem0);
    match ChooseFrame(mem0.ram) {
      case Free(i) => UseFreeBenign(mem0, now, p, i, page, kind, write);
      case Evict(i) => SwapBenign(mem0, now, p, i, page, kind, write);
      case NoFrame =>
    }
  }

  /** A start concerns the control block of the started process alone. */
  ghost predicate Starts(mem: Mem, mem': Mem, p: int) {
    && mem'.pcbs.Keys == mem.pcbs.Keys && |mem'.ram| == |mem.ram| && (mem.trapped ==> mem'.trapped)
    && (forall q :: q in mem.pcbs ==> mem'.pcbs[q].id == mem.pcbs[q].id)
    && (forall q :: q in mem.pcbs && q != p ==> SameRecord(mem.pcbs[q], mem'.pcbs[q]))
  }

  lemma TableStarts(mem: Mem, now: int, p: int)
    ensures Starts(mem, FaultHandler(mem, now, p, 0, Table, false), p)
  {
    match ChooseFrame(mem.ram) {
      case Free(i) =>
      case Evict(i) => DropBenign(mem, i);
      case NoFrame =>
    }
  }

  lemma InitStarts(mem: Mem, now: int, p: int)
    ensures Starts(mem, InitProcess(mem, now, p), p)
  {
    TableStarts(mem, now, p);
    FaultBenign(FaultHandler(mem, now, p, 0, Table, false), now, p, 0, Initial, false);
  }

  // ---- What is settled ----------------------------------------------------------

  /** x is not the id of a job to come. */
  ghost predicate Known(s: Kernel, x: int) {
    forall j :: j in s.incoming ==> j.id != x
  }

  /** Ids stand for one process each. */
  ghost predicate Names(s: Kernel) {
    && s.clock >= 0 && Distinct(Ids(s.incoming))
    && (forall q :: q in s.mem.pcbs ==> s.mem.pcbs[q].id == q && Known(s, q))
    && (forall q :: q in s.ready ==> Known(s, q))
    && (forall q :: q in s.blocked ==> Known(s, q))
    && (s.running.Some? ==> Known(s, s.running.value))
  }

  /** The turnaround counts more than running and waiting. */
  predicate Late(c: Pcb) {
    c.finish - c.arrival > c.runtime + c.waiting
  }

  /** p has exited and has already waited or run for all of its time up to its
      last stop (or up to t, on the CPU). */
  predicate Exited(s: Kernel, p: int, t: int)
    requires p in s.mem.pcbs
  {
    var c := s.mem.pcbs[p];
    && c.forked && c.start != -1 && 0 <= c.frameIndex < |s.mem.ram|
    && p in s.children && s.children[p].remaining <= 0
    && if s.running == Some(p) then
         t - c.arrival >= c.waiting + c.runtime && (s.finishSignal ==> t - c.arrival > c.waiting + c.runtime)
       else
         c.lastStopped >= 0 && c.lastStopped - c.arrival >= c.waiting + c.runtime
  }

  /** p runs without a page table. */
  predicate Tableless(s: Kernel, p: int) {
    && p in s.mem.pcbs && s.mem.pcbs[p].forked && s.mem.pcbs[p].frameIndex == -1
    && forall c :: c in s.finished ==> c.id != p
  }

  /** What may be settled about a process for the rest of a run: that it is
      accounted for with too long a turnaround, if at all; that it has no page
      table, or the program has failed already; or where its page table is. */
  datatype Fate = TooLate | Broken | Tabled(frame: int)

  ghost predicate Fated(s: Kernel, p: int, fate: Fate, t: int) {
    && Names(s) && Known(s, p)
    && match fate
       case TooLate =>
         (forall c :: c in s.finished && c.id == p ==> Late(c)) && (p in s.mem.pcbs ==> Exited(s, p, t))
       case Broken =>
         s.mem.trapped || Tableless(s, p)
       case Tabled(i) =>
         p in s.mem.pcbs ==> s.mem.pcbs[p].forked && s.mem.pcbs[p].frameIndex == i
  }

  // ---- Phase by phase --------------------------------------------------------------

  /** Only the memory changes, and in a benign way; queues are shuffled. */
  ghost predicate Shuffles(s: Kernel, s': Kernel) {
    && Benign(s.mem, s'.mem)
    && s'.clock == s.clock && s'.incoming == s.incoming && s'.finished == s.finished
    && (forall q :: q in s'.ready ==> q in s.ready || q in s.blocked || s.running == Some(q))
    && (forall q :: q in s'.blocked ==> q in s.ready || q in s.blocked || s.running == Some(q))
  }

  lemma ShuffleKeeps(s: Kernel, s': Kernel, p: int, fate: Fate, t: int)
    requires Fated(s, p, fate, t) && Shuffles(s, s')
    requires s'.running == s.running && s'.finishSignal == s.finishSignal && s'.children == s.children
    ensures Fated(s', p, fate, t)
  {
  }

  lemma BlockRunningKeeps(s: Kernel, r: Request, p: int, fate: Fate)
    requires Fated(s, p, fate, s.clock) && s.running == Some(r.sender) && r.sender in s.mem.pcbs
    ensures Fated(BlockRunning(s, r), p, fate, s.clock)
  {
    var q := r.sender;
    var mem1 := SetPcb(s.mem, q, s.mem.pcbs[q].(remaining := s.shm, lastStopped := s.clock, state := Blocked));
    FaultBenign(mem1, s.clock, q, r.page, Demand, r.write);
  }

  lemma BlockReadyKeeps(s: Kernel, r: Request, p: int, fate: Fate)
    requires Fated(s, p, fate, s.clock) && r.sender in s.mem.pcbs
    ensures Fated(BlockReady(s, r), p, fate, s.clock)
  {
    var q := r.sender;
    if q in s.ready {
      var mem1 := SetPcb(s.mem, q, s.mem.pcbs[q].(state := Blocked));
      FaultBenign(mem1, s.clock, q, r.page, Demand, r.write);
      BenignChain(s.mem, mem1, BlockReady(s, r).mem);
      ShuffleKeeps(s, BlockReady(s, r), p, fate, s.clock);
    }
  }

  lemma ServiceKeeps(s: Kernel, p: int, fate: Fate)
    requires Fated(s, p, fate, s.clock)
    ensures Fated(CheckReqs(s), p, fate, s.clock)
  {
    if s.requests != [] && s.requests[0].sender in s.mem.pcbs {
      var r := s.requests[0];
      CheckBenign(s.mem, r.sender, r.page, r.write);
      var mem := Check(s.mem, r.sender, r.page, r.write).0;
      ShuffleKeeps(s, s.(mem := mem), p, fate, s.clock);
      var s1 := s.(mem := mem, requests := s.requests[1..]);
      ShuffleKeeps(s, s1, p, fate, s.clock);
      if s1.running == Some(r.sender) {
        BlockRunningKeeps(s1, r, p, fate);
      } else {
        BlockReadyKeeps(s1, r, p, fate);
      }
    }
  }

  lemma RequestsKeep(s: Kernel, p: int, fate: Fate)
    requires Fated(s, p, fate, s.clock)
    ensures Fated(HandleRequests(s), p, fate, s.clock)
  {
    if s.running.Some? {
      var (m, rest) := TakeMail(s.mailbox, s.running.value);
      var s1 := if m.Some? then s.(mailbox := rest, requests := s.requests + [m.value.(tick := s.clock)]) else s;
      ShuffleKeeps(s, s1, p, fate, s.clock);
      ServiceKeeps(s1, p, fate);
    }
  }

  lemma WakeKeeps(s: Kernel, q: int, p: int, fate: Fate, t: int)
    requires Fated(s, p, fate, t) && Known(s, q)
    ensures Fated(WakeOne(s, q), p, fate, t)
  {
    WakeRecords(s.mem, q);
  }

  lemma {:induction false} WalkKeeps(s: Kernel, rest: seq<int>, p: int, fate: Fate, t: int)
    requires Fated(s, p, fate, t) && forall i :: 0 <= i < |rest| ==> Known(s, rest[i])
    ensures Fated(WakeWalk(s, rest), p, fate, t)
    decreases |rest|
  {
    if rest != [] {
      if Due(s, rest[0]) {
        WakeKeeps(s, rest[0], p, fate, t);
        WalkKeeps(WakeOne(s, rest[0]), rest[1..], p, fate, t);
      } else {
        WalkKeeps(s, rest[1..], p, fate, t);
      }
    }
  }

  lemma BlockEndKeeps(s: Kernel, p: int, fate: Fate, t: int)
    requires Fated(s, p, fate, t)
    ensures Fated(CheckBlockEnd(s), p, fate, t)
    ensures Fated(CheckBlockEnd(s).(checked := true), p, fate, t)
  {
    WalkKeeps(s, s.blocked, p, fate, t);
    ShuffleKeeps(CheckBlockEnd(s), CheckBlockEnd(s).(checked := true), p, fate, t);
  }

  lemma FirstCheckKeeps(s: Kernel, p: int, fate: Fate)
    requires Fated(s, p, fate, s.clock)
    ensures Fated(FirstCheck(s), p, fate, s.clock)
  {
    BlockEndKeeps(s, p, fate, s.clock);
    ShuffleKeeps(s, s.(checked := false), p, fate, s.clock);
  }

  /** A finish signal does not survive while its receiver stays on the CPU. */
  predicate SignalTaken(s: Kernel) {
    s.hung || (s.running.Some? && s.running.value in s.mem.pcbs ==> !s.finishSignal)
  }

  lemma FinishKeeps(s: Kernel, p: int, fate: Fate)
    requires Fated(s, p, fate, s.clock)
    ensures Fated(HandleFinished(s), p, fate, s.clock) && SignalTaken(HandleFinished(s))
  {
    if s.running.Some? && s.finishSignal && s.running.value in s.mem.pcbs {
      var q := s.running.value;
      if q in s.children && s.children[q].remaining > 0 {
        ShuffleKeeps(s, s.(hung := true), p, fate, s.clock);
      } else {
        ExitKeeps(s, q, p, fate);
      }
    }
  }

  lemma ExitKeeps(s: Kernel, q: int, p: int, fate: Fate)
    requires Fated(s, p, fate, s.clock) && s.running == Some(q) && s.finishSignal && q in s.mem.pcbs
    ensures Fated(FinishRunning(s, q), p, fate, s.clock)
  {
    var c := s.mem.pcbs[q].(finish := s.clock, remaining := s.shm, state := Done);
    assert FinishRunning(s, q).finished == s.finished + [c];
    assert q == p && fate.TooLate? ==> Late(c);
  }

  lemma SettleKeeps(cfg: Config, s: Kernel, p: int, fate: Fate)
    requires Fated(s, p, fate, s.clock)
    ensures Fated(Settle(cfg, s), p, fate, s.clock) && SignalTaken(Settle(cfg, s))
  {
    RequestsKeep(s, p, fate);
    RequestBooks(s);
    SettleFrom(HandleRequests(s), p, fate);
  }

  lemma SettleFrom(s: Kernel, p: int, fate: Fate)
    requires Fated(s, p, fate, s.clock)
    ensures Fated(HandleFinished(FirstCheck(s)), p, fate, s.clock) && SignalTaken(HandleFinished(FirstCheck(s)))
  {
    FirstCheckKeeps(s, p, fate);
    BlockEndFrame(s, s.blocked);
    FinishKeeps(FirstCheck(s), p, fate);
  }

  // ---- Scheduling --------------------------------------------------------------------

  lemma AdmitKeeps(s: Kernel, p: int, fate: Fate, t: int)
    requires Fated(s, p, fate, t) && SignalTaken(s) && s.incoming != []
    ensures Fated(AdmitNext(s), p, fate, t) && SignalTaken(AdmitNext(s))
  {
    AdmitNames(s);
    assert s.incoming[0] in s.incoming;
    assert s.incoming == [s.incoming[0]] + s.incoming[1..];
    assert Known(AdmitNext(s), p);
  }

  lemma AdmitNames(s: Kernel)
    requires Names(s) && s.incoming != []
    ensures Names(AdmitNext(s))
  {
    DistinctTail(s.incoming);
    forall x | Known(s, x) || x == s.incoming[0].id ensures Known(AdmitNext(s), x) {
      assert s.incoming == [s.incoming[0]] + s.incoming[1..];
    }
  }

  lemma DistinctTail(jobs: seq<Job>)
    requires jobs != [] && Distinct(Ids(jobs))
    ensures Distinct(Ids(jobs[1..])) && forall j :: j in jobs[1..] ==> j.id != jobs[0].id
  {
    var ids, rest := Ids(jobs), Ids(jobs[1..]);
    forall i, k | 0 <= i < k < |rest| ensures rest[i] != rest[k] {
      assert ids[i + 1] == rest[i] && ids[k + 1] == rest[k];
    }
    forall j | j in jobs[1..] ensures j.id != jobs[0].id {
      var i :| 0 <= i < |jobs[1..]| && jobs[1..][i] == j;
      assert ids[i + 1] == j.id && ids[0] == jobs[0].id;
    }
  }

  lemma {:induction false} ArrivedKeeps(s: Kernel, p: int, fate: Fate, t: int)
    requires Fated(s, p, fate, t) && SignalTaken(s)
    ensures Fated(AdmitArrived(s), p, fate, t) && SignalTaken(AdmitArrived(s))
    decreases |s.incoming|
  {
    if s.incoming != [] && s.incoming[0].arrival <= s.clock {
      AdmitKeeps(s, p, fate, t);
      ArrivedKeeps(AdmitNext(s), p, fate, t);
    }
  }

  lemma ReceivedKeeps(cfg: Config, s: Kernel, p: int, fate: Fate)
    requires Fated(s, p, fate, s.clock) && SignalTaken(s)
    ensures Fated(Received(cfg, s), p, fate, s.clock) && SignalTaken(Received(cfg, s))
    ensures Received(cfg, s).clock == s.clock && Received(cfg, s).hung == s.hung
  {
    var s0 := s.(switchUntil := -1);
    ShuffleKeeps(s, s0, p, fate, s.clock);
    ArrivedKeeps(s0, p, fate, s.clock);
    AdmitFrame(s0);
    SyncKeeps(AdmitArrived(s0), s.clock, p, fate, s.clock);
  }

  lemma SyncKeeps(s: Kernel, sync: int, p: int, fate: Fate, t: int)
    requires Fated(s, p, fate, t)
    ensures Fated(s.(lastSync := sync), p, fate, t) && Fated(s.(receiving := false), p, fate, t)
  {
    ShuffleKeeps(s, s.(lastSync := sync), p, fate, t);
    ShuffleKeeps(s, s.(receiving := false), p, fate, t);
  }

  lemma StopKeeps(s: Kernel, q: int, p: int, fate: Fate)
    requires Fated(s, p, fate, s.clock) && s.running == Some(q) && q in s.mem.pcbs
    ensures Fated(StopRunning(s, q), p, fate, s.clock)
  {
  }

  lemma PutBackKeeps(s: Kernel, q: int, p: int, fate: Fate)
    requires Fated(s, p, fate, s.clock) && s.running == Some(q) && q in s.mem.pcbs
    ensures var s' := PutBack(s, q);
      Fated(s', p, fate, s.clock) && s'.running.None? && s'.finishSignal == s.finishSignal && s'.clock == s.clock
  {
    StopKeeps(s, q, p, fate);
    BlockEndKeeps(StopRunning(s, q), p, fate, s.clock);
    BlockEndFrame(StopRunning(s, q), StopRunning(s, q).blocked);
  }

  /** At the tick after a dispatch an exited process has had more than its time,
      but for one that is dispatched a tick ahead, without a signal. */
  lemma DispatchKeeps(s: Kernel, q: int, t: int, p: int, fate: Fate, next: int)
    requires Fated(s, p, fate, s.clock) && s.running.None? && s.ready != []
    requires next == s.clock + 1 && (t == s.clock || (t == next && !s.finishSignal))
    ensures Fated(Dispatch(s, q, t), p, fate, next)
  {
    FrontOut(s.ready);
    GivenKeeps(s, s.ready[0], t, p, fate, next);
    TimerKeeps(RunProcess(TakeFront(s), s.ready[0], t), t + q, p, fate, next);
  }

  lemma GivenKeeps(s: Kernel, f: int, t: int, p: int, fate: Fate, next: int)
    requires Fated(s, p, fate, s.clock) && s.running.None? && s.ready != [] && f == s.ready[0]
    requires next == s.clock + 1 && (t == s.clock || (t == next && !s.finishSignal))
    requires f in s.ready && forall x :: x in s.ready[1..] ==> x in s.ready
    ensures Fated(RunProcess(TakeFront(s), f, t), p, fate, next)
  {
    if f in s.mem.pcbs {
      if s.mem.pcbs[f].forked {
        ResumedKeeps(s, f, t, p, fate, next);
      } else {
        StartedKeeps(s, f, t, p, fate, next);
      }
    }
  }

  lemma TimerKeeps(s: Kernel, at: int, p: int, fate: Fate, t: int)
    requires Fated(s, p, fate, t)
    ensures Fated(s.(preemptAt := at), p, fate, t)
  {
    ShuffleKeeps(s, s.(preemptAt := at), p, fate, t);
  }

  lemma ResumedKeeps(s: Kernel, f: int, t: int, p: int, fate: Fate, next: int)
    requires Fated(s, p, fate, s.clock) && s.running.None? && s.ready != [] && f == s.ready[0]
    requires next == s.clock + 1 && (t == s.clock || (t == next && !s.finishSignal))
    requires f in s.mem.pcbs && s.mem.pcbs[f].forked && forall x :: x in s.ready[1..] ==> x in s.ready
    ensures Fated(Resume(TakeFront(s), f, t), p, fate, next)
  {
  }

  lemma StartedKeeps(s: Kernel, f: int, t: int, p: int, fate: Fate, next: int)
    requires Fated(s, p, fate, s.clock) && s.running.None? && s.ready != [] && f == s.ready[0]
    requires f in s.mem.pcbs && !s.mem.pcbs[f].forked && forall x :: x in s.ready[1..] ==> x in s.ready
    ensures Fated(Launch(TakeFront(s), f, t), p, fate, next)
  {
    var mem1 := SetPcb(s.mem, f, Begun(s.mem.pcbs[f], t));
    InitStarts(mem1, t, f);
    LaunchedKeeps(s, f, mem1, InitProcess(mem1, t, f), p, fate, next);
  }

  lemma LaunchedKeeps(s: Kernel, f: int, mem1: Mem, mem2: Mem, p: int, fate: Fate, next: int)
    requires Fated(s, p, fate, s.clock) && s.running.None? && s.ready != [] && f == s.ready[0]
    requires f in s.mem.pcbs && !s.mem.pcbs[f].forked && forall x :: x in s.ready[1..] ==> x in s.ready
    requires f in mem1.pcbs && mem1 == SetPcb(s.mem, f, mem1.pcbs[f]) && mem1.pcbs[f].id == s.mem.pcbs[f].id
    requires Starts(mem1, mem2, f)
    ensures Fated(Launched(TakeFront(s), f, mem2), p, fate, next)
  {
    assert f == p ==> fate.Broken? && s.mem.trapped;
  }

  lemma AlgoKeeps(s: Kernel, q: int, p: int, fate: Fate, next: int)
    requires Fated(s, p, fate, s.clock) && SignalTaken(s) && !s.hung && next == s.clock + 1
    ensures Fated(RrAlgo(s, q), p, fate, next)
  {
    if Preempts(s) && s.running.value in s.mem.pcbs {
      PreemptKeeps(s, s.running.value, q, p, fate, next);
      AlgoIsPreempt(s, q);
    } else if s.running.None? && s.ready != [] {
      DispatchKeeps(s, q, s.clock, p, fate, next);
      AlgoIsDispatch(s, q);
    } else {
      AlgoIsIdle(s, q);
      IdleKeeps(s, RrAlgo(s, q), p, fate, next);
    }
  }

  lemma PreemptKeeps(s: Kernel, r: int, q: int, p: int, fate: Fate, next: int)
    requires Fated(s, p, fate, s.clock) && s.running == Some(r) && r in s.mem.pcbs && !s.finishSignal && next == s.clock + 1
    ensures Fated(Preempt(s, r, q), p, fate, next)
  {
    PutBackKeeps(s, r, p, fate);
    PreemptIs(s, r, q, next);
    SwitchKeeps(PutBack(s, r), q, p, fate, next);
  }

  lemma SwitchKeeps(s: Kernel, q: int, p: int, fate: Fate, next: int)
    requires Fated(s, p, fate, s.clock) && s.running.None? && !s.finishSignal && next == s.clock + 1
    ensures Fated(SwitchTo(s, q, next), p, fate, next)
  {
    if s.ready != [] {
      DispatchKeeps(s, q, next, p, fate, next);
    }
  }

  /** Without a dispatch. */
  lemma IdleKeeps(s: Kernel, s': Kernel, p: int, fate: Fate, next: int)
    requires Fated(s, p, fate, s.clock) && next == s.clock + 1
    requires s' == s.(preemptAt := s'.preemptAt, quantums := s'.quantums)
    ensures Fated(s', p, fate, next)
  {
  }

  lemma GrantedKeeps(cfg: Config, s: Kernel, p: int, fate: Fate, next: int)
    requires Fated(s, p, fate, next) && next == s.clock + 1
    ensures Fated(Granted(cfg, ClearCheck(s, cfg.k)), p, fate, next)
  {
    ClearKeeps(cfg, s, p, fate, next);
    StepKeeps(cfg, ClearCheck(s, cfg.k), p, fate, next);
  }

  lemma ClearKeeps(cfg: Config, s: Kernel, p: int, fate: Fate, t: int)
    requires Fated(s, p, fate, t)
    ensures Fated(ClearCheck(s, cfg.k), p, fate, t) && ClearCheck(s, cfg.k).clock == s.clock
  {
    ShuffleKeeps(s, ClearNow(s), p, fate, t);
  }

  lemma StepKeeps(cfg: Config, s: Kernel, p: int, fate: Fate, next: int)
    requires Fated(s, p, fate, next)
    ensures Fated(Granted(cfg, s), p, fate, next)
  {
    ChildStepFrame(cfg, s);
  }

  lemma AdvanceKeeps(cfg: Config, s: Kernel, p: int, fate: Fate, next: int)
    requires Fated(s, p, fate, s.clock) && SignalTaken(s) && !s.hung && next == s.clock + 1
    ensures Fated(Advance(cfg, s), p, fate, next)
  {
    if s.switchUntil == -1 || s.clock >= s.switchUntil {
      ReceivedKeeps(cfg, s, p, fate);
      var r := Received(cfg, s);
      if r.clock > 0 {
        AlgoKeeps(r, cfg.quantum, p, fate, next);
      } else {
        IdleKeeps(r, r, p, fate, next);
      }
      ScheduleBooks(cfg, s);
      GrantedKeeps(cfg, Decided(cfg, r), p, fate, next);
      ScheduleIs(cfg, s);
    } else {
      IdleKeeps(s, s, p, fate, next);
    }
  }

  lemma LateCheckKeeps(s: Kernel, p: int, fate: Fate, next: int)
    requires Fated(s, p, fate, next) && next >= 0
    ensures Fated(LateCheck(s).(clock := next), p, fate, next)
  {
    BlockEndKeeps(s, p, fate, next);
    ClockKeeps(LateCheck(s), p, fate, next);
  }

  lemma ClockKeeps(s: Kernel, p: int, fate: Fate, next: int)
    requires Fated(s, p, fate, next) && next >= 0
    ensures Fated(s.(clock := next), p, fate, next)
  {
  }

  lemma TickKeeps(cfg: Config, s: Kernel, p: int, fate: Fate)
    requires Fated(s, p, fate, s.clock)
    ensures Fated(Tick(cfg, s), p, fate, Tick(cfg, s).clock)
  {
    if !Finished(s) && !s.hung && !s.mem.trapped {
      SettleKeeps(cfg, s, p, fate);
      SettledKeeps(cfg, s, Settle(cfg, s), p, fate);
    }
  }

  lemma SettledKeeps(cfg: Config, s: Kernel, s1: Kernel, p: int, fate: Fate)
    requires s1 == Settle(cfg, s) && !Finished(s) && !s.hung && !s.mem.trapped
    requires Fated(s1, p, fate, s.clock) && SignalTaken(s1)
    ensures Fated(Tick(cfg, s), p, fate, Tick(cfg, s).clock)
  {
    SettleArrivals(cfg, s);
    if !s1.hung {
      AdvanceKeeps(cfg, s1, p, fate, s.clock + 1);
      LateCheckKeeps(Advance(cfg, s1), p, fate, s.clock + 1);
      TickIs(cfg, s);
    }
  }

  // ---- Over the rest of a run ----------------------------------------------------

  /** A live process is a job of the input, neither finished nor to come. */
  lemma LiveOnce(cfg: Config, s: Kernel, p: int)
    requires ConfigOk(cfg) && QueuesOk(s) && AllJobs(cfg, s) && p in s.mem.pcbs
    ensures Known(s, p) && p in Ids(cfg.jobs) && forall c :: c in s.finished ==> c.id != p
  {
    DistinctOnce(Ids(cfg.jobs), p);
    assert multiset(s.current)[p] == 1;
    OnceInSum(s.current, FinishedIds(s.finished), Ids(s.incoming), Ids(cfg.jobs), p);
    NotAmongJobs(s.incoming, p);
    NotAmongFinished(s.finished, p);
  }

  lemma OnceInSum(a: seq<int>, b: seq<int>, c: seq<int>, all: seq<int>, p: int)
    requires multiset(a) + multiset(b) + multiset(c) == multiset(all)
    requires multiset(a)[p] == 1 && multiset(all)[p] <= 1
    ensures p in all && p !in b && p !in c
  {
    assert (multiset(a) + multiset(b) + multiset(c))[p] == multiset(a)[p] + multiset(b)[p] + multiset(c)[p];
    assert p in multiset(all);
    assert p in b ==> multiset(b)[p] > 0;
    assert p in c ==> multiset(c)[p] > 0;
  }

  lemma NotAmongJobs(jobs: seq<Job>, p: int)
    ensures p !in Ids(jobs) <==> forall j :: j in jobs ==> j.id != p
  {
    forall j | j in jobs ensures j.id in Ids(jobs) {
      var i :| 0 <= i < |jobs| && jobs[i] == j;
      assert Ids(jobs)[i] == j.id;
    }
  }

  lemma NotAmongFinished(cs: seq<Pcb>, p: int)
    ensures p !in FinishedIds(cs) <==> forall c :: c in cs ==> c.id != p
  {
    forall c | c in cs ensures c.id in FinishedIds(cs) {
      var i :| 0 <= i < |cs| && cs[i] == c;
      assert FinishedIds(cs)[i] == c.id;
    }
  }

  lemma DistinctDrop(ids: seq<int>, k: nat)
    requires Distinct(ids) && k <= |ids|
    ensures Distinct(ids[k..])
  {
    forall i, j | 0 <= i < j < |ids[k..]| ensures ids[k..][i] != ids[k..][j] {
      assert ids[k..][i] == ids[k + i] && ids[k..][j] == ids[k + j];
    }
  }

  lemma CoreNames(cfg: Config, s: Kernel, t: int)
    requires ConfigOk(cfg) && Core(cfg, s, t)
    ensures Names(s)
  {
    JobsName(cfg, s);
  }

  lemma JobsName(cfg: Config, s: Kernel)
    requires ConfigOk(cfg) && MemInv(s.mem) && QueuesOk(s) && AllJobs(cfg, s) && s.clock >= 0
    ensures Names(s)
  {
    assert Ids(s.incoming) == Ids(cfg.jobs)[|cfg.jobs| - |s.incoming|..];
    DistinctDrop(Ids(cfg.jobs), |cfg.jobs| - |s.incoming|);
    forall q | q in s.mem.pcbs ensures s.mem.pcbs[q].id == q && Known(s, q) {
      assert MmuProofs.ProcOk(s.mem, q);
      LiveOnce(cfg, s, q);
    }
    forall q | q in s.ready || q in s.blocked || s.running == Some(q) ensures Known(s, q) {
      Place(s, q);
    }
  }

  ghost predicate FatedAt(cfg: Config, n: nat, p: int, fate: Fate) {
    Fated(Run(cfg, n), p, fate, Run(cfg, n).clock)
  }

  lemma {:induction false} FatedForever(cfg: Config, n: nat, m: nat, p: int, fate: Fate)
    requires FatedAt(cfg, n, p, fate) && n <= m
    ensures FatedAt(cfg, m, p, fate)
    decreases m
  {
    if n != m {
      FatedForever(cfg, n, m - 1, p, fate);
      FatedNext(cfg, m - 1, Run(cfg, m - 1), p, fate);
    }
  }

  lemma FatedNext(cfg: Config, n: nat, s: Kernel, p: int, fate: Fate)
    requires s == Run(cfg, n) && Fated(s, p, fate, s.clock)
    ensures FatedAt(cfg, n + 1, p, fate)
  {
    RunNext(cfg, n);
    TickKeeps(cfg, s, p, fate);
  }
}
