/** Who has the CPU after an iteration of the Round-Robin loop, told by queue,
    clock and arrival times before it. */
module RrSchedule {
  import opened Common
  import opened Mmu
  import opened RoundRobin
  import opened RrInvariants
  import opened RrBlockEnd
  import opened RrTicks

  // ---- The queue that RR_algo finds -------------------------------------------------

  /** Of the jobs to come, the first one goes to an empty queue first. */
  lemma ArrivedFront(cfg: Config, s: Kernel)
    requires ConfigOk(cfg) && Core(cfg, s, s.clock) && s.ready == [] && s.lastSync < s.clock && Deadlines(s, 0, 20)
    requires !s.receiving ==> s.incoming == []
    ensures var r := Received(cfg, s);
      if s.incoming == [] || s.incoming[0].arrival > s.clock then r.ready == []
      else
        var j := s.incoming[0];
        r.ready != [] && r.ready[0] == j.id && j.id in r.mem.pcbs && r.mem.pcbs[j.id].arrival == j.arrival
  {
    var s0 := s.(switchUntil := -1);
    CoreTransfers(cfg, s, s0, s.clock);
    if s.receiving {
      FrontAdmitted(cfg, s0, AdmitArrived(s0));
      ReceivedSame(cfg, s, AdmitArrived(s0));
    }
  }

  lemma ReceivedSame(cfg: Config, s: Kernel, r: Kernel)
    requires s.receiving && s.clock > s.lastSync && r == AdmitArrived(s.(switchUntil := -1))
    ensures Received(cfg, s).ready == r.ready && Received(cfg, s).mem == r.mem
  {
  }

  lemma FrontAdmitted(cfg: Config, s: Kernel, r: Kernel)
    requires ConfigOk(cfg) && Core(cfg, s, s.clock) && s.ready == [] && Deadlines(s, 0, 20) && r == AdmitArrived(s)
    ensures
      if s.incoming == [] || s.incoming[0].arrival > s.clock then r.ready == []
      else
        var j := s.incoming[0];
        r.ready != [] && r.ready[0] == j.id && j.id in r.mem.pcbs && r.mem.pcbs[j.id].arrival == j.arrival
  {
    if s.incoming != [] && s.incoming[0].arrival <= s.clock {
      var s1 := AdmitNext(s);
      AdmitNextEffect(cfg, s, s.clock, 0, 20);
      AdmitEffect(cfg, s1, s.clock, 0, 20);
      AdmitFrame(s1);
      assert s1.ready == [s.incoming[0].id];
      assert r.ready[0] == s1.ready[0];
    }
  }

  // ---- At the end of a quantum --------------------------------------------------------

  /** The iteration ends the quantum of p, which neither faulted nor exited. */
  predicate QuantumUp(s: Kernel, p: int) {
    s.running == Some(p) && s.clock == s.preemptAt && !Emptied(s)
  }

  /** With p back on the CPU for another quantum, or q on it from the next tick on. */
  predicate StaysOn(cfg: Config, s: Kernel, s': Kernel, p: int) {
    s'.running == Some(p) && s'.preemptAt == s.clock + cfg.quantum
  }

  predicate TakesOver(cfg: Config, s: Kernel, s': Kernel, q: int) {
    s'.running == Some(q) && s'.preemptAt == s.clock + 1 + cfg.quantum
  }

  /** The queue was empty, so nothing but an arrival can be waiting. */
  lemma SettledEmpty(cfg: Config, s: Kernel, p: int)
    requires ConfigOk(cfg) && Inv(cfg, s) && RequestOk(s) && QuantumUp(s, p)
    ensures Settle(cfg, s).ready == s.ready && Settle(cfg, s).clock == s.clock && Settle(cfg, s).incoming == s.incoming
  {
    RequestsKeep(cfg, s);
    var s1 := HandleRequests(s);
    assert FirstCheck(s1) == s1.(checked := false);
  }

  lemma QuantumEnds(cfg: Config, s: Kernel, p: int)
    requires ConfigOk(cfg) && Inv(cfg, s) && StepOk(cfg, s) && QuantumUp(s, p)
    ensures var s' := Tick(cfg, s);
      if s.ready != [] then TakesOver(cfg, s, s', s.ready[0])
      else if s.incoming != [] && s.incoming[0].arrival < s.clock then TakesOver(cfg, s, s', s.incoming[0].id)
      else StaysOn(cfg, s, s', p)
  {
    TickKeeps(cfg, s, 20);
    SettleKeeps(cfg, s, 20);
    TickIs(cfg, s);
    if s.ready == [] {
      SettledEmpty(cfg, s, p);
      EmptyQueueEnds(cfg, s, Settle(cfg, s), p);
    }
  }

  lemma EmptyQueueEnds(cfg: Config, s: Kernel, s1: Kernel, p: int)
    requires ConfigOk(cfg) && Inv(cfg, s) && QuantumUp(s, p) && s.ready == []
    requires Settled(cfg, s, s1, 20) && s1.ready == [] && RoomAt(Received(cfg, s1))
    ensures var s' := LateCheck(Advance(cfg, s1)).(clock := s.clock + 1);
      if s.incoming != [] && s.incoming[0].arrival < s.clock then TakesOver(cfg, s, s', s.incoming[0].id)
      else StaysOn(cfg, s, s', p)
  {
    SettledResumable(cfg, s, s1, 20);
    AdvanceIs(cfg, s1);
    ArrivedFront(cfg, s1);
    ScheduleKeeps(cfg, s1, s.clock + 1, 20);
    EmptyQueueBy(cfg, s, Received(cfg, s1), Schedule(cfg, s1), p);
    LateFrame(Schedule(cfg, s1), s.clock + 1);
  }

  /** r is the kernel after the arrivals. */
  lemma EmptyQueueBy(cfg: Config, s: Kernel, r: Kernel, s': Kernel, p: int)
    requires Progress(cfg, r, s') && r.running == Some(p) && r.clock == r.preemptAt == s.clock > 0
    requires if s.incoming == [] || s.incoming[0].arrival > s.clock then r.ready == []
             else
               var j := s.incoming[0];
               r.ready != [] && r.ready[0] == j.id && j.id in r.mem.pcbs && r.mem.pcbs[j.id].arrival == j.arrival
    ensures if s.incoming != [] && s.incoming[0].arrival < s.clock then TakesOver(cfg, s, s', s.incoming[0].id)
            else StaysOn(cfg, s, s', p)
  {
  }

  lemma LateFrame(s: Kernel, next: int)
    ensures var s' := LateCheck(s).(clock := next); s'.running == s.running && s'.preemptAt == s.preemptAt
  {
    BlockEndFrame(s, s.blocked);
  }
  // ---- When the CPU is free ------------------------------------------------------------

  /** Who waits longest for a free CPU at this tick: the front of the queue; behind
      the queue whoever ends its block now; and behind these the next job, if it has
      arrived. */
  function NextInLine(s: Kernel): Option<int> {
    var woken := Select(s, s.blocked, true);
    if s.ready != [] then Some(s.ready[0])
    else if woken != [] then Some(woken[0])
    else if s.incoming != [] && s.incoming[0].arrival <= s.clock then Some(s.incoming[0].id)
    else None
  }

  predicate GetsFreeCpu(cfg: Config, s: Kernel, s': Kernel) {
    s'.running == NextInLine(s) && (s'.running.Some? ==> s'.preemptAt == s.clock + cfg.quantum)
  }

  lemma SettledFree(cfg: Config, s: Kernel)
    requires ConfigOk(cfg) && Inv(cfg, s) && s.running.None?
    ensures var s1 := Settle(cfg, s);
      s1.ready == s.ready + Select(s, s.blocked, true) && s1.clock == s.clock && s1.incoming == s.incoming
  {
    BlockEndSplits(s);
    BlockEndFrame(s, s.blocked);
  }

  lemma FreeCpuIsTaken(cfg: Config, s: Kernel)
    requires ConfigOk(cfg) && Inv(cfg, s) && StepOk(cfg, s) && !Finished(s) && s.running.None? && s.clock > 0
    ensures GetsFreeCpu(cfg, s, Tick(cfg, s))
  {
    TickKeeps(cfg, s, 20);
    SettleKeeps(cfg, s, 20);
    TickIs(cfg, s);
    SettledFree(cfg, s);
    var s1 := Settle(cfg, s);
    SettledResumable(cfg, s, s1, 20);
    AdvanceIs(cfg, s1);
    if s1.ready == [] {
      ArrivedFront(cfg, s1);
    }
    QueueTaken(cfg, s, s1);
  }

  lemma QueueTaken(cfg: Config, s: Kernel, s1: Kernel)
    requires ConfigOk(cfg) && Resumable(cfg, s1, 20) && RoomAt(Received(cfg, s1)) && s1.running.None?
    requires s1.clock == s.clock > 0 && s1.ready == s.ready + Select(s, s.blocked, true) && s1.incoming == s.incoming
    requires s1.ready == [] ==>
      var r := Received(cfg, s1);
      if s1.incoming == [] || s1.incoming[0].arrival > s1.clock then r.ready == []
      else r.ready != [] && r.ready[0] == s1.incoming[0].id
    ensures GetsFreeCpu(cfg, s, LateCheck(Schedule(cfg, s1)).(clock := s.clock + 1))
  {
    ScheduleKeeps(cfg, s1, s.clock + 1, 20);
    FreeFront(s, s1, Received(cfg, s1));
    LateFrame(Schedule(cfg, s1), s.clock + 1);
  }

  lemma FreeFront(s: Kernel, s1: Kernel, r: Kernel)
    requires s1.ready <= r.ready && s1.ready == s.ready + Select(s, s.blocked, true)
    requires s1.incoming == s.incoming && s1.clock == s.clock
    requires s1.ready == [] ==>
      if s1.incoming == [] || s1.incoming[0].arrival > s1.clock then r.ready == []
      else r.ready != [] && r.ready[0] == s1.incoming[0].id
    ensures NextInLine(s) == if r.ready == [] then None else Some(r.ready[0])
  {
    if s1.ready != [] {
      FrontSame(s1.ready, r.ready);
    }
  }

  // ---- The whole queue --------------------------------------------------------------------

  /** Who ends its block at this tick, in the order of the block queue. */
  function Woken(s: Kernel): seq<int> {
    Select(s, s.blocked, true)
  }

  /** Who arrives, in the order of the input. */
  function ArrivedIds(incoming: seq<Job>, t: int): seq<int> {
    if incoming == [] || incoming[0].arrival > t then [] else [incoming[0].id] + ArrivedIds(incoming[1..], t)
  }

  lemma {:induction false} AdmitQueue(s: Kernel)
    ensures AdmitArrived(s).ready == s.ready + ArrivedIds(s.incoming, s.clock)
    decreases |s.incoming|
  {
    if s.incoming == [] || s.incoming[0].arrival > s.clock {
      assert s.ready + [] == s.ready;
    } else {
      AdmitQueue(AdmitNext(s));
      JoinRight(s.ready, s.incoming[0].id, ArrivedIds(s.incoming[1..], s.clock));
    }
  }

  lemma ReceiveQueue(cfg: Config, s: Kernel)
    requires s.lastSync < s.clock && (!s.receiving ==> s.incoming == [])
    ensures Received(cfg, s).ready == s.ready + ArrivedIds(s.incoming, s.clock)
  {
    AdmitQueue(s.(switchUntil := -1));
    if s.receiving {
      ReceivedSame(cfg, s, AdmitArrived(s.(switchUntil := -1)));
    } else {
      assert s.ready + [] == s.ready;
    }
  }

  /** The same processes end their block in s' as in s. */
  ghost predicate SameBlocks(s: Kernel, s': Kernel) {
    && s'.clock == s.clock && s'.blocked == s.blocked
    && forall p :: p in s.blocked ==> (Due(s', p) <==> Due(s, p))
  }

  lemma SameWoken(s: Kernel, s': Kernel)
    requires SameBlocks(s, s')
    ensures Woken(s') == Woken(s)
  {
    SelectSame(s, s', s.blocked, true);
  }

  lemma CheckQueue(s: Kernel)
    requires QueuesOk(s)
    ensures CheckBlockEnd(s).ready == s.ready + Woken(s)
  {
    BlockEndSplits(s);
  }

  lemma {:induction false} SelectAppend(s: Kernel, ids: seq<int>, p: int)
    requires !Due(s, p)
    ensures Select(s, ids + [p], true) == Select(s, ids, true)
  {
    if ids == [] {
      assert ids + [p] == [p];
    } else {
      assert (ids + [p])[0] == ids[0] && (ids + [p])[1..] == ids[1..] + [p];
      SelectAppend(s, ids[1..], p);
    }
  }

  /** A fault adds its process to the block queue, where it stays for now. */
  lemma FaultWoken(cfg: Config, s: Kernel, s': Kernel, p: int)
    requires Core(cfg, s, s.clock) && Blocks(cfg, s, s', p) && s.running == Some(p)
    ensures Woken(s') == Woken(s)
  {
    Place(s, p);
    assert !Due(s', p);
    SelectAppend(s', s.blocked, p);
    forall q | q in s.blocked ensures Due(s, q) == Due(s', q) {
      assert q != p;
      Place(s, q);
    }
    SelectSame(s, s', s.blocked, true);
  }

  lemma RequestQueue(cfg: Config, s: Kernel)
    requires Core(cfg, s, s.clock) && RequestOk(s)
    ensures var h := HandleRequests(s); h.ready == s.ready && Woken(h) == Woken(s) && QueuesOk(h)
    ensures !FaultNow(s) ==> SameBlocks(s, HandleRequests(s))
  {
    RequestsKeep(cfg, s);
    if FaultNow(s) {
      FaultWoken(cfg, s, HandleRequests(s), s.running.value);
    } else {
      SameWoken(s, HandleRequests(s));
    }
  }

  /** At a quantum boundary the block-end check is put off. */
  predicate AtBoundary(s: Kernel) {
    s.running.Some? && s.preemptAt == s.clock && !FaultNow(s)
  }

  lemma SettleQueue(cfg: Config, s: Kernel)
    requires ConfigOk(cfg) && Inv(cfg, s) && RequestOk(s)
    ensures var s1 := Settle(cfg, s);
      && (s1.checked <==> !AtBoundary(s))
      && s1.ready == (if AtBoundary(s) then s.ready else s.ready + Woken(s))
      && (AtBoundary(s) ==> SameBlocks(s, s1))
  {
    RequestQueue(cfg, s);
    RequestsKeep(cfg, s);
    var h := HandleRequests(s);
    CheckedQueue(cfg, h);
    if AtBoundary(s) {
      FinishBlocks(cfg, h.(checked := false));
    }
  }

  lemma CheckedQueue(cfg: Config, h: Kernel)
    requires QueuesOk(h)
    ensures var s1 := HandleFinished(FirstCheck(h)); var b := h.preemptAt == h.clock && h.running.Some?;
      (s1.checked <==> !b) && s1.ready == if b then h.ready else h.ready + Woken(h)
  {
    CheckQueue(h);
  }

  lemma FinishBlocks(cfg: Config, s: Kernel)
    requires QueuesOk(s)
    ensures SameBlocks(s, HandleFinished(s))
  {
    if s.running.Some? {
      Place(s, s.running.value);
      forall p | p in s.blocked ensures Due(HandleFinished(s), p) <==> Due(s, p) {
        Place(s, p);
      }
    }
  }

  lemma ReceiveBlocks(cfg: Config, s: Kernel, lo: int, hi: int)
    requires QueuesOk(s) && Admitted(cfg, s, Received(cfg, s), lo, hi)
    ensures SameBlocks(s, Received(cfg, s))
  {
    forall p | p in s.blocked ensures Due(Received(cfg, s), p) <==> Due(s, p) {
      Place(s, p);
    }
  }

  lemma DispatchQueue(s: Kernel, q: int, t: int)
    requires s.ready != []
    ensures Dispatch(s, q, t).ready == s.ready[1..] && Dispatch(s, q, t).checked == s.checked
  {
    RunQueue(TakeFront(s), s.ready[0], t);
  }

  lemma RunQueue(s: Kernel, p: int, t: int)
    ensures RunProcess(s, p, t).ready == s.ready && RunProcess(s, p, t).checked == s.checked
  {
  }

  lemma PutBackQueue(cfg: Config, s: Kernel, p: int, hi: int)
    requires Schedulable(cfg, s, hi) && s.running == Some(p) && !s.checked
    ensures p in s.mem.pcbs
    ensures PutBack(s, p).ready == s.ready + [p] + Woken(s) && PutBack(s, p).checked
  {
    StopKeeps(cfg, s, p);
    Place(s, p);
    var s1 := StopRunning(s, p);
    forall q | q in s.blocked ensures Due(s1, q) <==> Due(s, q) {
      Place(s, q);
    }
    SameWoken(s, s1);
    CheckQueue(s1);
  }

  lemma PreemptQueue(cfg: Config, s: Kernel, p: int, hi: int, next: int)
    requires Schedulable(cfg, s, hi) && Preempts(s) && s.running == Some(p) && !s.checked && next == s.clock + 1
    ensures RrAlgo(s, cfg.quantum).ready == (s.ready + [p] + Woken(s))[1..] && RrAlgo(s, cfg.quantum).checked
  {
    PutBackQueue(cfg, s, p, hi);
    AlgoIsPreempt(s, cfg.quantum);
    PreemptIs(s, p, cfg.quantum, next);
    DispatchQueue(PutBack(s, p), cfg.quantum, next);
  }

  lemma GrantedQueue(cfg: Config, s: Kernel)
    ensures var s' := Granted(cfg, ClearCheck(s, cfg.k));
      && s'.ready == s.ready && s'.checked == s.checked && s'.blocked == s.blocked && s'.clock == s.clock
      && s'.mem.pcbs == s.mem.pcbs
  {
    ChildStepFrame(cfg, ClearCheck(s, cfg.k));
  }

  /** The queue after scheduling, with r the kernel after the arrivals. */
  lemma DecidedQueue(cfg: Config, r: Kernel, hi: int, next: int)
    requires Schedulable(cfg, r, hi) && r.clock > 0 && next == r.clock + 1 && (Preempts(r) ==> !r.checked)
    ensures var s' := Granted(cfg, ClearCheck(Decided(cfg, r), cfg.k));
      if Preempts(r) then s'.ready == (r.ready + [r.running.value] + Woken(r))[1..] && s'.checked
      else if r.running.None? && r.ready != [] then s'.ready == r.ready[1..] && s'.checked == r.checked
      else s'.ready == r.ready && s'.checked == r.checked && SameBlocks(r, s')
  {
    GrantedQueue(cfg, Decided(cfg, r));
    if Preempts(r) {
      PreemptQueue(cfg, r, r.running.value, hi, next);
    } else if r.running.None? && r.ready != [] {
      AlgoIsDispatch(r, cfg.quantum);
      DispatchQueue(r, cfg.quantum, r.clock);
    } else {
      AlgoIsIdle(r, cfg.quantum);
    }
  }

  /** The queue after an iteration: those that were queued, those that end their
      block and those that arrive, in this order; at the end of a quantum the arrivals
      come first, and between both the process that is put off. */
  ghost predicate QueueFollows(s: Kernel, s': Kernel) {
    var came := ArrivedIds(s.incoming, s.clock);
    if Emptied(s) then s'.ready == s.ready + Woken(s)
    else match s.running
      case None =>
        var q := s.ready + Woken(s) + came;
        s'.ready == if q == [] then [] else q[1..]
      case Some(p) =>
        if s.clock < s.preemptAt then s'.ready == s.ready + Woken(s) + came
        else if s.ready != [] || (s.incoming != [] && s.incoming[0].arrival < s.clock)
        then s'.ready == (s.ready + came + [p] + Woken(s))[1..]
        else s'.ready == s.ready + came + Woken(s)
  }

  lemma LateQueue(s: Kernel, next: int)
    requires QueuesOk(s)
    ensures LateCheck(s).(clock := next).ready == if s.checked then s.ready else s.ready + Woken(s)
  {
    CheckQueue(s);
  }

  lemma QueueAfterFault(cfg: Config, s: Kernel)
    requires ConfigOk(cfg) && Inv(cfg, s) && StepOk(cfg, s) && !Finished(s) && Emptied(s)
    ensures QueueFollows(s, Tick(cfg, s))
  {
    SettleKeeps(cfg, s, 20);
    SettleQueue(cfg, s);
    var s1 := Settle(cfg, s);
    EmptiedAdvances(cfg, s, s1, s.clock + 1, 20);
    TickIs(cfg, s);
    LateQueue(s1, s.clock + 1);
    if AtBoundary(s) {
      SameWoken(s, s1);
    }
  }

  lemma QueueAfterSchedule(cfg: Config, s: Kernel)
    requires ConfigOk(cfg) && Inv(cfg, s) && StepOk(cfg, s) && !Finished(s) && !Emptied(s) && s.clock > 0
    ensures QueueFollows(s, Tick(cfg, s))
  {
    SettleKeeps(cfg, s, 20);
    SettleQueue(cfg, s);
    var s1 := Settle(cfg, s);
    SettledResumable(cfg, s, s1, 20);
    AdvanceIs(cfg, s1);
    TickIs(cfg, s);
    if AtBoundary(s) {
      SameWoken(s, s1);
    }
    ScheduleQueue(cfg, s, s1);
  }

  lemma ScheduleQueue(cfg: Config, s: Kernel, s1: Kernel)
    requires ConfigOk(cfg) && Inv(cfg, s) && Settled(cfg, s, s1, 20) && !Emptied(s) && s.clock > 0
    requires Resumable(cfg, s1, 20) && RoomAt(Received(cfg, s1)) && (s1.checked <==> !AtBoundary(s))
    requires s1.ready == (if AtBoundary(s) then s.ready else s.ready + Woken(s))
    requires AtBoundary(s) ==> Woken(s1) == Woken(s)
    ensures QueueFollows(s, LateCheck(Schedule(cfg, s1)).(clock := s.clock + 1))
  {
    ScheduleKeeps(cfg, s1, s.clock + 1, 20);
    ScheduleIs(cfg, s1);
    LateQueue(Schedule(cfg, s1), s.clock + 1);
    var r := Received(cfg, s1);
    ReceiveQueue(cfg, s1);
    ReceiveBlocks(cfg, s1, if s1.checked then 1 else 0, 20);
    SameWoken(s1, r);
    if AtBoundary(s) {
      BoundaryFront(cfg, s, s1, r);
    }
    DecidedQueueBy(cfg, s, s1, r, Schedule(cfg, s1), LateCheck(Schedule(cfg, s1)).(clock := s.clock + 1));
  }

  lemma DecidedQueueBy(cfg: Config, s: Kernel, s1: Kernel, r: Kernel, s2: Kernel, s': Kernel)
    requires !Emptied(s) && s.clock > 0 && r.running == s.running && r.clock == s.clock && r.preemptAt == s.preemptAt
    requires s.running.Some? ==> s.clock <= s.preemptAt
    requires Schedulable(cfg, r, 20) && s2 == Granted(cfg, ClearCheck(Decided(cfg, r), cfg.k))
    requires s1.ready == (if AtBoundary(s) then s.ready else s.ready + Woken(s)) && (r.checked <==> !AtBoundary(s))
    requires r.ready == s1.ready + ArrivedIds(s.incoming, s.clock) && (AtBoundary(s) ==> Woken(r) == Woken(s))
    requires AtBoundary(s) ==> (Preempts(r) <==> s.ready != [] || (s.incoming != [] && s.incoming[0].arrival < s.clock))
    requires s'.ready == if s2.checked then s2.ready else s2.ready + Woken(s2)
    ensures QueueFollows(s, s')
  {
    DecidedQueue(cfg, r, 20, s.clock + 1);
    if !Preempts(r) && (r.running.Some? || r.ready == []) {
      SameWoken(r, s2);
    }
    QueueBy(s, s1, r, s2, s');
  }

  lemma BoundaryFront(cfg: Config, s: Kernel, s1: Kernel, r: Kernel)
    requires ConfigOk(cfg) && Inv(cfg, s) && Settled(cfg, s, s1, 20) && !Emptied(s) && AtBoundary(s)
    requires Resumable(cfg, s1, 20) && s1.ready == s.ready && r == Received(cfg, s1)
    requires Admitted(cfg, s1, r, if s1.checked then 1 else 0, 20)
    ensures Preempts(r) <==> s.ready != [] || (s.incoming != [] && s.incoming[0].arrival < s.clock)
  {
    if s.ready == [] {
      ArrivedFront(cfg, s1);
    } else {
      FrontStays(cfg, s, s1, r, 20);
    }
  }

  /** From the queues after each phase. */
  lemma QueueBy(s: Kernel, s1: Kernel, r: Kernel, s2: Kernel, s': Kernel)
    requires !Emptied(s) && s.clock > 0 && r.running == s.running && r.clock == s.clock && r.preemptAt == s.preemptAt
    requires s.running.Some? ==> s.clock <= s.preemptAt
    requires s1.ready == (if AtBoundary(s) then s.ready else s.ready + Woken(s)) && (r.checked <==> !AtBoundary(s))
    requires r.ready == s1.ready + ArrivedIds(s.incoming, s.clock) && (AtBoundary(s) ==> Woken(r) == Woken(s))
    requires AtBoundary(s) ==> (Preempts(r) <==> s.ready != [] || (s.incoming != [] && s.incoming[0].arrival < s.clock))
    requires if Preempts(r) then s2.ready == (r.ready + [r.running.value] + Woken(r))[1..] && s2.checked
             else if r.running.None? && r.ready != [] then s2.ready == r.ready[1..] && s2.checked == r.checked
             else s2.ready == r.ready && s2.checked == r.checked && Woken(s2) == Woken(r)
    requires s'.ready == if s2.checked then s2.ready else s2.ready + Woken(s2)
    ensures QueueFollows(s, s')
  {
  }

  // ---- Over whole runs -------------------------------------------------------------------

  /** Who has the CPU after an iteration. */
  ghost predicate CpuFollows(cfg: Config, s: Kernel, s': Kernel) {
    if Emptied(s) then
      s'.running.None?
    else match s.running
      case None => s.clock > 0 ==> GetsFreeCpu(cfg, s, s')
      case Some(p) =>
        if s.clock < s.preemptAt then s'.running == Some(p) && s'.preemptAt == s.preemptAt
        else if s.ready != [] then TakesOver(cfg, s, s', s.ready[0])
        else if s.incoming != [] && s.incoming[0].arrival < s.clock then TakesOver(cfg, s, s', s.incoming[0].id)
        else StaysOn(cfg, s, s', p)
  }

  /** In every sound run: a fault or an exit leaves the CPU empty for one tick. A free
      CPU is given to who is next in line. A process on the CPU keeps it for its
      quantum; then it is put off for the front of the queue, which takes over with
      the next tick, unless nobody is waiting, or nobody but a job that has arrived
      just now: then it has another quantum. */
  lemma WhoRuns(cfg: Config, n: nat, s: Kernel, s': Kernel)
    requires ConfigOk(cfg) && Sound(cfg, n + 1) && s == Run(cfg, n) && s' == Run(cfg, n + 1) && !Finished(s)
    ensures CpuFollows(cfg, s, s')
  {
    SoundPrefix(cfg, n, n + 1);
    RunKeeps(cfg, n, s);
    RunNext(cfg, n);
    assert SoundAt(cfg, n);
    StepFollows(cfg, s);
  }

  lemma StepFollows(cfg: Config, s: Kernel)
    requires ConfigOk(cfg) && Inv(cfg, s) && StepOk(cfg, s) && !Finished(s)
    ensures CpuFollows(cfg, s, Tick(cfg, s))
  {
    TickKeeps(cfg, s, 20);
    if !Emptied(s) {
      if s.running.None? {
        if s.clock > 0 {
          FreeCpuIsTaken(cfg, s);
        }
      } else if s.clock == s.preemptAt {
        QuantumEnds(cfg, s, s.running.value);
      }
    }
  }
  /** In every sound run, after every iteration but the first the ready queue is, in
      this order and with nobody else in it: who was queued, who ends its block, who
      arrives; and at the end of a quantum who arrives, the process that is put off,
      and who ends its block. The front of it has gone to the CPU where WhoRuns says. */
  lemma QueueInOrder(cfg: Config, n: nat, s: Kernel, s': Kernel)
    requires ConfigOk(cfg) && Sound(cfg, n + 1) && s == Run(cfg, n) && s' == Run(cfg, n + 1)
    requires !Finished(s) && s.clock > 0
    ensures QueueFollows(s, s')
  {
    SoundPrefix(cfg, n, n + 1);
    RunKeeps(cfg, n, s);
    RunNext(cfg, n);
    assert SoundAt(cfg, n);
    if Emptied(s) {
      QueueAfterFault(cfg, s);
    } else {
      QueueAfterSchedule(cfg, s);
    }
  }
}
