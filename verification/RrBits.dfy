/** The R and M bits over whole runs of the Round-Robin scheduler: they tell
    what happened to a page since it was loaded and since the last clear. */
module RrBits {
  import opened Common
  import opened Mmu
  import opened MmuProofs
  import opened MmuHistory
  import opened RoundRobin
  import opened RrInvariants
  import opened RrTicks

  // ---- The history of a run ----------------------------------------------------

  /** The request served at the start of the iteration: a use or a load. */
  function RequestLog(s: Kernel): seq<Event> {
    if s.running.Some? && s.mailbox != []
    then Log(s.mem, Access(s.running.value, s.mailbox[0].page, s.mailbox[0].write, s.clock))
    else []
  }

  /** The load of page 0 when the front process gets the CPU for the first time. */
  function StartLog(s: Kernel, t: int): seq<Event> {
    if s.ready != [] && s.ready[0] in s.mem.pcbs && !s.mem.pcbs[s.ready[0]].forked
    then Log(SetPcb(s.mem, s.ready[0], Begun(s.mem.pcbs[s.ready[0]], t)), Start(s.ready[0], t))
    else []
  }

  function AlgoLog(s: Kernel): seq<Event> {
    if s.clock <= 0 then []
    else if Preempts(s) && s.running.value in s.mem.pcbs then StartLog(PutBack(s, s.running.value), s.clock + 1)
    else if s.running.None? then StartLog(s, s.clock)
    else []
  }

  function ClearLog(cfg: Config, s: Kernel): seq<Event> {
    if ClearDue(s, cfg.k) then [Event.Cleared] else []
  }

  function ScheduleLog(cfg: Config, s: Kernel): seq<Event> {
    AlgoLog(Received(cfg, s)) + ClearLog(cfg, Decided(cfg, Received(cfg, s)))
  }

  function TickLog(cfg: Config, s: Kernel): seq<Event> {
    if Finished(s) || s.hung || s.mem.trapped then []
    else RequestLog(s) + (if Emptied(s) then [] else ScheduleLog(cfg, Settle(cfg, s)))
  }

  function RunLog(cfg: Config, n: nat): seq<Event> {
    if n == 0 then [] else RunLog(cfg, n - 1) + TickLog(cfg, Run(cfg, n - 1))
  }

  // ---- Phase by phase ----------------------------------------------------------

  /** Control blocks may change, but for the index of the table frame. */
  lemma SameEntries(mem: Mem, mem': Mem, log: seq<Event>)
    requires BitsMatch(mem, log) && mem'.ram == mem.ram && mem'.pcbs.Keys == mem.pcbs.Keys
    requires forall p :: p in mem.pcbs ==> mem'.pcbs[p].frameIndex == mem.pcbs[p].frameIndex
    ensures BitsMatch(mem', log)
  {
    forall p, v | HasEntry(mem', p, v) ensures HasEntry(mem, p, v) && Entry(mem', p, v) == Entry(mem, p, v) {
    }
  }

  lemma RequestBits(cfg: Config, s: Kernel, log: seq<Event>)
    requires Core(cfg, s, s.clock) && RequestOk(s) && BitsMatch(s.mem, log)
    ensures BitsMatch(HandleRequests(s).mem, log + RequestLog(s))
  {
    if s.running.Some? && s.mailbox != [] {
      var p, r := s.running.value, s.mailbox[0];
      assert ProcInv(cfg, s, p);
      TranslationKeeps(cfg, s);
      ServedRequest(s);
      CheckKeeps(s.mem, p, r.page, r.write);
      if FaultNow(s) {
        var mem1 := SetPcb(s.mem, p, s.mem.pcbs[p].(remaining := s.shm, lastStopped := s.clock, state := Blocked));
        FaultBits(s.mem, mem1, p, r.page, r.write, s.clock, log);
      } else {
        AccessMatches(s.mem, log, p, r.page, r.write, s.clock);
      }
    } else {
      assert HandleRequests(s) == s;
      assert log + [] == log;
    }
  }

  lemma FaultBits(mem: Mem, mem1: Mem, p: int, page: nat, write: bool, now: int, log: seq<Event>)
    requires MemInv(mem) && BitsMatch(mem, log) && Started(mem, p) && mem.pcbs[p].pendingFrame == -1
    requires page < mem.pcbs[p].limit && HasEntry(mem, p, page) && !Entry(mem, p, page).valid
    requires p in mem1.pcbs && mem1 == SetPcb(mem, p, mem1.pcbs[p]) && SameMemFields(mem.pcbs[p], mem1.pcbs[p])
    ensures BitsMatch(FaultHandler(mem1, now, p, page, Demand, write), log + Log(mem, Access(p, page, write, now)))
  {
    OtherFields(mem, mem1);
    SameEntries(mem, mem1, log);
    AccessMatches(mem1, log, p, page, write, now);
    CheckKeeps(mem, p, page, write);
    CheckKeeps(mem1, p, page, write);
  }

  lemma {:induction false} WalkBits(cfg: Config, s: Kernel, rest: seq<int>, t: int, log: seq<Event>)
    requires Core(cfg, s, t) && multiset(rest) <= multiset(s.blocked) && BitsMatch(s.mem, log)
    ensures BitsMatch(WakeWalk(s, rest).mem, log)
    decreases |rest|
  {
    if rest != [] {
      FrontOut(rest);
      assert rest[0] in multiset(rest);
      assert rest[0] in s.blocked;
      if Due(s, rest[0]) {
        WakeOneKeeps(cfg, s, rest[0], t);
        Place(s, rest[0]);
        OtherMatches(s.mem, log, Awake(rest[0]));
        WalkBits(cfg, WakeOne(s, rest[0]), rest[1..], t, log);
      } else {
        WalkBits(cfg, s, rest[1..], t, log);
      }
    }
  }

  lemma BlockEndBits(cfg: Config, s: Kernel, t: int, log: seq<Event>)
    requires Core(cfg, s, t) && BitsMatch(s.mem, log)
    ensures BitsMatch(CheckBlockEnd(s).mem, log)
  {
    WalkBits(cfg, s, s.blocked, t, log);
  }

  lemma FinishBits(cfg: Config, s: Kernel, log: seq<Event>)
    requires Core(cfg, s, s.clock) && BitsMatch(s.mem, log)
    ensures BitsMatch(HandleFinished(s).mem, log)
  {
    if s.finishSignal {
      assert ProcInv(cfg, s, s.running.value);
      OtherMatches(s.mem, log, Exit(s.running.value));
    }
  }

  lemma SettleBits(cfg: Config, s: Kernel, log: seq<Event>)
    requires Core(cfg, s, s.clock) && RequestOk(s) && Deadlines(s, 0, 20) && BitsMatch(s.mem, log)
    ensures BitsMatch(Settle(cfg, s).mem, log + RequestLog(s))
  {
    var s1 := HandleRequests(s);
    RequestsKeep(cfg, s);
    RequestBits(cfg, s, log);
    BlockedInTime(cfg, s, s1, 20);
    RestBits(cfg, s1, log + RequestLog(s));
  }

  lemma RestBits(cfg: Config, s: Kernel, log: seq<Event>)
    requires Core(cfg, s, s.clock) && Deadlines(s, 0, 20) && BitsMatch(s.mem, log)
    ensures BitsMatch(HandleFinished(FirstCheck(s)).mem, log)
  {
    BlockEndBits(cfg, s, s.clock, log);
    FirstCheckKeeps(cfg, s, 20);
    FinishBits(cfg, FirstCheck(s), log);
  }

  lemma {:induction false} AdmitBits(cfg: Config, s: Kernel, t: int, log: seq<Event>)
    requires ConfigOk(cfg) && Core(cfg, s, t) && BitsMatch(s.mem, log)
    ensures BitsMatch(AdmitArrived(s).mem, log)
    decreases |s.incoming|
  {
    if s.incoming != [] && s.incoming[0].arrival <= s.clock {
      var j := s.incoming[0];
      assert cfg.jobs[|cfg.jobs| - |s.incoming|] == j && j in cfg.jobs;
      JobIsFresh(cfg, s);
      OtherMatches(s.mem, log, Admit(CreatePcb(j)));
      AdmitNextKeeps(cfg, s, t);
      AdmitBits(cfg, AdmitNext(s), t, log);
    }
  }

  lemma ReceivedBits(cfg: Config, s: Kernel, log: seq<Event>)
    requires ConfigOk(cfg) && Core(cfg, s, s.clock) && BitsMatch(s.mem, log)
    ensures BitsMatch(Received(cfg, s).mem, log)
  {
    var s0 := s.(switchUntil := -1);
    CoreTransfers(cfg, s, s0, s.clock);
    AdmitBits(cfg, s0, s.clock, log);
  }

  lemma DispatchBits(cfg: Config, s: Kernel, q: int, t: int, log: seq<Event>)
    requires Core(cfg, s, s.clock) && s.running.None? && s.ready != [] && BitsMatch(s.mem, log)
    ensures BitsMatch(Dispatch(s, q, t).mem, log + StartLog(s, t))
  {
    var p := s.ready[0];
    FrontOut(s.ready);
    Place(s, p);
    assert ProcInv(cfg, s, p);
    if s.mem.pcbs[p].forked {
      assert log + [] == log;
      SameEntries(s.mem, Resume(TakeFront(s), p, t).mem, log);
    } else {
      LaunchBits(TakeFront(s), p, t, log);
    }
  }

  lemma LaunchBits(s: Kernel, p: int, t: int, log: seq<Event>)
    requires MemInv(s.mem) && p in s.mem.pcbs && s.mem.pcbs[p].frameIndex == -1 && s.mem.pcbs[p].pendingFrame == -1
    requires BitsMatch(s.mem, log)
    ensures BitsMatch(Launch(s, p, t).mem, log + Log(SetPcb(s.mem, p, Begun(s.mem.pcbs[p], t)), Start(p, t)))
  {
    var mem1 := SetPcb(s.mem, p, Begun(s.mem.pcbs[p], t));
    OtherFields(s.mem, mem1);
    SameEntries(s.mem, mem1, log);
    StartMatches(mem1, log, p, t);
    LaunchedBits(s, p, InitProcess(mem1, t, p), log + Log(mem1, Start(p, t)));
  }

  lemma LaunchedBits(s: Kernel, p: int, mem: Mem, log: seq<Event>)
    requires p in s.mem.pcbs && BitsMatch(mem, log)
    ensures BitsMatch(Launched(s, p, mem).mem, log)
  {
    if p in mem.pcbs {
      SameEntries(mem, Launched(s, p, mem).mem, log);
    }
  }

  lemma PutBackBits(cfg: Config, s: Kernel, p: int, hi: int, log: seq<Event>)
    requires Schedulable(cfg, s, hi) && s.running == Some(p) && BitsMatch(s.mem, log)
    ensures p in s.mem.pcbs && BitsMatch(PutBack(s, p).mem, log)
  {
    StopKeeps(cfg, s, p);
    var s1 := StopRunning(s, p);
    SameEntries(s.mem, s1.mem, log);
    if !s1.checked {
      BlockEndBits(cfg, s1, s.clock, log);
    }
  }

  lemma PreemptBits(cfg: Config, s: Kernel, p: int, q: int, hi: int, next: int, log: seq<Event>)
    requires Schedulable(cfg, s, hi) && s.running == Some(p) && s.ready != [] && BitsMatch(s.mem, log)
    requires next == s.clock + 1
    ensures p in s.mem.pcbs && BitsMatch(Preempt(s, p, q).mem, log + StartLog(PutBack(s, p), next))
  {
    PutBackKeeps(cfg, s, p, hi);
    PutBackBits(cfg, s, p, hi, log);
    SwitchBackBits(cfg, s, PutBack(s, p), p, q, hi, next, log);
    PreemptIs(s, p, q, next);
  }

  lemma SwitchBackBits(cfg: Config, s: Kernel, s1: Kernel, p: int, q: int, hi: int, next: int, log: seq<Event>)
    requires s.ready != [] && Back(cfg, s, s1, p, hi) && BitsMatch(s1.mem, log)
    ensures BitsMatch(SwitchTo(s1, q, next).mem, log + StartLog(s1, next))
  {
    SwitchBits(cfg, s, s1, p, q, next, hi, log);
  }

  lemma SwitchBits(cfg: Config, s: Kernel, s1: Kernel, p: int, q: int, t: int, hi: int, log: seq<Event>)
    requires s.ready != [] && Back(cfg, s, s1, p, hi) && BitsMatch(s1.mem, log)
    ensures BitsMatch(SwitchTo(s1, q, t).mem, log + StartLog(s1, t))
  {
    PrefixOf(s.ready, [p], s1.ready);
    DispatchBits(cfg, s1, q, t, log);
  }

  lemma DecidedBits(cfg: Config, s: Kernel, hi: int, log: seq<Event>)
    requires Core(cfg, s, s.clock) && BitsMatch(s.mem, log) && (s.clock > 0 ==> Schedulable(cfg, s, hi))
    ensures BitsMatch(Decided(cfg, s).mem, log + AlgoLog(s))
  {
    assert log + [] == log;
    if s.clock > 0 {
      if Preempts(s) {
        PreemptBits(cfg, s, s.running.value, cfg.quantum, hi, s.clock + 1, log);
        AlgoIsPreempt(s, cfg.quantum);
      } else if s.running.None? && s.ready != [] {
        DispatchBits(cfg, s, cfg.quantum, s.clock, log);
      }
    }
  }

  lemma GrantedBits(cfg: Config, s: Kernel, log: seq<Event>)
    requires MemInv(s.mem) && BitsMatch(s.mem, log)
    ensures BitsMatch(Granted(cfg, ClearCheck(s, cfg.k)).mem, log + ClearLog(cfg, s))
  {
    assert log + [] == log;
    ChildStepFrame(cfg, ClearCheck(s, cfg.k));
    if ClearDue(s, cfg.k) {
      ClearMatches(s.mem, log);
    }
  }

  lemma ScheduleBits(cfg: Config, s: Kernel, hi: int, log: seq<Event>)
    requires ConfigOk(cfg) && Resumable(cfg, s, hi) && RoomAt(Received(cfg, s)) && BitsMatch(s.mem, log)
    ensures BitsMatch(Schedule(cfg, s).mem, log + ScheduleLog(cfg, s))
  {
    ReceivedKeeps(cfg, s, if s.checked then 1 else 0, hi);
    ReceivedBits(cfg, s, log);
    ScheduleIs(cfg, s);
    DecisionBits(cfg, Received(cfg, s), hi, log);
  }

  lemma DecisionBits(cfg: Config, r: Kernel, hi: int, log: seq<Event>)
    requires Core(cfg, r, r.clock) && BitsMatch(r.mem, log) && (r.clock > 0 ==> Schedulable(cfg, r, hi)) && RoomAt(r)
    ensures BitsMatch(Granted(cfg, ClearCheck(Decided(cfg, r), cfg.k)).mem,
                      log + (AlgoLog(r) + ClearLog(cfg, Decided(cfg, r))))
  {
    DecidedBits(cfg, r, hi, log);
    if r.clock > 0 {
      AlgoKeeps(cfg, r, hi);
    }
    GrantedBits(cfg, Decided(cfg, r), log + AlgoLog(r));
    assert log + AlgoLog(r) + ClearLog(cfg, Decided(cfg, r)) == log + (AlgoLog(r) + ClearLog(cfg, Decided(cfg, r)));
  }

  lemma AdvanceBits(cfg: Config, s: Kernel, s1: Kernel, hi: int, log: seq<Event>)
    requires ConfigOk(cfg) && Inv(cfg, s) && Settled(cfg, s, s1, hi) && BitsMatch(s1.mem, log)
    requires Emptied(s) || RoomAt(Received(cfg, s1))
    ensures BitsMatch(Advance(cfg, s1).mem, log + (if Emptied(s) then [] else ScheduleLog(cfg, s1)))
  {
    if Emptied(s) {
      EmptiedAdvances(cfg, s, s1, s.clock + 1, hi);
      assert log + [] == log;
    } else {
      AdvanceIs(cfg, s1);
      SettledResumable(cfg, s, s1, hi);
      ScheduleBits(cfg, s1, hi, log);
    }
  }

  lemma LateBits(cfg: Config, s: Kernel, t: int, next: int, log: seq<Event>)
    requires Core(cfg, s, t) && BitsMatch(s.mem, log)
    ensures BitsMatch(LateCheck(s).(clock := next).mem, log)
  {
    BlockEndBits(cfg, s, t, log);
  }

  lemma TickBits(cfg: Config, s: Kernel, log: seq<Event>)
    requires ConfigOk(cfg) && Inv(cfg, s) && StepOk(cfg, s) && BitsMatch(s.mem, log)
    ensures BitsMatch(Tick(cfg, s).mem, log + TickLog(cfg, s))
  {
    if Finished(s) {
      assert log + [] == log;
    } else {
      SettleKeeps(cfg, s, 20);
      var s1 := Settle(cfg, s);
      TickIs(cfg, s);
      SettleBits(cfg, s, log);
      SettledBits(cfg, s, s1, log);
    }
  }

  lemma SettledBits(cfg: Config, s: Kernel, s1: Kernel, log: seq<Event>)
    requires ConfigOk(cfg) && Inv(cfg, s) && Settled(cfg, s, s1, 20) && (Emptied(s) || RoomAt(Received(cfg, s1)))
    requires BitsMatch(s1.mem, log + RequestLog(s))
    ensures var rest := if Emptied(s) then [] else ScheduleLog(cfg, s1);
      BitsMatch(LateCheck(Advance(cfg, s1)).(clock := s.clock + 1).mem, log + (RequestLog(s) + rest))
  {
    var rest := if Emptied(s) then [] else ScheduleLog(cfg, s1);
    AdvanceBits(cfg, s, s1, 20, log + RequestLog(s));
    Regroup(log, RequestLog(s), rest);
    AdvancedCore(cfg, s, s1, s.clock + 1);
    LateBits(cfg, Advance(cfg, s1), s.clock + 1, s.clock + 1, log + (RequestLog(s) + rest));
  }

  lemma Regroup(a: seq<Event>, b: seq<Event>, c: seq<Event>)
    ensures (a + b) + c == a + (b + c)
  {
  }

  lemma AdvancedCore(cfg: Config, s: Kernel, s1: Kernel, next: int)
    requires ConfigOk(cfg) && Inv(cfg, s) && Settled(cfg, s, s1, 20) && next == s.clock + 1
    requires Emptied(s) || RoomAt(Received(cfg, s1))
    ensures Core(cfg, Advance(cfg, s1), next)
  {
    AdvanceKeeps(cfg, s, s1, next, 20);
  }

  // ---- Over whole runs ---------------------------------------------------------

  lemma {:induction false} RunBits(cfg: Config, n: nat, s: Kernel)
    requires ConfigOk(cfg) && Sound(cfg, n) && s == Run(cfg, n)
    ensures Inv(cfg, s) && BitsMatch(s.mem, RunLog(cfg, n))
    decreases n
  {
    if n == 0 {
      BootOk(cfg);
    } else {
      var before := RunBack(cfg, n, s);
      RunBits(cfg, n - 1, before);
      assert SoundAt(cfg, n - 1);
      RunStep(cfg, before);
      TickBits(cfg, before, RunLog(cfg, n - 1));
    }
  }

  /** At every tick of every sound run, for every page that is loaded: M is set
      exactly if a write to it was served since it was loaded (the faulting write
      included), R exactly if it was loaded or used since the last clear, and
      both bits equal those of the frame the page is in. */
  lemma BitsOverRun(cfg: Config, n: nat, s: Kernel, p: int, v: int)
    requires ConfigOk(cfg) && Sound(cfg, n) && s == Run(cfg, n)
    requires HasEntry(s.mem, p, v) && Entry(s.mem, p, v).valid
    ensures var e := Entry(s.mem, p, v); var log := RunLog(cfg, n);
      && (e.m <==> Written(log, p, v)) && (e.r <==> Referenced(log, p, v))
      && Holds(s.mem, e.frame, p, v) && s.mem.ram[e.frame].r == e.r && s.mem.ram[e.frame].m == e.m
  {
    RunBits(cfg, n, s);
    EntriesOf(s.mem, p, v);
    InverseTables(s.mem, p, v, Entry(s.mem, p, v).frame);
  }
}
