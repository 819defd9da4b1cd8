/** What the phases of an iteration leave alone, in any state. */
module RrFrames {
  import opened Common
  import Mmu
  import opened RoundRobin
  import opened RrInvariants
  import opened RrTicks

  /** Time, arrivals and accounts are the same, and nobody is waited for. */
  predicate SameBooks(s: Kernel, s': Kernel) {
    && s'.clock == s.clock && s'.hung == s.hung
    && s'.incoming == s.incoming && s'.receiving == s.receiving && s'.lastSync == s.lastSync
    && s'.perf == s.perf && s'.finished == s.finished
  }

  lemma BlockBooks(s: Kernel, r: Request)
    requires r.sender in s.mem.pcbs
    ensures SameBooks(s, BlockRunning(s, r)) && SameBooks(s, BlockReady(s, r))
  {
  }

  lemma ServiceBooks(s: Kernel)
    ensures SameBooks(s, CheckReqs(s))
  {
    if s.requests != [] && s.requests[0].sender in s.mem.pcbs {
      var r := s.requests[0];
      var (mem, res) := Mmu.Check(s.mem, r.sender, r.page, r.write);
      CheckPcbs(s.mem, r.sender, r.page, r.write);
      ServiceIs(s, r, mem, res, s.(mem := mem, requests := s.requests[1..]));
      BlockBooks(s.(mem := mem, requests := s.requests[1..]), r);
    }
  }

  lemma CheckPcbs(mem: Mmu.Mem, p: int, page: nat, write: bool)
    ensures Mmu.Check(mem, p, page, write).0.pcbs == mem.pcbs
  {
  }

  lemma ServiceIs(s: Kernel, r: Request, mem: Mmu.Mem, res: Mmu.Outcome, s1: Kernel)
    requires s.requests != [] && r == s.requests[0] && r.sender in s.mem.pcbs && r.sender in mem.pcbs
    requires (mem, res) == Mmu.Check(s.mem, r.sender, r.page, r.write) && s1 == s.(mem := mem, requests := s.requests[1..])
    ensures CheckReqs(s) ==
              if r.tick > s.clock then s.(mem := mem)
              else if !res.Miss? then s1
              else if s.running == Some(r.sender) then BlockRunning(s1, r) else BlockReady(s1, r)
  {
  }

  lemma RequestBooks(s: Kernel)
    ensures SameBooks(s, HandleRequests(s))
  {
    if s.running.Some? {
      var (m, rest) := TakeMail(s.mailbox, s.running.value);
      ServiceBooks(if m.Some? then s.(mailbox := rest, requests := s.requests + [m.value.(tick := s.clock)]) else s);
    }
  }

  lemma CheckBooks(s: Kernel)
    ensures SameBooks(s, CheckBlockEnd(s)) && SameBooks(s, FirstCheck(s)) && SameBooks(s, LateCheck(s))
  {
    BlockEndFrame(s, s.blocked);
  }

  /** An exit changes the accounts, but neither time nor arrivals. */
  predicate SameArrivals(s: Kernel, s': Kernel) {
    s'.clock == s.clock && s'.incoming == s.incoming && s'.receiving == s.receiving && s'.lastSync == s.lastSync
  }

  lemma FinishArrivals(s: Kernel)
    ensures SameArrivals(s, HandleFinished(s))
  {
  }

  lemma SettleArrivals(cfg: Config, s: Kernel)
    ensures SameArrivals(s, Settle(cfg, s))
  {
    RequestBooks(s);
    CheckBooks(HandleRequests(s));
    FinishArrivals(FirstCheck(HandleRequests(s)));
  }

  lemma RunBooks(s: Kernel, p: int, t: int)
    ensures SameBooks(s, RunProcess(s, p, t))
  {
  }

  lemma SwitchBooks(s: Kernel, q: int, t: int)
    ensures SameBooks(s, SwitchTo(s, q, t))
  {
    if s.ready != [] {
      RunBooks(TakeFront(s), s.ready[0], t);
    }
  }

  lemma PutBackBooks(s: Kernel, p: int)
    requires p in s.mem.pcbs
    ensures SameBooks(s, PutBack(s, p))
  {
    CheckBooks(StopRunning(s, p));
  }

  lemma PreemptBooks(s: Kernel, p: int, q: int, next: int)
    requires p in s.mem.pcbs && next == s.clock + 1
    ensures SameBooks(s, Preempt(s, p, q))
  {
    PutBackBooks(s, p);
    SwitchBooks(PutBack(s, p), q, next);
    PreemptIs(s, p, q, next);
  }

  lemma AlgoBooks(s: Kernel, q: int)
    ensures SameBooks(s, RrAlgo(s, q))
  {
    if Preempts(s) && s.running.value in s.mem.pcbs {
      PreemptBooks(s, s.running.value, q, s.clock + 1);
      AlgoIsPreempt(s, q);
    } else if s.running.None? && s.ready != [] {
      SwitchBooks(s, q, s.clock);
      AlgoIsDispatch(s, q);
    } else {
      AlgoIsIdle(s, q);
    }
  }

  lemma GrantedBooks(cfg: Config, s: Kernel)
    ensures SameBooks(s, Granted(cfg, ClearCheck(s, cfg.k)))
  {
    ChildStepFrame(cfg, ClearCheck(s, cfg.k));
  }

  /** The scheduling part, after the arrivals. */
  lemma ScheduleBooks(cfg: Config, s: Kernel)
    ensures SameBooks(Received(cfg, s), Decided(cfg, Received(cfg, s)))
    ensures SameBooks(Received(cfg, s), Schedule(cfg, s))
  {
    ScheduleIs(cfg, s);
    AlgoBooks(Received(cfg, s), cfg.quantum);
    GrantedBooks(cfg, Decided(cfg, Received(cfg, s)));
  }
}
