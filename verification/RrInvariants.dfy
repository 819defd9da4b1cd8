/** What every phase of the Round-Robin loop keeps. */
module RrInvariants {
  import opened Common
  import opened Mmu
  import opened MmuProofs
  import opened RoundRobin

  // ---- Assumptions on the input --------------------------------------------

  ghost predicate ConfigOk(cfg: Config) {
    && cfg.quantum >= 1
    && Distinct(Ids(cfg.jobs))
    && (forall j :: j in cfg.jobs ==> j.id > 0 && j.arrival >= 0 && j.runtime > 0 && 0 < j.limit <= 64)
  }

  /** The next iteration serves a page fault of the running process. */
  predicate FaultNow(s: Kernel) {
    && s.running.Some? && s.mailbox != []
    && Check(s.mem, s.running.value, s.mailbox[0].page, s.mailbox[0].write).1.Miss?
  }

  /** ... of a child that has already exited: its finish signal would outlive
      its turn on the CPU. */
  predicate LastTickFault(s: Kernel) {
    FaultNow(s) && s.running.value in s.children && s.children[s.running.value].remaining == 0
  }

  /** The next iteration translates the page whose number is the limit of the
      running process, which is read outside its page table. */
  predicate LimitAccess(s: Kernel) {
    && s.running.Some? && s.mailbox != []
    && s.running.value in s.mem.pcbs && s.mailbox[0].page == s.mem.pcbs[s.running.value].limit
  }

  predicate RequestOk(s: Kernel) {
    !LastTickFault(s) && !LimitAccess(s)
  }

  // ---- The invariant -------------------------------------------------------

  predicate HasJob(cfg: Config, c: Pcb) {
    JobOf(c) in cfg.jobs
  }

  function Cpu(s: Kernel): multiset<int> {
    match s.running case Some(p) => multiset{p} case None => multiset{}
  }

  /** currentPCBs is the disjoint union of the CPU, the ready and the block
      queue, and no request is left over. */
  ghost predicate QueuesOk(s: Kernel) {
    && multiset(s.ready) + multiset(s.blocked) + Cpu(s) == multiset(s.current)
    && (forall p :: multiset(s.current)[p] == if p in s.mem.pcbs then 1 else 0)
    && s.requests == []
  }

  predicate ChildOk(c: Pcb, ch: Child) {
    ch.remaining + ch.ran == c.runtime && ch.remaining >= 0 && ch.ran >= 0
  }

  /** What holds of each live process. The third line is time conservation for
      a stopped process: the time up to its last stop was waited or run. */
  ghost predicate ProcInv(cfg: Config, s: Kernel, p: int)
    requires p in s.mem.pcbs
  {
    var c := s.mem.pcbs[p];
    && HasJob(cfg, c) && c.arrival <= s.clock && c.runtime > 0
    && (c.forked <==> c.frameIndex != -1) && (c.forked <==> p in s.children)
    && (c.forked && s.running != Some(p) ==>
          && c.remaining == s.children[p].remaining > 0 && c.lastStopped >= 0
          && c.lastStopped - c.arrival == c.waiting + (c.runtime - c.remaining))
    && (!c.forked ==> c.start == -1 && c.remaining == c.runtime && c.waiting == 0)
    && (c.forked ==> c.start >= 0 && ChildOk(c, s.children[p]))
    && (s.running == Some(p) ==> c.forked && c.pendingFrame == -1)
    && (p in s.ready ==> c.pendingFrame == -1)
    && (p in s.blocked ==> c.forked)
  }

  /** Time conservation for the running process at time t, and the meaning of
      the shared remaining time and of the finish signal. */
  predicate RunOk(s: Kernel, t: int) {
    match s.running
    case None => !s.finishSignal
    case Some(p) =>
      && p in s.mem.pcbs && p in s.children
      && s.shm == s.children[p].remaining
      && (s.finishSignal <==> s.children[p].remaining == 0)
      && t - s.mem.pcbs[p].arrival == s.mem.pcbs[p].waiting + (s.mem.pcbs[p].runtime - s.shm)
  }

  /** At most one request is under way, and the running process sent it. */
  ghost predicate MailOk(s: Kernel) {
    && |s.mailbox| <= 1 && (s.running.None? ==> s.mailbox == [])
    && forall i :: 0 <= i < |s.mailbox| ==>
         var r := s.mailbox[i];
         s.running == Some(r.sender) && r.sender in s.mem.pcbs
  }

  function FinishedIds(cs: seq<Pcb>): (r: seq<int>)
    ensures |r| == |cs|
  {
    seq(|cs|, i requires 0 <= i < |cs| => cs[i].id)
  }

  /** Every job of the input is still to come, live or finished, once. */
  ghost predicate AllJobs(cfg: Config, s: Kernel) {
    && multiset(s.current) + multiset(FinishedIds(s.finished)) + multiset(Ids(s.incoming)) == multiset(Ids(cfg.jobs))
    && |s.incoming| <= |cfg.jobs| && s.incoming == cfg.jobs[|cfg.jobs| - |s.incoming|..]
  }

  ghost predicate JobsOk(cfg: Config, s: Kernel) {
    AllJobs(cfg, s) && forall c :: c in s.finished ==> HasJob(cfg, c) && Accounted(c)
  }

  ghost predicate Core(cfg: Config, s: Kernel, t: int) {
    && MemInv(s.mem) && !s.hung && s.clock >= 0
    && QueuesOk(s)
    && (forall p :: p in s.mem.pcbs ==> ProcInv(cfg, s, p))
    && (forall p :: p in s.children ==> p in s.mem.pcbs)
    && RunOk(s, t)
    && MailOk(s)
    && JobsOk(cfg, s)
  }

  /** The ticks process p still has to run. */
  function Left(s: Kernel, p: int): int {
    if p in s.children then s.children[p].remaining
    else if p in s.mem.pcbs then s.mem.pcbs[p].runtime
    else 0
  }

  /** No process has run or changed its arrival time between s and s'. */
  ghost predicate Alike(s: Kernel, s': Kernel) {
    forall p :: p in s.mem.pcbs && p in s'.mem.pcbs ==>
      Left(s', p) == Left(s, p) && s'.mem.pcbs[p].arrival == s.mem.pcbs[p].arrival
  }

  lemma AlikeChain(a: Kernel, b: Kernel, c: Kernel)
    requires Alike(a, b) && Alike(b, c) && a.mem.pcbs.Keys * c.mem.pcbs.Keys <= b.mem.pcbs.Keys
    ensures Alike(a, c)
  {
    forall p | p in a.mem.pcbs && p in c.mem.pcbs
      ensures Left(c, p) == Left(a, p) && c.mem.pcbs[p].arrival == a.mem.pcbs[p].arrival
    {
      assert p in b.mem.pcbs;
    }
  }

  /** Where a live process is. */
  lemma Place(s: Kernel, p: int)
    requires QueuesOk(s)
    ensures multiset(s.ready)[p] + multiset(s.blocked)[p] + Cpu(s)[p] == if p in s.mem.pcbs then 1 else 0
    ensures p in s.ready ==> p in s.mem.pcbs && p !in s.blocked && s.running != Some(p)
    ensures p in s.blocked ==> p in s.mem.pcbs && p !in s.ready && s.running != Some(p)
    ensures s.running == Some(p) ==> p in s.mem.pcbs && p !in s.ready && p !in s.blocked
    ensures p in s.mem.pcbs ==> p in s.ready || p in s.blocked || s.running == Some(p)
  {
    assert multiset(s.current)[p] == (multiset(s.ready) + multiset(s.blocked) + Cpu(s))[p];
    assert p in s.ready <==> multiset(s.ready)[p] > 0;
    assert p in s.blocked <==> multiset(s.blocked)[p] > 0;
  }

  lemma FrontOut(s: seq<int>)
    requires s != []
    ensures multiset(s) == multiset(s[1..]) + multiset{s[0]}
    ensures s[0] in s && forall x :: x in s[1..] ==> x in s
  {
    assert s == [s[0]] + s[1..];
  }

  // ---- handleRequests ------------------------------------------------------

  /** The running process p moves to the block queue; its control block in mem
      says so and has a deadline. */
  lemma BlockedKeeps(cfg: Config, s: Kernel, s': Kernel, p: int)
    requires Core(cfg, s, s.clock) && s.mailbox == [] && s.running == Some(p) && s.children[p].remaining > 0
    requires MemInv(s'.mem) && Others(s, s', p)
    requires var c := s.mem.pcbs[p]; var c' := s'.mem.pcbs[p];
      c' == c.(remaining := s.shm, lastStopped := s.clock, state := Blocked, unblockAt := c'.unblockAt,
               pendingPage := c'.pendingPage, pendingFrame := c'.pendingFrame)
    requires s' == s.(mem := s'.mem, quantums := s.quantums + 1, blocked := s.blocked + [p],
                      switchUntil := s.clock + 1, running := None, preemptAt := -1)
    ensures Core(cfg, s', s.clock) && Alike(s, s')
  {
    assert ProcInv(cfg, s, p);
    Place(s, p);
    assert QueuesOk(s');
    forall q | q in s'.mem.pcbs ensures ProcInv(cfg, s', q) {
      assert ProcInv(cfg, s, q);
      Place(s, q);
    }
  }

  lemma BlockRunningKeeps(cfg: Config, s: Kernel, r: Request)
    requires Core(cfg, s, s.clock) && s.mailbox == []
    requires s.running == Some(r.sender) && r.sender in s.mem.pcbs
    requires s.children[r.sender].remaining > 0
    requires r.page < s.mem.pcbs[r.sender].limit
    requires HasEntry(s.mem, r.sender, r.page) && !Entry(s.mem, r.sender, r.page).valid
    ensures Blocks(cfg, s, BlockRunning(s, r), r.sender)
  {
    var s' := BlockRunning(s, r);
    BlockedMem(cfg, s, r, s'.mem);
    BlockedKeeps(cfg, s, s', r.sender);
  }

  lemma BlockedMem(cfg: Config, s: Kernel, r: Request, mem: Mem)
    requires MemInv(s.mem) && r.sender in s.mem.pcbs && ProcInv(cfg, s, r.sender) && s.running == Some(r.sender)
    requires r.page < s.mem.pcbs[r.sender].limit
    requires HasEntry(s.mem, r.sender, r.page) && !Entry(s.mem, r.sender, r.page).valid
    requires mem == BlockRunning(s, r).mem
    ensures var p := r.sender;
      && MemInv(mem) && p in mem.pcbs && mem.pcbs.Keys == s.mem.pcbs.Keys
      && (forall q :: q in s.mem.pcbs && q != p ==> mem.pcbs[q] == s.mem.pcbs[q])
      && var c := s.mem.pcbs[p]; var c' := mem.pcbs[p];
      && c' == c.(remaining := s.shm, lastStopped := s.clock, state := Blocked, unblockAt := c'.unblockAt,
                  pendingPage := c'.pendingPage, pendingFrame := c'.pendingFrame)
      && (c'.unblockAt == s.clock + 10 || c'.unblockAt == s.clock + 20)
  {
    var p := r.sender;
    var mem1 := SetPcb(s.mem, p, s.mem.pcbs[p].(remaining := s.shm, lastStopped := s.clock, state := Blocked));
    OtherFields(s.mem, mem1);
    PageFault(mem1, s.clock, p, r.page, Demand, r.write);
  }

  /** From s to s' the running process p was blocked by a page fault. */
  ghost predicate Blocks(cfg: Config, s: Kernel, s': Kernel, p: int) {
    && Core(cfg, s', s.clock) && Others(s, s', p) && Alike(s, s')
    && s' == s.(mem := s'.mem, mailbox := [], quantums := s.quantums + 1, blocked := s.blocked + [p],
                switchUntil := s.clock + 1, running := None, preemptAt := -1)
    && (s'.mem.pcbs[p].unblockAt == s.clock + 10 || s'.mem.pcbs[p].unblockAt == s.clock + 20)
    && s'.mem.pcbs[p].lastStopped == s.clock
  }

  /** No control block but that of p differs. */
  ghost predicate Others(s: Kernel, s': Kernel, p: int) {
    && p in s.mem.pcbs && s'.mem.pcbs.Keys == s.mem.pcbs.Keys
    && forall q :: q in s.mem.pcbs && q != p ==> s'.mem.pcbs[q] == s.mem.pcbs[q]
  }

  /** Serving the request of the running process keeps the invariant unless it
      is a fault on the last tick or the page at the limit; afterwards no request
      is under way, and a fault has moved the process to the end of the block
      queue for 10 or 20 ticks. */
  lemma RequestsKeep(cfg: Config, s: Kernel)
    requires Core(cfg, s, s.clock) && RequestOk(s)
    ensures var s' := HandleRequests(s);
      && Core(cfg, s', s.clock)
      && (!FaultNow(s) ==> s' == s.(mem := s'.mem, mailbox := []) && s'.mem.pcbs == s.mem.pcbs)
      && (FaultNow(s) ==> Blocks(cfg, s, s', s.running.value))
  {
    if s.running.Some? && s.mailbox != [] {
      TranslationKeeps(cfg, s);
      ServedRequest(s);
      if FaultNow(s) {
        FaultKeeps(cfg, s);
      }
    } else {
      assert HandleRequests(s) == s;
    }
  }

  /** The kernel once the one request under way was translated. */
  function Translated(s: Kernel): Kernel
    requires s.mailbox != []
  {
    var r := s.mailbox[0];
    s.(mailbox := [], mem := Check(s.mem, r.sender, r.page, r.write).0)
  }

  lemma TranslationKeeps(cfg: Config, s: Kernel)
    requires Core(cfg, s, s.clock) && s.running.Some? && s.mailbox != [] && !LimitAccess(s)
    ensures var s1 := Translated(s); var r := s.mailbox[0];
      && s.running == Some(r.sender) && r.sender in s.mem.pcbs
      && Core(cfg, s1, s.clock) && s1.mem.pcbs == s.mem.pcbs
      && (FaultNow(s) ==>
            && s1.mem == s.mem && r.page < s.mem.pcbs[r.sender].limit
            && HasEntry(s.mem, r.sender, r.page) && !Entry(s.mem, r.sender, r.page).valid)
  {
    var r := s.mailbox[0];
    assert ProcInv(cfg, s, r.sender);
    CheckKeeps(s.mem, r.sender, r.page, r.write);
    CoreTransfers(cfg, s, Translated(s), s.clock);
  }

  /** The page at the limit is no page fault. */
  lemma FaultInRange(cfg: Config, s: Kernel)
    requires Core(cfg, s, s.clock) && FaultNow(s)
    ensures !LimitAccess(s)
  {
    assert ProcInv(cfg, s, s.running.value);
    CheckKeeps(s.mem, s.running.value, s.mailbox[0].page, s.mailbox[0].write);
  }

  lemma FaultKeeps(cfg: Config, s: Kernel)
    requires Core(cfg, s, s.clock) && FaultNow(s) && RequestOk(s)
    ensures s.mailbox[0].sender in Translated(s).mem.pcbs
    ensures Blocks(cfg, s, BlockRunning(Translated(s), s.mailbox[0].(tick := s.clock)), s.running.value)
  {
    TranslationKeeps(cfg, s);
    var s1 := Translated(s);
    var r := s.mailbox[0].(tick := s.clock);
    BlockRunningKeeps(cfg, s1, r);
    BlocksSame(cfg, s, s1, BlockRunning(s1, r), r.sender);
  }

  lemma BlocksSame(cfg: Config, s: Kernel, s1: Kernel, s': Kernel, p: int)
    requires Blocks(cfg, s1, s', p) && s1 == s.(mailbox := [])
    ensures Blocks(cfg, s, s', p)
  {
  }

  /** What handleRequests does when the one message under way is from the
      running process. */
  lemma ServedRequest(s: Kernel)
    requires s.running.Some? && |s.mailbox| == 1 && s.requests == []
    requires s.mailbox[0].sender == s.running.value && s.running.value in s.mem.pcbs
    ensures var r := s.mailbox[0]; var s1 := Translated(s);
      && (!FaultNow(s) ==> HandleRequests(s) == s1)
      && (FaultNow(s) && r.sender in s1.mem.pcbs ==> HandleRequests(s) == BlockRunning(s1, r.(tick := s.clock)))
  {
    var r := s.mailbox[0];
    assert s.mailbox[1..] == [];
    assert TakeMail(s.mailbox, r.sender) == (Some(r), []);
    assert (s.requests + [r.(tick := s.clock)])[1..] == [];
  }

  /** Core does not look at frames, only at control blocks, and not at the
      quantum bookkeeping. */
  ghost predicate SameCore(s: Kernel, s': Kernel) {
    && s'.clock == s.clock && s'.mem.pcbs == s.mem.pcbs
    && s'.current == s.current && s'.ready == s.ready && s'.blocked == s.blocked && s'.running == s.running
    && s'.children == s.children && s'.requests == s.requests && (s'.mailbox == s.mailbox || s'.mailbox == [])
    && s'.shm == s.shm && s'.finishSignal == s.finishSignal
    && s'.incoming == s.incoming && s'.finished == s.finished && s'.hung == s.hung
  }

  lemma CoreTransfers(cfg: Config, s: Kernel, s': Kernel, t: int)
    requires Core(cfg, s, t) && SameCore(s, s') && MemInv(s'.mem)
    ensures Core(cfg, s', t)
  {
    forall q | q in s'.mem.pcbs ensures ProcInv(cfg, s', q) {
      assert ProcInv(cfg, s, q);
    }
  }

  // ---- checkBlockEnd -------------------------------------------------------

  lemma WakeOneKeeps(cfg: Config, s: Kernel, p: int, t: int)
    requires Core(cfg, s, t) && p in s.blocked
    ensures Core(cfg, WakeOne(s, p), t)
  {
    Place(s, p);
    WakeKeeps(s.mem, p);
    assert WakeOne(s, p).mem.pcbs.Keys == s.mem.pcbs.Keys;
    WakeQueues(s, WakeOne(s, p), p);
    WakeProcs(cfg, s, WakeOne(s, p), p);
    WakeRest(cfg, s, WakeOne(s, p), p, t);
  }

  lemma WakeRest(cfg: Config, s: Kernel, s': Kernel, p: int, t: int)
    requires RunOk(s, t) && MailOk(s) && JobsOk(cfg, s) && s.running != Some(p) && p in s.mem.pcbs
    requires s'.mem.pcbs == s.mem.pcbs[p := s.mem.pcbs[p].(state := Waiting, pendingPage := -1, pendingFrame := -1)]
    requires s' == s.(mem := s'.mem, blocked := s'.blocked, ready := s'.ready)
    ensures RunOk(s', t) && MailOk(s') && JobsOk(cfg, s')
  {
  }

  lemma WakeQueues(s: Kernel, s': Kernel, p: int)
    requires QueuesOk(s) && p in s.blocked && s'.mem.pcbs.Keys == s.mem.pcbs.Keys
    requires s'.blocked == Without(s.blocked, p) && s'.ready == s.ready + [p] && s'.running == s.running
    requires s'.current == s.current && s'.requests == s.requests
    ensures QueuesOk(s')
  {
  }

  lemma WakeProcs(cfg: Config, s: Kernel, s': Kernel, p: int)
    requires QueuesOk(s) && p in s.blocked && p in s.mem.pcbs
    requires forall q :: q in s.mem.pcbs ==> ProcInv(cfg, s, q)
    requires s'.mem.pcbs == s.mem.pcbs[p := s.mem.pcbs[p].(state := Waiting, pendingPage := -1, pendingFrame := -1)]
    requires s' == s.(mem := s'.mem, blocked := Without(s.blocked, p), ready := s.ready + [p])
    ensures forall q :: q in s'.mem.pcbs ==> ProcInv(cfg, s', q)
  {
    forall q | q in s'.mem.pcbs ensures ProcInv(cfg, s', q) {
      assert ProcInv(cfg, s, q);
      Place(s, q);
    }
  }

  /** The control blocks differ at most in what a page fault or wake-up sets. */
  predicate SameRecord(c: Pcb, d: Pcb) {
    d == c.(state := d.state, unblockAt := d.unblockAt, pendingPage := d.pendingPage, pendingFrame := d.pendingFrame)
  }

  ghost predicate SameRecords(mem: Mem, mem': Mem) {
    && mem'.pcbs.Keys == mem.pcbs.Keys
    && forall p :: p in mem.pcbs ==> SameRecord(mem.pcbs[p], mem'.pcbs[p])
  }

  lemma WakeRecords(mem: Mem, p: int)
    ensures SameRecords(mem, Wake(mem, p)) && (mem.trapped ==> Wake(mem, p).trapped)
  {
  }

  lemma {:induction false} WakeWalkRecords(s: Kernel, rest: seq<int>)
    ensures SameRecords(s.mem, WakeWalk(s, rest).mem) && (s.mem.trapped ==> WakeWalk(s, rest).mem.trapped)
    decreases |rest|
  {
    if rest != [] {
      WakeRecords(s.mem, rest[0]);
      WakeWalkRecords(if Due(s, rest[0]) then WakeOne(s, rest[0]) else s, rest[1..]);
    }
  }

  lemma {:induction false} WakeWalkKeeps(cfg: Config, s: Kernel, rest: seq<int>, t: int)
    requires Core(cfg, s, t) && multiset(rest) <= multiset(s.blocked)
    ensures Core(cfg, WakeWalk(s, rest), t)
    decreases |rest|
  {
    if rest != [] {
      FrontOut(rest);
      assert rest[0] in multiset(rest);
      assert rest[0] in s.blocked;
      if Due(s, rest[0]) {
        WakeOneKeeps(cfg, s, rest[0], t);
        WakeWalkKeeps(cfg, WakeOne(s, rest[0]), rest[1..], t);
      } else {
        WakeWalkKeeps(cfg, s, rest[1..], t);
      }
    }
  }

  lemma BlockEndKeeps(cfg: Config, s: Kernel, t: int)
    requires Core(cfg, s, t)
    ensures Core(cfg, CheckBlockEnd(s), t)
  {
    WakeWalkKeeps(cfg, s, s.blocked, t);
  }

  // ---- handleFinishedProcesses ---------------------------------------------

  lemma FinishKeeps(cfg: Config, s: Kernel)
    requires Core(cfg, s, s.clock) && s.mailbox == []
    ensures Core(cfg, HandleFinished(s), s.clock)
  {
    if s.running.Some? && s.finishSignal {
      var p := s.running.value;
      var s' := HandleFinished(s);
      assert ProcInv(cfg, s, p);
      Place(s, p);
      FreeKeeps(s.mem, p);
      FinishQueues(cfg, s);
      FinishJobs(cfg, s);
      forall q | q in s'.mem.pcbs ensures ProcInv(cfg, s', q) {
        assert ProcInv(cfg, s, q);
      }
    }
  }

  lemma FinishQueues(cfg: Config, s: Kernel)
    requires QueuesOk(s) && s.running.Some? && s.finishSignal && Started(s.mem, s.running.value) && MemInv(s.mem)
    requires s.running.value in s.children ==> s.children[s.running.value].remaining <= 0
    ensures QueuesOk(HandleFinished(s))
  {
    Place(s, s.running.value);
    FreeKeeps(s.mem, s.running.value);
    GoneQueues(s, HandleFinished(s), s.running.value);
  }

  lemma GoneQueues(s: Kernel, s': Kernel, p: int)
    requires QueuesOk(s) && s.running == Some(p) && p in s.mem.pcbs
    requires s'.mem.pcbs == s.mem.pcbs - {p} && s'.current == Without(s.current, p) && s'.running == None
    requires s'.ready == s.ready && s'.blocked == s.blocked && s'.requests == s.requests
    ensures QueuesOk(s')
  {
    assert multiset(s.current)[p] == 1;
    assert p in s.current;
  }

  lemma FinishJobs(cfg: Config, s: Kernel)
    requires Core(cfg, s, s.clock) && s.running.Some? && s.finishSignal
    ensures JobsOk(cfg, HandleFinished(s))
  {
    var p := s.running.value;
    var s' := HandleFinished(s);
    assert ProcInv(cfg, s, p);
    var c := s.mem.pcbs[p].(finish := s.clock, remaining := s.shm, state := Done);
    assert MmuProofs.ProcOk(s.mem, p);
    assert s'.finished == s.finished + [c];
    ExitJobs(cfg, s, p, s', c);
    forall d | d in s'.finished ensures HasJob(cfg, d) && Accounted(d) {
      if d !in s.finished { assert d == c; }
    }
  }

  /** p goes from the live to the finished ones. */
  lemma ExitJobs(cfg: Config, s: Kernel, p: int, s': Kernel, c: Pcb)
    requires QueuesOk(s) && AllJobs(cfg, s) && p in s.mem.pcbs && c.id == p
    requires s'.finished == s.finished + [c] && s'.current == Without(s.current, p) && s'.incoming == s.incoming
    ensures AllJobs(cfg, s')
  {
    assert FinishedIds(s'.finished) == FinishedIds(s.finished) + [p];
    assert multiset(s.current)[p] == 1;
    assert p in s.current;
    ExitCounts(s.current, FinishedIds(s.finished), Ids(s.incoming), p);
  }

  lemma ExitCounts(live: seq<int>, done: seq<int>, rest: seq<int>, p: int)
    requires p in live
    ensures multiset(Without(live, p)) + multiset(done + [p]) + multiset(rest)
         == multiset(live) + multiset(done) + multiset(rest)
  {
  }

  // ---- receiveProcesses ----------------------------------------------------

  lemma AdmitNextKeeps(cfg: Config, s: Kernel, t: int)
    requires ConfigOk(cfg) && Core(cfg, s, t) && s.incoming != [] && s.incoming[0].arrival <= s.clock
    ensures Core(cfg, AdmitNext(s), t)
  {
    var j := s.incoming[0];
    var s' := AdmitNext(s);
    assert cfg.jobs[|cfg.jobs| - |s.incoming|] == j;
    assert j in cfg.jobs;
    JobIsFresh(cfg, s);
    AdmitKeeps(s.mem, j.id, CreatePcb(j));
    AdmitQueues(cfg, s);
    AdmitProcs(cfg, s, j);
  }

  lemma AdmitProcs(cfg: Config, s: Kernel, j: Job)
    requires s.incoming != [] && s.incoming[0] == j && j in cfg.jobs && j.arrival <= s.clock && j.runtime > 0
    requires QueuesOk(s) && j.id !in s.mem.pcbs && j.id !in s.children
    requires forall q :: q in s.mem.pcbs ==> ProcInv(cfg, s, q)
    ensures forall q :: q in AdmitNext(s).mem.pcbs ==> ProcInv(cfg, AdmitNext(s), q)
  {
    var s' := AdmitNext(s);
    forall q | q in s'.mem.pcbs ensures ProcInv(cfg, s', q) {
      if q == j.id {
        Place(s, j.id);
        assert HasJob(cfg, CreatePcb(j));
      } else {
        assert ProcInv(cfg, s, q);
      }
    }
  }

  lemma AdmitQueues(cfg: Config, s: Kernel)
    requires QueuesOk(s) && AllJobs(cfg, s) && s.incoming != [] && s.incoming[0].id !in s.mem.pcbs
    ensures QueuesOk(AdmitNext(s)) && AllJobs(cfg, AdmitNext(s))
  {
    AdmitCounts(cfg, s);
    AdmitSuffix(cfg.jobs, s.incoming, AdmitNext(s).incoming);
  }

  lemma AdmitSuffix(jobs: seq<Job>, incoming: seq<Job>, rest: seq<Job>)
    requires 0 < |incoming| <= |jobs| && incoming == jobs[|jobs| - |incoming|..] && rest == incoming[1..]
    ensures rest == jobs[|jobs| - |rest|..]
  {
  }

  lemma AdmitCounts(cfg: Config, s: Kernel)
    requires QueuesOk(s) && s.incoming != [] && s.incoming[0].id !in s.mem.pcbs
    requires multiset(s.current) + multiset(FinishedIds(s.finished)) + multiset(Ids(s.incoming)) == multiset(Ids(cfg.jobs))
    ensures var s' := AdmitNext(s);
      && QueuesOk(s')
      && multiset(s'.current) + multiset(FinishedIds(s'.finished)) + multiset(Ids(s'.incoming)) == multiset(Ids(cfg.jobs))
  {
    var j := s.incoming[0];
    var s' := AdmitNext(s);
    assert Ids(s.incoming) == [j.id] + Ids(s'.incoming);
    forall p ensures multiset(s'.current)[p] == if p in s'.mem.pcbs then 1 else 0 {
      assert multiset(s.current)[p] == if p in s.mem.pcbs then 1 else 0;
    }
  }

  /** The id of the next job is neither live nor finished. */
  lemma JobIsFresh(cfg: Config, s: Kernel)
    requires ConfigOk(cfg) && QueuesOk(s) && AllJobs(cfg, s) && s.incoming != []
    ensures s.incoming[0].id !in s.mem.pcbs && s.incoming[0].id !in s.current
  {
    var id := s.incoming[0].id;
    DistinctOnce(Ids(cfg.jobs), id);
    assert Ids(s.incoming)[0] == id;
    assert multiset(Ids(s.incoming))[id] >= 1;
    assert (multiset(s.current) + multiset(FinishedIds(s.finished)) + multiset(Ids(s.incoming)))[id]
        == multiset(s.current)[id] + multiset(FinishedIds(s.finished))[id] + multiset(Ids(s.incoming))[id];
  }

  lemma {:induction false} DistinctOnce(s: seq<int>, x: int)
    requires Distinct(s)
    ensures multiset(s)[x] <= 1
  {
    if s != [] {
      FrontOut(s);
      DistinctOnce(s[1..], x);
    }
  }

  lemma {:induction false} AdmitArrivedKeeps(cfg: Config, s: Kernel, t: int)
    requires ConfigOk(cfg) && Core(cfg, s, t)
    ensures Core(cfg, AdmitArrived(s), t)
    decreases |s.incoming|
  {
    if s.incoming != [] && s.incoming[0].arrival <= s.clock {
      AdmitNextKeeps(cfg, s, t);
      AdmitArrivedKeeps(cfg, AdmitNext(s), t);
    }
  }

  lemma ReceiveKeeps(cfg: Config, s: Kernel, t: int)
    requires ConfigOk(cfg) && Core(cfg, s, t)
    ensures Core(cfg, Receive(cfg, s), t)
  {
    AdmitArrivedKeeps(cfg, s, t);
    SyncKeeps(cfg, AdmitArrived(s), s.clock, t);
  }

  lemma SyncKeeps(cfg: Config, s: Kernel, sync: int, t: int)
    requires Core(cfg, s, t)
    ensures Core(cfg, s.(lastSync := sync), t) && Core(cfg, s.(receiving := false), t)
  {
    CoreTransfers(cfg, s, s.(lastSync := sync), t);
    CoreTransfers(cfg, s, s.(receiving := false), t);
  }

  // ---- RR_algo -------------------------------------------------------------

  /** The control block of p after its start in mem'. */
  predicate StartedIn(mem: Mem, mem': Mem, p: int)
    requires p in mem.pcbs
  {
    && p in mem'.pcbs && mem'.pcbs[p].frameIndex != -1
    && mem'.pcbs == mem.pcbs[p := mem.pcbs[p].(frameIndex := mem'.pcbs[p].frameIndex, unblockAt := mem'.pcbs[p].unblockAt)]
  }

  /** If memory has room for it, an unstarted process gets a page table, with no
      page but page 0 in it; and page 0 if a second frame is left. */
  lemma StartSucceeds(mem: Mem, t: int, p: int)
    requires MemInv(mem) && p in mem.pcbs && mem.pcbs[p].frameIndex == -1 && mem.pcbs[p].pendingFrame == -1
    requires HasRoom(mem)
    ensures var mem' := InitProcess(mem, t, p);
      && MemInv(mem') && StartedIn(mem, mem', p) && FreshTable(mem', p)
      && HasEntry(mem', p, 0)
      && (Entry(mem', p, 0).valid <==> |StartedSet(mem)| + |PendingSet(mem)| + 1 < FRAMES)
  {
    TableObtained(mem, t, p);
    var mem1 := FaultHandler(mem, t, p, 0, Table, false);
    PageFault(mem1, t, p, 0, Initial, false);
    OnlyPlaced(mem1, t, p);
  }

  /** If it has none, nothing happens: the process is left without a table. */
  lemma StartFails(mem: Mem, t: int, p: int)
    requires MemInv(mem) && p in mem.pcbs && mem.pcbs[p].frameIndex == -1 && !HasRoom(mem)
    ensures InitProcess(mem, t, p) == mem
  {
    FrameAvailable(mem);
  }

  lemma TableObtained(mem: Mem, t: int, p: int)
    requires MemInv(mem) && p in mem.pcbs && mem.pcbs[p].frameIndex == -1 && HasRoom(mem)
    ensures var mem' := FaultHandler(mem, t, p, 0, Table, false);
      && MemInv(mem') && p in mem'.pcbs && mem'.pcbs[p].frameIndex != -1
      && mem'.pcbs == mem.pcbs[p := mem.pcbs[p].(frameIndex := mem'.pcbs[p].frameIndex)]
      && mem.pcbs[p].limit > 0
      && (ChooseFrame(mem'.ram).NoFrame? <==> |StartedSet(mem)| + |PendingSet(mem)| + 1 == FRAMES)
      && forall v :: 0 <= v < mem.pcbs[p].limit ==> HasEntry(mem', p, v) && Entry(mem', p, v) == EMPTY_PTE
  {
    FrameAvailable(mem);
    TableFault(mem, t, p);
    assert MmuProofs.ProcOk(mem, p);
    var mem1 := FaultHandler(mem, t, p, 0, Table, false);
    OneMore(mem, mem1, p);
    FrameAvailable(mem1);
  }

  lemma OneMore(mem: Mem, mem': Mem, p: int)
    requires p in mem.pcbs && mem.pcbs[p].frameIndex == -1 && p in mem'.pcbs && mem'.pcbs[p].frameIndex != -1
    requires mem'.pcbs == mem.pcbs[p := mem.pcbs[p].(frameIndex := mem'.pcbs[p].frameIndex)]
    ensures |StartedSet(mem')| == |StartedSet(mem)| + 1 && |PendingSet(mem')| == |PendingSet(mem)|
  {
    assert StartedSet(mem') == StartedSet(mem) + {p};
    assert PendingSet(mem') == PendingSet(mem);
  }

  /** No page of p but page 0 is loaded. */
  ghost predicate FreshTable(mem: Mem, p: int)
    requires p in mem.pcbs
  {
    forall v :: 0 <= v < mem.pcbs[p].limit ==> HasEntry(mem, p, v) && (Entry(mem, p, v).valid ==> v == 0)
  }

  lemma OnlyPlaced(mem: Mem, t: int, p: int)
    requires MemInv(mem) && Started(mem, p) && mem.pcbs[p].pendingFrame == -1
    requires forall v :: 0 <= v < mem.pcbs[p].limit ==> HasEntry(mem, p, v) && Entry(mem, p, v) == EMPTY_PTE
    ensures var mem' := FaultHandler(mem, t, p, 0, Initial, false);
      && p in mem'.pcbs && FreshTable(mem', p) && HasEntry(mem', p, 0)
      && (Entry(mem', p, 0).valid <==> !ChooseFrame(mem.ram).NoFrame?)
  {
    assert MmuProofs.ProcOk(mem, p);
    PageFault(mem, t, p, 0, Initial, false);
    if !ChooseFrame(mem.ram).NoFrame? {
      PlacedFresh(mem, t, p);
    }
  }

  lemma PlacedFresh(mem: Mem, t: int, p: int)
    requires MemInv(mem) && Started(mem, p) && mem.pcbs[p].pendingFrame == -1 && !ChooseFrame(mem.ram).NoFrame?
    requires forall v :: 0 <= v < mem.pcbs[p].limit ==> HasEntry(mem, p, v) && Entry(mem, p, v) == EMPTY_PTE
    ensures var mem' := FaultHandler(mem, t, p, 0, Initial, false); p in mem'.pcbs && FreshTable(mem', p)
  {
    assert MmuProofs.ProcOk(mem, p);
    PageFault(mem, t, p, 0, Initial, false);
    ClearedKeeps(mem);
    var mem' := FaultHandler(mem, t, p, 0, Initial, false);
    var base := Cleared(mem, ChooseFrame(mem.ram));
    assert MmuProofs.ProcOk(base, p);
    assert MmuProofs.ProcOk(mem', p);
    forall v | 0 <= v < mem'.pcbs[p].limit ensures HasEntry(mem', p, v) && (Entry(mem', p, v).valid ==> v == 0) {
      assert HasEntry(base, p, v) && !Entry(base, p, v).valid;
    }
  }

  /** If the front of the queue has yet to be started, memory has room for it. */
  predicate RoomForFront(s: Kernel) {
    s.ready != [] && s.ready[0] in s.mem.pcbs && !s.mem.pcbs[s.ready[0]].forked ==> HasRoom(s.mem)
  }

  lemma DispatchKeeps(cfg: Config, s: Kernel, q: int, t: int)
    requires Core(cfg, s, s.clock) && s.running.None? && s.ready != [] && s.mailbox == []
    requires RoomForFront(s) && t >= 0
    ensures var s' := Dispatch(s, q, t);
      && Core(cfg, s', t) && Others(s, s', s.ready[0]) && Alike(s, s')
      && s' == s.(mem := s'.mem, children := s'.children, shm := s'.shm,
                  running := Some(s.ready[0]), ready := s.ready[1..], preemptAt := t + q)
  {
    var p := s.ready[0];
    FrontOut(s.ready);
    Place(s, p);
    var s1 := RunProcess(TakeFront(s), p, t);
    if s.mem.pcbs[p].forked {
      ResumeKeeps(cfg, s, t);
    } else {
      StartKeeps(cfg, s, t);
    }
    Dispatched(cfg, s, s1, s1.(preemptAt := t + q), t);
  }

  lemma Dispatched(cfg: Config, s: Kernel, s1: Kernel, s': Kernel, t: int)
    requires s.ready != [] && Core(cfg, s1, t) && Others(s, s1, s.ready[0]) && Alike(s, s1)
    requires s' == s1.(preemptAt := s'.preemptAt)
    ensures Core(cfg, s', t) && Others(s, s', s.ready[0]) && Alike(s, s')
  {
    CoreTransfers(cfg, s1, s', t);
  }

  lemma TakeFrontQueues(s: Kernel, s': Kernel)
    requires QueuesOk(s) && s.running.None? && s.ready != []
    requires s'.mem.pcbs.Keys == s.mem.pcbs.Keys && s'.current == s.current && s'.requests == s.requests
    requires s'.ready == s.ready[1..] && s'.blocked == s.blocked && s'.running == Some(s.ready[0])
    ensures QueuesOk(s') && s.ready[0] in s.mem.pcbs && s.ready[0] !in s.blocked
  {
    FrontOut(s.ready);
    Place(s, s.ready[0]);
  }

  lemma ResumeKeeps(cfg: Config, s: Kernel, t: int)
    requires Core(cfg, s, s.clock) && s.running.None? && s.ready != [] && s.mailbox == []
    requires s.ready[0] in s.mem.pcbs && s.mem.pcbs[s.ready[0]].forked
    ensures var s' := Resume(TakeFront(s), s.ready[0], t);
      && Core(cfg, s', t) && Others(s, s', s.ready[0]) && Alike(s, s')
      && s' == s.(mem := s'.mem, children := s'.children, shm := s'.shm,
                  running := Some(s.ready[0]), ready := s.ready[1..])
  {
    var p := s.ready[0];
    var s' := Resume(TakeFront(s), p, t);
    assert ProcInv(cfg, s, p);
    OtherFields(s.mem, s'.mem);
    ResumedKeeps(cfg, s, s', p, t);
  }

  lemma ResumedKeeps(cfg: Config, s: Kernel, s': Kernel, p: int, t: int)
    requires Core(cfg, s, s.clock) && s.running.None? && s.ready != [] && s.mailbox == [] && p == s.ready[0]
    requires p in s.mem.pcbs && s.mem.pcbs[p].forked && p in s'.mem.pcbs && MemInv(s'.mem)
    requires var c := s.mem.pcbs[p];
      s'.mem.pcbs == s.mem.pcbs[p := c.(waiting := c.waiting + t - c.lastStopped, state := Running)]
    requires s' == s.(mem := s'.mem, shm := s.mem.pcbs[p].remaining, running := Some(p), ready := s.ready[1..])
    ensures Core(cfg, s', t)
  {
    assert ProcInv(cfg, s, p);
    TakeFrontQueues(s, s');
    forall r | r in s'.mem.pcbs ensures ProcInv(cfg, s', r) {
      assert ProcInv(cfg, s, r);
      FrontOut(s.ready);
    }
  }

  lemma StartKeeps(cfg: Config, s: Kernel, t: int)
    requires Core(cfg, s, s.clock) && s.running.None? && s.ready != [] && s.mailbox == []
    requires s.ready[0] in s.mem.pcbs && !s.mem.pcbs[s.ready[0]].forked
    requires RoomForFront(s) && t >= 0
    ensures var s' := Launch(TakeFront(s), s.ready[0], t);
      && Core(cfg, s', t) && Others(s, s', s.ready[0]) && Alike(s, s')
      && s' == s.(mem := s'.mem, children := s'.children, shm := s'.shm,
                  running := Some(s.ready[0]), ready := s.ready[1..])
  {
    var p := s.ready[0];
    FrontOut(s.ready);
    assert ProcInv(cfg, s, p);
    var s' := LaunchResult(TakeFront(s), p, t);
    LaunchedKeeps(cfg, s, t, s');
  }

  /** The started process p = s.ready[0] has a page table and runs. */
  ghost predicate Begins(s: Kernel, s': Kernel, p: int, t: int) {
    && p in s.mem.pcbs && p in s'.mem.pcbs
    && var c := s.mem.pcbs[p];
    && MemInv(s'.mem) && s'.mem.pcbs[p].frameIndex != -1 && FreshTable(s'.mem, p)
    && s'.mem.pcbs == s.mem.pcbs[p := c.(start := t, waiting := t - c.arrival, forked := true, state := Running,
                                         frameIndex := s'.mem.pcbs[p].frameIndex, unblockAt := s'.mem.pcbs[p].unblockAt)]
    && s' == s.(mem := s'.mem, children := s.children[p := Child(c.remaining, 0, 0)], shm := c.remaining)
  }

  lemma LaunchResult(s: Kernel, p: int, t: int) returns (s': Kernel)
    requires MemInv(s.mem) && p in s.mem.pcbs && s.mem.pcbs[p].start == -1
    requires s.mem.pcbs[p].frameIndex == -1 && s.mem.pcbs[p].pendingFrame == -1 && HasRoom(s.mem)
    ensures s' == Launch(s, p, t) && Begins(s, s', p, t)
  {
    var mem := LaunchMem(s, p, t);
    LaunchedMem(s, p, t, mem);
    s' := Launched(s, p, mem);
  }

  lemma LaunchedKeeps(cfg: Config, s: Kernel, t: int, s': Kernel)
    requires Core(cfg, s, s.clock) && s.running.None? && s.ready != [] && s.mailbox == [] && t >= 0
    requires s.ready[0] in s.mem.pcbs && !s.mem.pcbs[s.ready[0]].forked && Begins(TakeFront(s), s', s.ready[0], t)
    ensures Core(cfg, s', t) && Others(s, s', s.ready[0]) && Alike(s, s')
  {
    assert ProcInv(cfg, s, s.ready[0]);
    TakeFrontQueues(s, s');
    LaunchedProcs(cfg, s, t, s');
  }

  lemma LaunchedProcs(cfg: Config, s: Kernel, t: int, s': Kernel)
    requires Core(cfg, s, s.clock) && s.running.None? && s.ready != [] && t >= 0
    requires s.ready[0] in s.mem.pcbs && !s.mem.pcbs[s.ready[0]].forked && Begins(TakeFront(s), s', s.ready[0], t)
    ensures forall r :: r in s'.mem.pcbs ==> ProcInv(cfg, s', r)
  {
    assert ProcInv(cfg, s, s.ready[0]);
    FrontOut(s.ready);
    forall r | r in s'.mem.pcbs ensures ProcInv(cfg, s', r) {
      assert ProcInv(cfg, s, r);
    }
  }

  /** What Launched makes of a memory in which p was set up. */
  lemma LaunchedMem(s: Kernel, p: int, t: int, mem: Mem)
    requires p in s.mem.pcbs && s.mem.pcbs[p].start == -1
    requires var c := Begun(s.mem.pcbs[p], t);
      && MemInv(mem) && p in mem.pcbs
      && mem.pcbs == s.mem.pcbs[p := c.(frameIndex := mem.pcbs[p].frameIndex, unblockAt := mem.pcbs[p].unblockAt)]
    requires mem.pcbs[p].frameIndex != -1 && FreshTable(mem, p)
    ensures Begins(s, Launched(s, p, mem), p, t)
  {
    OtherFields(mem, Launched(s, p, mem).mem);
    var mem' := Launched(s, p, mem).mem;
    forall v | 0 <= v < mem.pcbs[p].limit ensures HasEntry(mem', p, v) && (Entry(mem', p, v).valid ==> v == 0) {
      assert HasEntry(mem, p, v);
    }
  }

  lemma LaunchMem(s: Kernel, p: int, t: int) returns (mem: Mem)
    requires MemInv(s.mem) && p in s.mem.pcbs
    requires s.mem.pcbs[p].frameIndex == -1 && s.mem.pcbs[p].pendingFrame == -1 && HasRoom(s.mem)
    ensures var c := Begun(s.mem.pcbs[p], t);
      && Launch(s, p, t) == Launched(s, p, mem)
      && MemInv(mem) && p in mem.pcbs && mem.pcbs[p].frameIndex != -1 && FreshTable(mem, p)
      && mem.pcbs == s.mem.pcbs[p := c.(frameIndex := mem.pcbs[p].frameIndex, unblockAt := mem.pcbs[p].unblockAt)]
  {
    var mem1 := BegunMem(s, p, t);
    StartSucceeds(mem1, t, p);
    mem := InitProcess(mem1, t, p);
  }

  lemma BegunMem(s: Kernel, p: int, t: int) returns (mem: Mem)
    requires MemInv(s.mem) && p in s.mem.pcbs && HasRoom(s.mem)
    ensures mem == SetPcb(s.mem, p, Begun(s.mem.pcbs[p], t)) && MemInv(mem) && HasRoom(mem)
  {
    mem := SetPcb(s.mem, p, Begun(s.mem.pcbs[p], t));
    OtherFields(s.mem, mem);
    SameRoom(s.mem, mem);
  }

  lemma StopKeeps(cfg: Config, s: Kernel, p: int)
    requires Core(cfg, s, s.clock) && s.running == Some(p) && !s.finishSignal && s.mailbox == []
    ensures p in s.mem.pcbs && Core(cfg, StopRunning(s, p), s.clock)
  {
    Place(s, p);
    assert ProcInv(cfg, s, p);
    OtherFields(s.mem, StopRunning(s, p).mem);
    StoppedProcs(cfg, s, StopRunning(s, p), p);
  }

  lemma StoppedProcs(cfg: Config, s: Kernel, s': Kernel, p: int)
    requires Core(cfg, s, s.clock) && s.running == Some(p) && !s.finishSignal && p in s.mem.pcbs && s' == StopRunning(s, p)
    ensures QueuesOk(s') && forall q :: q in s'.mem.pcbs ==> ProcInv(cfg, s', q)
  {
    assert s'.mem.pcbs.Keys == s.mem.pcbs.Keys;
    forall q | q in s'.mem.pcbs ensures ProcInv(cfg, s', q) {
      assert ProcInv(cfg, s, q);
      Place(s, q);
    }
  }

  /** What the walk over the block queue leaves alone. */
  lemma {:induction false} BlockEndFrame(s: Kernel, rest: seq<int>)
    ensures var s' := WakeWalk(s, rest);
      && s' == s.(mem := s'.mem, blocked := s'.blocked, ready := s'.ready)
      && |s.ready| <= |s'.ready| && s.ready == s'.ready[..|s.ready|]
    decreases |rest|
  {
    if rest != [] {
      if Due(s, rest[0]) {
        BlockEndFrame(WakeOne(s, rest[0]), rest[1..]);
        ReadyGrows(s.ready, rest[0], WakeWalk(s, rest).ready);
      } else {
        BlockEndFrame(s, rest[1..]);
      }
    }
  }

  lemma ReadyGrows(a: seq<int>, x: int, b: seq<int>)
    requires |a| < |b| && a + [x] == b[..|a| + 1]
    ensures a == b[..|a|]
  {
    assert b[..|a|] == b[..|a| + 1][..|a|];
  }

  // ---- The rest of the iteration -------------------------------------------

  lemma ClearNowKeeps(cfg: Config, s: Kernel, t: int)
    requires Core(cfg, s, t)
    ensures Core(cfg, ClearNow(s), t) && ClearNow(s).mem.pcbs == s.mem.pcbs
  {
    ClearKeeps(s.mem);
    CoreTransfers(cfg, s, ClearNow(s), t);
  }

  /** One granted tick: the child consumes exactly one tick of its runtime. */
  lemma ChildStepKeeps(cfg: Config, s: Kernel)
    requires Core(cfg, s, s.clock) && s.mailbox == [] && !s.finishSignal
    ensures Core(cfg, ChildStep(cfg, s), s.clock + 1)
  {
    if s.running.Some? {
      var p := s.running.value;
      Place(s, p);
      assert ProcInv(cfg, s, p);
      SteppedProcs(cfg, s, ChildStep(cfg, s));
    }
  }

  lemma SteppedProcs(cfg: Config, s: Kernel, s': Kernel)
    requires Core(cfg, s, s.clock) && s.running.Some? && !s.finishSignal && s' == ChildStep(cfg, s)
    ensures forall q :: q in s'.mem.pcbs ==> ProcInv(cfg, s', q)
  {
    forall q | q in s'.mem.pcbs ensures ProcInv(cfg, s', q) {
      assert ProcInv(cfg, s, q);
    }
  }
}
