/** The safety theorems about runs of the Round-Robin scheduler, read off the
    invariant. */
module RrTheorems {
  import opened Common
  import opened Mmu
  import opened MmuProofs
  import opened RoundRobin
  import opened RrInvariants
  import opened RrTicks
  import opened RrAlways
  import opened RrFates
  import opened RrFrames
  import opened Statistics

  /** No process is lost or duplicated, in any run: at every tick, until a page
      table is read out of bounds, the live processes are the disjoint union of the
      CPU, the ready queue and the block queue, and together with the finished ones
      and the jobs to come they are the input. */
  lemma LivePartition(cfg: Config, n: nat, s: Kernel)
    requires ConfigOk(cfg) && s == Run(cfg, n) && !s.mem.trapped
    ensures multiset(s.ready) + multiset(s.blocked) + Cpu(s) == multiset(s.current)
    ensures forall p :: multiset(s.current)[p] == if p in s.mem.pcbs then 1 else 0
    ensures multiset(s.current) + multiset(FinishedIds(s.finished)) + multiset(Ids(s.incoming)) == multiset(Ids(cfg.jobs))
  {
    AlwaysSane(cfg, n, s);
  }

  /** In every run, until a page table is read out of bounds, the state in a control
      block says where its process is; and a process that has not been stopped yet
      has waited from its arrival to its start. */
  lemma StatesMatch(cfg: Config, n: nat, s: Kernel, p: int)
    requires ConfigOk(cfg) && s == Run(cfg, n) && !s.mem.trapped && p in s.mem.pcbs
    ensures var c := s.mem.pcbs[p];
      && (s.running == Some(p) <==> c.state == Running)
      && (p in s.ready <==> c.state == Waiting) && (p in s.blocked <==> c.state == Blocked)
      && (c.forked && c.lastStopped == -1 ==> c.waiting == c.start - c.arrival)
    ensures forall c :: c in s.finished ==> c.state == Done
  {
    AlwaysSane(cfg, n, s);
    assert Fits(s, p);
    Place(s, p);
  }

  /** The request queue is empty between iterations and a request under way is
      from the running process, so the branch of checkReqs for other owners is
      never taken. */
  lemma RequestsAreOwn(cfg: Config, n: nat, s: Kernel)
    requires ConfigOk(cfg) && s == Run(cfg, n) && !s.mem.trapped
    ensures s.requests == [] && |s.mailbox| <= 1
    ensures s.mailbox != [] ==> s.running == Some(s.mailbox[0].sender)
  {
    AlwaysSane(cfg, n, s);
  }

  /** Time conservation: up to its last stop a stopped process has waited or
      run at every tick since its arrival, and so has the running one up to now. */
  lemma TimeConserved(cfg: Config, n: nat, s: Kernel, p: int)
    requires ConfigOk(cfg) && Sound(cfg, n) && s == Run(cfg, n)
    requires p in s.mem.pcbs && s.mem.pcbs[p].forked
    ensures var c := s.mem.pcbs[p];
      if s.running == Some(p) then s.clock - c.arrival == c.waiting + (c.runtime - s.shm)
      else c.lastStopped - c.arrival == c.waiting + (c.runtime - c.remaining)
  {
    RunKeeps(cfg, n, s);
    assert ProcInv(cfg, s, p);
  }

  /** The remaining time a stopped process is resumed with is the number of
      ticks its child still has to run. */
  lemma RemainingIsExact(cfg: Config, n: nat, s: Kernel, p: int)
    requires ConfigOk(cfg) && Sound(cfg, n) && s == Run(cfg, n)
    requires p in s.mem.pcbs && s.mem.pcbs[p].forked
    ensures p in s.children
    ensures var rest := if s.running == Some(p) then s.shm else s.mem.pcbs[p].remaining;
      rest == s.children[p].remaining == s.mem.pcbs[p].runtime - s.children[p].ran
  {
    RunKeeps(cfg, n, s);
    assert ProcInv(cfg, s, p);
  }

  /** No out-of-bounds page table access and no endless wait for a child. */
  lemma NeverStuck(cfg: Config, n: nat, s: Kernel)
    requires ConfigOk(cfg) && Sound(cfg, n) && s == Run(cfg, n)
    ensures !s.mem.trapped && !s.hung
  {
    RunKeeps(cfg, n, s);
  }

  /** In every run, until a page table is read out of bounds, frame table and page
      tables are inverse, bits included: entry v of a process with a page table is
      valid with frame i exactly if frame i holds page v of it. */
  lemma TablesInverse(cfg: Config, n: nat, s: Kernel, p: int, v: int, i: int)
    requires ConfigOk(cfg) && s == Run(cfg, n) && !s.mem.trapped
    requires Started(s.mem, p) && 0 <= v < s.mem.pcbs[p].limit
    ensures HasEntry(s.mem, p, v)
    ensures Entry(s.mem, p, v).valid && Entry(s.mem, p, v).frame == i <==> Holds(s.mem, i, p, v)
    ensures Holds(s.mem, i, p, v) ==> Entry(s.mem, p, v) == Pte(true, i, s.mem.ram[i].r, s.mem.ram[i].m)
  {
    AlwaysSane(cfg, n, s);
    InverseTables(s.mem, p, v, i);
  }

  /** Frame t is the page table of process p. */
  predicate IsTableOf(mem: Mem, t: int, p: int) {
    && p in mem.pcbs && 0 <= t < |mem.ram|
    && mem.ram[t].occupied && mem.ram[t].pid == p
    && mem.ram[t].table.Some? && |mem.ram[t].table.value| == mem.pcbs[p].limit
  }

  /** In every run, until a page table is read out of bounds, each process with a
      page table has it in the frame it names, no two in the same, and no other
      frame holds one; and in a sound run every started process has one. */
  lemma TableFrames(cfg: Config, n: nat, s: Kernel)
    requires ConfigOk(cfg) && s == Run(cfg, n) && !s.mem.trapped
    ensures |s.mem.ram| == FRAMES
    ensures forall p :: Started(s.mem, p) ==> s.mem.pcbs[p].forked && IsTableOf(s.mem, s.mem.pcbs[p].frameIndex, p)
    ensures forall p, q | Started(s.mem, p) && Started(s.mem, q) ::
              s.mem.pcbs[p].frameIndex == s.mem.pcbs[q].frameIndex ==> p == q
    ensures forall i :: 0 <= i < FRAMES && s.mem.ram[i].table.Some? ==>
              Started(s.mem, s.mem.ram[i].pid) && s.mem.pcbs[s.mem.ram[i].pid].frameIndex == i
    ensures Sound(cfg, n) ==> forall p :: p in s.mem.pcbs && s.mem.pcbs[p].forked ==> Started(s.mem, p)
  {
    AlwaysSane(cfg, n, s);
    OneTableFrame(s.mem);
    forall p | Started(s.mem, p) ensures s.mem.pcbs[p].forked {
      assert Fits(s, p);
    }
    if Sound(cfg, n) {
      RunKeeps(cfg, n, s);
      forall p | p in s.mem.pcbs && s.mem.pcbs[p].forked ensures Started(s.mem, p) {
        assert ProcInv(cfg, s, p);
      }
    }
  }

  /** A page table is never evicted or moved, in any run: from any tick on at which
      a process has one, as long as it is live, the same frame holds it. */
  lemma TableStays(cfg: Config, n: nat, m: nat, p: int, s: Kernel, s': Kernel)
    requires ConfigOk(cfg) && n <= m && s == Run(cfg, n) && s' == Run(cfg, m)
    requires !s.mem.trapped && !s'.mem.trapped && Started(s.mem, p) && p in s'.mem.pcbs
    ensures s'.mem.pcbs[p].forked && s'.mem.pcbs[p].frameIndex == s.mem.pcbs[p].frameIndex
    ensures IsTableOf(s'.mem, s.mem.pcbs[p].frameIndex, p)
  {
    AlwaysSane(cfg, n, s);
    WholeNames(cfg, s);
    assert Fits(s, p);
    var fate := Tabled(s.mem.pcbs[p].frameIndex);
    assert FatedAt(cfg, n, p, fate);
    FatedForever(cfg, n, m, p, fate);
    assert FatedAt(cfg, m, p, fate);
    TableFrames(cfg, m, s');
    assert Started(s'.mem, p);
  }

  /** After the iteration of tick t no process with unblock_at <= t is blocked,
      and none has to wait for more than 20 ticks. */
  lemma NobodyOverdue(cfg: Config, n: nat, s: Kernel, p: int)
    requires ConfigOk(cfg) && Sound(cfg, n) && s == Run(cfg, n) && p in s.blocked
    ensures p in s.mem.pcbs && s.clock <= s.mem.pcbs[p].unblockAt < s.clock + 20
  {
    RunKeeps(cfg, n, s);
  }

  /** R bits have been cleared exactly once for each multiple of k that the
      quantum counter has reached, up to the quantum counted in this moment by a
      fault or exit whose check is still to come. */
  lemma ClearsCounted(cfg: Config, n: nat, s: Kernel)
    requires ConfigOk(cfg) && Sound(cfg, n) && s == Run(cfg, n) && cfg.k > 0
    ensures Seen(s) >= 0 && s.clears == Seen(s) / cfg.k
    ensures Seen(s) == s.quantums || (Seen(s) == s.quantums - 1 && s.running.None?)
  {
    RunKeeps(cfg, n, s);
    MultiplesIsQuotient(Seen(s), cfg.k);
  }

  // ---- The performance figures -----------------------------------------------

  predicate Figures(s: Kernel) {
    s.perf == RecordAll(s.finished)
  }

  predicate SameFigures(s: Kernel, s': Kernel) {
    s'.perf == s.perf && s'.finished == s.finished
  }

  lemma FinishFigures(s: Kernel)
    requires Figures(s)
    ensures Figures(HandleFinished(s))
  {
    var s' := HandleFinished(s);
    if s'.finished != s.finished {
      assert s'.finished[..|s'.finished| - 1] == s.finished;
    }
  }

  lemma SettleFigures(cfg: Config, s: Kernel)
    requires Figures(s)
    ensures Figures(Settle(cfg, s))
  {
    RequestBooks(s);
    CheckBooks(HandleRequests(s));
    FinishFigures(FirstCheck(HandleRequests(s)));
  }

  lemma AdvanceFigures(cfg: Config, s: Kernel)
    ensures SameFigures(s, Advance(cfg, s))
  {
    AdmitFrame(s.(switchUntil := -1));
    ScheduleBooks(cfg, s);
  }

  lemma TickFigures(cfg: Config, s: Kernel)
    requires Figures(s)
    ensures Figures(Tick(cfg, s))
  {
    SettleFigures(cfg, s);
    var s1 := Settle(cfg, s);
    AdvanceFigures(cfg, s1);
    CheckBooks(Advance(cfg, s1));
  }

  predicate FiguresAt(cfg: Config, n: nat) {
    Figures(Run(cfg, n))
  }

  lemma RunFigures(cfg: Config, n: nat, s: Kernel)
    requires s == Run(cfg, n)
    ensures Figures(s)
  {
    forall i: nat | FiguresAt(cfg, i) ensures FiguresAt(cfg, i + 1) {
      NextFigures(cfg, i, Run(cfg, i));
    }
    assert FiguresAt(cfg, 0);
    FromStepToStep((i: nat) => FiguresAt(cfg, i), n);
    assert FiguresAt(cfg, n);
  }

  lemma NextFigures(cfg: Config, n: nat, s: Kernel)
    requires s == Run(cfg, n) && Figures(s)
    ensures FiguresAt(cfg, n + 1)
  {
    TickFigures(cfg, s);
    RunNext(cfg, n);
  }

  /** At every tick of every run the online figures are those of the processes
      finished so far: mean and M2 of their weighted turnarounds as two passes
      over them would give, and the sums of their waiting times and runtimes. */
  lemma FiguresAreExact(cfg: Config, n: nat, s: Kernel)
    requires s == Run(cfg, n)
    ensures Describes(s.perf, Wtas(s.finished)) && Weighted(Wtas(s.finished), s.finished)
    ensures s.perf.sumWaiting == TotalWaiting(s.finished) && s.perf.totalRuntime == TotalRuntime(s.finished)
  {
    RunFigures(cfg, n, s);
    WelfordIsTwoPass(s.finished);
    SumsOfFinished(s.finished);
  }
  /** In a sound run these turnarounds are what the processes have run and waited
      for, in units of their runtimes. */
  lemma FiguresOfSoundRuns(cfg: Config, n: nat, s: Kernel, i: nat)
    requires ConfigOk(cfg) && Sound(cfg, n) && s == Run(cfg, n) && i < |s.finished|
    ensures var c := s.finished[i];
      c.runtime > 0 && Wtas(s.finished)[i] * c.runtime as real == (c.runtime + c.waiting) as real
  {
    RunKeeps(cfg, n, s);
    FiguresAreExact(cfg, n, s);
    WeightedAccounts(Wtas(s.finished), s.finished);
    assert HasJob(cfg, s.finished[i]);
  }
}
