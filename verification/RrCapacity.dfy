/** How many processes memory has room for: page faults are so far apart that
    22 live processes never run out of frames for their page tables. */
module RrCapacity {
  import opened Common
  import opened Mmu
  import opened MmuProofs
  import opened RoundRobin
  import opened RrInvariants
  import opened RrTicks
  import opened RrPinned

  // ---- Faults are at least two ticks apart -------------------------------------

  predicate Apart(a: int, b: int) {
    a + 2 <= b || b + 2 <= a
  }

  /** The process was blocked by a fault at tick lastStopped, for 20 ticks at
      most; and before the last tick, if a request is under way. */
  predicate BlockedLately(s: Kernel, c: Pcb) {
    && c.lastStopped < s.clock && c.unblockAt <= c.lastStopped + 20
    && (s.mailbox != [] ==> c.lastStopped + 1 < s.clock)
  }

  ghost predicate Spaced(s: Kernel) {
    && (forall p :: p in s.blocked ==> p in s.mem.pcbs && BlockedLately(s, s.mem.pcbs[p]))
    && (forall p, q | p in s.blocked && q in s.blocked && p in s.mem.pcbs && q in s.mem.pcbs && p != q ::
          Apart(s.mem.pcbs[p].lastStopped, s.mem.pcbs[q].lastStopped))
  }

  lemma SpacedNext(s: Kernel, s': Kernel)
    requires Spaced(s) && Pins(s, s') && s'.clock == s.clock + 1 && (FaultNow(s) ==> s'.mailbox == [])
    ensures Spaced(s')
  {
  }

  lemma SpacedKeeps(cfg: Config, s: Kernel)
    requires ConfigOk(cfg) && Inv(cfg, s) && StepOk(cfg, s) && Spaced(s)
    ensures Spaced(Tick(cfg, s))
  {
    if !Finished(s) {
      TickKeeps(cfg, s, 20);
      TickPins(cfg, s);
      TickClock(cfg, s);
      SpacedNext(s, Tick(cfg, s));
    }
  }

  // ---- At most ten faults are pending at once ----------------------------------

  lemma Halved(a: int, b: int)
    requires a >= 0 && b >= 0 && Apart(a, b)
    ensures a / 2 != b / 2
  {
  }

  /** At most ten ticks out of 20 are two apart from one another. */
  lemma AtMostTen(ids: set<int>, at: map<int, int>, from: int)
    requires forall p :: p in ids ==> p in at && from <= at[p] < from + 20
    requires forall p, q | p in ids && q in ids && p != q :: Apart(at[p], at[q])
    ensures |ids| <= 10
  {
    var f := map p | p in ids :: (at[p] - from) / 2;
    var image := set p | p in ids :: f[p];
    forall p, q | p in ids && q in ids && p != q ensures f[p] != f[q] {
      assert Apart(at[p], at[q]);
      Halved(at[p] - from, at[q] - from);
    }
    ImageSize(ids, f, image);
    assert image <= Interval(10) by {
      forall i | i in image ensures 0 <= i < 10 {
        var p :| p in ids && f[p] == i;
        assert at[p] - from < 20;
      }
    }
    SmallerSet(image, Interval(10));
  }

  lemma SmallerSet(a: set<int>, b: set<int>)
    requires a <= b
    ensures |a| <= |b|
  {
    assert b == a + (b - a);
  }

  lemma PendingAreFew(cfg: Config, s: Kernel, x: Kernel)
    requires Spaced(s) && Kept(s, x) && Core(cfg, x, x.clock) && x.clock == s.clock && Deadlines(x, 0, 20)
    ensures |PendingSet(x.mem)| <= 10
  {
    var at := map p | p in x.mem.pcbs :: x.mem.pcbs[p].lastStopped;
    forall p | p in PendingSet(x.mem) ensures p in x.blocked {
      PendingIsBlocked(cfg, x, p, x.clock);
    }
    AtMostTen(PendingSet(x.mem), at, x.clock - 20);
  }

  lemma LiveCount(cfg: Config, s: Kernel)
    requires QueuesOk(s)
    ensures |s.mem.pcbs.Keys| == |s.current|
  {
    forall p ensures multiset(s.mem.pcbs.Keys)[p] == multiset(s.current)[p] {
      assert p in s.mem.pcbs.Keys <==> p in s.mem.pcbs;
    }
    assert multiset(s.mem.pcbs.Keys) == multiset(s.current);
    assert |multiset(s.current)| == |s.current|;
  }

  /** If the front of the queue has yet to be started, k frames are neither page
      tables nor pinned. */
  predicate Spares(x: Kernel, k: int) {
    x.ready != [] && x.ready[0] in x.mem.pcbs && !x.mem.pcbs[x.ready[0]].forked ==>
      |StartedSet(x.mem)| + |PendingSet(x.mem)| + k <= FRAMES
  }

  /** Live processes, the front not among the started ones, and ten pinned pages. */
  lemma FewHaveRoom(cfg: Config, s: Kernel, x: Kernel, k: int)
    requires Spaced(s) && Kept(s, x) && Core(cfg, x, x.clock) && x.clock == s.clock && Deadlines(x, 0, 20)
    requires |x.current| - 1 + 10 + k <= FRAMES
    ensures Spares(x, k)
  {
    if x.ready != [] && x.ready[0] in x.mem.pcbs && !x.mem.pcbs[x.ready[0]].forked {
      var p := x.ready[0];
      assert ProcInv(cfg, x, p);
      PendingAreFew(cfg, s, x);
      LiveCount(cfg, x);
      SmallerSet(StartedSet(x.mem), x.mem.pcbs.Keys - {p});
    }
  }

  // ---- In a step, and in a run -------------------------------------------------

  /** The processes that are live when the iteration from s schedules. */
  function LiveInStep(cfg: Config, s: Kernel): nat {
    |Received(cfg, Settle(cfg, s)).current|
  }

  /** ... when RR_algo gives the CPU to the front, in the iteration from s. */
  predicate StepSpares(cfg: Config, s: Kernel, k: int) {
    !Emptied(s) && s.clock > 0 ==> Spares(Switching(Received(cfg, Settle(cfg, s))), k)
  }

  lemma StepHasRoom(cfg: Config, s: Kernel, k: int)
    requires ConfigOk(cfg) && Inv(cfg, s) && RequestOk(s) && Spaced(s) && LiveInStep(cfg, s) - 1 + 10 + k <= FRAMES
    ensures StepSpares(cfg, s, k)
    ensures k >= 1 ==> RoomForStep(cfg, s)
  {
    if !Emptied(s) {
      var s1 := Settle(cfg, s);
      SettleKeeps(cfg, s, 20);
      SettlePins(cfg, s);
      SettledResumable(cfg, s, s1, 20);
      var lo := if s1.checked then 1 else 0;
      ReceivedKeeps(cfg, s1, lo, 20);
      ReceivedKept(cfg, s1, lo, 20);
      SettledKept(cfg, s, s1, 20);
      KeptChain(s, s1, Received(cfg, s1));
      SwitchHasRoom(cfg, s, Received(cfg, s1), k);
    }
  }

  lemma SettledKept(cfg: Config, s: Kernel, s1: Kernel, hi: int)
    requires !Emptied(s) && Pins(s, s1)
    ensures Kept(s, s1)
  {
  }

  lemma SwitchHasRoom(cfg: Config, s: Kernel, r: Kernel, k: int)
    requires Spaced(s) && Kept(s, r) && r.clock == s.clock && |r.current| - 1 + 10 + k <= FRAMES
    requires r.clock > 0 ==> Schedulable(cfg, r, 20)
    ensures r.clock > 0 ==> Spares(Switching(r), k)
  {
    if r.clock > 0 {
      if Preempts(r) {
        var p := r.running.value;
        PutBackKept(cfg, r, p, 20);
        KeptChain(s, r, PutBack(r, p));
        BackCurrent(r, p);
        FewHaveRoom(cfg, s, PutBack(r, p), k);
      } else {
        FewHaveRoom(cfg, s, r, k);
      }
    }
  }

  lemma BackCurrent(s: Kernel, p: int)
    requires p in s.mem.pcbs
    ensures PutBack(s, p).current == s.current
  {
    BlockEndFrame(StopRunning(s, p), StopRunning(s, p).blocked);
  }

  lemma LiveAtMostJobs(cfg: Config, s: Kernel)
    requires JobsOk(cfg, s)
    ensures |s.current| + |s.incoming| <= |cfg.jobs|
  {
    var a, b, c := multiset(s.current), multiset(FinishedIds(s.finished)), multiset(Ids(s.incoming));
    assert |a + b + c| == |s.current| + |s.finished| + |s.incoming|;
    assert |multiset(Ids(cfg.jobs))| == |cfg.jobs|;
  }

  lemma FewLive(cfg: Config, s: Kernel)
    requires ConfigOk(cfg) && Inv(cfg, s) && RequestOk(s)
    ensures LiveInStep(cfg, s) <= |cfg.jobs|
  {
    SettleKeeps(cfg, s, 20);
    var s1 := Settle(cfg, s);
    LiveAtMostJobs(cfg, s1);
    ReceivedCount(cfg, s, s1, 20);
  }

  lemma ReceivedCount(cfg: Config, s: Kernel, s1: Kernel, hi: int)
    requires ConfigOk(cfg) && Inv(cfg, s) && Settled(cfg, s, s1, hi)
    ensures |Received(cfg, s1).current| <= |s1.current| + |s1.incoming|
  {
    ReceivedKeeps(cfg, s1, if s1.checked then 1 else 0, hi);
  }

  predicate RequestOkAt(cfg: Config, i: nat) {
    RequestOk(Run(cfg, i))
  }

  predicate FewAt(cfg: Config, i: nat) {
    RequestOkAt(cfg, i) && LiveInStep(cfg, Run(cfg, i)) <= 22
  }

  lemma {:induction false} FewRun(cfg: Config, n: nat, s: Kernel)
    requires ConfigOk(cfg) && s == Run(cfg, n) && forall i: nat :: i < n ==> FewAt(cfg, i)
    ensures Inv(cfg, s) && Spaced(s)
    decreases n
  {
    if n == 0 {
      BootOk(cfg);
    } else {
      var before := RunBack(cfg, n, s);
      FewRun(cfg, n - 1, before);
      assert FewAt(cfg, n - 1);
      FewStep(cfg, before);
    }
  }

  lemma FewStep(cfg: Config, s: Kernel)
    requires ConfigOk(cfg) && Inv(cfg, s) && Spaced(s) && RequestOk(s) && LiveInStep(cfg, s) <= 22
    ensures Inv(cfg, Tick(cfg, s)) && Spaced(Tick(cfg, s))
  {
    StepHasRoom(cfg, s, 1);
    SpacedKeeps(cfg, s);
    RunStep(cfg, s);
  }

  /** As long as at most 22 processes are live, no start ever lacks a frame:
      only last-tick faults and requests for the page at the limit can make such
      a run unsound. */
  lemma FewLiveIsSound(cfg: Config, n: nat)
    requires ConfigOk(cfg) && forall i: nat :: i < n ==> FewAt(cfg, i)
    ensures Sound(cfg, n)
  {
    forall i: nat | i < n ensures SoundAt(cfg, i) {
      FewRun(cfg, i, Run(cfg, i));
      assert FewAt(cfg, i);
      StepHasRoom(cfg, Run(cfg, i), 1);
    }
  }

  /** ... which is so from the start with at most 22 jobs. */
  lemma {:induction false} FewJobsAt(cfg: Config, n: nat, i: nat)
    requires ConfigOk(cfg) && |cfg.jobs| <= 22 && (forall k: nat :: k < n ==> RequestOkAt(cfg, k)) && i < n
    ensures FewAt(cfg, i)
    decreases i
  {
    forall k: nat | k < i ensures FewAt(cfg, k) {
      FewJobsAt(cfg, n, k);
    }
    FewJobsNext(cfg, i);
  }

  lemma FewJobsNext(cfg: Config, n: nat)
    requires ConfigOk(cfg) && |cfg.jobs| <= 22 && RequestOkAt(cfg, n)
    requires forall i: nat :: i < n ==> FewAt(cfg, i)
    ensures FewAt(cfg, n)
  {
    var s := Run(cfg, n);
    FewRun(cfg, n, s);
    FewLive(cfg, s);
  }
}
