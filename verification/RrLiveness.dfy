/** Whole runs of the Round-Robin scheduler: termination within an explicit
    bound, bounded waiting, and a static condition for sound runs. */
module RrLiveness {
  import opened Common
  import opened RoundRobin
  import opened RrInvariants
  import opened RrWork
  import opened RrTicks

  // ---- Termination -----------------------------------------------------------

  /** Ticks until the last of the given blocked processes can wake. */
  function Slack(s: Kernel, ids: seq<int>): (r: nat)
    ensures forall p :: p in ids && p in s.mem.pcbs ==> s.mem.pcbs[p].unblockAt < s.clock + r
  {
    if ids == [] then 0
    else
      assert ids == [ids[0]] + ids[1..];
      var rest := Slack(s, ids[1..]);
      var own := if ids[0] in s.mem.pcbs then s.mem.pcbs[ids[0]].unblockAt - s.clock + 1 else 0;
      if own > rest then own else rest
  }

  lemma {:induction false} SlackAtMost(s: Kernel, ids: seq<int>, bound: nat)
    requires forall p :: p in ids && p in s.mem.pcbs ==> s.mem.pcbs[p].unblockAt < s.clock + bound
    ensures Slack(s, ids) <= bound
  {
    if ids != [] {
      assert forall p :: p in ids[1..] ==> p in ids;
      SlackAtMost(s, ids[1..], bound);
      var p := ids[0];
      assert p in ids;
      if p in s.mem.pcbs {
        assert s.mem.pcbs[p].unblockAt < s.clock + bound;
      }
      assert Slack(s, ids[1..]) <= bound;
    }
  }

  /** Ticks until the generator has sent everything. */
  function Gen(cfg: Config, s: Kernel): nat {
    var end := if LastArrival(cfg.jobs) > 0 then LastArrival(cfg.jobs) else 0;
    if s.clock <= end then end + 1 - s.clock else 0
  }

  /** A measure of all that is still to happen. */
  function Potential(cfg: Config, s: Kernel): int {
    23 * Work(s) + 21 * |s.mailbox| + |s.current| + |s.incoming|
    + (if s.running.Some? && s.preemptAt == s.clock then 1 else 0)
    + Slack(s, s.blocked) + Gen(cfg, s) + (if s.receiving then 1 else 0)
  }

  lemma WorkAtLeast(cfg: Config, s: Kernel)
    requires ConfigOk(cfg) && Inv(cfg, s)
    ensures Work(s) >= 0
  {
    forall i | 0 <= i < |s.current| ensures Left(s, s.current[i]) >= 0 {
      var p := s.current[i];
      assert p in multiset(s.current);
      assert ProcInv(cfg, s, p);
    }
    SumLeftAtLeast(s, s.current);
    forall j | j in s.incoming ensures j.runtime > 0 {
      var i :| 0 <= i < |s.incoming| && s.incoming[i] == j;
      assert j == cfg.jobs[|cfg.jobs| - |s.incoming| + i];
    }
    SumRuntimeAtLeast(s.incoming);
  }

  /** The time blocked processes have to wait only shrinks, but for a fault. */
  lemma SlackDrops(cfg: Config, s: Kernel)
    requires ConfigOk(cfg) && Inv(cfg, s) && !Finished(s)
    requires StepOk(cfg, s)
    ensures var s' := Tick(cfg, s); var slack := Slack(s, s.blocked); var slack' := Slack(s', s'.blocked);
      && Inv(cfg, s') && Effect(cfg, s, s') && s'.clock == s.clock + 1
      && (FaultNow(s) ==> slack' <= 20)
      && (!FaultNow(s) ==> slack' <= if slack > 0 then slack - 1 else 0)
  {
    var hi := if FaultNow(s) then 20 else Slack(s, s.blocked) - 1;
    SlackAtMost(s, s.blocked, 20);
    TickKeeps(cfg, s, hi);
    var s' := Tick(cfg, s);
    TickClock(cfg, s);
    SlackAtMost(s', s'.blocked, if hi > 0 then hi else 0);
  }

  /** Every iteration of an unfinished run lowers the measure. */
  lemma PotentialDrops(cfg: Config, s: Kernel)
    requires ConfigOk(cfg) && Inv(cfg, s) && !Finished(s)
    requires StepOk(cfg, s)
    ensures Inv(cfg, Tick(cfg, s)) && Potential(cfg, Tick(cfg, s)) < Potential(cfg, s)
  {
    SlackDrops(cfg, s);
    PotentialCompare(cfg, s, Tick(cfg, s));
  }

  lemma PotentialCompare(cfg: Config, s: Kernel, s': Kernel)
    requires ConfigOk(cfg) && Inv(cfg, s) && !Finished(s) && Inv(cfg, s') && Effect(cfg, s, s') && s'.clock == s.clock + 1
    requires !LastTickFault(s)
    requires FaultNow(s) ==> Slack(s', s'.blocked) <= 20
    requires !FaultNow(s) ==> Slack(s', s'.blocked) <= if Slack(s, s.blocked) > 0 then Slack(s, s.blocked) - 1 else 0
    ensures Potential(cfg, s') < Potential(cfg, s)
  {
    if Emptied(s) {
      EmptiedCompare(cfg, s, s');
    } else if s.running.Some? {
      RunningCompare(cfg, s, s');
    } else {
      IdleCompare(cfg, s, s');
    }
  }

  lemma RunningCompare(cfg: Config, s: Kernel, s': Kernel)
    requires Inv(cfg, s) && s.running.Some? && Inv(cfg, s') && !Emptied(s) && Effect(cfg, s, s') && s'.clock == s.clock + 1
    requires Slack(s', s'.blocked) <= Slack(s, s.blocked) && cfg.quantum >= 1
    ensures Potential(cfg, s') < Potential(cfg, s)
  {
  }

  lemma IdleCompare(cfg: Config, s: Kernel, s': Kernel)
    requires Inv(cfg, s) && s.running.None? && !Finished(s) && Inv(cfg, s') && !Emptied(s)
    requires Effect(cfg, s, s') && s'.clock == s.clock + 1
    requires Slack(s', s'.blocked) <= if Slack(s, s.blocked) > 0 then Slack(s, s.blocked) - 1 else 0
    ensures Potential(cfg, s') < Potential(cfg, s)
  {
    if s.ready == [] && s.blocked != [] {
      SomeSlack(cfg, s);
    }
    IdleDrops(cfg, s, s');
  }

  lemma SomeSlack(cfg: Config, s: Kernel)
    requires Inv(cfg, s) && s.blocked != []
    ensures Slack(s, s.blocked) > 0
  {
    var p := s.blocked[0];
    assert p in s.blocked;
    assert p in s.mem.pcbs && s.mem.pcbs[p].unblockAt >= s.clock;
  }

  lemma IdleDrops(cfg: Config, s: Kernel, s': Kernel)
    requires s.running.None? && !Finished(s) && !Emptied(s) && Effect(cfg, s, s') && s'.clock == s.clock + 1
    requires |s.mailbox| == 0 && |s'.mailbox| <= 1 && s.preemptAt == -1 && s.clock >= 0
    requires Slack(s', s'.blocked) <= if Slack(s, s.blocked) > 0 then Slack(s, s.blocked) - 1 else 0
    requires s.ready == [] && s.blocked != [] ==> Slack(s, s.blocked) > 0
    ensures Potential(cfg, s') < Potential(cfg, s)
  {
  }

  lemma EmptiedCompare(cfg: Config, s: Kernel, s': Kernel)
    requires Inv(cfg, s) && Emptied(s) && Effect(cfg, s, s') && s'.clock == s.clock + 1 && !LastTickFault(s)
    requires FaultNow(s) ==> Slack(s', s'.blocked) <= 20
    requires !FaultNow(s) ==> Slack(s', s'.blocked) <= Slack(s, s.blocked)
    ensures Potential(cfg, s') < Potential(cfg, s)
  {
    if FaultNow(s) {
      assert |s.mailbox| == 1;
    }
  }

  /** The number of iterations that is always enough. */
  function Bound(cfg: Config): int {
    23 * SumRuntime(cfg.jobs) + |cfg.jobs| + (if LastArrival(cfg.jobs) > 0 then LastArrival(cfg.jobs) else 0) + 2
  }

  /** Sound for as long as a run can take. */
  ghost predicate SoundRun(cfg: Config) {
    forall i: nat :: i < Bound(cfg) ==> SoundAt(cfg, i)
  }

  lemma MeasureStep(cfg: Config, s: Kernel, bound: int)
    requires ConfigOk(cfg) && Inv(cfg, s) && StepOk(cfg, s)
    requires Finished(s) || Potential(cfg, s) <= bound
    ensures Finished(Tick(cfg, s)) || Potential(cfg, Tick(cfg, s)) <= bound - 1
  {
    if !Finished(s) {
      PotentialDrops(cfg, s);
    }
  }

  lemma {:induction false} MeasureAlongRun(cfg: Config, n: nat, s: Kernel, bound: int)
    requires ConfigOk(cfg) && Sound(cfg, n) && s == Run(cfg, n) && Potential(cfg, Boot(cfg)) <= bound
    ensures Inv(cfg, s)
    ensures Finished(s) || Potential(cfg, s) <= bound - n
    decreases n
  {
    if n == 0 {
      BootOk(cfg);
    } else {
      var before := RunBack(cfg, n, s);
      MeasureAlongRun(cfg, n - 1, before, bound);
      assert SoundAt(cfg, n - 1);
      RunStep(cfg, before);
      MeasureStep(cfg, before, bound - (n - 1));
    }
  }

  lemma BootMeasure(cfg: Config)
    ensures Potential(cfg, Boot(cfg)) == Bound(cfg)
  {
  }

  /** Every sound run is over after Bound(cfg) iterations, and then every job of
      the input has finished, exactly once, with turnaround = runtime + waiting. */
  lemma Terminates(cfg: Config, n: nat)
    requires ConfigOk(cfg) && Sound(cfg, n) && n >= Bound(cfg)
    ensures var s := Run(cfg, n);
      && Finished(s) && s.current == [] && s.incoming == []
      && multiset(FinishedIds(s.finished)) == multiset(Ids(cfg.jobs))
      && forall c :: c in s.finished ==> HasJob(cfg, c) && Accounted(c)
  {
    var s := Run(cfg, n);
    BootMeasure(cfg);
    MeasureAlongRun(cfg, n, s, Bound(cfg));
    if !Finished(s) {
      NotFinishedPositive(cfg, s);
    }
    AllDone(cfg, s);
  }

  /** When the loop ends, every job is accounted for. */
  lemma AllDone(cfg: Config, s: Kernel)
    requires Inv(cfg, s) && Finished(s)
    ensures s.current == [] && s.incoming == []
    ensures multiset(FinishedIds(s.finished)) == multiset(Ids(cfg.jobs))
    ensures forall c :: c in s.finished ==> HasJob(cfg, c) && Accounted(c)
  {
    assert multiset(s.current) == multiset{};
    assert |multiset(s.current)| == |s.current|;
  }

  lemma NotFinishedPositive(cfg: Config, s: Kernel)
    requires ConfigOk(cfg) && Inv(cfg, s) && !Finished(s)
    ensures Potential(cfg, s) > 0
  {
    WorkAtLeast(cfg, s);
    assert |multiset(s.ready) + multiset(s.blocked) + Cpu(s)| == |s.ready| + |s.blocked| + |Cpu(s)|;
    assert |multiset(s.current)| == |s.current|;
  }

  // ---- Bounded waiting --------------------------------------------------------

  /** Ticks until the process on the CPU must give way to a ready one. */
  function TurnLeft(s: Kernel): int {
    if s.running.Some? then s.preemptAt + 1 - s.clock else 0
  }

  /** The process at index k of the ready queue has got the CPU, or has stayed
      in its place while the running one used up a tick, or has moved up. */
  predicate Waited(cfg: Config, s: Kernel, s': Kernel, k: nat)
    requires k < |s.ready|
  {
    var p := s.ready[k];
    || s'.running == Some(p)
    || (k < |s'.ready| && s'.ready[k] == p && TurnLeft(s') < TurnLeft(s))
    || (k > 0 && k - 1 < |s'.ready| && s'.ready[k - 1] == p && TurnLeft(s') < TurnLeft(s) + cfg.quantum + 1)
  }

  lemma WaitStep(cfg: Config, s: Kernel, k: nat)
    requires ConfigOk(cfg) && Inv(cfg, s) && k < |s.ready|
    requires StepOk(cfg, s)
    ensures Inv(cfg, Tick(cfg, s)) && Waited(cfg, s, Tick(cfg, s), k)
  {
    TickKeeps(cfg, s, 20);
    TickClock(cfg, s);
    EffectWaits(cfg, s, Tick(cfg, s), k);
  }

  lemma EffectWaits(cfg: Config, s: Kernel, s': Kernel, k: nat)
    requires Inv(cfg, s) && Inv(cfg, s') && Effect(cfg, s, s') && s'.clock == s.clock + 1 && k < |s.ready|
    ensures Waited(cfg, s, s', k)
  {
    if s.ready <= s'.ready {
      SamePlace(s.ready, s'.ready, k);
    }
    if k > 0 && s.ready[1..] <= s'.ready {
      SamePlace(s.ready[1..], s'.ready, k - 1);
    }
  }

  lemma SamePlace(a: seq<int>, b: seq<int>, k: nat)
    requires a <= b && k < |a|
    ensures b[k] == a[k]
  {
    assert b[..|a|][k] == b[k];
  }

  /** k whole turns on the CPU, each with the switch that ends it. */
  function Turns(k: nat, q: int): int {
    if k == 0 then 0 else Turns(k - 1, q) + q + 1
  }

  lemma {:induction false} TurnsIsProduct(k: nat, q: int)
    ensures Turns(k, q) == k * (q + 1)
  {
    if k > 0 {
      TurnsIsProduct(k - 1, q);
    }
  }

  lemma {:induction false} TurnsAtLeast(k: nat, q: int)
    requires q >= 0
    ensures Turns(k, q) >= 0
  {
    if k > 0 {
      TurnsAtLeast(k - 1, q);
    }
  }

  /** A process k places from the front gets the CPU or uses up budget. */
  lemma WaitNext(cfg: Config, s: Kernel, k: nat, p: int, budget: int) returns (k': nat)
    requires ConfigOk(cfg) && Inv(cfg, s) && k < |s.ready| && s.ready[k] == p
    requires StepOk(cfg, s)
    requires TurnLeft(s) + Turns(k, cfg.quantum) <= budget
    ensures var s' := Tick(cfg, s);
      && Inv(cfg, s')
      && (s'.running == Some(p) ||
          (k' < |s'.ready| && s'.ready[k'] == p && 0 <= TurnLeft(s') + Turns(k', cfg.quantum) < budget))
  {
    WaitStep(cfg, s, k);
    k' := WaitArithmetic(cfg, s, Tick(cfg, s), k, budget);
  }

  lemma WaitArithmetic(cfg: Config, s: Kernel, s': Kernel, k: nat, budget: int) returns (k': nat)
    requires ConfigOk(cfg) && Inv(cfg, s') && k < |s.ready| && Waited(cfg, s, s', k)
    requires TurnLeft(s) + Turns(k, cfg.quantum) <= budget
    ensures s'.running == Some(s.ready[k]) ||
            (k' < |s'.ready| && s'.ready[k'] == s.ready[k] && 0 <= TurnLeft(s') + Turns(k', cfg.quantum) < budget)
  {
    k' := if k < |s'.ready| && s'.ready[k] == s.ready[k] && TurnLeft(s') < TurnLeft(s) then k
          else if k > 0 then k - 1 else 0;
    TurnsAtLeast(k', cfg.quantum);
  }

  predicate RunsAfter(cfg: Config, m: nat, p: int) {
    Run(cfg, m + 1).running == Some(p)
  }

  lemma {:induction false} DispatchedWithin(cfg: Config, n: nat, s: Kernel, k: nat, p: int, budget: nat) returns (m: nat)
    requires ConfigOk(cfg) && s == Run(cfg, n) && Inv(cfg, s) && k < |s.ready| && s.ready[k] == p
    requires Sound(cfg, n + budget + 1)
    requires TurnLeft(s) + Turns(k, cfg.quantum) <= budget
    ensures n <= m <= n + budget && RunsAfter(cfg, m, p)
    decreases budget
  {
    assert SoundAt(cfg, n);
    RunNext(cfg, n);
    var k' := WaitNext(cfg, s, k, p, budget);
    if Tick(cfg, s).running == Some(p) {
      m := n;
    } else {
      m := DispatchedWithin(cfg, n + 1, Tick(cfg, s), k', p, budget - 1);
    }
  }

  /** Bounded waiting: a process with k others ahead of it in the ready queue is
      given the CPU by the iteration at most (k+1)*(quantum+1) ticks later,
      whatever faults, exits, arrivals and quantum extensions happen. */
  lemma BoundedWaiting(cfg: Config, n: nat, k: nat, s: Kernel)
    requires ConfigOk(cfg) && s == Run(cfg, n) && k < |s.ready|
    requires Sound(cfg, n + (k + 1) * (cfg.quantum + 1) + 1)
    ensures exists m: nat :: n <= m <= n + (k + 1) * (cfg.quantum + 1) && RunsAfter(cfg, m, s.ready[k])
  {
    var bound := TurnsBound(k, cfg.quantum);
    var m := BoundedWaitingFrom(cfg, n, s, k, bound);
  }

  lemma TurnsBound(k: nat, q: int) returns (bound: nat)
    requires q >= 0
    ensures bound == Turns(k + 1, q) == (k + 1) * (q + 1)
  {
    TurnsIsProduct(k + 1, q);
    TurnsAtLeast(k + 1, q);
    bound := Turns(k + 1, q);
  }

  lemma BoundedWaitingFrom(cfg: Config, n: nat, s: Kernel, k: nat, bound: nat) returns (m: nat)
    requires ConfigOk(cfg) && s == Run(cfg, n) && k < |s.ready|
    requires bound == Turns(k + 1, cfg.quantum) && Sound(cfg, n + bound + 1)
    ensures n <= m <= n + bound && RunsAfter(cfg, m, s.ready[k])
  {
    TurnsAtLeast(k, cfg.quantum);
    SoundPrefix(cfg, n, n + bound + 1);
    RunKeeps(cfg, n, s);
    m := DispatchedWithin(cfg, n, s, k, s.ready[k], bound);
  }
}
