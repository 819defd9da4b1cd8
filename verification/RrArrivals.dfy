/** The messages from the generator over whole runs of the Round-Robin scheduler:
    every call of receiveProcesses finds what the kernel transition admits. */
module RrArrivals {
  import opened Common
  import Arrival
  import Mmu
  import opened ArrivalMachine
  import opened RoundRobin
  import opened RrFrames
  import opened RrTicks

  // ---- One call ------------------------------------------------------------------

  function Admitting(s: Kernel, j: Job): Kernel {
    s.(mem := Mmu.SetPcb(s.mem, j.id, CreatePcb(j)), ready := s.ready + [j.id], current := s.current + [j.id])
  }

  /** receiveProcesses, told by its messages. */
  function Receiving(s: Kernel, c: Call): Kernel
    requires c.Returns?
  {
    var s1 := AdmitEach(Admitting, s, c.arrived);
    if c.sync.Some? then s1.(lastSync := c.sync.value) else s1.(receiving := false)
  }

  lemma {:induction false} AdmitsDue(s: Kernel, due: seq<Job>, queue: seq<Job>)
    requires s.incoming == due + queue && (forall j :: j in due ==> j.arrival <= s.clock)
    requires queue != [] ==> queue[0].arrival > s.clock
    ensures AdmitArrived(s) == AdmitEach(Admitting, s, due).(incoming := queue)
    decreases |due|
  {
    if due == [] {
      assert s.incoming == queue;
    } else {
      assert due[0] in due && forall j :: j in due[1..] ==> j in due;
      assert s.incoming[0] == due[0] && s.incoming[1..] == due[1..] + queue;
      AdmitsDue(AdmitNext(s), due[1..], queue);
      AdmittingIgnores(Admitting(s, due[0]), due[1..], s.incoming[1..]);
    }
  }

  lemma {:induction false} AdmittingIgnores(s: Kernel, jobs: seq<Job>, incoming: seq<Job>)
    ensures AdmitEach(Admitting, s.(incoming := incoming), jobs) == AdmitEach(Admitting, s, jobs).(incoming := incoming)
    decreases |jobs|
  {
    if jobs != [] {
      AdmittingIgnores(Admitting(s, jobs[0]), jobs[1..], incoming);
    }
  }

  /** In step with the clock, the call returns, and the kernel transition is what
      it does. */
  lemma KernelReceives(cfg: Config, s: Kernel, queue: seq<Job>, msgs: seq<Arrival.Msg>)
    requires InStep(cfg.jobs, s.clock, s.incoming, queue, msgs)
    ensures ReceiveLoop(msgs, s.clock).Returns?
    ensures Receive(cfg, s) == Receiving(s, ReceiveLoop(msgs, s.clock)).(incoming := queue)
  {
    CallInStep(cfg.jobs, s.clock, s.incoming, queue, msgs);
    AdmitsDue(s, ReceiveLoop(msgs, s.clock).arrived, queue);
  }

  // ---- Over whole runs -------------------------------------------------------------

  /** There is an iteration from s, and it comes to its scheduling part. */
  predicate Iterates(cfg: Config, s: Kernel) {
    !Finished(s) && !s.hung && !s.mem.trapped && !Settle(cfg, s).hung
  }

  /** In the iteration from s receiveProcesses is called: it is skipped during a
      context switch, and after the final message. */
  predicate Calls(cfg: Config, s: Kernel) {
    var s1 := Settle(cfg, s);
    (s1.switchUntil == -1 || s1.clock >= s1.switchUntil) && s1.receiving && s1.clock > s1.lastSync
  }

  /** Generator and message queue before iteration n. */
  function TrafficAt(cfg: Config, n: nat): Traffic {
    if n == 0 then Opening(cfg.jobs) else TrafficNext(cfg, Run(cfg, n - 1), TrafficAt(cfg, n - 1))
  }

  function TrafficNext(cfg: Config, s: Kernel, g: Traffic): Traffic {
    if Iterates(cfg, s) then Turn(g, s.clock, Calls(cfg, s)) else g
  }

  lemma AdvanceArrivals(cfg: Config, s: Kernel)
    ensures var s' := Advance(cfg, s); var calls := (s.switchUntil == -1 || s.clock >= s.switchUntil) && s.receiving && s.clock > s.lastSync;
      && s'.clock == s.clock
      && (!calls ==> s'.incoming == s.incoming && s'.receiving == s.receiving)
      && (calls ==> SameArrivals(Receive(cfg, s.(switchUntil := -1)), s'))
  {
    ScheduleBooks(cfg, s);
    AdmitFrame(s.(switchUntil := -1));
  }

  lemma LateArrivals(cfg: Config, s: Kernel, s2: Kernel)
    requires Iterates(cfg, s) && s2 == Advance(cfg, Settle(cfg, s)) && s2.clock == s.clock
    ensures SameArrivals(s2.(clock := s.clock + 1), Tick(cfg, s))
  {
    TickIs(cfg, s);
    CheckBooks(s2);
  }

  /** What still has to arrive after an iteration. */
  lemma TickArrivals(cfg: Config, s: Kernel)
    requires Iterates(cfg, s)
    ensures var s' := Tick(cfg, s); var s0 := Settle(cfg, s).(switchUntil := -1);
      && s'.clock == s.clock + 1
      && (!Calls(cfg, s) ==> s'.incoming == s.incoming && s'.receiving == s.receiving)
      && (Calls(cfg, s) ==> s'.incoming == Receive(cfg, s0).incoming && s'.receiving == Receive(cfg, s0).receiving)
  {
    SettleArrivals(cfg, s);
    AdvanceArrivals(cfg, Settle(cfg, s));
    LateArrivals(cfg, s, Advance(cfg, Settle(cfg, s)));
  }

  /** Between two iterations, as long as anything is expected: what is under way
      and what the generator still has is what the kernel has still to admit. */
  ghost predicate ArrivalsOk(cfg: Config, s: Kernel, g: Traffic) {
    s.clock >= 0 && (s.receiving ==> UnderWay(cfg.jobs, s.clock - 1, s.incoming, g.queue, g.msgs))
  }

  /** The kernel that the call in the iteration from s finds. */
  function AtCall(cfg: Config, s: Kernel): Kernel {
    Settle(cfg, s).(switchUntil := -1)
  }

  lemma CallReceives(cfg: Config, s: Kernel, g: Traffic)
    requires ArrivalsOk(cfg, s, g) && Calls(cfg, s)
    ensures var g1 := AfterSends(g, s.clock); var c := ReceiveLoop(g1.msgs, s.clock);
      && InStep(cfg.jobs, s.clock, AtCall(cfg, s).incoming, g1.queue, g1.msgs) && AtCall(cfg, s).clock == s.clock
      && c.Returns? && Received(cfg, Settle(cfg, s)) == Receiving(AtCall(cfg, s), c).(incoming := g1.queue)
  {
    SettleArrivals(cfg, s);
    GeneratorInStep(cfg.jobs, s.clock - 1, s.incoming, g.queue, g.msgs);
    var g1 := AfterSends(g, s.clock);
    KernelReceives(cfg, AtCall(cfg, s), g1.queue, g1.msgs);
    ReceivedIs(cfg, Settle(cfg, s));
  }

  lemma ReceivedIs(cfg: Config, s: Kernel)
    requires s.receiving && s.clock > s.lastSync
    ensures Received(cfg, s) == Receive(cfg, s.(switchUntil := -1))
  {
  }

  lemma ArrivalsNext(cfg: Config, s: Kernel, g: Traffic)
    requires ArrivalsOk(cfg, s, g)
    ensures ArrivalsOk(cfg, Tick(cfg, s), TrafficNext(cfg, s, g))
  {
    if Iterates(cfg, s) {
      IteratedNext(cfg, s, g);
    } else {
      StuckClock(cfg, s);
    }
  }

  lemma IteratedNext(cfg: Config, s: Kernel, g: Traffic)
    requires ArrivalsOk(cfg, s, g) && Iterates(cfg, s)
    ensures ArrivalsOk(cfg, Tick(cfg, s), Turn(g, s.clock, Calls(cfg, s)))
  {
    TickArrivals(cfg, s);
    ArrivalsIterated(cfg, s, g, Tick(cfg, s));
  }

  lemma NotCalled(cfg: Config, s: Kernel)
    requires !s.receiving
    ensures !Calls(cfg, s)
  {
    SettleArrivals(cfg, s);
  }

  lemma ArrivalsIterated(cfg: Config, s: Kernel, g: Traffic, s': Kernel)
    requires ArrivalsOk(cfg, s, g) && s'.clock == s.clock + 1
    requires !Calls(cfg, s) ==> s'.incoming == s.incoming && s'.receiving == s.receiving
    requires Calls(cfg, s) ==>
               s'.incoming == Receive(cfg, AtCall(cfg, s)).incoming && s'.receiving == Receive(cfg, AtCall(cfg, s)).receiving
    ensures ArrivalsOk(cfg, s', Turn(g, s.clock, Calls(cfg, s)))
  {
    if s.receiving {
      ArrivalsStep(cfg, s, g, s');
    } else {
      NotCalled(cfg, s);
    }
  }

  lemma StuckClock(cfg: Config, s: Kernel)
    requires !Iterates(cfg, s)
    ensures SameArrivals(s, Tick(cfg, s))
  {
    SettleArrivals(cfg, s);
  }

  lemma ArrivalsStep(cfg: Config, s: Kernel, g: Traffic, s': Kernel)
    requires ArrivalsOk(cfg, s, g) && s.receiving && s'.clock == s.clock + 1
    requires !Calls(cfg, s) ==> s'.incoming == s.incoming && s'.receiving == s.receiving
    requires Calls(cfg, s) ==>
               s'.incoming == Receive(cfg, AtCall(cfg, s)).incoming && s'.receiving == Receive(cfg, AtCall(cfg, s)).receiving
    ensures ArrivalsOk(cfg, s', Turn(g, s.clock, Calls(cfg, s)))
  {
    if Calls(cfg, s) {
      CallEffect(cfg, s, g);
    }
    StepInStep(cfg, s, g, s', Calls(cfg, s));
  }

  /** What a call leaves to come. */
  lemma CallEffect(cfg: Config, s: Kernel, g: Traffic)
    requires ArrivalsOk(cfg, s, g) && Calls(cfg, s)
    ensures var r := Receive(cfg, AtCall(cfg, s));
      r.incoming == AfterSends(g, s.clock).queue && (r.receiving <==> s.clock <= LastArrival(cfg.jobs))
  {
    CallReceives(cfg, s, g);
    ReceivedIs(cfg, Settle(cfg, s));
    SettleArrivals(cfg, s);
    ReceiveEnds(cfg, AtCall(cfg, s));
  }

  lemma ReceiveEnds(cfg: Config, s: Kernel)
    requires s.receiving
    ensures Receive(cfg, s).receiving <==> s.clock <= LastArrival(cfg.jobs)
  {
    AdmitFrame(s);
  }

  lemma StepInStep(cfg: Config, s: Kernel, g: Traffic, s': Kernel, calls: bool)
    requires ArrivalsOk(cfg, s, g) && s.receiving && s'.clock == s.clock + 1
    requires !calls ==> s'.incoming == s.incoming && s'.receiving == s.receiving
    requires calls ==> s'.incoming == AfterSends(g, s.clock).queue && (s'.receiving <==> s.clock <= LastArrival(cfg.jobs))
    ensures ArrivalsOk(cfg, s', Turn(g, s.clock, calls))
  {
    TurnInStep(cfg.jobs, s.clock, s.incoming, g, calls, s'.incoming, s'.receiving);
  }

  ghost predicate InStepAt(cfg: Config, n: nat) {
    ArrivalsOk(cfg, Run(cfg, n), TrafficAt(cfg, n))
  }

  lemma BootInStep(cfg: Config, s: Kernel, g: Traffic)
    requires (forall j :: j in cfg.jobs ==> j.arrival >= 0) && s == Boot(cfg) && g == Opening(cfg.jobs)
    ensures ArrivalsOk(cfg, s, g)
  {
    StartInStep(cfg.jobs);
  }

  lemma NextInStep(cfg: Config, n: nat, s: Kernel, g: Traffic)
    requires s == Run(cfg, n) && g == TrafficAt(cfg, n) && ArrivalsOk(cfg, s, g)
    ensures InStepAt(cfg, n + 1)
  {
    ArrivalsNext(cfg, s, g);
    RunNext(cfg, n);
  }

  /** Before every iteration of every run, whatever iterations skipped the call:
      generator and messages are in step with what the kernel has to admit. */
  lemma RunInStep(cfg: Config, n: nat, s: Kernel, g: Traffic)
    requires (forall j :: j in cfg.jobs ==> j.arrival >= 0) && s == Run(cfg, n) && g == TrafficAt(cfg, n)
    ensures ArrivalsOk(cfg, s, g)
  {
    forall i: nat | InStepAt(cfg, i) ensures InStepAt(cfg, i + 1) {
      NextInStep(cfg, i, Run(cfg, i), TrafficAt(cfg, i));
    }
    BootInStep(cfg, Run(cfg, 0), TrafficAt(cfg, 0));
    FromStepToStep((i: nat) => InStepAt(cfg, i), n);
    assert InStepAt(cfg, n);
  }

  /** Every call of receiveProcesses in every run returns, and its loop over the
      messages does what the kernel transition says: it admits the same jobs in
      the same order and ends in the same state. */
  lemma RunReceives(cfg: Config, n: nat, s: Kernel, g: Traffic)
    requires (forall j :: j in cfg.jobs ==> j.arrival >= 0) && s == Run(cfg, n) && g == TrafficAt(cfg, n) && Calls(cfg, s)
    ensures var g1 := AfterSends(g, s.clock); var c := ReceiveLoop(g1.msgs, s.clock);
      && c.Returns? && TookAll(g1.msgs, s.clock, c)
      && Received(cfg, Settle(cfg, s)) == Receiving(AtCall(cfg, s), c).(incoming := g1.queue)
  {
    RunInStep(cfg, n, s, g);
    CallReceives(cfg, s, g);
    ReceptionTakesAll(AfterSends(g, s.clock).msgs, s.clock);
  }
}
