/** The messages from the generator over whole runs of the HPF scheduler. */
module HpfArrivals {
  import opened Common
  import Arrival
  import opened ArrivalMachine
  import opened PcbQueue
  import opened Hpf

  // ---- One round of receiving ----------------------------------------------------

  function Admitting(s: State, j: Job): State {
    s.(ready := Insert(s.ready, CreatePcb(j)))
  }

  /** The receive loop, told by its messages. */
  function Receiving(s: State, c: Call): State
    requires c.Returns?
  {
    var s1 := AdmitEach(Admitting, s, c.arrived);
    if c.sync.Some? then s1 else s1.(receiving := false)
  }

  lemma {:induction false} AdmitsDue(s: State, due: seq<Job>, queue: seq<Job>)
    requires s.incoming == due + queue && (forall j :: j in due ==> j.arrival <= s.clock)
    requires queue != [] ==> queue[0].arrival > s.clock
    ensures Admit(s) == AdmitEach(Admitting, s, due).(incoming := queue)
    decreases |due|
  {
    if due == [] {
      assert s.incoming == queue;
    } else {
      assert due[0] in due && forall j :: j in due[1..] ==> j in due;
      assert s.incoming[0] == due[0] && s.incoming[1..] == due[1..] + queue;
      AdmitsDue(AdmitNext(s), due[1..], queue);
      AdmittingIgnores(Admitting(s, due[0]), due[1..], s.incoming[1..]);
    }
  }

  lemma {:induction false} AdmittingIgnores(s: State, jobs: seq<Job>, incoming: seq<Job>)
    ensures AdmitEach(Admitting, s.(incoming := incoming), jobs) == AdmitEach(Admitting, s, jobs).(incoming := incoming)
    decreases |jobs|
  {
    if jobs != [] {
      AdmittingIgnores(Admitting(s, jobs[0]), jobs[1..], incoming);
    }
  }

  /** In step with the clock, the loop ends, and the transition is what it does. */
  lemma TransitionReceives(jobs: seq<Job>, s: State, queue: seq<Job>, msgs: seq<Arrival.Msg>)
    requires InStep(jobs, s.clock, s.incoming, queue, msgs)
    ensures ReceiveLoop(msgs, s.clock).Returns?
    ensures Receive(jobs, s) == Receiving(s, ReceiveLoop(msgs, s.clock)).(incoming := queue)
  {
    CallInStep(jobs, s.clock, s.incoming, queue, msgs);
    AdmitsDue(s, ReceiveLoop(msgs, s.clock).arrived, queue);
  }

  // ---- Over whole runs -------------------------------------------------------------

  /** In the iteration from s messages are received: not during a context
      switch, nor after the final message. */
  predicate Calls(s: State) {
    var s1 := Finish(s);
    (s1.switchUntil == -1 || s1.clock >= s1.switchUntil) && s1.receiving
  }

  /** Generator and message queue before iteration n. */
  function TrafficAt(jobs: seq<Job>, n: nat): Traffic {
    if n == 0 then Opening(jobs) else TrafficNext(Run(jobs, n - 1), TrafficAt(jobs, n - 1))
  }

  function TrafficNext(s: State, g: Traffic): Traffic {
    if Over(s) then g else Turn(g, s.clock, Calls(s))
  }

  /** The state that the receive loop finds. */
  function AtCall(s: State): State {
    Finish(s).(switchUntil := -1)
  }

  ghost predicate ArrivalsOk(jobs: seq<Job>, s: State, g: Traffic) {
    s.clock >= 0 && (s.receiving ==> UnderWay(jobs, s.clock - 1, s.incoming, g.queue, g.msgs))
  }

  lemma {:induction false} AdmitFrame(s: State)
    ensures Admit(s).clock == s.clock && Admit(s).receiving == s.receiving
    decreases |s.incoming|
  {
    if s.incoming != [] && s.incoming[0].arrival <= s.clock {
      AdmitFrame(AdmitNext(s));
    }
  }

  lemma CallReceives(jobs: seq<Job>, s: State, g: Traffic)
    requires ArrivalsOk(jobs, s, g) && Calls(s)
    ensures var g1 := AfterSends(g, s.clock); var c := ReceiveLoop(g1.msgs, s.clock);
      && InStep(jobs, s.clock, AtCall(s).incoming, g1.queue, g1.msgs)
      && c.Returns? && Received(jobs, AtCall(s)) == Receiving(AtCall(s), c).(incoming := g1.queue)
  {
    GeneratorInStep(jobs, s.clock - 1, s.incoming, g.queue, g.msgs);
    var g1 := AfterSends(g, s.clock);
    TransitionReceives(jobs, AtCall(s), g1.queue, g1.msgs);
  }

  /** What still has to arrive after an iteration. */
  lemma TickArrivals(jobs: seq<Job>, s: State)
    requires !Over(s)
    ensures var s' := Tick(jobs, s);
      && s'.clock == s.clock + 1
      && (!Calls(s) ==> s'.incoming == s.incoming && s'.receiving == s.receiving)
      && (Calls(s) ==> s'.incoming == Receive(jobs, AtCall(s)).incoming && s'.receiving == Receive(jobs, AtCall(s)).receiving)
  {
    AdmitFrame(AtCall(s));
    AdvanceArrivals(jobs, Finish(s));
  }

  lemma AdvanceArrivals(jobs: seq<Job>, s: State)
    ensures var s' := Advance(jobs, s); var s0 := s.(switchUntil := -1);
      if s.switchUntil == -1 || s.clock >= s.switchUntil
      then s'.incoming == Received(jobs, s0).incoming && s'.receiving == Received(jobs, s0).receiving
      else s' == s
  {
    DecidedArrivals(Received(jobs, s.(switchUntil := -1)));
  }

  lemma DecidedArrivals(s: State)
    ensures Grant(Decided(s)).incoming == s.incoming && Grant(Decided(s)).receiving == s.receiving
  {
  }

  /** What a call leaves to come. */
  lemma CallEffect(jobs: seq<Job>, s: State, g: Traffic)
    requires ArrivalsOk(jobs, s, g) && Calls(s)
    ensures var r := Receive(jobs, AtCall(s));
      r.incoming == AfterSends(g, s.clock).queue && (r.receiving <==> s.clock <= LastArrival(jobs))
  {
    CallReceives(jobs, s, g);
    AdmitFrame(AtCall(s));
  }

  lemma ArrivalsNext(jobs: seq<Job>, s: State, g: Traffic)
    requires ArrivalsOk(jobs, s, g)
    ensures ArrivalsOk(jobs, Tick(jobs, s), TrafficNext(s, g))
  {
    if !Over(s) {
      TickArrivals(jobs, s);
      if s.receiving {
        if Calls(s) {
          CallEffect(jobs, s, g);
        }
        TurnInStep(jobs, s.clock, s.incoming, g, Calls(s), Tick(jobs, s).incoming, Tick(jobs, s).receiving);
      }
    }
  }

  /** Before every iteration of every run: generator and messages are in step
      with what has still to be admitted. */
  lemma {:induction false} RunInStep(jobs: seq<Job>, n: nat, s: State)
    requires (forall j :: j in jobs ==> j.arrival >= 0) && s == Run(jobs, n)
    ensures ArrivalsOk(jobs, s, TrafficAt(jobs, n))
    decreases n
  {
    if n == 0 {
      StartInStep(jobs);
    } else {
      var before := Run(jobs, n - 1);
      RunInStep(jobs, n - 1, before);
      ArrivalsNext(jobs, before, TrafficAt(jobs, n - 1));
    }
  }

  /** Every receive loop in every run ends, and does over its messages what the
      transition says: the same jobs go into the queue in the same order, and the
      state is the same. */
  lemma RunReceives(jobs: seq<Job>, n: nat, s: State)
    requires (forall j :: j in jobs ==> j.arrival >= 0) && s == Run(jobs, n) && Calls(s)
    ensures var g1 := AfterSends(TrafficAt(jobs, n), s.clock); var c := ReceiveLoop(g1.msgs, s.clock);
      && c.Returns? && TookAll(g1.msgs, s.clock, c)
      && Received(jobs, AtCall(s)) == Receiving(AtCall(s), c).(incoming := g1.queue)
  {
    RunInStep(jobs, n, s);
    CallReceives(jobs, s, TrafficAt(jobs, n));
    ReceptionTakesAll(AfterSends(TrafficAt(jobs, n), s.clock).msgs, s.clock);
  }
}
