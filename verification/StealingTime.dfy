/** The time account of one CPU of the two: whatever messages, steals and stalls
    reach it at whatever moment, how turnaround, runtime and waiting time of the
    processes it finishes are related. */
module StealingTime {
  import opened Common
  import opened Routing
  import opened Stealing

  /** What can happen to a sub-scheduler: a message, one of its two signals, the
      loop body of the current tick, or the end of that tick. */
  datatype Event = Arrives(m: Message) | Steals | Stalls | Loops | Passes

  /** `done`: the loop body of this tick is over, and the running child has used
      the tick. `doubled` counts the ticks that the running process was both
      running and waiting for, as the account has it, and `doubles` the same for
      the finished ones; `stalledAt` is the time of the latest stall signal. */
  datatype Cpu = Cpu(sub: Sub, clock: int, done: bool, doubled: nat, doubles: seq<nat>, stalledAt: Option<int>)

  const START := Cpu(NEW_SUB, 0, false, 0, [], None)

  /** A stall signal that stops a child which has used this tick and is to run
      again: the tick will count as waited for, too. */
  predicate StopsLate(c: Cpu) {
    c.done && !c.sub.stalled && c.sub.running.Some? && c.sub.shm > 0
  }

  predicate Exits(c: Cpu) {
    c.sub.running.Some? && c.sub.shm <= 0
  }

  function Happen(c: Cpu, e: Event): Cpu {
    match e
    case Arrives(m) => c.(sub := c.sub.(inbox := c.sub.inbox + [m]))
    case Steals => c.(sub := StealHandler(c.sub).0)
    case Stalls =>
      c.(sub := StallSignal(c.sub, c.clock), stalledAt := Some(c.clock),
         doubled := c.doubled + if StopsLate(c) then 1 else 0)
    case Loops =>
      if c.done then c
      else if Exits(c) then
        c.(sub := Tick(c.sub, c.clock), done := true, doubled := 0, doubles := c.doubles + [c.doubled])
      else c.(sub := Tick(c.sub, c.clock), done := true)
    case Passes => if c.done then c.(clock := c.clock + 1, done := false) else c
  }

  function CpuAfter(events: seq<Event>): Cpu {
    if events == [] then START else Happen(CpuAfter(events[..|events| - 1]), events[|events| - 1])
  }

  // ---- The account -----------------------------------------------------------------

  /** Nothing is asked to run for no time. */
  predicate HasRuntime(m: Message) {
    m.New? ==> m.d.runtime > 0
  }

  predicate Fresh(c: Pcb) {
    !c.forked && c.start == -1 && c.waiting == 0 && c.remaining == c.runtime && c.runtime > 0 && c.state == Waiting
  }

  /** The tick up to which the running process is accounted for. */
  function Upto(c: Cpu): int {
    c.clock + if c.done then 1 else 0
  }

  /** The time since arrival was run, or waited for, and nothing counts twice but
      the doubled ticks; for a stopped child, up to its stop. */
  predicate Balanced(c: Cpu) {
    match c.sub.running
    case None => c.doubled == 0
    case Some(p) =>
      && p.forked && c.sub.shm >= 0
      && var used := p.waiting + (p.runtime - c.sub.shm) - c.doubled;
         if c.sub.stalled && c.sub.shm > 0 then p.lastStopped >= 0 && p.lastStopped - p.arrival == used
         else Upto(c) - p.arrival == used
  }

  /** Three ticks from the signal on, nothing runs. */
  predicate Held(c: Cpu) {
    c.stalledAt.Some? && c.clock < c.stalledAt.value + 3
  }

  /** A stall lasts as long as that, or until the loop body after it. */
  predicate OnTime(c: Cpu) {
    && (c.sub.stalled ==> c.stalledAt.Some? && c.sub.stallEnd == c.stalledAt.value + 3)
    && (!c.sub.stalled ==> !Held(c))
  }

  /** Control blocks say where their processes are. */
  predicate Labelled(c: Cpu) {
    && (c.sub.running.Some? ==>
          && c.sub.running.value.state == (if c.sub.stalled then Waiting else Running)
          && (c.sub.stalled ==> c.sub.running.value.remaining == c.sub.shm))
    && (forall i :: 0 <= i < |c.sub.finished| ==> c.sub.finished[i].state == Done)
  }

  predicate Settled(finished: seq<Pcb>, doubles: seq<nat>) {
    && |finished| == |doubles|
    && forall i :: 0 <= i < |finished| ==>
         finished[i].finish - finished[i].arrival == finished[i].runtime + finished[i].waiting - doubles[i]
         && finished[i].remaining == 0
  }

  predicate Supplied(s: Sub) {
    && (forall i :: 0 <= i < |s.inbox| ==> HasRuntime(s.inbox[i]))
    && (forall i :: 0 <= i < |s.queue| ==> Fresh(s.queue[i]))
  }

  /** What holds within a loop body, too. */
  predicate Within(c: Cpu) {
    && c.clock >= 0 && Supplied(c.sub) && Balanced(c) && Settled(c.sub.finished, c.doubles)
    && OnTime(c) && Labelled(c) && c.sub.switchUntil <= c.clock + 1
    && (c.sub.running.Some? ==> c.sub.switchUntil == -1)
  }

  /** Between events no context switch lasts beyond the tick after a finish. */
  predicate CpuOk(c: Cpu) {
    Within(c) && c.sub.switchUntil <= Upto(c)
  }

  // ---- Event by event --------------------------------------------------------------

  lemma {:induction false} DrainSupplied(s: Sub)
    requires Supplied(s)
    ensures var s' := Drain(s);
      Supplied(s') && s' == s.(inbox := s'.inbox, queue := s'.queue, receiving := s'.receiving)
    decreases |s.inbox|
  {
    if s.inbox != [] {
      assert HasRuntime(s.inbox[0]);
      var rest := s.(inbox := s.inbox[1..]);
      if s.inbox[0].New? {
        DrainSupplied(rest.(queue := s.queue + [FromData(s.inbox[0].d)]));
      }
    }
  }

  lemma StealBalanced(c: Cpu)
    requires CpuOk(c)
    ensures CpuOk(Happen(c, Steals))
  {
    DrainSupplied(c.sub);
  }

  lemma StallBalanced(c: Cpu)
    requires CpuOk(c)
    ensures CpuOk(Happen(c, Stalls))
  {
    var s := c.sub;
    var s1 := if !s.stalled && s.running.Some? && s.running.value.forked
              then s.(running := Some(s.running.value.(lastStopped := c.clock, remaining := s.shm, state := Waiting)))
              else s;
    DrainSupplied(s1.(stalled := true));
    StoppedBalanced(c, Drain(s1.(stalled := true)));
  }

  lemma StoppedBalanced(c: Cpu, s: Sub)
    requires CpuOk(c) && Supplied(s)
    requires var p := c.sub.running;
      s == c.sub.(inbox := s.inbox, queue := s.queue, receiving := s.receiving, stalled := true,
                  running := if c.sub.stalled || p.None? then p
                             else Some(p.value.(lastStopped := c.clock, remaining := c.sub.shm, state := Waiting)))
    ensures CpuOk(c.(sub := s.(stallEnd := c.clock + 3), stalledAt := Some(c.clock),
                     doubled := c.doubled + if StopsLate(c) then 1 else 0))
  {
  }

  lemma FinishBalanced(c: Cpu, s1: Sub)
    requires CpuOk(c) && !c.done && Supplied(s1) && Exits(c)
    requires s1 == c.sub.(inbox := s1.inbox, queue := s1.queue, receiving := s1.receiving)
    ensures Within(c.(sub := Finish(s1, c.clock), doubled := 0, doubles := c.doubles + [c.doubled]))
    ensures Finish(s1, c.clock).running.None?
  {
    var p := s1.running.value.(finish := c.clock, remaining := 0, state := Done);
    assert p.finish - p.arrival == p.runtime + p.waiting - c.doubled;
  }

  /** The rest of the loop body, for a CPU whose child, if any, is to run on. */
  lemma BodyBalanced(c: Cpu)
    requires Runs(c)
    ensures CpuOk(c.(sub := Grant(Dispatch(Unstall(Drain(c.sub), c.clock), c.clock)), done := true))
  {
    DrainSupplied(c.sub);
    var c1 := c.(sub := Drain(c.sub));
    UnstallBalanced(c1);
    var c2 := c1.(sub := Unstall(c1.sub, c.clock));
    DispatchBalanced(c2);
    GrantBalanced(c2.(sub := Dispatch(c2.sub, c.clock)));
  }

  predicate Runs(c: Cpu) {
    Within(c) && !c.done && (c.sub.running.Some? ==> c.sub.shm > 0)
  }

  lemma UnstallBalanced(c: Cpu)
    requires Runs(c)
    ensures Runs(c.(sub := Unstall(c.sub, c.clock)))
  {
  }

  lemma DispatchBalanced(c: Cpu)
    requires Runs(c)
    ensures Runs(c.(sub := Dispatch(c.sub, c.clock)))
  {
    if c.sub.queue != [] {
      assert Fresh(c.sub.queue[0]);
    }
  }

  lemma GrantBalanced(c: Cpu)
    requires Runs(c)
    ensures CpuOk(c.(sub := Grant(c.sub), done := true))
  {
  }

  lemma LoopBalanced(c: Cpu)
    requires CpuOk(c) && !c.done
    ensures CpuOk(Happen(c, Loops))
  {
    DrainSupplied(c.sub);
    var s1 := Drain(c.sub);
    if Exits(c) {
      FinishBalanced(c, s1);
      BodyBalanced(c.(sub := Finish(s1, c.clock), doubled := 0, doubles := c.doubles + [c.doubled]));
    } else {
      assert Finish(s1, c.clock) == s1;
      BodyBalanced(c.(sub := s1));
    }
  }

  lemma HappenBalanced(c: Cpu, e: Event)
    requires CpuOk(c) && (e.Arrives? ==> HasRuntime(e.m))
    ensures CpuOk(Happen(c, e))
  {
    match e {
      case Arrives(m) =>
      case Steals => StealBalanced(c);
      case Stalls => StallBalanced(c);
      case Loops => if !c.done { LoopBalanced(c); }
      case Passes =>
    }
  }

  predicate AllHaveRuntime(events: seq<Event>) {
    forall i :: 0 <= i < |events| && events[i].Arrives? ==> HasRuntime(events[i].m)
  }

  lemma {:induction false} AlwaysBalanced(events: seq<Event>)
    requires AllHaveRuntime(events)
    ensures CpuOk(CpuAfter(events))
  {
    if events != [] {
      AlwaysBalanced(events[..|events| - 1]);
      HappenBalanced(CpuAfter(events[..|events| - 1]), events[|events| - 1]);
    }
  }

  // ---- The theorems ----------------------------------------------------------------

  /** After any sequence of events: turnaround is runtime plus waiting time, the
      stalls included, less one tick for every stall signal that came in a tick
      which the process had already used; so the account is exact if and only if
      there was none. */
  lemma TurnaroundExactly(events: seq<Event>, i: nat)
    requires AllHaveRuntime(events) && i < |CpuAfter(events).sub.finished|
    ensures var c := CpuAfter(events); var p := c.sub.finished[i];
      && |c.doubles| == |c.sub.finished|
      && p.finish - p.arrival == p.runtime + p.waiting - c.doubles[i]
      && (Accounted(p) <==> c.doubles[i] == 0)
  {
    AlwaysBalanced(events);
  }

  /** The same for the process on the CPU, up to now or to its stop. */
  lemma RunningExactly(events: seq<Event>)
    requires AllHaveRuntime(events) && CpuAfter(events).sub.running.Some?
    ensures var c := CpuAfter(events); var p := c.sub.running.value;
      var upto := if c.sub.stalled && c.sub.shm > 0 then p.lastStopped else Upto(c);
      upto - p.arrival == p.waiting + (p.runtime - c.sub.shm) - c.doubled
  {
    AlwaysBalanced(events);
  }

  /** No stall signal comes after the loop body of its tick. */
  predicate Prompt(events: seq<Event>) {
    forall i :: 0 <= i < |events| && events[i].Stalls? ==> !StopsLate(CpuAfter(events[..i]))
  }

  lemma {:induction false} PromptNeverDoubles(events: seq<Event>)
    requires Prompt(events)
    ensures CpuAfter(events).doubled == 0 && forall i :: 0 <= i < |CpuAfter(events).doubles| ==> CpuAfter(events).doubles[i] == 0
  {
    if events != [] {
      var before := events[..|events| - 1];
      assert Prompt(before) by {
        forall i | 0 <= i < |before| && before[i].Stalls? ensures !StopsLate(CpuAfter(before[..i])) {
          assert before[..i] == events[..i] && events[i] == before[i];
        }
      }
      PromptNeverDoubles(before);
    }
  }

  /** Without such a signal every process is accounted for in full. */
  lemma PromptStallsConserve(events: seq<Event>, i: nat)
    requires AllHaveRuntime(events) && Prompt(events) && i < |CpuAfter(events).sub.finished|
    ensures Accounted(CpuAfter(events).sub.finished[i])
  {
    TurnaroundExactly(events, i);
    PromptNeverDoubles(events);
  }
  lemma Next(events: seq<Event>, c: Cpu, e: Event) returns (events': seq<Event>, c': Cpu)
    requires AllHaveRuntime(events) && c == CpuAfter(events) && (e.Arrives? ==> HasRuntime(e.m))
    ensures AllHaveRuntime(events') && c' == CpuAfter(events') && c' == Happen(c, e)
  {
    events', c' := events + [e], Happen(c, e);
    assert events'[..|events'| - 1] == events;
  }

  /** The loop body, if no message has come and nobody waits in the queue. */
  lemma QuietLoop(c: Cpu)
    requires !c.done && c.sub.inbox == [] && c.sub.queue == []
    ensures Happen(c, Loops) ==
              var s := Finish(c.sub, c.clock);
              c.(sub := Grant(Unstall(s, c.clock)), done := true, doubled := if Exits(c) then 0 else c.doubled,
                 doubles := if Exits(c) then c.doubles + [c.doubled] else c.doubles)
  {
  }

  /** The loop body in which the first process comes and is dispatched. */
  lemma FirstLoop(c: Cpu, d: Data)
    requires !c.done && c.sub == NEW_SUB.(inbox := [New(d)]) && c.clock > 0 && d.runtime > 0
    ensures Happen(c, Loops) ==
              c.(sub := NEW_SUB.(running := Some(FromData(d).(start := c.clock, waiting := c.clock - d.arrival,
                                                              forked := true, state := Running)),
                                 shm := d.runtime - 1),
                 done := true)
  {
    var s1 := NEW_SUB.(queue := [FromData(d)]);
    assert c.sub.inbox[1..] == [] && [] + [FromData(d)] == [FromData(d)];
    assert Drain(c.sub) == s1;
    assert s1.queue[1..] == [];
  }

  /** One does occur: a process of two ticks is stopped in its first, after it has
      run; it waits for three ticks and has finished four after its arrival. */
  lemma LateStallDoubles() returns (events: seq<Event>)
    ensures AllHaveRuntime(events)
    ensures var done := CpuAfter(events).sub.finished;
      |done| == 1 && done[0].runtime == 2 && done[0].waiting == 3 && done[0].finish - done[0].arrival == 4
  {
    var d := Data(1, 1, 2, 0);
    var c := START;
    events := [];
    QuietLoop(c);
    events, c := Next(events, c, Loops);
    events, c := Next(events, c, Passes);
    events, c := Next(events, c, Arrives(New(d)));
    FirstLoop(c, d);
    events, c := Next(events, c, Loops);
    events, c := Next(events, c, Stalls);
    events, c := WaitsFor(events, c, 1);
    events, c := WaitsFor(events, c, 2);
    events, c := Next(events, c, Passes);
    QuietLoop(c);
    events, c := Next(events, c, Loops);
    events, c := Next(events, c, Passes);
    QuietLoop(c);
    events, c := Next(events, c, Loops);
  }

  /** A tick of the stall. */
  lemma WaitsFor(events: seq<Event>, c: Cpu, now: int) returns (events': seq<Event>, c': Cpu)
    requires AllHaveRuntime(events) && c == CpuAfter(events) && c.done && c.clock == now
    requires c.sub.inbox == [] && c.sub.queue == [] && c.sub.stalled && c.sub.stallEnd > now + 1 && c.sub.shm > 0
    ensures AllHaveRuntime(events') && c' == CpuAfter(events') && c' == c.(clock := now + 1)
  {
    events', c' := Next(events, c, Passes);
    QuietLoop(c');
    events', c' := Next(events', c', Loops);
  }
}
