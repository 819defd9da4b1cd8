/** Dual-CPU FCFS with work stealing: the main scheduler, two sub-schedulers
    and the message queues between them, as a transition system whose steps
    may interleave in any order. */
module Stealing {
  import opened Common
  import opened Routing

  datatype Message = New(d: Data) | Terminate

  /** A sub-scheduler's answer to a steal signal (types 11 and 12). */
  datatype Reply = Stolen(d: Data) | Nothing

  /** `shm` is the remaining time of the running child. */
  datatype Sub = Sub(
    inbox: seq<Message>, queue: seq<Pcb>, running: Option<Pcb>, shm: int, receiving: bool,
    stalled: bool, stallEnd: int, switchUntil: int, finished: seq<Pcb>)

  /** What the main scheduler is doing in check_threshold. */
  datatype Phase = Idle | Awaiting(busier: nat) | Moving(d: Data, lighter: nat)

  /** `signals` and `stalls` are the CPUs with a steal or a stall signal pending. */
  datatype System = System(
    incoming: seq<Data>, ready: seq<Pcb>, sub0: Sub, sub1: Sub,
    replies: seq<Reply>, signals: set<nat>, stalls: set<nat>, phase: Phase)

  const NEW_SUB := Sub([], [], None, 0, true, false, -1, -1, [])

  function Boot(jobs: seq<Data>): System {
    System(jobs, [], NEW_SUB, NEW_SUB, [], {}, {}, Idle)
  }

  function Get(s: System, i: nat): Sub {
    if i == 0 then s.sub0 else s.sub1
  }

  function Set(s: System, i: nat, x: Sub): System {
    if i == 0 then s.(sub0 := x) else s.(sub1 := x)
  }

  // ---- The sub-scheduler -----------------------------------------------------

  /** The loop that empties the message queue; a termination message ends it. */
  function Drain(s: Sub): Sub
    decreases |s.inbox|
  {
    if s.inbox == [] then s
    else
      var rest := s.(inbox := s.inbox[1..]);
      match s.inbox[0]
      case New(d) => Drain(rest.(queue := s.queue + [FromData(d)]))
      case Terminate => rest.(receiving := false)
  }

  /** steal_handler: the rear of the drained ready queue is given away. */
  function StealHandler(s: Sub): (Sub, Reply) {
    var s1 := Drain(s);
    if s1.queue == [] then (s1, Nothing)
    else
      var last := |s1.queue| - 1;
      (s1.(queue := s1.queue[..last]), Stolen(ToData(s1.queue[last])))
  }

  /** stall_sig */
  function StallSignal(s: Sub, now: int): Sub {
    var s1 := if !s.stalled && s.running.Some? && s.running.value.forked
              then s.(running := Some(s.running.value.(lastStopped := now, remaining := s.shm, state := Waiting)))
              else s;
    Drain(s1.(stalled := true)).(stallEnd := now + 3)
  }

  /** The end of a stall. */
  function Unstall(s: Sub, now: int): Sub {
    if !s.stalled || now < s.stallEnd then s
    else
      var s1 := s.(stalled := false);
      if s.running.None? || !s.running.value.forked then s1
      else
        var c := s.running.value;
        s1.(running := Some(c.(waiting := c.waiting + (if c.lastStopped >= 0 then now - c.lastStopped else 0),
                               state := Running)))
  }

  /** FCFS_algo and runProcess of the sub-scheduler. */
  function Dispatch(s: Sub, now: int): Sub {
    if s.running.Some? || s.queue == [] || s.stalled || (s.switchUntil != -1 && now < s.switchUntil) || now <= 0 then s
    else
      var c := s.queue[0];
      var c1 := if c.start == -1 then c.(start := now, waiting := now - c.arrival) else c;
      s.(queue := s.queue[1..], running := Some(c1.(forked := true, state := Running)), shm := c.remaining,
         switchUntil := -1)
  }

  /** One tick of the child. */
  function Grant(s: Sub): Sub {
    if s.running.None? || s.stalled || s.shm <= 0 then s else s.(shm := s.shm - 1)
  }

  /** finishLogic, for a child that has exited. */
  function Finish(s: Sub, now: int): Sub {
    if s.running.None? || s.shm > 0 then s
    else
      var c := s.running.value.(finish := now, remaining := 0, state := Done);
      s.(running := None, switchUntil := now + 1, finished := s.finished + [c])
  }

  /** One tick of the sub-scheduler's main loop: the steps below in their order. */
  function Tick(s: Sub, now: int): Sub {
    Grant(Dispatch(Unstall(Drain(Finish(Drain(s), now)), now), now))
  }

  // ---- The steps -------------------------------------------------------------

  datatype Step =
    | Arrive
    | RouteAll(c1: int, c2: int, rt1: int, rt2: int)
    | DrainStep(cpu: nat)
    | DispatchStep(cpu: nat, now: int)
    | GrantStep(cpu: nat)
    | FinishStep(cpu: nat, now: int)
    | UnstallStep(cpu: nat, now: int)
    | Threshold(rt1: int, rt2: int, limit: int)
    | HandleSteal(cpu: nat)
    | TakeReply
    | Forward
    | HandleStall(cpu: nat, now: int)
    | EndInput

  function Messages(ds: seq<Data>): (r: seq<Message>)
    ensures |r| == |ds| && forall i :: 0 <= i < |ds| ==> r[i] == New(ds[i])
  {
    seq(|ds|, i requires 0 <= i < |ds| => New(ds[i]))
  }

  /** Whether the step can happen; the numbers from the load memory are free,
      for what it holds may be out of date. */
  predicate Enabled(s: System, step: Step) {
    match step
    case Arrive => s.incoming != [] && s.phase.Idle?
    case RouteAll(_, _, _, _) => s.phase.Idle?
    case DrainStep(i) => i < 2
    case DispatchStep(i, _) => i < 2
    case GrantStep(i) => i < 2
    case FinishStep(i, _) => i < 2
    case UnstallStep(i, _) => i < 2
    case Threshold(rt1, rt2, limit) => s.phase.Idle? && Abs(rt1 - rt2) > limit
    case HandleSteal(i) => i < 2 && i in s.signals
    case TakeReply => s.phase.Awaiting? && s.replies != []
    case Forward => s.phase.Moving?
    case HandleStall(i, _) => i < 2 && i in s.stalls
    case EndInput => s.incoming == [] && s.phase.Idle?
  }

  function Abs(x: int): int {
    if x < 0 then -x else x
  }

  function Plan0(c1: int, c2: int, rt1: int, rt2: int): Plan {
    Plan(c1, c2, rt1, rt2, [], [])
  }

  function Deliver(s: System, to0: seq<Message>, to1: seq<Message>): System {
    s.(sub0 := s.sub0.(inbox := s.sub0.inbox + to0), sub1 := s.sub1.(inbox := s.sub1.inbox + to1))
  }

  function Perform(s: System, step: Step): System {
    match step
    case Arrive => if s.incoming == [] then s
                   else s.(incoming := s.incoming[1..], ready := s.ready + [FromData(s.incoming[0])])
    case RouteAll(c1, c2, rt1, rt2) =>
      var plan := Route(Plan0(c1, c2, rt1, rt2), Datas(s.ready));
      Deliver(s.(ready := []), Messages(plan.to1), Messages(plan.to2))
    case DrainStep(i) => Set(s, i, Drain(Get(s, i)))
    case DispatchStep(i, now) => Set(s, i, Dispatch(Get(s, i), now))
    case GrantStep(i) => Set(s, i, Grant(Get(s, i)))
    case FinishStep(i, now) => Set(s, i, Finish(Get(s, i), now))
    case UnstallStep(i, now) => Set(s, i, Unstall(Get(s, i), now))
    case Threshold(rt1, rt2, _) =>
      var busier := if rt1 > rt2 then 0 else 1;
      s.(phase := Awaiting(busier), signals := s.signals + {busier})
    case HandleSteal(i) =>
      var (sub, reply) := StealHandler(Get(s, i));
      Set(s, i, sub).(signals := s.signals - {i}, replies := s.replies + [reply])
    case TakeReply =>
      if s.replies == [] || !s.phase.Awaiting? then s
      else
        var next := match s.replies[0]
                    case Stolen(d) => Moving(d, 1 - (if s.phase.busier == 0 then 0 else 1))
                    case Nothing => Idle;
        s.(replies := s.replies[1..], phase := next)
    case Forward =>
      if !s.phase.Moving? then s
      else
        var m := [New(s.phase.d)];
        var s1 := if s.phase.lighter == 0 then Deliver(s, m, []) else Deliver(s, [], m);
        s1.(phase := Idle, stalls := {0, 1})
    case HandleStall(i, now) => Set(s, i, StallSignal(Get(s, i), now)).(stalls := s.stalls - {i})
    case EndInput => Deliver(s, [Terminate], [Terminate])
  }

  function After(jobs: seq<Data>, steps: seq<Step>): System {
    if steps == [] then Boot(jobs) else Perform(After(jobs, steps[..|steps| - 1]), steps[|steps| - 1])
  }

  predicate AllEnabled(jobs: seq<Data>, steps: seq<Step>) {
    steps != [] ==>
      AllEnabled(jobs, steps[..|steps| - 1]) && Enabled(After(jobs, steps[..|steps| - 1]), steps[|steps| - 1])
  }

  // ---- Where a process is ----------------------------------------------------

  function InMail(inbox: seq<Message>, d: Data): nat {
    if inbox == [] then 0 else (if inbox[0] == New(d) then 1 else 0) + InMail(inbox[1..], d)
  }

  function InReplies(rs: seq<Reply>, d: Data): nat {
    if rs == [] then 0 else (if rs[0] == Stolen(d) then 1 else 0) + InReplies(rs[1..], d)
  }

  function InList(cs: seq<Pcb>, d: Data): nat {
    multiset(Datas(cs))[d]
  }

  function OnCpu(s: Sub, d: Data): nat {
    if s.running.Some? && ToData(s.running.value) == d then 1 else 0
  }

  /** How often d is with a sub-scheduler, its mailbox included. */
  function InSub(s: Sub, d: Data): nat {
    InMail(s.inbox, d) + InList(s.queue, d) + OnCpu(s, d) + InList(s.finished, d)
  }

  function InTransit(s: System, d: Data): nat {
    InReplies(s.replies, d) + (if s.phase.Moving? && s.phase.d == d then 1 else 0)
  }

  /** In how many places d is. */
  function Places(s: System, d: Data): nat {
    multiset(s.incoming)[d] + InList(s.ready, d) + InSub(s.sub0, d) + InSub(s.sub1, d) + InTransit(s, d)
  }

  // ---- What every step keeps -------------------------------------------------

  /** Who waits in a queue has never run; who is on the CPU has. */
  ghost predicate SubOk(s: Sub) {
    && (forall c :: c in s.queue ==> Unstarted(c))
    && (s.running.Some? ==> s.running.value.forked && s.running.value.start >= 0)
  }

  /** At most one steal is under way, and its answer is the only one. */
  predicate Protocol(s: System) {
    match s.phase
    case Idle => s.signals == {} && s.replies == []
    case Awaiting(b) => b < 2 && ((s.signals == {b} && s.replies == []) || (s.signals == {} && |s.replies| == 1))
    case Moving(_, l) => l < 2 && s.signals == {} && s.replies == []
  }

  ghost predicate Inv(s: System) {
    && (forall c :: c in s.ready ==> Unstarted(c))
    && SubOk(s.sub0) && SubOk(s.sub1)
    && Protocol(s)
  }

  lemma ListAppend(a: seq<Pcb>, c: Pcb, d: Data)
    ensures InList(a + [c], d) == InList(a, d) + (if ToData(c) == d then 1 else 0)
  {
    assert Datas(a + [c]) == Datas(a) + [ToData(c)];
  }

  lemma ListFront(a: seq<Pcb>, d: Data)
    requires a != []
    ensures InList(a, d) == InList(a[1..], d) + (if ToData(a[0]) == d then 1 else 0)
  {
    assert Datas(a) == [ToData(a[0])] + Datas(a[1..]);
  }

  lemma {:induction false} MailAppend(a: seq<Message>, b: seq<Message>, d: Data)
    ensures InMail(a + b, d) == InMail(a, d) + InMail(b, d)
  {
    if a == [] {
      assert a + b == b;
    } else {
      assert (a + b)[1..] == a[1..] + b;
      MailAppend(a[1..], b, d);
    }
  }

  lemma {:induction false} MailOfData(ds: seq<Data>, d: Data)
    ensures InMail(Messages(ds), d) == multiset(ds)[d]
  {
    if ds != [] {
      assert Messages(ds)[1..] == Messages(ds[1..]);
      assert ds == [ds[0]] + ds[1..];
      MailOfData(ds[1..], d);
    }
  }

  lemma {:induction false} DrainKeeps(s: Sub, d: Data)
    requires SubOk(s)
    ensures var s' := Drain(s);
      && SubOk(s') && InSub(s', d) == InSub(s, d)
      && s' == s.(inbox := s'.inbox, queue := s'.queue, receiving := s'.receiving)
    decreases |s.inbox|
  {
    if s.inbox != [] && s.inbox[0].New? {
      var c := FromData(s.inbox[0].d);
      ListAppend(s.queue, c, d);
      DrainKeeps(s.(inbox := s.inbox[1..], queue := s.queue + [c]), d);
    }
  }

  lemma StealKeeps(s: Sub, d: Data)
    requires SubOk(s)
    ensures var (s', reply) := StealHandler(s);
      && SubOk(s') && InSub(s', d) + (if reply == Stolen(d) then 1 else 0) == InSub(s, d)
      && s'.running == s.running && s'.finished == s.finished
  {
    DrainKeeps(s, d);
    var s1 := Drain(s);
    if s1.queue != [] {
      var last := |s1.queue| - 1;
      assert s1.queue == s1.queue[..last] + [s1.queue[last]];
      ListAppend(s1.queue[..last], s1.queue[last], d);
    }
  }

  lemma DispatchKeeps(s: Sub, now: int, d: Data)
    requires SubOk(s)
    ensures var s' := Dispatch(s, now);
      && SubOk(s') && InSub(s', d) == InSub(s, d)
      && OnCpu(s, d) <= OnCpu(s', d) && s'.finished == s.finished
  {
    if s.queue != [] {
      assert s.queue[0] in s.queue;
      ListFront(s.queue, d);
    }
  }

  lemma FinishKeeps(s: Sub, now: int, d: Data)
    requires SubOk(s)
    ensures var s' := Finish(s, now);
      && SubOk(s') && InSub(s', d) == InSub(s, d)
      && OnCpu(s', d) + InList(s'.finished, d) == OnCpu(s, d) + InList(s.finished, d)
  {
    if s.running.Some? && s.shm <= 0 {
      ListAppend(s.finished, s.running.value.(finish := now, remaining := 0, state := Done), d);
    }
  }

  lemma StallKeeps(s: Sub, now: int, d: Data)
    requires SubOk(s)
    ensures var s' := StallSignal(s, now);
      SubOk(s') && InSub(s', d) == InSub(s, d) && OnCpu(s', d) == OnCpu(s, d) && s'.finished == s.finished
  {
    var s1 := if !s.stalled && s.running.Some? && s.running.value.forked
              then s.(running := Some(s.running.value.(lastStopped := now, remaining := s.shm, state := Waiting)))
              else s;
    DrainKeeps(s1.(stalled := true), d);
  }

  lemma DeliverAdds(s: System, to0: seq<Message>, to1: seq<Message>, d: Data)
    ensures Places(Deliver(s, to0, to1), d) == Places(s, d) + InMail(to0, d) + InMail(to1, d)
  {
    InboxAdds(s.sub0, to0, d);
    InboxAdds(s.sub1, to1, d);
    PlacesInSubs(s, Deliver(s, to0, to1), d);
  }

  /** When only the sub-schedulers change, the places within them do. */
  lemma PlacesInSubs(s: System, s': System, d: Data)
    requires s'.incoming == s.incoming && s'.ready == s.ready && s'.replies == s.replies && s'.phase == s.phase
    ensures Places(s', d) - InSub(s'.sub0, d) - InSub(s'.sub1, d) == Places(s, d) - InSub(s.sub0, d) - InSub(s.sub1, d)
  {
  }

  lemma InboxAdds(x: Sub, to: seq<Message>, d: Data)
    ensures InSub(x.(inbox := x.inbox + to), d) == InSub(x, d) + InMail(to, d)
  {
    MailAppend(x.inbox, to, d);
  }

  /** Routing sends every queued process to one of the mailboxes. */
  lemma RouteKeeps(s: System, c1: int, c2: int, rt1: int, rt2: int, d: Data)
    ensures Places(Perform(s, RouteAll(c1, c2, rt1, rt2)), d) == Places(s, d)
  {
    var q := Datas(s.ready);
    var plan := Route(Plan0(c1, c2, rt1, rt2), q);
    RouteSends(plan, q, c1, c2, rt1, rt2, d);
    var s1 := s.(ready := []);
    DeliverAdds(s1, Messages(plan.to1), Messages(plan.to2), d);
  }

  lemma RouteSends(plan: Plan, q: seq<Data>, c1: int, c2: int, rt1: int, rt2: int, d: Data)
    requires plan == Route(Plan0(c1, c2, rt1, rt2), q)
    ensures InMail(Messages(plan.to1), d) + InMail(Messages(plan.to2), d) == multiset(q)[d]
  {
    RouteConserves(Plan0(c1, c2, rt1, rt2), q);
    MailOfData(plan.to1, d);
    MailOfData(plan.to2, d);
    assert (multiset(plan.to1) + multiset(plan.to2))[d] == multiset(q)[d];
  }

  /** A whole tick of a sub-scheduler neither loses nor duplicates a process, and
      what was started there stays there. */
  lemma TickKeeps(s: Sub, now: int, d: Data)
    requires SubOk(s)
    ensures var s' := Tick(s, now);
      && SubOk(s') && InSub(s', d) == InSub(s, d)
      && OnCpu(s, d) + InList(s.finished, d) <= OnCpu(s', d) + InList(s'.finished, d)
  {
    DrainKeeps(s, d);
    var s1 := Drain(s);
    FinishKeeps(s1, now, d);
    var s2 := Finish(s1, now);
    DrainKeeps(s2, d);
    var s3 := Unstall(Drain(s2), now);
    UnstallKeeps(Drain(s2), now, d);
    DispatchKeeps(s3, now, d);
    GrantKeeps(Dispatch(s3, now), d);
  }

  lemma UnstallKeeps(s: Sub, now: int, d: Data)
    requires SubOk(s)
    ensures var s' := Unstall(s, now);
      SubOk(s') && InSub(s', d) == InSub(s, d) && OnCpu(s', d) == OnCpu(s, d) && s'.finished == s.finished
  {
  }

  lemma GrantKeeps(s: Sub, d: Data)
    requires SubOk(s)
    ensures var s' := Grant(s);
      SubOk(s') && InSub(s', d) == InSub(s, d) && OnCpu(s', d) == OnCpu(s, d) && s'.finished == s.finished
  {
  }

  /** A step inside one sub-scheduler. */
  lemma InsideKeeps(s: System, i: nat, x: Sub, d: Data)
    requires Inv(s) && i < 2 && SubOk(x) && InSub(x, d) == InSub(Get(s, i), d)
    ensures Inv(Set(s, i, x)) && Places(Set(s, i, x), d) == Places(s, d)
  {
    PlacesInSubs(s, Set(s, i, x), d);
  }

  lemma ArriveKeeps(s: System, d: Data)
    requires Inv(s) && s.incoming != []
    ensures Inv(Perform(s, Arrive)) && Places(Perform(s, Arrive), d) == Places(s, d)
  {
    ListAppend(s.ready, FromData(s.incoming[0]), d);
    assert s.incoming == [s.incoming[0]] + s.incoming[1..];
  }

  lemma HandleStealKeeps(s: System, i: nat, d: Data)
    requires Inv(s) && i < 2 && i in s.signals
    ensures Inv(Perform(s, HandleSteal(i))) && Places(Perform(s, HandleSteal(i)), d) == Places(s, d)
  {
    StealKeeps(Get(s, i), d);
    var (x, reply) := StealHandler(Get(s, i));
    assert s.replies == [];
    assert InReplies([reply], d) == if reply == Stolen(d) then 1 else 0;
    Answered(s, i, x, reply, d);
  }

  lemma Answered(s: System, i: nat, x: Sub, reply: Reply, d: Data)
    requires Inv(s) && i < 2 && i in s.signals && SubOk(x)
    requires InSub(x, d) + (if reply == Stolen(d) then 1 else 0) == InSub(Get(s, i), d)
    ensures var s' := Set(s, i, x).(signals := s.signals - {i}, replies := s.replies + [reply]);
      Inv(s') && Places(s', d) == Places(s, d)
  {
    assert s.replies + [reply] == [reply] && [reply][1..] == [];
    assert s.signals - {i} == {};
  }

  lemma TakeReplyKeeps(s: System, d: Data)
    requires Inv(s) && s.phase.Awaiting? && s.replies != []
    ensures Inv(Perform(s, TakeReply)) && Places(Perform(s, TakeReply), d) == Places(s, d)
  {
    assert s.replies[1..] == [];
  }

  lemma ForwardKeeps(s: System, d: Data)
    requires Inv(s) && s.phase.Moving?
    ensures Inv(Perform(s, Forward)) && Places(Perform(s, Forward), d) == Places(s, d)
  {
    var m := [New(s.phase.d)];
    assert m[1..] == [];
    var s1 := s.(phase := Idle, stalls := {0, 1});
    DeliverAdds(s1, m, [], d);
    DeliverAdds(s1, [], m, d);
  }

  lemma EndKeeps(s: System, d: Data)
    requires Inv(s)
    ensures Inv(Perform(s, EndInput)) && Places(Perform(s, EndInput), d) == Places(s, d)
  {
    DeliverAdds(s, [Terminate], [Terminate], d);
  }

  /** Every step keeps the invariant and the number of places of every process. */
  lemma StepKeeps(s: System, step: Step, d: Data)
    requires Inv(s) && Enabled(s, step)
    ensures Inv(Perform(s, step)) && Places(Perform(s, step), d) == Places(s, d)
  {
    match step {
      case Arrive => ArriveKeeps(s, d);
      case RouteAll(c1, c2, rt1, rt2) => RouteKeeps(s, c1, c2, rt1, rt2, d);
      case Threshold(_, _, _) => ThresholdKeeps(s, step, d);
      case HandleSteal(i) => HandleStealKeeps(s, i, d);
      case TakeReply => TakeReplyKeeps(s, d);
      case Forward => ForwardKeeps(s, d);
      case EndInput => EndKeeps(s, d);
      case _ => SubStepKeeps(s, step, d);
    }
  }

  lemma ThresholdKeeps(s: System, step: Step, d: Data)
    requires Inv(s) && Enabled(s, step) && step.Threshold?
    ensures Inv(Perform(s, step)) && Places(Perform(s, step), d) == Places(s, d)
  {
  }

  predicate IsSubStep(step: Step) {
    step.DrainStep? || step.DispatchStep? || step.GrantStep? || step.FinishStep? || step.UnstallStep? || step.HandleStall?
  }

  /** The steps of one sub-scheduler alone. */
  lemma SubStepKeeps(s: System, step: Step, d: Data)
    requires Inv(s) && Enabled(s, step) && IsSubStep(step)
    ensures Inv(Perform(s, step)) && Places(Perform(s, step), d) == Places(s, d)
  {
    match step {
      case DrainStep(i) => DrainKeeps(Get(s, i), d); InsideKeeps(s, i, Drain(Get(s, i)), d);
      case DispatchStep(i, now) => DispatchKeeps(Get(s, i), now, d); InsideKeeps(s, i, Dispatch(Get(s, i), now), d);
      case GrantStep(i) => InsideKeeps(s, i, Grant(Get(s, i)), d);
      case FinishStep(i, now) => FinishKeeps(Get(s, i), now, d); InsideKeeps(s, i, Finish(Get(s, i), now), d);
      case UnstallStep(i, now) => InsideKeeps(s, i, Unstall(Get(s, i), now), d);
      case HandleStall(i, now) => HandleStallKeeps(s, i, now, d);
    }
  }

  lemma HandleStallKeeps(s: System, i: nat, now: int, d: Data)
    requires Inv(s) && Enabled(s, HandleStall(i, now))
    ensures Inv(Perform(s, HandleStall(i, now))) && Places(Perform(s, HandleStall(i, now)), d) == Places(s, d)
  {
    StallKeeps(Get(s, i), now, d);
    InsideKeeps(s, i, StallSignal(Get(s, i), now), d);
  }

  lemma {:induction false} StepsKeep(jobs: seq<Data>, steps: seq<Step>, d: Data)
    requires AllEnabled(jobs, steps)
    ensures Inv(After(jobs, steps)) && Places(After(jobs, steps), d) == multiset(jobs)[d]
  {
    if steps == [] {
      assert Datas([]) == [];
    } else {
      StepsKeep(jobs, steps[..|steps| - 1], d);
      StepKeeps(After(jobs, steps[..|steps| - 1]), steps[|steps| - 1], d);
    }
  }

  // ---- The theorems ----------------------------------------------------------

  /** After any interleaving of steps every process of the input is in exactly
      one place: still to come, queued at the main scheduler, in a mailbox or
      queue of one CPU, on one CPU, finished there, or in a steal under way;
      and nothing that is not of the input is anywhere. */
  lemma ExactlyOnePlace(jobs: seq<Data>, steps: seq<Step>, d: Data)
    requires AllEnabled(jobs, steps) && Distinct(jobs)
    ensures Places(After(jobs, steps), d) == if d in jobs then 1 else 0
  {
    StepsKeep(jobs, steps, d);
    if d in jobs {
      OnceIn(jobs, d);
    }
  }

  lemma {:induction false} OnceIn(jobs: seq<Data>, d: Data)
    requires Distinct(jobs) && d in jobs
    ensures multiset(jobs)[d] == 1
  {
    assert jobs == [jobs[0]] + jobs[1..];
    if d == jobs[0] {
      assert d !in jobs[1..];
    } else {
      OnceIn(jobs[1..], d);
    }
  }

  /** Whether a CPU has started the process. */
  function StartedOn(s: System, i: nat, d: Data): nat {
    OnCpu(Get(s, i), d) + InList(Get(s, i).finished, d)
  }

  /** A process that has started never leaves its CPU. */
  lemma StartedStays(s: System, step: Step, i: nat, d: Data)
    requires Inv(s) && Enabled(s, step) && i < 2
    ensures StartedOn(s, i, d) <= StartedOn(Perform(s, step), i, d)
  {
    match step {
      case HandleSteal(j) => StealKeeps(Get(s, j), d);
      case _ =>
        if IsSubStep(step) {
          StartedInSub(s, step, i, d);
        }
    }
  }

  lemma StartedInSub(s: System, step: Step, i: nat, d: Data)
    requires Inv(s) && Enabled(s, step) && i < 2 && IsSubStep(step)
    ensures StartedOn(s, i, d) <= StartedOn(Perform(s, step), i, d)
  {
    match step {
      case DrainStep(j) => DrainKeeps(Get(s, j), d); StartedInOne(s, j, Drain(Get(s, j)), i, d);
      case DispatchStep(j, now) => DispatchKeeps(Get(s, j), now, d); StartedInOne(s, j, Dispatch(Get(s, j), now), i, d);
      case GrantStep(j) => StartedInOne(s, j, Grant(Get(s, j)), i, d);
      case FinishStep(j, now) => FinishKeeps(Get(s, j), now, d); StartedInOne(s, j, Finish(Get(s, j), now), i, d);
      case UnstallStep(j, now) => StartedInOne(s, j, Unstall(Get(s, j), now), i, d);
      case HandleStall(j, now) => StallKeeps(Get(s, j), now, d); StartedInOne(s, j, StallSignal(Get(s, j), now), i, d);
    }
  }

  lemma StartedInOne(s: System, j: nat, x: Sub, i: nat, d: Data)
    requires j < 2 && i < 2 && StartedOn(s, j, d) <= OnCpu(x, d) + InList(x.finished, d)
    ensures StartedOn(s, i, d) <= StartedOn(Set(s, j, x), i, d)
  {
  }

  /** What is stolen is the rear of the queue, has never run, and is restored by
      the receiving side exactly as it was. */
  lemma StolenIsIntact(s: Sub)
    requires SubOk(s)
    ensures var x := Drain(s); var (x', reply) := StealHandler(s);
      match reply
      case Stolen(d) => x.queue == x'.queue + [FromData(d)] && Unstarted(FromData(d))
      case Nothing => x.queue == []
  {
    DrainKeeps(s, Data(0, 0, 0, 0));
    var x := Drain(s);
    if x.queue != [] {
      var c := x.queue[|x.queue| - 1];
      assert c in x.queue;
      MessageTrip(c);
      assert x.queue == x.queue[..|x.queue| - 1] + [c];
    }
  }

  /** The protocol cannot get stuck or mixed up: a waiting main scheduler has
      exactly one thing to wait for, the signalled CPU or the one reply; and
      when no steal is under way nothing of one is left over. */
  lemma StealNeverStuck(jobs: seq<Data>, steps: seq<Step>)
    requires AllEnabled(jobs, steps)
    ensures var s := After(jobs, steps);
      match s.phase
      case Idle => s.signals == {} && s.replies == []
      case Awaiting(b) => Enabled(s, HandleSteal(b)) != Enabled(s, TakeReply)
      case Moving(_, _) => Enabled(s, Forward) && s.signals == {} && s.replies == []
  {
    StepsKeep(jobs, steps, Data(0, 0, 0, 0));
    PhaseWaits(After(jobs, steps));
  }

  lemma PhaseWaits(s: System)
    requires Protocol(s)
    ensures match s.phase
            case Idle => s.signals == {} && s.replies == []
            case Awaiting(b) => Enabled(s, HandleSteal(b)) != Enabled(s, TakeReply)
            case Moving(_, _) => Enabled(s, Forward) && s.signals == {} && s.replies == []
  {
  }
  /** The steps of one steal, undisturbed. */
  function Steal(s: System, rt1: int, rt2: int, limit: int): System {
    var s1 := Perform(s, Threshold(rt1, rt2, limit));
    var s2 := Perform(s1, HandleSteal(if rt1 > rt2 then 0 else 1));
    var s3 := Perform(s2, TakeReply);
    if s3.phase.Moving? then Perform(s3, Forward) else s3
  }

  /** From a difference in remaining time beyond the limit on, the CPU with more of
      it gives up the process at its rear, which goes to the end of the mailbox of the
      other, and both are to be stalled; only if it has none waiting, nothing happens
      but that it has read its messages. */
  lemma StealFromBusier(s: System, rt1: int, rt2: int, limit: int, b: nat)
    requires Inv(s) && Enabled(s, Threshold(rt1, rt2, limit))
    requires b < 2 && (b == 0 <==> rt1 > rt2)
    ensures (if b == 0 then rt1 - rt2 else rt2 - rt1) > limit
    ensures var s' := Steal(s, rt1, rt2, limit); var x := Drain(Get(s, b)); var y := Get(s, 1 - b);
      && s'.phase.Idle? && s'.ready == s.ready && s'.incoming == s.incoming
      && if x.queue == [] then
           Get(s', b) == x && Get(s', 1 - b) == y && s'.stalls == s.stalls
         else
           && Get(s', b) == x.(queue := x.queue[..|x.queue| - 1])
           && Get(s', 1 - b) == y.(inbox := y.inbox + [New(ToData(x.queue[|x.queue| - 1]))])
           && s'.stalls == {0, 1}
  {
    var (x', reply) := StealHandler(Get(s, b));
    Asked(s, rt1, rt2, limit, b);
    Answer(Set(s, b, x').(phase := Awaiting(b), signals := {}, replies := [reply]), Get(s, 1 - b), x', b, reply);
  }

  lemma Asked(s: System, rt1: int, rt2: int, limit: int, b: nat)
    requires Inv(s) && Enabled(s, Threshold(rt1, rt2, limit)) && b < 2 && (b == 0 <==> rt1 > rt2)
    ensures var (x', reply) := StealHandler(Get(s, b));
      Perform(Perform(s, Threshold(rt1, rt2, limit)), HandleSteal(b))
      == Set(s, b, x').(phase := Awaiting(b), signals := {}, replies := [reply])
  {
    var s1 := Perform(s, Threshold(rt1, rt2, limit));
    assert s1 == s.(phase := Awaiting(b), signals := {b});
    assert s1.signals - {b} == {};
  }

  lemma Answer(s: System, y: Sub, x: Sub, b: nat, reply: Reply)
    requires b < 2 && s.phase == Awaiting(b) && s.replies == [reply] && Get(s, b) == x && Get(s, 1 - b) == y
    ensures var s3 := Perform(s, TakeReply);
      match reply
      case Nothing => s3 == s.(replies := [], phase := Idle)
      case Stolen(d) =>
        var s4 := Perform(s3, Forward);
        && s3.phase == Moving(d, 1 - b)
        && s4.phase.Idle? && s4.ready == s.ready && s4.incoming == s.incoming && s4.stalls == {0, 1}
        && Get(s4, b) == x && Get(s4, 1 - b) == y.(inbox := y.inbox + [New(d)])
  {
    assert s.replies[1..] == [];
    assert x.inbox + [] == x.inbox;
  }
  // ---- The main scheduler's queue -------------------------------------------

  /** What the main scheduler has not routed yet is the rest of the input, in order. */
  ghost predicate RestInOrder(jobs: seq<Data>, s: System) {
    var rest := Datas(s.ready) + s.incoming;
    |rest| <= |jobs| && rest == jobs[|jobs| - |rest|..]
  }

  lemma StepInOrder(jobs: seq<Data>, s: System, step: Step)
    requires RestInOrder(jobs, s) && Enabled(s, step)
    ensures RestInOrder(jobs, Perform(s, step))
  {
    match step {
      case Arrive => ArriveInOrder(s.ready, s.incoming);
      case RouteAll(_, _, _, _) => RestOnly(jobs, Datas(s.ready), s.incoming);
      case _ =>
    }
  }

  lemma ArriveInOrder(ready: seq<Pcb>, incoming: seq<Data>)
    requires incoming != []
    ensures Datas(ready + [FromData(incoming[0])]) + incoming[1..] == Datas(ready) + incoming
  {
    assert Datas(ready + [FromData(incoming[0])]) == Datas(ready) + [incoming[0]];
    assert incoming == [incoming[0]] + incoming[1..];
  }

  lemma RestOnly(jobs: seq<Data>, a: seq<Data>, b: seq<Data>)
    requires |a + b| <= |jobs| && a + b == jobs[|jobs| - |a + b|..]
    ensures Datas([]) + b == jobs[|jobs| - |b|..]
  {
    assert b == (a + b)[|a|..];
  }

  /** Routing empties the queue: each CPU is sent its own processes, in queue order,
      behind what it was sent before; CPU 1 those for which it had no more ready
      processes than CPU 2. */
  lemma RoutedInOrder(s: System, c1: int, c2: int, rt1: int, rt2: int)
    ensures var s' := Perform(s, RouteAll(c1, c2, rt1, rt2));
      var q := Datas(s.ready); var choice := Greedy(Plan0(c1, c2, rt1, rt2), q);
      && s'.ready == [] && s'.incoming == s.incoming
      && s'.sub0 == s.sub0.(inbox := s.sub0.inbox + Messages(Select(q, choice, true)))
      && s'.sub1 == s.sub1.(inbox := s.sub1.inbox + Messages(Select(q, choice, false)))
  {
    var q := Datas(s.ready);
    RouteKeepsOrder(Plan0(c1, c2, rt1, rt2), q);
    assert [] + Select(q, Greedy(Plan0(c1, c2, rt1, rt2), q), true) == Select(q, Greedy(Plan0(c1, c2, rt1, rt2), q), true);
    assert [] + Select(q, Greedy(Plan0(c1, c2, rt1, rt2), q), false) == Select(q, Greedy(Plan0(c1, c2, rt1, rt2), q), false);
  }

  /** After any interleaving the main scheduler takes jobs in the order of the input;
      it sends them on in that order, too (see RoutedInOrder). */
  lemma {:induction false} InputInOrder(jobs: seq<Data>, steps: seq<Step>)
    requires AllEnabled(jobs, steps)
    ensures RestInOrder(jobs, After(jobs, steps))
  {
    if steps == [] {
      assert Datas([]) + jobs == jobs;
    } else {
      InputInOrder(jobs, steps[..|steps| - 1]);
      StepInOrder(jobs, After(jobs, steps[..|steps| - 1]), steps[|steps| - 1]);
    }
  }

  // ---- The end of the input --------------------------------------------------

  /** The sub-scheduler has been, or will be, told that no process comes any more. */
  predicate Told(s: Sub) {
    !s.receiving || Terminate in s.inbox
  }

  lemma {:induction false} DrainTold(s: Sub)
    ensures Told(Drain(s)) == Told(s)
    decreases |s.inbox|
  {
    if s.inbox != [] {
      assert s.inbox == [s.inbox[0]] + s.inbox[1..];
      if s.inbox[0].New? {
        DrainTold(s.(inbox := s.inbox[1..], queue := s.queue + [FromData(s.inbox[0].d)]));
      }
    }
  }

  /** Both are told or none is, and not while jobs are still to come. */
  ghost predicate ToldInTime(s: System) {
    Told(s.sub0) == Told(s.sub1) && (Told(s.sub0) ==> s.incoming == [])
  }

  lemma SubTold(x: Sub, now: int)
    ensures Told(Dispatch(x, now)) == Told(x) && Told(Grant(x)) == Told(x) && Told(Finish(x, now)) == Told(x)
    ensures Told(Unstall(x, now)) == Told(x) && Told(StallSignal(x, now)) == Told(x) && Told(StealHandler(x).0) == Told(x)
  {
    DrainTold(x);
    var s1 := if !x.stalled && x.running.Some? && x.running.value.forked
              then x.(running := Some(x.running.value.(lastStopped := now, remaining := x.shm, state := Waiting)))
              else x;
    DrainTold(s1.(stalled := true));
  }

  /** It stays so. */
  lemma StepTold(s: System, step: Step)
    requires Enabled(s, step) && ToldInTime(s)
    ensures ToldInTime(Perform(s, step))
    ensures Told(Perform(s, step).sub0) == (Told(s.sub0) || step.EndInput?)
  {
    match step {
      case DrainStep(i) => DrainTold(Get(s, i));
      case DispatchStep(i, now) => SubTold(Get(s, i), now);
      case GrantStep(i) => SubTold(Get(s, i), 0);
      case FinishStep(i, now) => SubTold(Get(s, i), now);
      case UnstallStep(i, now) => SubTold(Get(s, i), now);
      case HandleSteal(i) => SubTold(Get(s, i), 0);
      case HandleStall(i, now) => SubTold(Get(s, i), now);
      case _ =>
    }
  }

  /** After any interleaving: the sub-schedulers have been told of the end of the
      input, both at once, exactly if the main scheduler has sent it out, and then no
      job is still to come. */
  lemma {:induction false} ToldAfterInput(jobs: seq<Data>, steps: seq<Step>)
    requires AllEnabled(jobs, steps)
    ensures ToldInTime(After(jobs, steps))
    ensures Told(After(jobs, steps).sub0) <==> EndInput in steps
  {
    if steps != [] {
      assert steps == steps[..|steps| - 1] + [steps[|steps| - 1]];
      ToldAfterInput(jobs, steps[..|steps| - 1]);
      StepTold(After(jobs, steps[..|steps| - 1]), steps[|steps| - 1]);
    }
  }
}
