/** The preemptive highest-priority-first scheduler in lock-step ticks. A
    smaller number is a higher priority. */
module Hpf {
  import opened Common
  import opened PcbQueue
  import Statistics

  /** `shm` is the remaining time of the running child, which it updates. */
  datatype State = State(
    clock: int, ready: seq<Pcb>, running: Option<Pcb>, shm: int, finishSignal: bool,
    switchUntil: int, incoming: seq<Job>, receiving: bool,
    perf: Statistics.Perf, finished: seq<Pcb>)

  function Boot(jobs: seq<Job>): State {
    State(0, [], None, 0, false, -1, jobs, true, Statistics.INITIAL, [])
  }

  function Finish(s: State): State {
    if s.running.None? || !s.finishSignal then s
    else
      var c := s.running.value.(finish := s.clock, remaining := s.shm, state := Done);
      s.(running := None, finishSignal := false, switchUntil := s.clock + 1,
         perf := Statistics.Record(s.perf, c), finished := s.finished + [c])
  }

  /** The next job of the input enters the queue by priority. */
  function AdmitNext(s: State): State
    requires s.incoming != []
  {
    s.(ready := Insert(s.ready, CreatePcb(s.incoming[0])), incoming := s.incoming[1..])
  }

  /** ... and all that have arrived. */
  function Admit(s: State): State
    decreases |s.incoming|
  {
    if s.incoming == [] || s.incoming[0].arrival > s.clock then s
    else Admit(AdmitNext(s))
  }

  function Receive(jobs: seq<Job>, s: State): State {
    var s1 := Admit(s);
    if s.clock <= LastArrival(jobs) then s1 else s1.(receiving := false)
  }

  /** runProcess */
  function Dispatched(c: Pcb, now: int): Pcb {
    var c1 := if c.start == -1 then c.(start := now, waiting := now - c.arrival) else c;
    if c.forked
    then c1.(waiting := c1.waiting + (if c1.lastStopped >= 0 then now - c1.lastStopped else 0), state := Running)
    else c1.(forked := true, state := Running)
  }

  function Stopped(c: Pcb, now: int, shm: int): Pcb {
    c.(lastStopped := now, remaining := shm, state := Waiting)
  }

  predicate Preempts(s: State) {
    s.running.Some? && s.ready != [] && s.ready[0].priority < s.running.value.priority
  }

  /** HPF_algo. Preemption leaves the CPU empty and uses up the tick. */
  function Algo(s: State): State {
    if s.running.Some? then
      if Preempts(s)
      then s.(ready := Insert(s.ready, Stopped(s.running.value, s.clock, s.shm)), running := None)
      else s
    else if s.ready != [] then
      s.(ready := s.ready[1..], running := Some(Dispatched(s.ready[0], s.clock)), shm := s.ready[0].remaining)
    else s
  }

  /** One granted tick of the running child. */
  function Grant(s: State): State {
    if s.running.None? || s.shm <= 0 then s
    else s.(shm := s.shm - 1, finishSignal := s.finishSignal || s.shm == 1)
  }

  function Received(jobs: seq<Job>, s: State): State {
    if s.receiving then Receive(jobs, s) else s
  }

  function Decided(s: State): State {
    if s.clock > 0 then Algo(s) else s
  }

  /** The part of an iteration that a context switch suspends. */
  function Schedule(jobs: seq<Job>, s: State): State {
    Grant(Decided(Received(jobs, s.(switchUntil := -1))))
  }

  function Advance(jobs: seq<Job>, s: State): State {
    if s.switchUntil == -1 || s.clock >= s.switchUntil then Schedule(jobs, s) else s
  }

  predicate Over(s: State) {
    s.ready == [] && !s.receiving && s.running.None?
  }

  function Tick(jobs: seq<Job>, s: State): State {
    if Over(s) then s
    else Advance(jobs, Finish(s)).(clock := s.clock + 1)
  }

  function Run(jobs: seq<Job>, n: nat): State {
    if n == 0 then Boot(jobs) else Tick(jobs, Run(jobs, n - 1))
  }

  // ---- The queue order -------------------------------------------------------

  /** a comes before b: better priority, or the same and earlier arrival. */
  predicate Leq(a: Pcb, b: Pcb) {
    a.priority < b.priority || (a.priority == b.priority && a.arrival <= b.arrival)
  }

  ghost predicate Sorted(s: seq<Pcb>) {
    forall i, j :: 0 <= i < j < |s| ==> Leq(s[i], s[j])
  }

  ghost predicate ByPriority(s: seq<Pcb>) {
    forall i, j :: 0 <= i < j < |s| ==> s[i].priority <= s[j].priority
  }

  /** The walk stops at the right place in a sorted queue. */
  lemma InsertSplits(s: seq<Pcb>, x: Pcb)
    requires ByPriority(s)
    ensures var k := InsertIndex(s, x);
      && (forall i :: 0 <= i < k ==> s[i].priority <= x.priority)
      && (forall i :: k <= i < |s| ==> x.priority <= s[i].priority)
  {
  }

  /** enqueue_priority always keeps the order by priority. */
  lemma InsertByPriority(s: seq<Pcb>, x: Pcb)
    requires ByPriority(s)
    ensures ByPriority(Insert(s, x)) && multiset(Insert(s, x)) == multiset(s) + multiset{x}
  {
    InsertSplits(s, x);
    InsertElements(s, x);
  }

  lemma InsertElements(s: seq<Pcb>, x: Pcb)
    ensures multiset(Insert(s, x)) == multiset(s) + multiset{x}
  {
    var k := InsertIndex(s, x);
    assert s == s[..k] + s[k..];
  }

  /** The case in which enqueue_priority misplaces x: the front has the same
      priority but arrived later, and is not looked at again. */
  predicate Misplaces(s: seq<Pcb>, x: Pcb) {
    s != [] && x.priority == s[0].priority && x.arrival < s[0].arrival
  }

  /** enqueue_priority keeps the lexicographic order exactly when it does not
      meet that case. Then x goes behind all that come before it or are its equals,
      and before all others. */
  lemma InsertSortedExactly(s: seq<Pcb>, x: Pcb)
    requires Sorted(s)
    ensures Sorted(Insert(s, x)) <==> !Misplaces(s, x)
    ensures !Misplaces(s, x) ==> forall i :: 0 <= i < |s| ==> (Leq(s[i], x) <==> i < InsertIndex(s, x))
  {
    var k := InsertIndex(s, x);
    var r := Insert(s, x);
    if Misplaces(s, x) {
      assert k >= 1 && r[0] == s[0] && r[k] == x;
    } else {
      forall i, j | 0 <= i < j < |r| ensures Leq(r[i], r[j]) {
        assert r[i] == if i < k then s[i] else if i == k then x else s[i - 1];
        assert r[j] == if j < k then s[j] else if j == k then x else s[j - 1];
      }
    }
  }

  // ---- The invariant ---------------------------------------------------------

  predicate ArrivesBefore(jobs: seq<Job>, i: nat, j: nat)
    requires i < |jobs| && j < |jobs|
  {
    jobs[i].arrival <= jobs[j].arrival
  }

  /** The jobs come in the order of their arrival. */
  ghost predicate InOrder(jobs: seq<Job>) {
    forall i: nat, j: nat :: i < j < |jobs| ==> ArrivesBefore(jobs, i, j)
  }

  predicate InputOk(jobs: seq<Job>) {
    forall j :: j in jobs ==> j.runtime > 0 && j.arrival >= 0
  }

  function JobsOf(s: seq<Pcb>): (r: seq<Job>)
    ensures |r| == |s| && forall i :: 0 <= i < |s| ==> r[i] == JobOf(s[i])
  {
    seq(|s|, i requires 0 <= i < |s| => JobOf(s[i]))
  }

  function RunningJobs(s: State): seq<Job> {
    if s.running.Some? then [JobOf(s.running.value)] else []
  }

  /** Every job that is queued, running, finished or still to come. */
  function All(s: State): multiset<Job> {
    multiset(JobsOf(s.ready)) + multiset(RunningJobs(s)) + multiset(JobsOf(s.finished)) + multiset(s.incoming)
  }

  /** Time conservation for a waiting process. */
  predicate Waits(c: Pcb) {
    && c.remaining > 0 && c.state == Waiting
    && (if c.forked then c.start >= 0 && c.lastStopped >= 0 && c.lastStopped - c.arrival == c.waiting + (c.runtime - c.remaining)
        else c.start == -1 && c.waiting == 0 && c.remaining == c.runtime)
  }

  /** Time conservation for the process on the CPU, and its finish signal; until it
      is stopped for the first time it has waited from its arrival to its start. */
  predicate RunsOk(s: State) {
    match s.running
    case None => !s.finishSignal
    case Some(c) =>
      && c.state == Running && (c.lastStopped == -1 ==> c.waiting == c.start - c.arrival)
      && c.forked && c.start >= 0 && s.shm >= 0 && (s.finishSignal <==> s.shm == 0)
      && s.clock - c.arrival == c.waiting + (c.runtime - s.shm)
  }

  /** Every process in the system arrived no later than the next job. */
  ghost predicate ArrivedBefore(s: State) {
    forall j :: j in s.incoming ==>
      (forall c :: c in s.ready ==> c.arrival <= j.arrival)
      && (s.running.Some? ==> s.running.value.arrival <= j.arrival)
  }

  /** What jobs in order of arrival add to the invariant. */
  ghost predicate Ordered(s: State) {
    Sorted(s.ready) && ArrivedBefore(s)
  }

  ghost predicate Core(jobs: seq<Job>, s: State) {
    && s.clock >= 0 && ByPriority(s.ready)
    && (forall c :: c in s.ready ==> Waits(c))
    && RunsOk(s)
    && |s.incoming| <= |jobs| && s.incoming == jobs[|jobs| - |s.incoming|..]
    && All(s) == multiset(jobs)
    && (forall c :: c in s.finished ==> Accounted(c) && c.state == Done)
  }

  ghost predicate Inv(jobs: seq<Job>, s: State) {
    && Core(jobs, s) && s.switchUntil <= s.clock
    && (!s.receiving ==> s.incoming == [])
    && (s.clock == 0 ==> s.running.None? && s.ready == [])
  }

  /** The running process is at least as urgent as every ready one. */
  ghost predicate RunsBest(s: State) {
    s.running.Some? ==> forall c :: c in s.ready ==> s.running.value.priority <= c.priority
  }

  // ---- Phase by phase --------------------------------------------------------

  lemma JobsConcat(a: seq<Pcb>, b: seq<Pcb>)
    ensures JobsOf(a + b) == JobsOf(a) + JobsOf(b)
  {
  }

  lemma InsertJobs(s: seq<Pcb>, x: Pcb)
    ensures multiset(JobsOf(Insert(s, x))) == multiset(JobsOf(s)) + multiset{JobOf(x)}
    ensures forall c :: c in Insert(s, x) <==> c == x || c in s
  {
    var k := InsertIndex(s, x);
    assert s == s[..k] + s[k..];
    JobsBetween(s[..k], x, s[k..]);
    AmongBoth(s[..k], x, s[k..]);
  }

  lemma JobsBetween(a: seq<Pcb>, x: Pcb, b: seq<Pcb>)
    ensures multiset(JobsOf(a + [x] + b)) == multiset(JobsOf(a + b)) + multiset{JobOf(x)}
  {
    JobsConcat(a + [x], b);
    JobsConcat(a, [x]);
    JobsConcat(a, b);
    assert JobsOf([x]) == [JobOf(x)];
  }

  lemma AmongBoth(a: seq<Pcb>, x: Pcb, b: seq<Pcb>)
    ensures forall c :: c in a + [x] + b <==> c == x || c in a + b
  {
  }

  lemma FinishKeeps(jobs: seq<Job>, s: State)
    requires Inv(jobs, s)
    ensures var s' := Finish(s);
      && Core(jobs, s') && !s'.finishSignal && s'.ready == s.ready && s'.clock == s.clock
      && s'.incoming == s.incoming && s'.receiving == s.receiving
      && (s.finishSignal ==> s'.running.None? && s'.switchUntil == s.clock + 1)
      && (!s.finishSignal ==> s' == s)
  {
    if s.finishSignal {
      var s' := Finish(s);
      var c := s'.finished[|s'.finished| - 1];
      assert JobsOf(s'.finished) == JobsOf(s.finished) + [JobOf(c)];
      forall d | d in s'.finished ensures Accounted(d) && d.state == Done {
        if d !in s.finished { assert d == c; }
      }
    }
  }

  lemma NextJob(jobs: seq<Job>, s: State)
    requires s.incoming != [] && |s.incoming| <= |jobs| && s.incoming == jobs[|jobs| - |s.incoming|..]
    ensures var j := s.incoming[0];
      && j in jobs && j in s.incoming && s.incoming == [j] + s.incoming[1..]
      && s.incoming[1..] == jobs[|jobs| - |s.incoming[1..]|..]
  {
    assert s.incoming[0] == jobs[|jobs| - |s.incoming|];
  }

  lemma NextIsFirst(jobs: seq<Job>, s: State)
    requires InOrder(jobs)
    requires s.incoming != [] && |s.incoming| <= |jobs| && s.incoming == jobs[|jobs| - |s.incoming|..]
    ensures forall i :: i in s.incoming[1..] ==> i in s.incoming && s.incoming[0].arrival <= i.arrival
  {
    assert s.incoming[0] == jobs[|jobs| - |s.incoming|];
    forall i | i in s.incoming[1..] ensures i in s.incoming && s.incoming[0].arrival <= i.arrival {
      var a :| 0 <= a < |s.incoming[1..]| && s.incoming[1..][a] == i;
      assert jobs[|jobs| - |s.incoming| + 1 + a] == i;
      assert ArrivesBefore(jobs, |jobs| - |s.incoming|, |jobs| - |s.incoming| + 1 + a);
    }
  }

  lemma AdmitOne(jobs: seq<Job>, s: State)
    requires InputOk(jobs) && Core(jobs, s) && s.incoming != []
    ensures Core(jobs, AdmitNext(s))
  {
    var x := CreatePcb(s.incoming[0]);
    NextJob(jobs, s);
    InsertByPriority(s.ready, x);
    InsertJobs(s.ready, x);
    AdmitCounts(jobs, s);
  }

  /** In order of arrival, the next job goes behind everything of its priority. */
  lemma AdmitOrdered(jobs: seq<Job>, s: State)
    requires InOrder(jobs) && Core(jobs, s) && s.incoming != [] && Ordered(s)
    ensures Ordered(AdmitNext(s))
  {
    var x := CreatePcb(s.incoming[0]);
    NextJob(jobs, s);
    NextIsFirst(jobs, s);
    if s.ready != [] {
      assert s.ready[0] in s.ready;
    }
    InsertSortedExactly(s.ready, x);
    InsertJobs(s.ready, x);
    AdmitOrder(s, x);
  }

  lemma AdmitCounts(jobs: seq<Job>, s: State)
    requires s.incoming != []
    ensures All(AdmitNext(s)) == All(s)
  {
    var x := CreatePcb(s.incoming[0]);
    InsertJobs(s.ready, x);
    assert s.incoming == [s.incoming[0]] + s.incoming[1..];
    assert JobOf(x) == s.incoming[0];
  }

  lemma AdmitOrder(s: State, x: Pcb)
    requires s.incoming != [] && x == CreatePcb(s.incoming[0]) && ArrivedBefore(s)
    requires forall i :: i in s.incoming[1..] ==> i in s.incoming && x.arrival <= i.arrival
    requires forall c :: c in Insert(s.ready, x) <==> c == x || c in s.ready
    ensures ArrivedBefore(AdmitNext(s))
  {
  }

  lemma {:induction false} AdmitKeeps(jobs: seq<Job>, s: State)
    requires InputOk(jobs) && Core(jobs, s)
    ensures var s' := Admit(s);
      && Core(jobs, s') && s' == s.(ready := s'.ready, incoming := s'.incoming)
      && (s'.incoming == [] || s'.incoming[0].arrival > s.clock)
      && |s'.ready| + |s'.incoming| == |s.ready| + |s.incoming|
      && (InOrder(jobs) && Ordered(s) ==> Ordered(s'))
    decreases |s.incoming|
  {
    if s.incoming != [] && s.incoming[0].arrival <= s.clock {
      AdmitOne(jobs, s);
      if InOrder(jobs) && Ordered(s) {
        AdmitOrdered(jobs, s);
      }
      AdmitKeeps(jobs, AdmitNext(s));
    }
  }

  lemma ReceiveKeeps(jobs: seq<Job>, s: State)
    requires InputOk(jobs) && Core(jobs, s)
    ensures var s' := Receive(jobs, s);
      && Core(jobs, s') && s' == s.(ready := s'.ready, incoming := s'.incoming, receiving := s'.receiving)
      && (!s'.receiving ==> !s.receiving || s'.incoming == [])
      && (s'.receiving ==> s.clock <= LastArrival(jobs))
      && |s'.ready| + |s'.incoming| == |s.ready| + |s.incoming|
      && (InOrder(jobs) && Ordered(s) ==> Ordered(s'))
  {
    AdmitKeeps(jobs, s);
    Ended(jobs, s, Admit(s));
  }

  lemma Ended(jobs: seq<Job>, s: State, s1: State)
    requires Core(jobs, s1) && s1.clock == s.clock && (s1.incoming == [] || s1.incoming[0].arrival > s.clock)
    ensures s.clock > LastArrival(jobs) ==> s1.incoming == []
    ensures Core(jobs, s1.(receiving := false))
  {
    if s1.incoming != [] {
      assert s1.incoming[0] == jobs[|jobs| - |s1.incoming|];
      assert s1.incoming[0] in jobs;
    }
  }

  /** The preempted process is strictly less urgent than the front, so that
      enqueue_priority puts it in its place. */
  lemma PreemptKeeps(jobs: seq<Job>, s: State)
    requires Core(jobs, s) && Preempts(s) && !s.finishSignal
    ensures Core(jobs, Algo(s)) && (Ordered(s) ==> Ordered(Algo(s)))
  {
    var x := Stopped(s.running.value, s.clock, s.shm);
    InsertByPriority(s.ready, x);
    if Ordered(s) {
      InsertSortedExactly(s.ready, x);
    }
    InsertJobs(s.ready, x);
    assert JobOf(x) == JobOf(s.running.value);
  }

  lemma DispatchKeeps(jobs: seq<Job>, s: State)
    requires Core(jobs, s) && s.running.None? && s.ready != []
    ensures Core(jobs, Algo(s)) && RunsBest(Algo(s))
  {
    assert s.ready[0] in s.ready;
    DispatchCounts(s);
    OrderedTail(s.ready);
    DispatchRuns(s, Algo(s));
  }

  lemma DispatchRuns(s: State, s': State)
    requires s.clock >= 0 && s.ready != [] && Waits(s.ready[0]) && RunsOk(s) && s.running.None?
    requires s' == s.(ready := s.ready[1..], running := Some(Dispatched(s.ready[0], s.clock)), shm := s.ready[0].remaining)
    requires forall d :: d in s.ready[1..] ==> d in s.ready && s.ready[0].priority <= d.priority
    ensures RunsOk(s') && RunsBest(s')
  {
  }

  lemma DispatchOrdered(s: State)
    requires ByPriority(s.ready) && Ordered(s) && s.running.None? && s.ready != []
    ensures Ordered(Algo(s))
  {
    assert s.ready[0] in s.ready;
    OrderedTail(s.ready);
  }

  lemma OrderedTail(s: seq<Pcb>)
    requires ByPriority(s) && s != []
    ensures ByPriority(s[1..]) && (Sorted(s) ==> Sorted(s[1..]))
    ensures forall d :: d in s[1..] ==> d in s && s[0].priority <= d.priority
  {
    forall d | d in s[1..] ensures d in s && s[0].priority <= d.priority {
      var i :| 0 <= i < |s[1..]| && s[1..][i] == d;
      assert d == s[i + 1];
    }
  }

  lemma DispatchCounts(s: State)
    requires s.running.None? && s.ready != []
    ensures All(Algo(s)) == All(s)
  {
    var c := Dispatched(s.ready[0], s.clock);
    SameCounts(s, s.(ready := s.ready[1..], running := Some(c), shm := s.ready[0].remaining), c);
  }

  lemma SameCounts(s: State, s': State, c: Pcb)
    requires s.running.None? && s.ready != [] && JobOf(c) == JobOf(s.ready[0])
    requires s'.running == Some(c) && s'.ready == s.ready[1..] && s'.finished == s.finished && s'.incoming == s.incoming
    ensures All(s') == All(s)
  {
    FrontJobs(s.ready);
    assert RunningJobs(s') == [JobOf(c)] && RunningJobs(s) == [];
  }

  lemma FrontJobs(s: seq<Pcb>)
    requires s != []
    ensures multiset(JobsOf(s)) == multiset{JobOf(s[0])} + multiset(JobsOf(s[1..]))
  {
    assert JobsOf(s) == [JobOf(s[0])] + JobsOf(s[1..]);
  }

  /** After HPF_algo the process on the CPU is the most urgent one. */
  lemma AlgoKeeps(jobs: seq<Job>, s: State)
    requires Core(jobs, s) && !s.finishSignal
    ensures Core(jobs, Algo(s)) && RunsBest(Algo(s)) && !Algo(s).finishSignal && (Ordered(s) ==> Ordered(Algo(s)))
    ensures Algo(s).running.None? <==> Preempts(s) || (s.running.None? && s.ready == [])
  {
    if Preempts(s) {
      PreemptKeeps(jobs, s);
    } else if s.running.None? && s.ready != [] {
      DispatchKeeps(jobs, s);
      if Ordered(s) {
        DispatchOrdered(s);
      }
    } else if s.running.Some? && s.ready != [] {
      forall c | c in s.ready ensures s.running.value.priority <= c.priority {
        var i :| 0 <= i < |s.ready| && s.ready[i] == c;
        assert i > 0 ==> s.ready[0].priority <= s.ready[i].priority;
      }
    }
  }

  lemma GrantKeeps(jobs: seq<Job>, s: State, next: int)
    requires Core(jobs, s) && RunsBest(s) && !s.finishSignal && (s.clock == 0 ==> s.running.None?) && next == s.clock + 1
    ensures var s' := Grant(s).(clock := next);
      && Core(jobs, s') && RunsBest(s')
      && s' == s.(shm := s'.shm, finishSignal := s'.finishSignal, clock := next)
  {
  }

  /** The kernel r after the arrivals of this tick. */
  ghost predicate Admitted(jobs: seq<Job>, s: State, r: State) {
    && Core(jobs, r) && r == s.(ready := r.ready, incoming := r.incoming, receiving := r.receiving)
    && |r.ready| + |r.incoming| == |s.ready| + |s.incoming|
    && (r.receiving ==> s.clock <= LastArrival(jobs))
    && (!r.receiving ==> r.incoming == [])
    && (!s.receiving ==> r == s)
    && (InOrder(jobs) && Ordered(s) ==> Ordered(r))
  }

  lemma ReceivedKeeps(jobs: seq<Job>, s: State)
    requires InputOk(jobs) && Core(jobs, s) && (!s.receiving ==> s.incoming == [])
    ensures Admitted(jobs, s, Received(jobs, s))
  {
    if s.receiving {
      ReceiveKeeps(jobs, s);
    }
  }

  lemma DecidedKeeps(jobs: seq<Job>, s: State)
    requires Core(jobs, s) && !s.finishSignal && (s.clock == 0 ==> s.running.None?)
    ensures var s' := Decided(s);
      && Core(jobs, s') && RunsBest(s') && !s'.finishSignal && (s.clock == 0 ==> s'.running.None?)
      && (Ordered(s) ==> Ordered(s'))
      && s' == s.(ready := s'.ready, running := s'.running, shm := s'.shm)
  {
    if s.clock > 0 {
      AlgoKeeps(jobs, s);
    }
  }

  lemma PassKeeps(jobs: seq<Job>, s: State, r: State, next: int)
    requires Admitted(jobs, s, r) && !s.finishSignal && next == s.clock + 1
    requires s.clock == 0 ==> s.running.None?
    requires s.switchUntil <= s.clock
    ensures var s' := Grant(Decided(r)).(clock := next);
      Inv(jobs, s') && RunsBest(s') && (InOrder(jobs) && Ordered(s) ==> Ordered(s'))
  {
    DecidedKeeps(jobs, r);
    GrantKeeps(jobs, Decided(r), next);
    assert s.clock >= 0;
  }

  lemma TickKeeps(jobs: seq<Job>, s: State)
    requires InputOk(jobs) && Inv(jobs, s) && !Over(s)
    ensures Inv(jobs, Tick(jobs, s)) && RunsBest(Tick(jobs, s))
    ensures InOrder(jobs) && Ordered(s) ==> Ordered(Tick(jobs, s))
  {
    if s.finishSignal {
      FinishKeeps(jobs, s);
      FinishTick(jobs, s, Finish(s));
    } else {
      ScheduleTick(jobs, s, s.clock + 1);
      ScheduleKeeps(jobs, s, s.(switchUntil := -1), s.clock + 1);
    }
  }

  lemma ScheduleTick(jobs: seq<Job>, s: State, next: int)
    requires !Over(s) && !s.finishSignal && s.switchUntil <= s.clock && next == s.clock + 1
    ensures Tick(jobs, s) == Grant(Decided(Received(jobs, s.(switchUntil := -1)))).(clock := next)
  {
  }

  lemma ScheduleKeeps(jobs: seq<Job>, s: State, s0: State, next: int)
    requires InputOk(jobs) && Inv(jobs, s) && !s.finishSignal && s0 == s.(switchUntil := -1) && next == s.clock + 1
    ensures var s' := Grant(Decided(Received(jobs, s0))).(clock := next);
      Inv(jobs, s') && RunsBest(s') && (InOrder(jobs) && Ordered(s) ==> Ordered(s'))
  {
    Unswitched(jobs, s, s0);
    ReceivedKeeps(jobs, s0);
    PassKeeps(jobs, s0, Received(jobs, s0), next);
  }

  lemma Unswitched(jobs: seq<Job>, s: State, s0: State)
    requires Core(jobs, s) && s0 == s.(switchUntil := -1)
    ensures Core(jobs, s0) && Work(s0) == Work(s) && Potential(jobs, s0) == Potential(jobs, s)
  {
    assert All(s0) == All(s);
    assert Work(s0) == Work(s);
  }

  lemma FinishTick(jobs: seq<Job>, s: State, s1: State)
    requires Inv(jobs, s) && s.finishSignal && s1 == Finish(s) && Core(jobs, s1)
    ensures Advance(jobs, s1) == s1
    ensures var s' := s1.(clock := s.clock + 1); Inv(jobs, s') && RunsBest(s') && (Ordered(s) ==> Ordered(s'))
  {
  }

  lemma BootOk(jobs: seq<Job>)
    ensures Inv(jobs, Boot(jobs)) && Ordered(Boot(jobs))
  {
    assert jobs[0..] == jobs;
    assert JobsOf([]) == [];
  }

  /** Every state of every run satisfies the invariant. */
  lemma {:induction false} RunKeeps(jobs: seq<Job>, n: nat, s: State)
    requires InputOk(jobs) && s == Run(jobs, n)
    ensures Inv(jobs, s) && RunsBest(s) && (InOrder(jobs) ==> Ordered(s))
    decreases n
  {
    if n == 0 {
      BootOk(jobs);
    } else {
      var before := Run(jobs, n - 1);
      RunKeeps(jobs, n - 1, before);
      if !Over(before) {
        TickKeeps(jobs, before);
      }
    }
  }

  /** At every tick of every run the queue is sorted by priority, the process on
      the CPU is as urgent as any in the queue, no job is lost or duplicated, and
      every finished process has turnaround = runtime + waiting; and if the jobs
      come in the order of their arrival, equals are queued in that order. */
  lemma PriorityOrder(jobs: seq<Job>, n: nat)
    requires InputOk(jobs)
    ensures var s := Run(jobs, n);
      && ByPriority(s.ready) && RunsBest(s) && All(s) == multiset(jobs)
      && (InOrder(jobs) ==> Sorted(s.ready))
      && forall c :: c in s.finished ==> Accounted(c)
  {
    RunKeeps(jobs, n, Run(jobs, n));
  }

  /** Time conservation, at every tick: the time from arrival to its last stop
      (or to now, on the CPU) is what a started process has waited or run; and up to
      its first stop it has waited from its arrival to its start. */
  lemma TimeConserved(jobs: seq<Job>, n: nat, s: State, c: Pcb)
    requires InputOk(jobs) && s == Run(jobs, n)
    ensures c in s.ready && c.forked ==> c.lastStopped - c.arrival == c.waiting + (c.runtime - c.remaining)
    ensures s.running == Some(c) ==> s.clock - c.arrival == c.waiting + (c.runtime - s.shm)
    ensures s.running == Some(c) && c.lastStopped == -1 ==> c.waiting == c.start - c.arrival
  {
    RunKeeps(jobs, n, s);
  }

  /** Control blocks say where their processes are. */
  lemma StatesMatch(jobs: seq<Job>, n: nat, s: State)
    requires InputOk(jobs) && s == Run(jobs, n)
    ensures forall c :: c in s.ready ==> c.state == Waiting
    ensures s.running.Some? ==> s.running.value.state == Running
    ensures forall c :: c in s.finished ==> c.state == Done
  {
    RunKeeps(jobs, n, s);
  }

  // ---- Who runs ----------------------------------------------------------------

  /** The jobs that arrive by tick t. */
  function Arrivals(incoming: seq<Job>, t: int): seq<Job> {
    if incoming == [] || incoming[0].arrival > t then [] else [incoming[0]] + Arrivals(incoming[1..], t)
  }

  /** Who waits for the CPU at this tick. */
  predicate Awaits(s: State, c: Pcb) {
    c in s.ready || c in Created(Arrivals(s.incoming, s.clock))
  }

  function Created(jobs: seq<Job>): (r: seq<Pcb>)
    ensures |r| == |jobs| && forall i :: 0 <= i < |jobs| ==> r[i] == CreatePcb(jobs[i])
  {
    seq(|jobs|, i requires 0 <= i < |jobs| => CreatePcb(jobs[i]))
  }

  lemma {:induction false} AdmitAwaited(s: State)
    ensures forall c :: c in Admit(s).ready <==> Awaits(s, c)
    decreases |s.incoming|
  {
    if s.incoming != [] && s.incoming[0].arrival <= s.clock {
      var x := CreatePcb(s.incoming[0]);
      AdmitAwaited(AdmitNext(s));
      InsertJobs(s.ready, x);
      assert Created(Arrivals(s.incoming, s.clock)) == [x] + Created(Arrivals(s.incoming[1..], s.clock));
    }
  }

  /** No one who waits is more urgent than c. */
  ghost predicate MostUrgent(s: State, c: Pcb) {
    Awaits(s, c) && forall d :: Awaits(s, d) ==> c.priority <= d.priority
  }

  /** A process whose control block was c got the CPU at this tick and ran for it. */
  predicate RanAs(s: State, s': State, c: Pcb) {
    && s'.running.Some? && JobOf(s'.running.value) == JobOf(c) && s'.shm == c.remaining - 1
    && s'.running.value.start == if c.forked then c.start else s.clock
  }

  /** A process was stopped: it is queued with what it has left. */
  predicate StoppedAs(s: State, s': State, c: Pcb, x: Pcb) {
    s'.running.None? && x in s'.ready && JobOf(x) == JobOf(c) && x.remaining == s.shm && x.lastStopped == s.clock
  }

  /** Who has the CPU after an iteration. */
  ghost predicate CpuFollows(s: State, s': State) {
    if s.finishSignal then s'.running.None?
    else match s.running
      case Some(c) =>
        if exists d :: Awaits(s, d) && d.priority < c.priority then exists x :: StoppedAs(s, s', c, x)
        else s'.running == Some(c) && s'.shm == s.shm - 1
      case None =>
        if s.clock > 0 && exists d :: Awaits(s, d) then exists c :: MostUrgent(s, c) && RanAs(s, s', c)
        else s'.running.None?
  }

  /** At every tick of every run: an exit leaves the CPU empty for one tick; a process
      on the CPU is put off exactly if one of strictly better priority waits, which
      takes a tick, and otherwise runs; and a free CPU is given at once to one of the
      most urgent processes that wait. */
  lemma WhoRuns(jobs: seq<Job>, n: nat, s: State, s': State)
    requires InputOk(jobs) && s == Run(jobs, n) && s' == Run(jobs, n + 1) && !Over(s)
    ensures CpuFollows(s, s')
  {
    RunKeeps(jobs, n, s);
    RunNext(jobs, n);
    StepFollows(jobs, s);
  }

  lemma StepFollows(jobs: seq<Job>, s: State)
    requires InputOk(jobs) && Inv(jobs, s) && !Over(s)
    ensures CpuFollows(s, Tick(jobs, s))
  {
    if s.finishSignal {
      FinishKeeps(jobs, s);
      FinishTick(jobs, s, Finish(s));
    } else {
      ScheduleTick(jobs, s, s.clock + 1);
      ScheduleFollows(jobs, s, s.(switchUntil := -1), s.clock + 1);
    }
  }

  lemma ScheduleFollows(jobs: seq<Job>, s: State, s0: State, next: int)
    requires InputOk(jobs) && Inv(jobs, s) && !s.finishSignal && s0 == s.(switchUntil := -1) && next == s.clock + 1
    ensures CpuFollows(s, Grant(Decided(Received(jobs, s0))).(clock := next))
  {
    Unswitched(jobs, s, s0);
    ReceivedKeeps(jobs, s0);
    ReceivedAwaited(jobs, s, s0);
    DecisionFollows(jobs, s, Received(jobs, s0), next);
  }

  lemma RunNext(jobs: seq<Job>, n: nat)
    ensures Run(jobs, n + 1) == Tick(jobs, Run(jobs, n))
  {
  }

  lemma ReceivedAwaited(jobs: seq<Job>, s: State, s0: State)
    requires s0 == s.(switchUntil := -1) && (!s.receiving ==> s.incoming == [])
    ensures forall c :: c in Received(jobs, s0).ready <==> Awaits(s, c)
  {
    AdmitAwaited(s0);
    forall c ensures Awaits(s0, c) <==> Awaits(s, c) {
    }
  }

  lemma DecisionFollows(jobs: seq<Job>, s: State, r: State, next: int)
    requires Core(jobs, r) && !s.finishSignal && r.finishSignal == s.finishSignal && next == s.clock + 1
    requires r.clock == s.clock && r.running == s.running && r.shm == s.shm && (s.clock == 0 ==> s.running.None?)
    requires forall c :: c in r.ready <==> Awaits(s, c)
    ensures CpuFollows(s, Grant(Decided(r)).(clock := next))
  {
    FrontMostUrgent(r.ready);
    var s' := Grant(Decided(r)).(clock := next);
    if r.ready != [] {
      assert Awaits(s, r.ready[0]);
    }
    match s.running {
      case Some(c) =>
        if Preempts(r) {
          InsertJobs(r.ready, Stopped(c, r.clock, r.shm));
          assert StoppedAs(s, s', c, Stopped(c, r.clock, r.shm));
        }
      case None =>
        if s.clock > 0 && r.ready != [] {
          assert MostUrgent(s, r.ready[0]) && RanAs(s, s', r.ready[0]);
        }
    }
  }

  lemma FrontMostUrgent(s: seq<Pcb>)
    requires ByPriority(s)
    ensures s != [] ==> s[0] in s && forall c :: c in s ==> s[0].priority <= c.priority
  {
  }

  // ---- Termination -----------------------------------------------------------

  /** What still has to be run. */
  function Work(s: State): int {
    TotalRemaining(s.ready) + (if s.running.Some? then s.shm else 0) + SumRuntime(s.incoming)
  }

  lemma {:induction false} TotalConcat(a: seq<Pcb>, b: seq<Pcb>)
    ensures TotalRemaining(a + b) == TotalRemaining(a) + TotalRemaining(b)
  {
    if a == [] {
      assert a + b == b;
    } else {
      assert (a + b)[1..] == a[1..] + b;
      TotalConcat(a[1..], b);
    }
  }

  lemma InsertTotal(s: seq<Pcb>, x: Pcb)
    ensures TotalRemaining(Insert(s, x)) == TotalRemaining(s) + x.remaining
  {
    var k := InsertIndex(s, x);
    TotalConcat(s[..k], s[k..]);
    assert s == s[..k] + s[k..];
    TotalConcat(s[..k] + [x], s[k..]);
    TotalConcat(s[..k], [x]);
  }

  lemma {:induction false} AdmitWork(s: State)
    ensures Work(Admit(s)) == Work(s)
    decreases |s.incoming|
  {
    if s.incoming != [] && s.incoming[0].arrival <= s.clock {
      InsertTotal(s.ready, CreatePcb(s.incoming[0]));
      AdmitWork(AdmitNext(s));
    }
  }

  lemma {:induction false} TotalAtLeast(s: seq<Pcb>)
    requires forall c :: c in s ==> c.remaining > 0
    ensures TotalRemaining(s) >= 0
  {
    if s != [] {
      assert s[0] in s && forall c :: c in s[1..] ==> c in s;
      TotalAtLeast(s[1..]);
    }
  }

  function Gen(jobs: seq<Job>, s: State): nat {
    var end := if LastArrival(jobs) > 0 then LastArrival(jobs) else 0;
    if s.clock <= end then end + 1 - s.clock else 0
  }

  /** Work counts double: a preemption uses up a tick, but the one after it is
      work. */
  function Potential(jobs: seq<Job>, s: State): int {
    2 * Work(s) + |s.ready| + |s.incoming| + (if s.running.Some? then 2 else 0)
    + Gen(jobs, s) + (if s.receiving then 1 else 0)
  }

  lemma AlgoWork(s: State)
    ensures var s' := Algo(s);
      && Work(s') == Work(s)
      && s'.incoming == s.incoming && s'.receiving == s.receiving
      && |s'.ready| == |s.ready| + (if Preempts(s) then 1 else if s.running.None? && s.ready != [] then -1 else 0)
  {
    if Preempts(s) {
      InsertTotal(s.ready, Stopped(s.running.value, s.clock, s.shm));
    }
  }

  lemma ReceivedWork(jobs: seq<Job>, s: State)
    ensures Work(Received(jobs, s)) == Work(s)
  {
    AdmitWork(s);
  }

  lemma PotentialDrops(jobs: seq<Job>, s: State)
    requires InputOk(jobs) && Inv(jobs, s) && !Over(s)
    ensures Potential(jobs, Tick(jobs, s)) < Potential(jobs, s)
  {
    if s.finishSignal {
      FinishKeeps(jobs, s);
      FinishTick(jobs, s, Finish(s));
    } else {
      ScheduleTick(jobs, s, s.clock + 1);
      ScheduleDrops(jobs, s, s.(switchUntil := -1), s.clock + 1);
    }
  }

  lemma ScheduleDrops(jobs: seq<Job>, s: State, s0: State, next: int)
    requires InputOk(jobs) && Inv(jobs, s) && !Over(s) && !s.finishSignal
    requires s0 == s.(switchUntil := -1) && next == s.clock + 1
    ensures Potential(jobs, Grant(Decided(Received(jobs, s0))).(clock := next)) < Potential(jobs, s)
  {
    Unswitched(jobs, s, s0);
    ReceivedWork(jobs, s0);
    ReceivedKeeps(jobs, s0);
    PassDrops(jobs, s0, Received(jobs, s0), next);
  }

  lemma PassDrops(jobs: seq<Job>, s: State, r: State, next: int)
    requires Core(jobs, s) && !s.finishSignal && !Over(s) && Admitted(jobs, s, r) && Work(r) == Work(s)
    requires s.clock == 0 ==> s.running.None?
    requires next == s.clock + 1
    ensures Potential(jobs, Grant(Decided(r)).(clock := next)) < Potential(jobs, s)
  {
    AlgoWork(r);
    if r.running.None? && r.ready != [] {
      assert r.ready[0] in r.ready;
    }
  }

  function Bound(jobs: seq<Job>): int {
    2 * SumRuntime(jobs) + |jobs| + (if LastArrival(jobs) > 0 then LastArrival(jobs) else 0) + 2
  }

  lemma {:induction false} MeasureAlongRun(jobs: seq<Job>, n: nat, s: State)
    requires InputOk(jobs) && s == Run(jobs, n)
    ensures Over(s) || Potential(jobs, s) <= Bound(jobs) - n
    decreases n
  {
    if n > 0 {
      var before := Run(jobs, n - 1);
      MeasureAlongRun(jobs, n - 1, before);
      RunKeeps(jobs, n - 1, before);
      if !Over(before) {
        PotentialDrops(jobs, before);
      }
    }
  }

  lemma PotentialPositive(jobs: seq<Job>, s: State)
    requires InputOk(jobs) && Inv(jobs, s) && !Over(s)
    ensures Potential(jobs, s) > 0
  {
    TotalAtLeast(s.ready);
    forall j | j in s.incoming ensures j in jobs {
      var i :| 0 <= i < |s.incoming| && s.incoming[i] == j;
      assert jobs[|jobs| - |s.incoming| + i] == j;
    }
    SumRuntimeAtLeast(s.incoming);
  }

  /** Every run is over after Bound(jobs) ticks, with every job finished once. */
  lemma Terminates(jobs: seq<Job>, n: nat)
    requires InputOk(jobs) && n >= Bound(jobs)
    ensures var s := Run(jobs, n);
      && Over(s) && multiset(JobsOf(s.finished)) == multiset(jobs)
      && forall c :: c in s.finished ==> Accounted(c)
  {
    var s := Run(jobs, n);
    RunKeeps(jobs, n, s);
    MeasureAlongRun(jobs, n, s);
    if !Over(s) {
      PotentialPositive(jobs, s);
    }
    assert JobsOf(s.ready) == [];
  }
  // ---- The performance figures -----------------------------------------------

  ghost predicate Figures(s: State) {
    s.perf == Statistics.RecordAll(s.finished)
  }

  lemma FinishFigures(s: State)
    requires Figures(s)
    ensures Figures(Finish(s))
  {
    if s.running.Some? && s.finishSignal {
      var s' := Finish(s);
      assert s'.finished[..|s.finished|] == s.finished;
    }
  }

  lemma {:induction false} AdmitFigures(s: State)
    ensures Admit(s).perf == s.perf && Admit(s).finished == s.finished
    decreases |s.incoming|
  {
    if s.incoming != [] && s.incoming[0].arrival <= s.clock {
      AdmitFigures(AdmitNext(s));
    }
  }

  lemma AdvanceFigures(jobs: seq<Job>, s: State)
    ensures Advance(jobs, s).perf == s.perf && Advance(jobs, s).finished == s.finished
  {
    AdmitFigures(s.(switchUntil := -1));
    DecidedFigures(Received(jobs, s.(switchUntil := -1)));
  }

  lemma DecidedFigures(s: State)
    ensures Grant(Decided(s)).perf == s.perf && Grant(Decided(s)).finished == s.finished
  {
  }

  lemma {:induction false} RunFigures(jobs: seq<Job>, n: nat, s: State)
    requires s == Run(jobs, n)
    ensures Figures(s)
    decreases n
  {
    if n > 0 {
      var before := Run(jobs, n - 1);
      RunFigures(jobs, n - 1, before);
      FinishFigures(before);
      AdvanceFigures(jobs, Finish(before));
    }
  }

  /** At every tick of every run the online figures are those of the processes
      finished so far: mean and M2 of their weighted turnarounds, which are what they
      have run and waited for in units of their runtimes. */
  lemma FiguresAreExact(jobs: seq<Job>, n: nat, s: State)
    requires InputOk(jobs) && s == Run(jobs, n)
    ensures var xs := Statistics.Wtas(s.finished);
      && Statistics.Describes(s.perf, xs) && Statistics.Weighted(xs, s.finished)
      && forall i :: 0 <= i < |s.finished| && s.finished[i].runtime > 0 ==>
           xs[i] * s.finished[i].runtime as real == (s.finished[i].runtime + s.finished[i].waiting) as real
  {
    RunKeeps(jobs, n, s);
    RunFigures(jobs, n, s);
    FinishedFigures(s);
  }

  lemma FinishedFigures(s: State)
    requires Figures(s) && forall c :: c in s.finished ==> Accounted(c)
    ensures var xs := Statistics.Wtas(s.finished);
      && Statistics.Describes(s.perf, xs) && Statistics.Weighted(xs, s.finished)
      && forall i :: 0 <= i < |s.finished| && s.finished[i].runtime > 0 ==>
           xs[i] * s.finished[i].runtime as real == (s.finished[i].runtime + s.finished[i].waiting) as real
  {
    Statistics.WelfordIsTwoPass(s.finished);
    Statistics.WeightedAccounts(Statistics.Wtas(s.finished), s.finished);
  }
}
