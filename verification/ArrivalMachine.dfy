/** The generator's send loop and the scheduler's receive loop, in lock step
    with the clock. */
module ArrivalMachine {
  import opened Common
  import opened Arrival
  import opened MessageQueue

  /** msgrcv with msgtyp -5, for a queue that is not empty. */
  method ReceiveLowest(ch: Channel<Msg>) returns (m: Msg)
    requires ch.msgs != []
    modifies ch
    ensures m == old(ch.msgs)[Lowest(old(ch.msgs))] && ch.msgs == RemoveAt(old(ch.msgs), Lowest(old(ch.msgs)))
  {
    var best, i := 0, 1;
    while i < |ch.msgs|
      invariant 0 <= best < i <= |ch.msgs|
      invariant forall k :: 0 <= k < i ==> Type(ch.msgs[best]) <= Type(ch.msgs[k])
      invariant forall k :: 0 <= k < best ==> Type(ch.msgs[best]) < Type(ch.msgs[k])
    {
      if Type(ch.msgs[i]) < Type(ch.msgs[best]) {
        best := i;
      }
      i := i + 1;
    }
    assert best == Lowest(ch.msgs);
    m := ch.msgs[best];
    ch.msgs := RemoveAt(ch.msgs, best);
  }

  class Generator {
    var queue: seq<Job>
    const ch: Channel<Msg>

    /** With no job at all the final message goes out at once. */
    constructor (jobs: seq<Job>, ch: Channel<Msg>)
      modifies ch
      ensures queue == jobs && this.ch == ch && ch.msgs == old(ch.msgs) + (if jobs == [] then [End] else [])
    {
      queue, this.ch := jobs, ch;
      new;
      if jobs == [] {
        ch.Send(End);
      }
    }

    /** One tick, if the generator is not done. */
    method Turn(t: int)
      modifies this`queue, ch
      ensures queue == old(queue)[SentBy(old(queue), t)..] && ch.msgs == old(ch.msgs) + Sent(old(queue), t)
    {
      if queue != [] {
        SendTick(t);
      }
    }

    /** The send loop at tick t: what is due goes out, then the sentinel, and
        after the last job the final message. */
    method SendTick(t: int)
      requires queue != []
      modifies this`queue, ch
      ensures queue == old(queue)[SentBy(old(queue), t)..] && ch.msgs == old(ch.msgs) + Sent(old(queue), t)
    {
      ghost var q, m, k := queue, ch.msgs, 0;
      assert Sends(q[..0]) == [] && m + [] == m;
      while queue != [] && queue[0].arrival <= t
        invariant k <= |q| && queue == q[k..]
        invariant k + SentBy(queue, t) == SentBy(q, t)
        invariant ch.msgs == m + Sends(q[..k])
        decreases |queue|
      {
        SendsSnoc(m, q, k);
        ch.Send(Process(queue[0]));
        queue := queue[1..];
        k := k + 1;
      }
      ch.Send(Sentinel(t));
      if queue == [] {
        ch.Send(End);
      }
      Regroup(m, Sends(q[..k]), [Sentinel(t)], if queue == [] then [End] else []);
    }
  }

  lemma SendsSnoc(m: seq<Msg>, queue: seq<Job>, k: nat)
    requires k < |queue|
    ensures m + Sends(queue[..k + 1]) == m + Sends(queue[..k]) + [Process(queue[k])]
  {
    assert Sends(queue[..k + 1]) == Sends(queue[..k]) + [Process(queue[k])];
  }

  lemma Regroup(a: seq<Msg>, b: seq<Msg>, c: seq<Msg>, d: seq<Msg>)
    ensures a + b + c + d == a + (b + c + d) && a + b + c + [] == a + b + c
  {
    assert a + b + c == a + (b + c);
  }

  /** How many jobs at the head of the queue are due at t. */
  function SentBy(queue: seq<Job>, t: int): (k: nat)
    ensures k <= |queue|
    ensures forall i :: 0 <= i < k ==> queue[i].arrival <= t
    ensures k < |queue| ==> queue[k].arrival > t
  {
    if queue == [] || queue[0].arrival > t then 0 else 1 + SentBy(queue[1..], t)
  }

  /** The jobs that are not due at t. */
  function Unsent(jobs: seq<Job>, t: int): (r: seq<Job>)
    ensures r != [] ==> r[0].arrival > t
  {
    if jobs == [] || jobs[0].arrival > t then jobs else Unsent(jobs[1..], t)
  }

  lemma {:induction false} UnsentIs(jobs: seq<Job>, t: int)
    ensures Unsent(jobs, t) == jobs[SentBy(jobs, t)..]
  {
    if jobs != [] && jobs[0].arrival <= t {
      UnsentIs(jobs[1..], t);
    }
  }

  function Sends(jobs: seq<Job>): (r: seq<Msg>)
    ensures |r| == |jobs| && forall i :: 0 <= i < |jobs| ==> r[i] == Process(jobs[i])
  {
    seq(|jobs|, i requires 0 <= i < |jobs| => Process(jobs[i]))
  }

  /** A message that ends a call of receiveProcesses at tick now. */
  predicate Ends(m: Msg, now: int) {
    m.End? || (m.Sentinel? && m.t >= now)
  }

  /** How a call of receiveProcesses ends: it waits for a message that is not
      under way, or it returns with the processes taken, with what is left under
      way, and on a sentinel, or (None) on the final message. */
  datatype Call = Waits | Returns(arrived: seq<Job>, rest: seq<Msg>, sync: Option<int>)

  /** The loop of receiveProcesses at tick now. */
  function ReceiveLoop(msgs: seq<Msg>, now: int): Call
    decreases |msgs|
  {
    if msgs == [] then Waits
    else
      var rest := RemoveAt(msgs, Lowest(msgs));
      match msgs[Lowest(msgs)]
      case Process(j) => Before(j, ReceiveLoop(rest, now))
      case Sentinel(t) => if t >= now then Returns([], rest, Some(t)) else ReceiveLoop(rest, now)
      case End => Returns([], rest, None)
  }

  function Before(j: Job, c: Call): Call {
    if c.Waits? then c else c.(arrived := [j] + c.arrived)
  }

  // ---- A scheduler's loop over the messages, by what it does with a process --------

  function AdmitEach<S>(admit: (S, Job) -> S, s: S, jobs: seq<Job>): S
    decreases |jobs|
  {
    if jobs == [] then s else AdmitEach(admit, admit(s, jobs[0]), jobs[1..])
  }

  /** What is left to take: the loop that started at s with the call c would
      now, at s', make the call c'. */
  ghost predicate LeftToTake<S>(admit: (S, Job) -> S, s: S, c: Call, s': S, c': Call) {
    && c.Returns? && c'.Returns? && c'.rest == c.rest && c'.sync == c.sync
    && AdmitEach(admit, s', c'.arrived) == AdmitEach(admit, s, c.arrived)
  }

  /** One message of the call that started at s and is at s1 by now. */
  lemma NextToTake<S>(admit: (S, Job) -> S, s: S, c: Call, s1: S, msgs: seq<Msg>, now: int)
    requires LeftToTake(admit, s, c, s1, ReceiveLoop(msgs, now))
    ensures msgs != []
    ensures var m := msgs[Lowest(msgs)]; var rest := RemoveAt(msgs, Lowest(msgs));
      if Ends(m, now) then
        AdmitEach(admit, s, c.arrived) == s1 && c.rest == rest && c.sync == if m.Sentinel? then Some(m.t) else None
      else
        LeftToTake(admit, s, c, if m.Process? then admit(s1, m.j) else s1, ReceiveLoop(rest, now))
  {
  }

  /** The call took every process under way, and nothing else but outdated
      sentinels and the message that ended it, of the lowest type there was. */
  ghost predicate TookAll(msgs: seq<Msg>, now: int, c: Call)
    requires c.Returns?
  {
    && c.arrived == Processes(msgs) && Processes(c.rest) == []
    && (c.sync.Some? ==> c.sync.value >= now && Sentinel(c.sync.value) in msgs && (End in c.rest <==> End in msgs))
    && (c.sync.None? ==> End in msgs && forall m :: m in msgs && Ends(m, now) ==> m.End?)
    && (forall m :: m in c.rest ==> m in msgs)
  }

  /** A call returns if and only if a message that ends it is under way, and then
      it has taken every process under way. */
  lemma {:induction false} ReceptionTakesAll(msgs: seq<Msg>, now: int)
    ensures ReceiveLoop(msgs, now).Returns? <==> exists m :: m in msgs && Ends(m, now)
    ensures ReceiveLoop(msgs, now).Returns? ==> TookAll(msgs, now, ReceiveLoop(msgs, now))
    decreases |msgs|
  {
    if msgs != [] {
      var m, rest := msgs[Lowest(msgs)], RemoveAt(msgs, Lowest(msgs));
      TakeLowest(msgs);
      LeftBehind(msgs, m, rest);
      if !Ends(m, now) {
        ReceptionTakesAll(rest, now);
      } else {
        assert m in msgs && Ends(m, now);
      }
    }
  }

  lemma LeftBehind(before: seq<Msg>, m: Msg, after: seq<Msg>)
    requires before != [] && m == before[Lowest(before)] && after == RemoveAt(before, Lowest(before))
    ensures m in before && (forall x :: x in after ==> x in before) && (forall x :: x in before ==> x == m || x in after)
    ensures m.End? ==> forall x :: x in before ==> x.End?
  {
    var k := Lowest(before);
    assert before == before[..k] + [m] + before[k + 1..];
    Around(before[..k], m, before[k + 1..]);
  }

  lemma Around(a: seq<Msg>, m: Msg, b: seq<Msg>)
    ensures forall x :: x in a + [m] + b <==> x == m || x in a + b
  {
  }

  // ---- In step with the clock --------------------------------------------------

  /** Between ticks t and t+1: what the generator has sent up to t and no call
      has taken yet, and what it still has. */
  ghost predicate UnderWay(jobs: seq<Job>, t: int, incoming: seq<Job>, queue: seq<Job>, msgs: seq<Msg>) {
    && t >= -1 && Processes(msgs) + queue == incoming
    && (forall j :: j in Processes(msgs) ==> j.arrival <= t)
    && queue == Unsent(jobs, t)
    && (forall m :: m in msgs && m.Sentinel? ==> m.t <= t)
    && (End in msgs <==> t >= LastArrival(jobs))
  }

  /** At tick t, when the generator has done its part. */
  ghost predicate InStep(jobs: seq<Job>, t: int, incoming: seq<Job>, queue: seq<Job>, msgs: seq<Msg>) {
    UnderWay(jobs, t, incoming, queue, msgs) && (Sentinel(t) in msgs <==> t <= LastArrival(jobs))
  }

  lemma {:induction false} AllSent(jobs: seq<Job>, t: int)
    requires t >= -1
    ensures SentBy(jobs, t) == |jobs| <==> t >= LastArrival(jobs) || jobs == []
  {
    if jobs != [] {
      assert jobs == [jobs[0]] + jobs[1..];
      AllSent(jobs[1..], t);
      if SentBy(jobs, t) == |jobs| {
        LastIsArrival(jobs);
      }
    }
  }

  lemma {:induction false} LastIsArrival(jobs: seq<Job>)
    ensures LastArrival(jobs) == -1 || exists i :: 0 <= i < |jobs| && jobs[i].arrival == LastArrival(jobs)
  {
    if jobs != [] {
      LastIsArrival(jobs[1..]);
      if LastArrival(jobs) != jobs[0].arrival && LastArrival(jobs) != -1 {
        var i :| 0 <= i < |jobs[1..]| && jobs[1..][i].arrival == LastArrival(jobs[1..]);
        assert jobs[i + 1].arrival == LastArrival(jobs);
      }
    }
  }

  lemma {:induction false} SentInTwo(jobs: seq<Job>, t: int)
    ensures SentBy(jobs, t) <= SentBy(jobs, t + 1)
    ensures SentBy(jobs, t + 1) == SentBy(jobs, t) + SentBy(jobs[SentBy(jobs, t)..], t + 1)
  {
    if jobs == [] || jobs[0].arrival > t {
      assert jobs[0..] == jobs;
    } else {
      SentInTwo(jobs[1..], t);
      assert jobs[SentBy(jobs, t)..] == jobs[1..][SentBy(jobs[1..], t)..];
    }
  }

  lemma {:induction false} SendsAreProcesses(jobs: seq<Job>)
    ensures Processes(Sends(jobs)) == jobs
  {
    if jobs != [] {
      assert Sends(jobs)[1..] == Sends(jobs[1..]);
      SendsAreProcesses(jobs[1..]);
    }
  }

  /** The generator at tick t+1, if it is not done. */
  function Sent(queue: seq<Job>, t: int): seq<Msg> {
    if queue == [] then []
    else
      var k := SentBy(queue, t);
      Sends(queue[..k]) + [Sentinel(t)] + (if k == |queue| then [End] else [])
  }

  lemma SentProcesses(queue: seq<Job>, t: int)
    ensures Processes(Sent(queue, t)) == queue[..SentBy(queue, t)]
  {
    if queue != [] {
      var k := SentBy(queue, t);
      var tail := if k == |queue| then [End] else [];
      ProcessesConcat(Sends(queue[..k]) + [Sentinel(t)], tail);
      ProcessesConcat(Sends(queue[..k]), [Sentinel(t)]);
      SendsAreProcesses(queue[..k]);
      NoProcesses([Sentinel(t)]);
      NoProcesses(tail);
    }
  }

  /** Generator and message queue between two ticks. */
  datatype Traffic = Traffic(queue: seq<Job>, msgs: seq<Msg>)

  /** Before the first tick. */
  function Opening(jobs: seq<Job>): Traffic {
    Traffic(jobs, if jobs == [] then [End] else [])
  }

  lemma StartInStep(jobs: seq<Job>)
    requires forall j :: j in jobs ==> j.arrival >= 0
    ensures UnderWay(jobs, -1, jobs, Opening(jobs).queue, Opening(jobs).msgs)
  {
    assert Unsent(jobs, -1) == jobs by {
      assert jobs != [] ==> jobs[0] in jobs;
    }
    assert Processes(Opening(jobs).msgs) == [];
    assert [] + jobs == jobs;
    if jobs != [] {
      assert LastArrival(jobs) >= jobs[0].arrival;
    }
  }

  /** The generator keeps in step. */
  lemma GeneratorInStep(jobs: seq<Job>, t: int, incoming: seq<Job>, queue: seq<Job>, msgs: seq<Msg>)
    requires UnderWay(jobs, t, incoming, queue, msgs)
    ensures InStep(jobs, t + 1, incoming, queue[SentBy(queue, t + 1)..], msgs + Sent(queue, t + 1))
  {
    if jobs == [] {
      assert queue == [] && msgs + Sent(queue, t + 1) == msgs;
    } else {
      SendsInStep(jobs, t, incoming, queue, msgs);
    }
  }

  lemma SendsInStep(jobs: seq<Job>, t: int, incoming: seq<Job>, queue: seq<Job>, msgs: seq<Msg>)
    requires UnderWay(jobs, t, incoming, queue, msgs) && jobs != []
    ensures InStep(jobs, t + 1, incoming, queue[SentBy(queue, t + 1)..], msgs + Sent(queue, t + 1))
  {
    var k := SentBy(queue, t + 1);
    UnsentIs(jobs, t);
    UnsentIs(jobs, t + 1);
    SentInTwo(jobs, t);
    AllSent(jobs, t);
    AllSent(jobs, t + 1);
    SentProcesses(queue, t + 1);
    ProcessesConcat(msgs, Sent(queue, t + 1));
    SentMarks(jobs, t + 1, queue, SentBy(jobs, t), SentBy(jobs, t + 1), LastArrival(jobs));
    Joined(jobs, t, Processes(msgs), queue, k);
    InStepBy(jobs, t + 1, incoming, queue[k..], msgs, Sent(queue, t + 1), queue);
  }

  /** The sentinel goes out until everything is sent, the final message then. */
  lemma SentMarks(jobs: seq<Job>, t: int, queue: seq<Job>, a: nat, b: nat, last: int)
    requires a <= |jobs| && |queue| == |jobs| - a && b == a + SentBy(queue, t)
    requires (a == |jobs| <==> t - 1 >= last) && (b == |jobs| <==> t >= last)
    ensures End in Sent(queue, t) <==> t == last
    ensures Sentinel(t) in Sent(queue, t) <==> t - 1 < last
    ensures forall m :: m in Sent(queue, t) && m.Sentinel? ==> m.t == t
  {
    SentMessages(queue, t);
  }

  lemma Joined(jobs: seq<Job>, t: int, p: seq<Job>, queue: seq<Job>, k: nat)
    requires queue == jobs[SentBy(jobs, t)..] && k == SentBy(queue, t + 1)
    requires SentBy(jobs, t + 1) == SentBy(jobs, t) + k && forall j :: j in p ==> j.arrival <= t
    ensures p + queue[..k] + queue[k..] == p + queue && queue[k..] == jobs[SentBy(jobs, t + 1)..]
    ensures forall j :: j in p + queue[..k] ==> j.arrival <= t + 1
  {
    Halves(p, queue, k);
    SliceSlice(jobs, SentBy(jobs, t), k);
  }

  lemma Halves(p: seq<Job>, queue: seq<Job>, k: nat)
    requires k <= |queue|
    ensures p + queue[..k] + queue[k..] == p + queue
  {
    assert queue == queue[..k] + queue[k..];
  }

  lemma SliceSlice(jobs: seq<Job>, a: nat, k: nat)
    requires a + k <= |jobs|
    ensures jobs[a..][k..] == jobs[a + k..]
  {
  }

  lemma InStepBy(jobs: seq<Job>, t: int, incoming: seq<Job>, rest: seq<Job>, msgs: seq<Msg>, sent: seq<Msg>, queue: seq<Job>)
    requires t >= 0 && Processes(msgs + sent) + rest == incoming && rest == Unsent(jobs, t)
    requires forall j :: j in Processes(msgs + sent) ==> j.arrival <= t
    requires forall m :: m in msgs && m.Sentinel? ==> m.t < t
    requires forall m :: m in sent && m.Sentinel? ==> m.t == t
    requires End in msgs <==> t - 1 >= LastArrival(jobs)
    requires End in sent <==> t == LastArrival(jobs)
    requires Sentinel(t) in sent <==> t - 1 < LastArrival(jobs)
    ensures InStep(jobs, t, incoming, rest, msgs + sent)
  {
  }

  lemma SentMessages(queue: seq<Job>, t: int)
    ensures Sentinel(t) in Sent(queue, t) <==> queue != []
    ensures End in Sent(queue, t) <==> queue != [] && SentBy(queue, t) == |queue|
    ensures forall m :: m in Sent(queue, t) && m.Sentinel? ==> m.t == t
  {
  }

  /** In step with the clock a call at tick t does not wait: it takes the jobs
      that have arrived and returns on the sentinel of this tick, or on the final
      message once the generator is done. After a sentinel generator and scheduler
      are in step for the next tick. */
  lemma CallInStep(jobs: seq<Job>, t: int, incoming: seq<Job>, queue: seq<Job>, msgs: seq<Msg>)
    requires InStep(jobs, t, incoming, queue, msgs)
    ensures var c := ReceiveLoop(msgs, t);
      && c.Returns? && c.arrived + queue == incoming
      && (forall j :: j in c.arrived ==> j.arrival <= t) && (queue != [] ==> queue[0].arrival > t)
      && c.sync == (if t <= LastArrival(jobs) then Some(t) else None)
      && (c.sync.Some? ==> UnderWay(jobs, t, queue, queue, c.rest))
  {
    ReceptionTakesAll(msgs, t);
    if t <= LastArrival(jobs) {
      assert Ends(Sentinel(t), t);
    } else {
      assert Ends(End, t);
    }
    var c := ReceiveLoop(msgs, t);
    if c.sync.Some? {
      AgainInStep(jobs, t, incoming, queue, msgs, c.rest);
    }
  }

  lemma AgainInStep(jobs: seq<Job>, t: int, incoming: seq<Job>, queue: seq<Job>, msgs: seq<Msg>, rest: seq<Msg>)
    requires InStep(jobs, t, incoming, queue, msgs) && Processes(rest) == []
    requires (forall m :: m in rest ==> m in msgs) && (End in rest <==> End in msgs)
    ensures UnderWay(jobs, t, queue, queue, rest)
  {
    assert [] + queue == queue;
  }

  // ---- Tick by tick --------------------------------------------------------------

  /** The generator's part of tick t. */
  function AfterSends(g: Traffic, t: int): Traffic {
    Traffic(g.queue[SentBy(g.queue, t)..], g.msgs + Sent(g.queue, t))
  }

  /** Tick t, at which the scheduler calls receiveProcesses or skips it. */
  function Turn(g: Traffic, t: int, calls: bool): Traffic {
    var g1 := AfterSends(g, t);
    g1.(msgs := LeftUnderWay(g1.msgs, t, calls))
  }

  function LeftUnderWay(msgs: seq<Msg>, t: int, calls: bool): seq<Msg> {
    var c := ReceiveLoop(msgs, t);
    if calls && c.Returns? then c.rest else msgs
  }

  /** The jobs still to come after it, and whether any more are expected. */
  predicate Admits(jobs: seq<Job>, t: int, incoming: seq<Job>, queue: seq<Job>, calls: bool,
      incoming': seq<Job>, receiving': bool)
  {
    if calls then incoming' == queue && (receiving' <==> t <= LastArrival(jobs))
    else incoming' == incoming && receiving'
  }

  lemma TurnInStep(jobs: seq<Job>, t: int, incoming: seq<Job>, g: Traffic, calls: bool,
      incoming': seq<Job>, receiving': bool)
    requires UnderWay(jobs, t - 1, incoming, g.queue, g.msgs)
    requires Admits(jobs, t, incoming, AfterSends(g, t).queue, calls, incoming', receiving')
    ensures var g1 := AfterSends(g, t); InStep(jobs, t, incoming, g1.queue, g1.msgs)
    ensures var g' := Turn(g, t, calls); receiving' ==> UnderWay(jobs, t, incoming', g'.queue, g'.msgs)
  {
    GeneratorInStep(jobs, t - 1, incoming, g.queue, g.msgs);
    var g1 := AfterSends(g, t);
    CallInStep(jobs, t, incoming, g1.queue, g1.msgs);
  }
}
