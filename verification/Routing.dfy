/** How the main FCFS scheduler distributes its queue over the two CPUs. */
module Routing {
  import opened Common

  /** The payload of a process message. */
  datatype Data = Data(id: int, arrival: int, runtime: int, priority: int)

  /** pcb_to_processData */
  function ToData(c: Pcb): Data {
    Data(c.id, c.arrival, c.runtime, c.priority)
  }

  /** createPCB of the FCFS schedulers. */
  function FromData(d: Data): Pcb {
    CreatePcb(Job(d.id, d.arrival, d.runtime, d.priority, 0, 0))
  }

  function Datas(s: seq<Pcb>): (r: seq<Data>)
    ensures |r| == |s| && forall i :: 0 <= i < |s| ==> r[i] == ToData(s[i])
  {
    seq(|s|, i requires 0 <= i < |s| => ToData(s[i]))
  }

  /** The projected ready counts and remaining times of both CPUs, and what was
      sent to each. */
  datatype Plan = Plan(c1: int, c2: int, rt1: int, rt2: int, to1: seq<Data>, to2: seq<Data>)

  /** One routed process: CPU 1 unless it has more ready processes. */
  function RouteOne(plan: Plan, d: Data): Plan {
    if plan.c1 <= plan.c2
    then plan.(c1 := plan.c1 + 1, rt1 := plan.rt1 + d.runtime, to1 := plan.to1 + [d])
    else plan.(c2 := plan.c2 + 1, rt2 := plan.rt2 + d.runtime, to2 := plan.to2 + [d])
  }

  function Route(plan: Plan, q: seq<Data>): Plan
    decreases |q|
  {
    if q == [] then plan else Route(RouteOne(plan, q[0]), q[1..])
  }

  function Max(a: int, b: int): int {
    if a > b then a else b
  }

  function RuntimeSum(q: seq<Data>): int {
    if q == [] then 0 else q[0].runtime + RuntimeSum(q[1..])
  }

  lemma {:induction false} SumAppend(q: seq<Data>, d: Data)
    ensures RuntimeSum(q + [d]) == RuntimeSum(q) + d.runtime
  {
    if q == [] {
      assert q + [d] == [d];
    } else {
      assert (q + [d])[1..] == q[1..] + [d];
      SumAppend(q[1..], d);
    }
  }

  /** The projections describe what was sent: count by count, tick by tick, and
      nothing is lost, duplicated or invented. */
  lemma {:induction false} RouteConserves(plan: Plan, q: seq<Data>)
    ensures var r := Route(plan, q);
      && r.c1 - plan.c1 == |r.to1| - |plan.to1| && r.c2 - plan.c2 == |r.to2| - |plan.to2|
      && r.rt1 - plan.rt1 == RuntimeSum(r.to1) - RuntimeSum(plan.to1)
      && r.rt2 - plan.rt2 == RuntimeSum(r.to2) - RuntimeSum(plan.to2)
      && r.c1 + r.c2 == plan.c1 + plan.c2 + |q|
      && r.rt1 + r.rt2 == plan.rt1 + plan.rt2 + RuntimeSum(q)
      && multiset(r.to1) + multiset(r.to2) == multiset(plan.to1) + multiset(plan.to2) + multiset(q)
    decreases |q|
  {
    if q != [] {
      var next := RouteOne(plan, q[0]);
      SumAppend(plan.to1, q[0]);
      SumAppend(plan.to2, q[0]);
      assert q == [q[0]] + q[1..];
      RouteConserves(next, q[1..]);
    }
  }

  /** Half, rounded up. */
  function HalfUp(n: int): int {
    (n + 1) / 2
  }

  /** The larger final count is the best that can be hoped for. */
  lemma {:induction false} RouteBalances(plan: Plan, q: seq<Data>)
    ensures var r := Route(plan, q);
      Max(r.c1, r.c2) == Max(Max(plan.c1, plan.c2), HalfUp(plan.c1 + plan.c2 + |q|))
    decreases |q|
  {
    if q == [] {
    } else {
      RouteBalances(RouteOne(plan, q[0]), q[1..]);
    }
  }

  /** An assignment says for each queued process whether it goes to CPU 1. */
  function ToFirst(choice: seq<bool>): (k: nat)
    ensures k <= |choice|
  {
    if choice == [] then 0 else (if choice[0] then 1 else 0) + ToFirst(choice[1..])
  }

  /** No other assignment of the same queue, out of all 2^n, ends with a smaller
      larger count. */
  lemma GreedyIsOptimal(plan: Plan, q: seq<Data>, choice: seq<bool>)
    requires |choice| == |q|
    ensures var r := Route(plan, q); var k := ToFirst(choice);
      Max(r.c1, r.c2) <= Max(plan.c1 + k, plan.c2 + |q| - k)
  {
    RouteBalances(plan, q);
  }

  /** The choices the loop makes, as an assignment: it is one of the 2^n. */
  function Greedy(plan: Plan, q: seq<Data>): (choice: seq<bool>)
    ensures |choice| == |q|
    decreases |q|
  {
    if q == [] then [] else [plan.c1 <= plan.c2] + Greedy(RouteOne(plan, q[0]), q[1..])
  }

  /** The subsequence of q whose choice is b. */
  function Select(q: seq<Data>, choice: seq<bool>, b: bool): seq<Data>
    requires |choice| == |q|
  {
    if q == [] then []
    else (if choice[0] == b then [q[0]] else []) + Select(q[1..], choice[1..], b)
  }

  /** Each CPU receives its processes in queue order. */
  lemma {:induction false} RouteKeepsOrder(plan: Plan, q: seq<Data>)
    ensures Route(plan, q).to1 == plan.to1 + Select(q, Greedy(plan, q), true)
    ensures Route(plan, q).to2 == plan.to2 + Select(q, Greedy(plan, q), false)
    decreases |q|
  {
    if q == [] {
    } else {
      var next := RouteOne(plan, q[0]);
      RouteKeepsOrder(next, q[1..]);
      assert Greedy(plan, q)[1..] == Greedy(next, q[1..]);
    }
  }

  /** The trip from control block to message and back: the identity on a process
      that has never run, and on any process it keeps what identifies it and
      restores the full runtime. */
  lemma MessageTrip(c: Pcb)
    ensures ToData(FromData(ToData(c))) == ToData(c) && FromData(ToData(c)).remaining == c.runtime
    ensures FromData(ToData(c)) == c <==> Unstarted(c)
  {
  }

  /** A control block as createPCB makes it. */
  predicate Unstarted(c: Pcb) {
    && c.start == -1 && c.finish == -1 && c.lastStopped == -1 && c.remaining == c.runtime && c.waiting == 0
    && !c.forked && c.state == Waiting && c.base == 0 && c.limit == 0
    && c.frameIndex == -1 && c.unblockAt == -1 && c.pendingPage == -1 && c.pendingFrame == -1
  }
}
