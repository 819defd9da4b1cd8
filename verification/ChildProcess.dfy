/** The child process of the Round-Robin scheduler: one tick of work and at most
    one memory request per grant. */
module ChildProcess {
  import opened Common
  import opened RoundRobin
  import opened RrInvariants
  import opened RrTicks

  /** How many requests of the program have been sent after n granted ticks. */
  function SentAfter(prog: seq<Request>, n: nat): (k: nat)
    ensures k <= |prog|
  {
    if n == 0 then 0
    else
      var k := SentAfter(prog, n - 1);
      if k < |prog| && prog[k].tick == n - 1 then k + 1 else k
  }

  /** The ticks of the first k requests are non-negative and strictly increase,
      and all of them come before tick n. */
  ghost predicate Ordered(prog: seq<Request>, k: nat, n: nat)
    requires k <= |prog|
  {
    && (forall i :: 0 <= i < k ==> 0 <= prog[i].tick < n)
    && (forall i, j :: 0 <= i < j < k ==> prog[i].tick < prog[j].tick)
  }

  lemma {:induction false} SentAreOrdered(prog: seq<Request>, n: nat)
    ensures Ordered(prog, SentAfter(prog, n), n)
  {
    if n > 0 {
      SentAreOrdered(prog, n - 1);
    }
  }

  lemma {:induction false} OrderedAreSent(prog: seq<Request>, k: nat, n: nat)
    requires k <= |prog| && Ordered(prog, k, n)
    ensures SentAfter(prog, n) >= k
    decreases n
  {
    NoneAtZero(prog, k);
    if n > 0 && k > 0 {
      OrderedBefore(prog, k, n);
      if prog[k - 1].tick < n - 1 {
        OrderedAreSent(prog, k, n - 1);
      } else {
        OrderedAreSent(prog, k - 1, n - 1);
        SentBefore(prog, k, n - 1);
      }
    }
  }

  lemma NoneAtZero(prog: seq<Request>, k: nat)
    requires k <= |prog|
    ensures k > 0 ==> !Ordered(prog, k, 0)
  {
    if k > 0 {
      var tick := prog[k - 1].tick;
      assert !(0 <= tick < 0);
    }
  }

  lemma SentBefore(prog: seq<Request>, k: nat, n: nat)
    requires 0 < k <= |prog|
    ensures SentAfter(prog, n) >= k ==> prog[k - 1].tick < n
  {
    SentAreOrdered(prog, n);
  }

  lemma OrderedBefore(prog: seq<Request>, k: nat, n: nat)
    requires 0 < k <= |prog| && n > 0 && Ordered(prog, k, n)
    ensures prog[k - 1].tick < n - 1 ==> Ordered(prog, k, n - 1)
    ensures Ordered(prog, k - 1, n - 1)
  {
    forall i | 0 <= i < k - 1 ensures prog[i].tick < prog[k - 1].tick {
    }
  }

  /** The first k requests are sent within n ticks exactly if their ticks are in
      range and strictly increase: a request that repeats a tick, or comes after
      a later one, is never sent, nor is anything after it. */
  lemma SentExactly(prog: seq<Request>, k: nat, n: nat)
    requires k <= |prog|
    ensures SentAfter(prog, n) >= k <==> Ordered(prog, k, n)
  {
    if SentAfter(prog, n) >= k {
      SentAreOrdered(prog, n);
    } else if Ordered(prog, k, n) {
      OrderedAreSent(prog, k, n);
    }
  }

  /** The child's loop, with a grant for each of its ticks. */
  class Process {
    const id: int
    const prog: seq<Request>
    var remaining: nat
    var ran: nat
    var next: nat
    var sent: seq<Request>

    constructor (id: int, prog: seq<Request>, runtime: nat)
      ensures this.id == id && this.prog == prog && remaining == runtime && ran == 0 && next == 0 && sent == []
    {
      this.id, this.prog, remaining, ran, next, sent := id, prog, runtime, 0, 0, [];
    }

    /** One granted tick. */
    method Step()
      requires remaining > 0 && next == SentAfter(prog, ran) && sent == Signed(prog[..next], id)
      modifies this`remaining, this`ran, this`next, this`sent
      ensures remaining == old(remaining) - 1 && ran == old(ran) + 1
      ensures next == SentAfter(prog, ran) && sent == Signed(prog[..next], id)
    {
      if next < |prog| && ran == prog[next].tick {
        sent := sent + [prog[next].(sender := id)];
        assert Signed(prog[..next + 1], id) == Signed(prog[..next], id) + [prog[next].(sender := id)];
        next := next + 1;
      }
      remaining := remaining - 1;
      ran := ran + 1;
    }

    /** The whole life of the child: it uses up its runtime, and what it has sent
        is the longest ordered part of its program, in order. */
    method Live()
      requires ran == 0 && next == 0 && sent == []
      modifies this`remaining, this`ran, this`next, this`sent
      ensures remaining == 0 && ran == old(remaining)
      ensures next <= |prog| && sent == Signed(prog[..next], id) && Ordered(prog, next, ran)
      ensures next < |prog| ==> !Ordered(prog, next + 1, ran)
    {
      assert Signed(prog[..0], id) == [];
      while remaining > 0
        invariant remaining + ran == old(remaining)
        invariant next == SentAfter(prog, ran) && sent == Signed(prog[..next], id)
      {
        Step();
      }
      SentExactly(prog, next, ran);
      if next < |prog| {
        SentExactly(prog, next + 1, ran);
      }
    }
  }

  function Signed(reqs: seq<Request>, id: int): (r: seq<Request>)
    ensures |r| == |reqs| && forall i :: 0 <= i < |reqs| ==> r[i] == reqs[i].(sender := id)
  {
    seq(|reqs|, i requires 0 <= i < |reqs| => reqs[i].(sender := id))
  }

  // ---- In the runs of the scheduler --------------------------------------------

  /** Every child stands in its program where its consumed ticks put it. */
  ghost predicate InProgram(cfg: Config, s: Kernel) {
    forall p :: p in s.children ==>
      s.children[p].ran >= 0 && s.children[p].next == SentAfter(Program(cfg, p), s.children[p].ran)
  }

  lemma SettleInProgram(cfg: Config, s: Kernel)
    requires InProgram(cfg, s)
    ensures InProgram(cfg, Settle(cfg, s))
  {
    var s1 := HandleRequests(s);
    RequestChildren(s);
    BlockEndFrame(s1, s1.blocked);
    FinishInProgram(cfg, FirstCheck(s1));
  }

  lemma RequestChildren(s: Kernel)
    ensures HandleRequests(s).children == s.children
  {
    if s.running.Some? {
      var (m, rest) := TakeMail(s.mailbox, s.running.value);
      CheckedChildren(if m.Some? then s.(mailbox := rest, requests := s.requests + [m.value.(tick := s.clock)]) else s);
    }
  }

  lemma CheckedChildren(s: Kernel)
    ensures CheckReqs(s).children == s.children
  {
  }

  lemma FinishInProgram(cfg: Config, s: Kernel)
    requires InProgram(cfg, s)
    ensures InProgram(cfg, HandleFinished(s))
  {
  }

  lemma SwitchInProgram(cfg: Config, s: Kernel, q: int, t: int)
    requires InProgram(cfg, s)
    ensures InProgram(cfg, SwitchTo(s, q, t))
  {
  }

  lemma PutBackChildren(s: Kernel, p: int)
    requires p in s.mem.pcbs
    ensures PutBack(s, p).children == s.children
  {
    BlockEndFrame(StopRunning(s, p), StopRunning(s, p).blocked);
  }

  lemma SameProgram(cfg: Config, s: Kernel, s1: Kernel)
    requires InProgram(cfg, s) && s1.children == s.children
    ensures InProgram(cfg, s1)
  {
  }

  lemma PreemptInProgram(cfg: Config, s: Kernel, p: int, q: int, next: int)
    requires InProgram(cfg, s) && p in s.mem.pcbs && next == s.clock + 1
    ensures InProgram(cfg, Preempt(s, p, q))
  {
    PutBackChildren(s, p);
    SameProgram(cfg, s, PutBack(s, p));
    SwitchInProgram(cfg, PutBack(s, p), q, next);
    PreemptIs(s, p, q, next);
  }

  lemma AlgoInProgram(cfg: Config, s: Kernel, q: int)
    requires InProgram(cfg, s)
    ensures InProgram(cfg, RrAlgo(s, q))
  {
    if Preempts(s) && s.running.value in s.mem.pcbs {
      PreemptInProgram(cfg, s, s.running.value, q, s.clock + 1);
      AlgoIsPreempt(s, q);
    } else if s.running.None? && s.ready != [] {
      SwitchInProgram(cfg, s, q, s.clock);
      AlgoIsDispatch(s, q);
    } else {
      AlgoIsIdle(s, q);
    }
  }

  lemma GrantInProgram(cfg: Config, s: Kernel)
    requires InProgram(cfg, s)
    ensures InProgram(cfg, Granted(cfg, s))
  {
  }

  lemma AdvanceInProgram(cfg: Config, s: Kernel)
    requires InProgram(cfg, s)
    ensures InProgram(cfg, Advance(cfg, s))
  {
    AdmitFrame(s.(switchUntil := -1));
    var r := Received(cfg, s);
    assert InProgram(cfg, r);
    AlgoInProgram(cfg, r, cfg.quantum);
    var s1 := Decided(cfg, r);
    GrantInProgram(cfg, ClearCheck(s1, cfg.k));
    ScheduleIs(cfg, s);
  }

  lemma TickInProgram(cfg: Config, s: Kernel)
    requires InProgram(cfg, s)
    ensures InProgram(cfg, Tick(cfg, s))
  {
    SettleInProgram(cfg, s);
    var s1 := Settle(cfg, s);
    AdvanceInProgram(cfg, s1);
    BlockEndFrame(Advance(cfg, s1), Advance(cfg, s1).blocked);
  }

  lemma BootInProgram(cfg: Config)
    ensures InProgram(cfg, Boot(cfg))
  {
  }

  /** At every tick of every run each live child has sent exactly the requests
      its consumed ticks call for; blocking and preemption neither repeat nor
      skip any. */
  lemma {:induction false} RequestsFollowTicks(cfg: Config, n: nat, s: Kernel)
    requires s == Run(cfg, n)
    ensures InProgram(cfg, s)
    decreases n
  {
    if n == 0 {
      BootInProgram(cfg);
    } else {
      var before := RunBack(cfg, n, s);
      RequestsFollowTicks(cfg, n - 1, before);
      TickInProgram(cfg, before);
    }
  }
}
