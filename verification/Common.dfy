/** Entities shared by every scheduler: jobs read from the input file, the
    process control block, and a few facts about sequences. */
module Common {
  datatype Option<+T> = None | Some(value: T)

  /** One line of the input file, as the generator sends it to a scheduler. */
  datatype Job = Job(id: int, arrival: int, runtime: int, priority: int, base: int, limit: int)

  /** A memory request of a child process; `tick` is compared with the child's
      consumed time when it is sent and becomes the receive time afterwards. */
  datatype Request = Request(sender: int, page: nat, write: bool, tick: int)

  datatype ProcessState = Waiting | Running | Blocked | Done

  datatype Pcb = Pcb(
    id: int, arrival: int, runtime: int, priority: int,
    base: int, limit: int,
    remaining: int, waiting: int, start: int, finish: int, lastStopped: int,
    forked: bool, state: ProcessState,
    frameIndex: int, unblockAt: int, pendingPage: int, pendingFrame: int)

  /** A fresh control block for an admitted job. */
  function CreatePcb(j: Job): Pcb {
    Pcb(j.id, j.arrival, j.runtime, j.priority, j.base, j.limit,
        j.runtime, 0, -1, -1, -1, false, Waiting, -1, -1, -1, -1)
  }

  /** What the C queue operation `dequeue_by_id` leaves behind: the first
      occurrence of x is unlinked. */
  function Without(s: seq<int>, x: int): (r: seq<int>)
    ensures x !in s ==> r == s
    ensures x in s ==> multiset(r) == multiset(s) - multiset{x}
    ensures forall y :: y in r ==> y in s
  {
    if s == [] then []
    else if s[0] == x then
      assert s == [x] + s[1..];
      s[1..]
    else
      assert s == [s[0]] + s[1..];
      [s[0]] + Without(s[1..], x)
  }

  function RemoveAt<T>(s: seq<T>, k: nat): seq<T>
    requires k < |s|
  {
    s[..k] + s[k + 1..]
  }

  /** The job a control block was made from. */
  function JobOf(c: Pcb): Job {
    Job(c.id, c.arrival, c.runtime, c.priority, c.base, c.limit)
  }

  /** Turnaround = runtime + waiting for a finished process. */
  predicate Accounted(c: Pcb) {
    c.finish - c.arrival == c.runtime + c.waiting && c.remaining == 0
  }

  /** The tick at which the generator has sent its last job. */
  function LastArrival(jobs: seq<Job>): (t: int)
    ensures t >= -1
    ensures forall j :: j in jobs ==> j.arrival <= t
  {
    if jobs == [] then -1
    else
      var rest := LastArrival(jobs[1..]);
      assert jobs == [jobs[0]] + jobs[1..];
      if jobs[0].arrival > rest then jobs[0].arrival else rest
  }

  function SumRuntime(jobs: seq<Job>): int {
    if jobs == [] then 0 else jobs[0].runtime + SumRuntime(jobs[1..])
  }

  lemma {:induction false} SumRuntimeAtLeast(jobs: seq<Job>)
    requires forall j :: j in jobs ==> j.runtime > 0
    ensures SumRuntime(jobs) >= 0
  {
    if jobs != [] {
      assert forall j :: j in jobs[1..] ==> j in jobs;
      SumRuntimeAtLeast(jobs[1..]);
    }
  }

  function Ids(jobs: seq<Job>): (r: seq<int>)
    ensures |r| == |jobs|
    ensures forall i :: 0 <= i < |jobs| ==> r[i] == jobs[i].id
  {
    seq(|jobs|, i requires 0 <= i < |jobs| => jobs[i].id)
  }

  ghost predicate Distinct<T>(s: seq<T>) {
    forall i, j :: 0 <= i < j < |s| ==> s[i] != s[j]
  }
  /** a is b without some of its elements. */
  predicate Among<T(==)>(a: seq<T>, b: seq<T>) {
    a == [] ||
    (b != [] && ((a[|a| - 1] == b[|b| - 1] && Among(a[..|a| - 1], b[..|b| - 1])) || Among(a, b[..|b| - 1])))
  }

  lemma AmongMore<T>(a: seq<T>, b: seq<T>, d: T)
    requires Among(a, b)
    ensures Among(a, b + [d]) && Among(a + [d], b + [d])
  {
    assert (a + [d])[..|a|] == a && (b + [d])[..|b|] == b;
  }

  lemma {:induction false} AmongLess<T>(a: seq<T>, b: seq<T>, k: nat)
    requires Among(a, b) && k < |a|
    ensures Among(RemoveAt(a, k), b)
    decreases |b|
  {
    var a0, b0 := a[..|a| - 1], b[..|b| - 1];
    if a[|a| - 1] == b[|b| - 1] && Among(a0, b0) {
      assert b == b0 + [b[|b| - 1]];
      if k == |a| - 1 {
        assert RemoveAt(a, k) == a0;
        AmongMore(a0, b0, b[|b| - 1]);
      } else {
        AmongLess(a0, b0, k);
        assert RemoveAt(a, k) == RemoveAt(a0, k) + [b[|b| - 1]];
        AmongMore(RemoveAt(a0, k), b0, b[|b| - 1]);
      }
    } else {
      AmongLess(a, b0, k);
      AmongMore(RemoveAt(a, k), b0, b[|b| - 1]);
      assert b == b0 + [b[|b| - 1]];
    }
  }

  lemma {:induction false} AmongElements<T>(a: seq<T>, b: seq<T>)
    requires Among(a, b)
    ensures forall x :: x in a ==> x in b
    decreases |b|
  {
    if a != [] {
      var a0, b0 := a[..|a| - 1], b[..|b| - 1];
      assert forall x :: x in b0 ==> x in b;
      if a[|a| - 1] == b[|b| - 1] && Among(a0, b0) {
        AmongElements(a0, b0);
        assert a == a0 + [a[|a| - 1]];
      } else {
        AmongElements(a, b0);
      }
    }
  }
}
