/** The work still to be done: the remaining time of all live processes and the
    runtime of all jobs to come. */
module RrWork {
  import opened Common
  import opened RoundRobin
  import opened RrInvariants

  function SumLeft(s: Kernel, ids: seq<int>): int {
    if ids == [] then 0 else Left(s, ids[0]) + SumLeft(s, ids[1..])
  }

  function Work(s: Kernel): int {
    SumLeft(s, s.current) + SumRuntime(s.incoming)
  }

  lemma {:induction false} SumAlike(s: Kernel, s': Kernel, ids: seq<int>)
    requires forall i :: 0 <= i < |ids| ==> Left(s', ids[i]) == Left(s, ids[i])
    ensures SumLeft(s', ids) == SumLeft(s, ids)
  {
    if ids != [] { SumAlike(s, s', ids[1..]); }
  }

  lemma {:induction false} SumLeftWithout(s: Kernel, ids: seq<int>, p: int)
    requires p in ids
    ensures SumLeft(s, Without(ids, p)) == SumLeft(s, ids) - Left(s, p)
    ensures |Without(ids, p)| == |ids| - 1
  {
    if ids[0] != p {
      assert ids == [ids[0]] + ids[1..];
      SumLeftWithout(s, ids[1..], p);
    }
  }

  lemma {:induction false} SumLeftAppend(s: Kernel, ids: seq<int>, p: int)
    ensures SumLeft(s, ids + [p]) == SumLeft(s, ids) + Left(s, p)
  {
    if ids == [] {
      assert ids + [p] == [p];
    } else {
      assert (ids + [p])[1..] == ids[1..] + [p];
      SumLeftAppend(s, ids[1..], p);
    }
  }

  lemma {:induction false} SumLeftAtLeast(s: Kernel, ids: seq<int>)
    requires forall i :: 0 <= i < |ids| ==> Left(s, ids[i]) >= 0
    ensures SumLeft(s, ids) >= 0
  {
    if ids != [] { SumLeftAtLeast(s, ids[1..]); }
  }

  lemma WorkSame(s: Kernel, s': Kernel)
    requires QueuesOk(s) && s'.current == s.current && s'.incoming == s.incoming
    requires s'.mem.pcbs.Keys == s.mem.pcbs.Keys && Alike(s, s')
    ensures Work(s') == Work(s)
  {
    forall i | 0 <= i < |s.current| ensures Left(s', s.current[i]) == Left(s, s.current[i]) {
      assert s.current[i] in multiset(s.current);
    }
    SumAlike(s, s', s.current);
  }

  lemma WorkIgnores(s: Kernel, s': Kernel)
    requires s'.current == s.current && s'.incoming == s.incoming
    requires s'.mem.pcbs == s.mem.pcbs && s'.children == s.children
    ensures Work(s') == Work(s)
  {
    SumAlike(s, s', s.current);
  }

  /** One process runs for one tick. */
  lemma WorkStep(s: Kernel, s': Kernel, p: int)
    requires QueuesOk(s) && s'.current == s.current && s'.incoming == s.incoming
    requires p in s.mem.pcbs && Left(s', p) == Left(s, p) - 1
    requires forall q :: q != p ==> Left(s', q) == Left(s, q)
    ensures Work(s') == Work(s) - 1
  {
    assert multiset(s.current)[p] == 1;
    assert p in s.current;
    SumLeftWithout(s, s.current, p);
    SumLeftWithout(s', s.current, p);
    var rest := Without(s.current, p);
    assert multiset(rest)[p] == 0;
    forall i | 0 <= i < |rest| ensures rest[i] != p {
      assert rest[i] in multiset(rest);
    }
    SumAlike(s, s', rest);
  }

  /** A finished process takes its (empty) remaining time with it. */
  lemma WorkFinish(s: Kernel, s': Kernel, p: int)
    requires QueuesOk(s) && p in s.mem.pcbs && s'.current == Without(s.current, p) && s'.incoming == s.incoming
    requires Left(s, p) == 0 && s'.mem.pcbs == s.mem.pcbs - {p} && s'.children == s.children - {p}
    ensures Work(s') == Work(s) && |s'.current| == |s.current| - 1
  {
    assert multiset(s.current)[p] == 1;
    assert p in s.current;
    SumLeftWithout(s, s.current, p);
    var rest := Without(s.current, p);
    assert multiset(rest)[p] == 0;
    forall i | 0 <= i < |rest| ensures Left(s', rest[i]) == Left(s, rest[i]) {
      assert rest[i] in multiset(rest);
      LeftBehind(s, s', p, rest[i]);
    }
    SumAlike(s, s', rest);
  }

  lemma LeftBehind(s: Kernel, s': Kernel, p: int, q: int)
    requires s'.mem.pcbs == s.mem.pcbs - {p} && s'.children == s.children - {p} && q != p
    ensures Left(s', q) == Left(s, q)
  {
  }

  /** Admission moves a job's runtime from the input to the live processes. */
  lemma WorkAdmit(s: Kernel)
    requires QueuesOk(s) && s.incoming != [] && s.incoming[0].id !in s.mem.pcbs && s.incoming[0].id !in s.children
    ensures Work(AdmitNext(s)) == Work(s)
    ensures |AdmitNext(s).current| + |AdmitNext(s).incoming| == |s.current| + |s.incoming|
  {
    var s' := AdmitNext(s);
    var id := s.incoming[0].id;
    forall i | 0 <= i < |s.current| ensures Left(s', s.current[i]) == Left(s, s.current[i]) {
      assert s.current[i] in multiset(s.current);
      assert multiset(s.current)[id] == 0;
      assert s.current[i] != id;
    }
    SumAlike(s, s', s.current);
    SumLeftAppend(s', s.current, id);
  }
}
