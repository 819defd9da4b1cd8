/** checkBlockEnd walks the block queue and unlinks from it at the same time;
    this module shows that the walk is a stable split by deadline. */
module RrBlockEnd {
  import opened Common
  import opened RoundRobin
  import opened RrInvariants
  import PcbQueue

  /** The members of ids that are due (or, for due == false, not yet due). */
  function Select(s: Kernel, ids: seq<int>, due: bool): (r: seq<int>)
    ensures forall p :: p in r <==> p in ids && Due(s, p) == due
  {
    if ids == [] then []
    else
      assert ids == [ids[0]] + ids[1..];
      (if Due(s, ids[0]) == due then [ids[0]] else []) + Select(s, ids[1..], due)
  }

  lemma {:induction false} SelectSame(s: Kernel, s': Kernel, ids: seq<int>, due: bool)
    requires forall p :: p in ids ==> Due(s, p) == Due(s', p)
    ensures Select(s, ids, due) == Select(s', ids, due)
  {
    if ids != [] {
      assert ids == [ids[0]] + ids[1..];
      SelectSame(s, s', ids[1..], due);
    }
  }

  lemma {:induction false} WithoutMiddle(a: seq<int>, b: seq<int>)
    requires b != [] && b[0] !in a
    ensures Without(a + b, b[0]) == a + b[1..]
    decreases |a|
  {
    if a == [] {
      assert a + b == b && a + b[1..] == b[1..];
    } else {
      assert (a + b)[0] == a[0] && (a + b)[1..] == a[1..] + b;
      WithoutMiddle(a[1..], b);
      assert [a[0]] + (a[1..] + b[1..]) == a + b[1..];
    }
  }

  /** The control block of p after the walk. */
  function Woken(s: Kernel, p: int): Pcb
    requires p in s.mem.pcbs
  {
    var c := s.mem.pcbs[p];
    if c.pendingPage != -1 && c.pendingFrame != -1
    then c.(state := Waiting, pendingPage := -1, pendingFrame := -1)
    else c.(state := Waiting)
  }

  /** The control blocks after the walk. */
  lemma {:induction false} WalkPcbs(s: Kernel, rest: seq<int>)
    requires Distinct(rest) && forall p :: p in rest ==> p in s.mem.pcbs
    ensures var s' := WakeWalk(s, rest);
      && s'.mem.pcbs.Keys == s.mem.pcbs.Keys
      && forall p :: p in s.mem.pcbs ==>
           s'.mem.pcbs[p] == if p in rest && Due(s, p) then Woken(s, p) else s.mem.pcbs[p]
    decreases |rest|
  {
    if rest != [] {
      var p := rest[0];
      assert forall x :: x in rest <==> x == p || x in rest[1..];
      assert p !in rest[1..];
      var s1 := if Due(s, p) then WakeOne(s, p) else s;
      assert s1.mem.pcbs == if Due(s, p) then s.mem.pcbs[p := Woken(s, p)] else s.mem.pcbs;
      WalkPcbs(s1, rest[1..]);
    }
  }

  /** The queues after the walk, with `kept` the part of the block queue
      already passed. */
  lemma {:induction false} WalkSplits(s: Kernel, kept: seq<int>, rest: seq<int>)
    requires s.blocked == kept + rest && Distinct(rest)
    requires forall i :: 0 <= i < |rest| ==> rest[i] in s.mem.pcbs && rest[i] !in kept
    ensures WakeWalk(s, rest).ready == s.ready + Select(s, rest, true)
    ensures WakeWalk(s, rest).blocked == kept + Select(s, rest, false)
    decreases |rest|
  {
    if rest == [] {
      assert kept + rest == kept;
    } else {
      var p, tail := rest[0], rest[1..];
      if Due(s, p) {
        WalkDue(s, kept, rest);
        WalkSplits(WakeOne(s, p), kept, tail);
        SplitDue(s, WakeOne(s, p), rest);
      } else {
        JoinRight(kept, p, tail);
        assert rest == [p] + tail;
        WalkSplits(s, kept + [p], tail);
        JoinRight(kept, p, Select(s, tail, false));
      }
    }
  }

  lemma SplitDue(s: Kernel, s1: Kernel, rest: seq<int>)
    requires rest != [] && Distinct(rest) && Due(s, rest[0])
    requires s1.ready == s.ready + [rest[0]]
    requires s1.clock == s.clock && s1.mem.pcbs == s.mem.pcbs[rest[0] := Woken(s, rest[0])]
    ensures s1.ready + Select(s1, rest[1..], true) == s.ready + Select(s, rest, true)
    ensures Select(s1, rest[1..], false) == Select(s, rest, false)
  {
    SelectSame(s, s1, rest[1..], true);
    SelectSame(s, s1, rest[1..], false);
    JoinRight(s.ready, rest[0], Select(s, rest[1..], true));
  }

  lemma JoinRight(a: seq<int>, x: int, b: seq<int>)
    ensures a + ([x] + b) == (a + [x]) + b
  {
  }

  lemma WalkDue(s: Kernel, kept: seq<int>, rest: seq<int>)
    requires s.blocked == kept + rest && rest != [] && rest[0] in s.mem.pcbs && rest[0] !in kept
    ensures var s1 := WakeOne(s, rest[0]);
      && s1.blocked == kept + rest[1..] && s1.ready == s.ready + [rest[0]] && s1.clock == s.clock
      && s1.mem.pcbs == s.mem.pcbs[rest[0] := Woken(s, rest[0])]
  {
    WithoutMiddle(kept, rest);
  }

  lemma {:induction false} OnceDistinct(s: seq<int>)
    requires forall x :: multiset(s)[x] <= 1
    ensures Distinct(s)
  {
    if s != [] {
      FrontOut(s);
      forall x ensures multiset(s[1..])[x] <= 1 {
        assert multiset(s)[x] <= 1;
      }
      OnceDistinct(s[1..]);
      assert multiset(s)[s[0]] <= 1;
      assert s[0] !in s[1..];
      forall i, j | 0 <= i < j < |s| ensures s[i] != s[j] {
        assert s[j] == s[1..][j - 1];
        if i > 0 { assert s[i] == s[1..][i - 1]; }
      }
    }
  }

  /** Walking and unlinking at once splits the block queue by deadline, keeps
      the order on both sides, and leaves nobody due behind. */
  lemma BlockEndSplits(s: Kernel)
    requires QueuesOk(s)
    ensures var s' := CheckBlockEnd(s);
      && s'.ready == s.ready + Select(s, s.blocked, true)
      && s'.blocked == Select(s, s.blocked, false)
      && s'.mem.pcbs.Keys == s.mem.pcbs.Keys
      && (forall p :: p in s.mem.pcbs ==>
            s'.mem.pcbs[p] == if p in s.blocked && Due(s, p) then Woken(s, p) else s.mem.pcbs[p])
      && (forall p :: p in s'.blocked ==> p in s.blocked && !Due(s', p))
  {
    forall p ensures multiset(s.blocked)[p] <= 1 {
      Place(s, p);
    }
    OnceDistinct(s.blocked);
    forall p | p in s.blocked ensures p in s.mem.pcbs {
      Place(s, p);
    }
    assert s.blocked == [] + s.blocked;
    WalkSplits(s, [], s.blocked);
    WalkPcbs(s, s.blocked);
    BlockEndFrame(s, s.blocked);
  }

  // ---- The same on lists of control blocks ---------------------------------------

  /** The control blocks that the list nodes of a queue point to. */
  function Records(s: Kernel, ids: seq<int>): seq<Pcb> {
    if ids == [] then []
    else (if ids[0] in s.mem.pcbs then [s.mem.pcbs[ids[0]]] else []) + Records(s, ids[1..])
  }

  lemma {:induction false} RecordsConcat(s: Kernel, a: seq<int>, b: seq<int>)
    ensures Records(s, a + b) == Records(s, a) + Records(s, b)
  {
    if a == [] {
      assert a + b == b;
    } else {
      assert (a + b)[0] == a[0] && (a + b)[1..] == a[1..] + b;
      RecordsConcat(s, a[1..], b);
    }
  }

  lemma {:induction false} SameRecordsOf(s: Kernel, s': Kernel, ids: seq<int>)
    requires forall p :: p in ids ==> (p in s.mem.pcbs <==> p in s'.mem.pcbs)
    requires forall p :: p in ids && p in s.mem.pcbs ==> s'.mem.pcbs[p] == s.mem.pcbs[p]
    ensures Records(s', ids) == Records(s, ids)
  {
    if ids != [] {
      var p := ids[0];
      assert p in ids && forall q :: q in ids[1..] ==> q in ids;
      SameRecordsOf(s, s', ids[1..]);
    }
  }

  /** s' is the kernel after the walk over ids. */
  ghost predicate Walked(s: Kernel, s': Kernel, ids: seq<int>) {
    forall p :: p in ids ==>
      p in s.mem.pcbs && p in s'.mem.pcbs && s'.mem.pcbs[p] == if Due(s, p) then Woken(s, p) else s.mem.pcbs[p]
  }

  lemma {:induction false} WalkedRecords(s: Kernel, s': Kernel, ids: seq<int>)
    requires Walked(s, s', ids)
    ensures Records(s', Select(s, ids, false)) == PcbQueue.StillBlocked(Records(s, ids), s.clock)
    ensures Records(s', Select(s, ids, true)) == PcbQueue.WokenUp(Records(s, ids), s.clock)
  {
    if ids != [] {
      var p := ids[0];
      assert p in ids && forall q :: q in ids[1..] ==> q in ids;
      WalkedRecords(s, s', ids[1..]);
      assert Records(s, ids) == [s.mem.pcbs[p]] + Records(s, ids[1..]);
      assert Select(s, ids, Due(s, p)) == [p] + Select(s, ids[1..], Due(s, p));
      assert Select(s, ids, !Due(s, p)) == Select(s, ids[1..], !Due(s, p));
      WalkedOne(s, s', p, Select(s, ids[1..], Due(s, p)), Records(s, ids[1..]));
    }
  }

  lemma WalkedOne(s: Kernel, s': Kernel, p: int, rest: seq<int>, cs: seq<Pcb>)
    requires p in s.mem.pcbs && p in s'.mem.pcbs && s'.mem.pcbs[p] == if Due(s, p) then Woken(s, p) else s.mem.pcbs[p]
    ensures var all := [s.mem.pcbs[p]] + cs;
      && Records(s', [p] + rest) == [s'.mem.pcbs[p]] + Records(s', rest)
      && (Due(s, p) ==>
            && PcbQueue.WokenUp(all, s.clock) == [s'.mem.pcbs[p]] + PcbQueue.WokenUp(cs, s.clock)
            && PcbQueue.StillBlocked(all, s.clock) == PcbQueue.StillBlocked(cs, s.clock))
      && (!Due(s, p) ==>
            && PcbQueue.StillBlocked(all, s.clock) == [s'.mem.pcbs[p]] + PcbQueue.StillBlocked(cs, s.clock)
            && PcbQueue.WokenUp(all, s.clock) == PcbQueue.WokenUp(cs, s.clock))
  {
    assert ([p] + rest)[1..] == rest;
    assert ([s.mem.pcbs[p]] + cs)[1..] == cs;
  }

  /** The kernel transition on queues of ids is what the walk over the linked
      lists does to their control blocks. */
  lemma ListsAgree(s: Kernel)
    requires QueuesOk(s)
    ensures var s' := CheckBlockEnd(s);
      && Records(s', s'.blocked) == PcbQueue.StillBlocked(Records(s, s.blocked), s.clock)
      && Records(s', s'.ready) == Records(s, s.ready) + PcbQueue.WokenUp(Records(s, s.blocked), s.clock)
  {
    var s' := CheckBlockEnd(s);
    forall p | p in s.blocked || p in s.ready ensures p in s.mem.pcbs && !(p in s.blocked && p in s.ready) {
      Place(s, p);
    }
    BlockEndSplits(s);
    RecordsAgree(s, s');
  }

  lemma RecordsAgree(s: Kernel, s': Kernel)
    requires forall p :: p in s.blocked || p in s.ready ==> p in s.mem.pcbs && !(p in s.blocked && p in s.ready)
    requires s'.ready == s.ready + Select(s, s.blocked, true) && s'.blocked == Select(s, s.blocked, false)
    requires s'.mem.pcbs.Keys == s.mem.pcbs.Keys
    requires forall p :: p in s.mem.pcbs ==>
               s'.mem.pcbs[p] == if p in s.blocked && Due(s, p) then Woken(s, p) else s.mem.pcbs[p]
    ensures Records(s', s'.blocked) == PcbQueue.StillBlocked(Records(s, s.blocked), s.clock)
    ensures Records(s', s'.ready) == Records(s, s.ready) + PcbQueue.WokenUp(Records(s, s.blocked), s.clock)
  {
    WalkedRecords(s, s', s.blocked);
    SameRecordsOf(s, s', s.ready);
    RecordsConcat(s', s.ready, Select(s, s.blocked, true));
  }
}
