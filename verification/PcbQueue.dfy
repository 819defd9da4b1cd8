/** The linked list of process control blocks that every scheduler rests on. */
module PcbQueue {
  import opened Common

  // ---- What the operations mean on sequences ---------------------------------

  /** Position of the first control block with the given id, or |s|. */
  function IndexOf(s: seq<Pcb>, id: int): (k: nat)
    ensures k <= |s|
    ensures k < |s| ==> s[k].id == id
    ensures forall i :: 0 <= i < k ==> s[i].id != id
  {
    if s == [] || s[0].id == id then 0 else 1 + IndexOf(s[1..], id)
  }

  function RemoveId(s: seq<Pcb>, id: int): seq<Pcb> {
    var k := IndexOf(s, id);
    if k < |s| then RemoveAt(s, k) else s
  }

  /** b may stay in front of x in the walk of enqueue_priority. */
  predicate Passes(b: Pcb, x: Pcb) {
    b.priority < x.priority || (b.priority == x.priority && b.arrival <= x.arrival)
  }

  /** Where the walk that starts behind the front stops. */
  function WalkStop(s: seq<Pcb>, x: Pcb, i: nat): (k: nat)
    requires i <= |s|
    ensures i <= k <= |s|
    ensures forall j :: i <= j < k ==> Passes(s[j], x)
    ensures k < |s| ==> !Passes(s[k], x)
    decreases |s| - i
  {
    if i < |s| && Passes(s[i], x) then WalkStop(s, x, i + 1) else i
  }

  /** enqueue_priority: only a strictly smaller priority goes to the front. */
  function InsertIndex(s: seq<Pcb>, x: Pcb): (k: nat)
    ensures k <= |s|
  {
    if s == [] || x.priority < s[0].priority then 0 else WalkStop(s, x, 1)
  }

  function Insert(s: seq<Pcb>, x: Pcb): seq<Pcb> {
    var k := InsertIndex(s, x); s[..k] + [x] + s[k..]
  }

  function TotalRemaining(s: seq<Pcb>): int {
    if s == [] then 0 else s[0].remaining + TotalRemaining(s[1..])
  }

  lemma {:induction false} TotalAppend(s: seq<Pcb>, x: Pcb)
    ensures TotalRemaining(s + [x]) == TotalRemaining(s) + x.remaining
  {
    if s == [] {
      assert s + [x] == [x];
    } else {
      assert (s + [x])[1..] == s[1..] + [x];
      TotalAppend(s[1..], x);
    }
  }

  // ---- The list --------------------------------------------------------------

  class Node {
    var pcb: Pcb
    var next: Node?

    constructor (pcb: Pcb, next: Node?)
      ensures this.pcb == pcb && this.next == next
    {
      this.pcb, this.next := pcb, next;
    }
  }

  class Queue {
    var front: Node?
    var rear: Node?
    var size: int
    ghost var spine: seq<Node>
    ghost var contents: seq<Pcb>

    /** The nodes from front along next are the spine, front, rear and size fit,
        and the nodes hold the contents. */
    ghost predicate Valid()
      reads this, spine
    {
      && |spine| == |contents| == size
      && (forall i, j :: 0 <= i < j < |spine| ==> spine[i] != spine[j])
      && (forall i :: 0 <= i < |spine| ==> NodeOk(i))
      && front == At(0)
      && rear == At(|spine| - 1)
    }

    /** Node i of the list, or null. */
    ghost function At(i: int): Node?
      reads this
    {
      if 0 <= i < |spine| then spine[i] else null
    }

    ghost predicate NodeOk(i: nat)
      requires i < |spine| == |contents|
      reads this, spine
    {
      spine[i].pcb == contents[i] && spine[i].next == At(i + 1)
    }

    /** createQueue */
    constructor ()
      ensures Valid() && contents == [] && spine == []
    {
      front, rear, size := null, null, 0;
      spine, contents := [], [];
    }

    method IsEmpty() returns (b: bool)
      requires Valid()
      ensures b <==> contents == []
    {
      b := front == null;
    }

    method Enqueue(x: Pcb)
      requires Valid()
      modifies this, spine
      ensures Valid() && contents == old(contents) + [x]
      ensures |spine| > 0 && fresh(spine[|spine| - 1]) && spine[..|spine| - 1] == old(spine)
    {
      var node := new Node(x, null);
      if rear == null {
        front, rear := node, node;
      } else {
        rear.next := node;
        rear := node;
      }
      size := size + 1;
      spine, contents := spine + [node], contents + [x];
      forall i: nat | i < |spine| ensures NodeOk(i) {
        if i + 1 < |spine| {
          assert old(NodeOk(i));
        }
      }
    }

    /** dequeue; on an empty queue the program exits with an underflow error. */
    method Dequeue() returns (r: Option<Pcb>)
      requires Valid()
      modifies this
      ensures Valid()
      ensures old(contents) == [] ==> r == None && contents == [] && spine == old(spine)
      ensures old(contents) != [] ==>
                r == Some(old(contents)[0]) && contents == old(contents)[1..] && spine == old(spine)[1..]
    {
      if front == null {
        return None;
      }
      assert NodeOk(0);
      ghost var before := spine;
      r := Some(front.pcb);
      front := front.next;
      if front == null {
        rear := null;
      }
      size := size - 1;
      spine, contents := spine[1..], contents[1..];
      forall i: nat | i < |spine| ensures NodeOk(i) {
        assert old(NodeOk(i + 1));
      }
    }

    /** dequeue_rear: the node before the last is found by walking. */
    method DequeueRear() returns (r: Option<Pcb>)
      requires Valid()
      modifies this, spine
      ensures Valid()
      ensures old(contents) == [] ==> r == None && contents == [] && spine == old(spine)
      ensures old(contents) != [] ==>
                && r == Some(old(contents)[|old(contents)| - 1])
                && contents == old(contents)[..|old(contents)| - 1] && spine == old(spine)[..|old(spine)| - 1]
    {
      if front == null {
        return None;
      }
      ghost var last := |contents| - 1;
      if front == rear {
        assert last == 0;
        r := Some(front.pcb);
        front, rear := null, null;
      } else {
        var trav := front;
        ghost var k := 0;
        assert NodeOk(0);
        while trav.next != rear
          invariant 0 <= k < last && trav == spine[k] && NodeOk(k)
          decreases last - k
        {
          trav := trav.next;
          k := k + 1;
          assert NodeOk(k);
        }
        assert k + 1 == last;
        r := Some(rear.pcb);
        rear := trav;
        rear.next := null;
      }
      assert old(NodeOk(last));
      size := size - 1;
      spine, contents := spine[..last], contents[..last];
      forall i: nat | i < |spine| ensures NodeOk(i) {
        assert old(NodeOk(i));
      }
    }

    /** dequeue_by_id */
    method DequeueById(id: int) returns (r: Option<Pcb>)
      requires Valid()
      modifies this, spine
      ensures Valid() && contents == RemoveId(old(contents), id)
      ensures var k := IndexOf(old(contents), id);
        if k < |old(contents)| then r == Some(old(contents)[k]) && spine == RemoveAt(old(spine), k)
        else r == None && spine == old(spine)
      ensures forall n :: n in spine ==> n.pcb == old(n.pcb)
    {
      if front == null {
        return None;
      }
      assert NodeOk(0);
      if front.pcb.id == id {
        r := Dequeue();
        return;
      }
      var prev, curr := front, front.next;
      ghost var k := 1;
      while curr != null
        invariant 1 <= k <= |spine| && prev == spine[k - 1] && curr == At(k)
        invariant forall i :: 0 <= i < k ==> contents[i].id != id
        decreases |spine| - k
      {
        assert NodeOk(k) && NodeOk(k - 1);
        if curr.pcb.id == id {
          r := Some(curr.pcb);
          Unlink(prev, curr, k);
          return;
        }
        prev, curr := curr, curr.next;
        k := k + 1;
      }
      return None;
    }

    /** Node k, which is curr, is taken out behind prev. */
    method Unlink(prev: Node, curr: Node, ghost k: nat)
      requires Valid() && 1 <= k < |spine| && prev == spine[k - 1] && curr == spine[k]
      modifies this, prev
      ensures Valid() && contents == RemoveAt(old(contents), k) && spine == RemoveAt(old(spine), k)
      ensures prev.pcb == old(prev.pcb)
    {
      assert NodeOk(k) && NodeOk(k - 1);
      prev.next := curr.next;
      if curr == rear {
        rear := prev;
      }
      size := size - 1;
      spine, contents := RemoveAt(spine, k), RemoveAt(contents, k);
      forall i: nat | i < |spine| ensures NodeOk(i) {
        assert old(NodeOk(if i < k then i else i + 1));
      }
    }

    /** enqueue_priority */
    method EnqueuePriority(x: Pcb)
      requires Valid()
      modifies this, spine
      ensures Valid() && contents == Insert(old(contents), x)
      ensures forall i :: 0 <= i < |spine| ==> spine[i] in old(spine) || fresh(spine[i])
    {
      var node := new Node(x, null);
      assert front != null ==> NodeOk(0);
      if front == null || x.priority < front.pcb.priority {
        node.next := front;
        front := node;
        if rear == null {
          rear := node;
        }
        size := size + 1;
        forall i: nat | i < |spine| ensures LinkOk(node, i, 0) {
          assert old(NodeOk(i));
        }
        InsertAt(node, x, 0);
        return;
      }
      var curr := front;
      ghost var k := 1;
      while curr.next != null && Passes(curr.next.pcb, x)
        invariant 1 <= k <= |spine| && curr == spine[k - 1] && NodeOk(k - 1)
        invariant WalkStop(contents, x, k) == WalkStop(contents, x, 1)
        decreases |spine| - k
      {
        assert NodeOk(k);
        curr := curr.next;
        k := k + 1;
      }
      if k < |spine| {
        assert NodeOk(k);
      }
      node.next := curr.next;
      curr.next := node;
      if node.next == null {
        rear := node;
      }
      size := size + 1;
      forall i: nat | i < |spine| ensures LinkOk(node, i, k) {
        assert old(NodeOk(i));
      }
      InsertAt(node, x, k);
    }

    /** Node i of the old list, once node was linked in before node k. */
    ghost predicate LinkOk(node: Node, i: nat, k: nat)
      requires i < |spine| == |contents|
      reads this, spine
    {
      && spine[i] != node && spine[i].pcb == contents[i]
      && spine[i].next == if i + 1 == k then node else At(i + 1)
    }

    /** The node was linked in at place k; the ghost sequences follow. */
    ghost method InsertAt(node: Node, x: Pcb, k: nat)
      requires k <= |spine| == |contents| && size == |spine| + 1
      requires forall i, j :: 0 <= i < j < |spine| ==> spine[i] != spine[j]
      requires forall i: nat :: i < |spine| ==> LinkOk(node, i, k)
      requires node.pcb == x && node.next == At(k)
      requires front == (if k == 0 then node else At(0)) && rear == (if k == |spine| then node else At(|spine| - 1))
      modifies this`spine, this`contents
      ensures Valid() && contents == old(contents)[..k] + [x] + old(contents)[k..]
      ensures forall i :: 0 <= i < |spine| ==> spine[i] in old(spine) || spine[i] == node
    {
      spine, contents := spine[..k] + [node] + spine[k..], contents[..k] + [x] + contents[k..];
      forall i, j | 0 <= i < j < |spine| ensures spine[i] != spine[j] {
        if i == k {
          assert old(LinkOk(node, j - 1, k));
        } else if j == k {
          assert old(LinkOk(node, i, k));
        }
      }
      forall i: nat | i < |spine| ensures NodeOk(i) {
        if i < k {
          assert old(LinkOk(node, i, k)) && spine[i] == old(spine)[i];
        } else if i > k {
          assert old(LinkOk(node, i - 1, k)) && spine[i] == old(spine)[i - 1];
        }
      }
    }

    /** total_remaining_time */
    method TotalRemainingTime() returns (total: int)
      requires Valid()
      ensures total == TotalRemaining(contents)
    {
      total := 0;
      var curr := front;
      ghost var k := 0;
      while curr != null
        invariant 0 <= k <= |spine| && curr == At(k)
        invariant total == TotalRemaining(contents[..k])
        decreases |spine| - k
      {
        assert NodeOk(k);
        total := total + curr.pcb.remaining;
        TotalAppend(contents[..k], contents[k]);
        assert contents[..k + 1] == contents[..k] + [contents[k]];
        curr := curr.next;
        k := k + 1;
      }
      assert contents[..k] == contents;
    }
  }

  // ---- checkBlockEnd ---------------------------------------------------------

  /** The blocked processes whose deadline has not come, in their order. */
  function StillBlocked(s: seq<Pcb>, now: int): seq<Pcb> {
    if s == [] then []
    else if s[0].unblockAt <= now then StillBlocked(s[1..], now)
    else [s[0]] + StillBlocked(s[1..], now)
  }

  function Awake(c: Pcb): Pcb {
    if c.pendingPage != -1 && c.pendingFrame != -1
    then c.(state := Waiting, pendingPage := -1, pendingFrame := -1)
    else c.(state := Waiting)
  }

  /** Those whose deadline has come, woken, in their order. */
  function WokenUp(s: seq<Pcb>, now: int): seq<Pcb> {
    if s == [] then []
    else if s[0].unblockAt <= now then [Awake(s[0])] + WokenUp(s[1..], now)
    else WokenUp(s[1..], now)
  }

  ghost predicate DistinctIds(s: seq<Pcb>) {
    forall i, j :: 0 <= i < j < |s| ==> s[i].id != s[j].id
  }

  lemma {:induction false} IndexIsFirst(s: seq<Pcb>, k: nat)
    requires k < |s| && forall i :: 0 <= i < k ==> s[i].id != s[k].id
    ensures IndexOf(s, s[k].id) == k
  {
    if k > 0 {
      IndexIsFirst(s[1..], k - 1);
    }
  }

  /** The lists have no node in common. */
  ghost predicate Apart(a: Queue, b: Queue)
    reads a, b
  {
    && a != b
    && (forall i :: 0 <= i < |a.spine| ==> a.spine[i] !in b.spine)
    && (forall i :: 0 <= i < |b.spine| ==> b.spine[i] !in a.spine)
  }

  /** The work on one node whose deadline has come: it is unlinked from the
      block queue by its id and its process is woken. */
  method WakeNode(block: Queue, ready: Queue, id: int) returns (freed: int)
    requires block.Valid() && ready.Valid() && Apart(block, ready) && IndexOf(block.contents, id) < |block.contents|
    modifies block, ready, block.spine, ready.spine
    ensures block.Valid() && ready.Valid() && Apart(block, ready)
    ensures var k := IndexOf(old(block.contents), id);
      && block.contents == RemoveAt(old(block.contents), k) && block.spine == RemoveAt(old(block.spine), k)
      && ready.contents == old(ready.contents) + [Awake(old(block.contents)[k])]
      && freed == old(block.contents)[k].pendingFrame
    ensures forall i :: 0 <= i < |ready.spine| ==> ready.spine[i] in old(ready.spine) || fresh(ready.spine[i])
  {
    var r := block.DequeueById(id);
    var pcb := r.value;
    freed := pcb.pendingFrame;
    if pcb.pendingPage != -1 && pcb.pendingFrame != -1 {
      pcb := pcb.(pendingPage := -1, pendingFrame := -1);
    }
    ready.Enqueue(pcb.(state := Waiting));
  }

  /** checkBlockEnd on the lists themselves: the walk saves the next node before
      it unlinks the current one, and so visits every node once. */
  method CheckBlockEnd(block: Queue, ready: Queue, now: int)
    requires block.Valid() && ready.Valid() && Apart(block, ready)
    requires DistinctIds(block.contents)
    modifies block, ready, block.spine, ready.spine
    ensures block.Valid() && ready.Valid()
    ensures block.contents == StillBlocked(old(block.contents), now)
    ensures ready.contents == old(ready.contents) + WokenUp(old(block.contents), now)
  {
    var node := block.front;
    ghost var kept, rest: seq<Pcb> := [], block.contents;
    ghost var still, woken := StillBlocked(rest, now), ready.contents + WokenUp(rest, now);
    BlockEndStarts(rest, still);
    while node != null
      invariant block.Valid() && ready.Valid() && Apart(block, ready)
      invariant forall i :: 0 <= i < |block.spine| ==> block.spine[i] in old(block.spine)
      invariant forall i :: 0 <= i < |ready.spine| ==> ready.spine[i] in old(ready.spine) || fresh(ready.spine[i])
      invariant block.contents == kept + rest && node == block.At(|kept|)
      invariant DistinctIds(kept + rest)
      invariant kept + StillBlocked(rest, now) == still && ready.contents + WokenUp(rest, now) == woken
      decreases |rest|
    {
      var next := node.next;
      BlockEndStep(kept, rest, ready.contents, now);
      kept := VisitNode(block, ready, node, now, kept, rest);
      rest := rest[1..];
      node := next;
    }
    BlockEndDone(kept, rest, ready.contents, now);
  }

  lemma BlockEndStarts(rest: seq<Pcb>, still: seq<Pcb>)
    ensures [] + rest == rest && [] + still == still
  {
  }

  lemma BlockEndDone(kept: seq<Pcb>, rest: seq<Pcb>, woken: seq<Pcb>, now: int)
    requires rest == []
    ensures kept + rest == kept == kept + StillBlocked(rest, now) && woken + WokenUp(rest, now) == woken
  {
  }

  /** The visit to a node: it is woken if its deadline has come, or kept. */
  method VisitNode(block: Queue, ready: Queue, node: Node, now: int, ghost kept: seq<Pcb>, ghost rest: seq<Pcb>)
    returns (ghost kept': seq<Pcb>)
    requires block.Valid() && ready.Valid() && Apart(block, ready)
    requires block.contents == kept + rest && rest != [] && node == block.At(|kept|) && DistinctIds(kept + rest)
    modifies block, ready, block.spine, ready.spine
    ensures block.Valid() && ready.Valid() && Apart(block, ready)
    ensures block.contents == kept' + rest[1..] && DistinctIds(kept' + rest[1..]) && old(node.next) == block.At(|kept'|)
    ensures kept' == (if rest[0].unblockAt <= now then kept else kept + [rest[0]])
    ensures ready.contents == old(ready.contents) + (if rest[0].unblockAt <= now then [Awake(rest[0])] else [])
    ensures forall i :: 0 <= i < |block.spine| ==> block.spine[i] in old(block.spine)
    ensures forall i :: 0 <= i < |ready.spine| ==> ready.spine[i] in old(ready.spine) || fresh(ready.spine[i])
  {
    assert block.NodeOk(|kept|);
    if node.pcb.unblockAt <= now {
      IndexIsFirst(block.contents, |kept|);
      RemovedAt(kept, rest);
      var freed := WakeNode(block, ready, node.pcb.id);
      kept' := kept;
    } else {
      kept' := kept + [rest[0]];
      assert kept' + rest[1..] == block.contents;
    }
  }

  /** What one visit adds to the two sides of the split. */
  lemma BlockEndStep(kept: seq<Pcb>, rest: seq<Pcb>, woken: seq<Pcb>, now: int)
    requires rest != []
    ensures var due := rest[0].unblockAt <= now;
      && (if due then kept else kept + [rest[0]]) + StillBlocked(rest[1..], now) == kept + StillBlocked(rest, now)
      && (woken + if due then [Awake(rest[0])] else []) + WokenUp(rest[1..], now) == woken + WokenUp(rest, now)
  {
    if rest[0].unblockAt <= now {
      Reassociate(woken, Awake(rest[0]), WokenUp(rest[1..], now));
    } else {
      Reassociate(kept, rest[0], StillBlocked(rest[1..], now));
      assert woken + [] == woken;
    }
  }

  lemma Reassociate(a: seq<Pcb>, x: Pcb, b: seq<Pcb>)
    ensures (a + [x]) + b == a + ([x] + b)
  {
  }

  lemma RemovedAt(kept: seq<Pcb>, rest: seq<Pcb>)
    requires rest != [] && DistinctIds(kept + rest)
    ensures RemoveAt(kept + rest, |kept|) == kept + rest[1..] && DistinctIds(kept + rest[1..])
  {
    assert RemoveAt(kept + rest, |kept|) == kept + rest[1..];
    forall i, j | 0 <= i < j < |kept + rest[1..]| ensures (kept + rest[1..])[i].id != (kept + rest[1..])[j].id {
      var i', j' := if i < |kept| then i else i + 1, if j < |kept| then j else j + 1;
      assert (kept + rest)[i'] == (kept + rest[1..])[i] && (kept + rest)[j'] == (kept + rest[1..])[j];
    }
  }
}
