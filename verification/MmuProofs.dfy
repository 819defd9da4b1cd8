/** What every operation of the memory manager keeps, and what the replacement
    scan chooses. */
module MmuProofs {
  import opened Common
  import opened Mmu

  // ---- The invariant -------------------------------------------------------

  predicate Started(mem: Mem, p: int) {
    p in mem.pcbs && mem.pcbs[p].frameIndex != -1
  }

  predicate IsFree(f: Frame) {
    !f.occupied && f.table.None? && !f.r && !f.m && !f.reserved && f.pid <= 0
  }

  /** Frame i is free and clean, or is the page table of its owner, or holds a
      page whose owner's entry names it back with the same R and M bits. */
  predicate FrameOk(mem: Mem, i: int)
    requires 0 <= i < |mem.ram|
  {
    var f := mem.ram[i];
    if !f.occupied then IsFree(f)
    else
      && Started(mem, f.pid)
      && var c := mem.pcbs[f.pid];
      if f.table.Some? then
        c.frameIndex == i && |f.table.value| == c.limit && f.vpage == -1 && !f.m && !f.reserved
      else
        && c.frameIndex != i
        && HasEntry(mem, f.pid, f.vpage)
        && Entry(mem, f.pid, f.vpage) == Pte(true, i, f.r, f.m)
        && (f.reserved ==> c.pendingFrame == i)
  }

  /** Frame i holds page v of process p. */
  predicate Holds(mem: Mem, i: int, p: int, v: int) {
    && 0 <= i < |mem.ram|
    && mem.ram[i].occupied && mem.ram[i].table.None?
    && mem.ram[i].pid == p && mem.ram[i].vpage == v
  }

  predicate EntryOk(mem: Mem, p: int, v: int)
    requires HasEntry(mem, p, v)
  {
    var e := Entry(mem, p, v);
    if e.valid then Holds(mem, e.frame, p, v) else e == EMPTY_PTE
  }

  /** The frame pinned for a fault of p holds the faulting page. */
  predicate PendingOk(mem: Mem, p: int)
    requires p in mem.pcbs
  {
    var c := mem.pcbs[p];
    && (c.pendingFrame == -1 <==> c.pendingPage == -1)
    && (c.pendingFrame != -1 ==>
          Holds(mem, c.pendingFrame, p, c.pendingPage) && mem.ram[c.pendingFrame].reserved)
  }

  ghost predicate ProcOk(mem: Mem, p: int)
    requires p in mem.pcbs
  {
    var c := mem.pcbs[p];
    && c.id == p && p > 0 && 0 < c.limit <= 64
    && PendingOk(mem, p)
    && (c.frameIndex != -1 ==>
          && 0 <= c.frameIndex < |mem.ram|
          && mem.ram[c.frameIndex].occupied && mem.ram[c.frameIndex].pid == p
          && mem.ram[c.frameIndex].table.Some?
          && |mem.ram[c.frameIndex].table.value| == c.limit
          && forall v :: 0 <= v < c.limit ==> EntryOk(mem, p, v))
  }

  ghost predicate MemInv(mem: Mem) {
    && |mem.ram| == FRAMES
    && !mem.trapped
    && (forall i :: 0 <= i < FRAMES ==> FrameOk(mem, i))
    && (forall p :: p in mem.pcbs ==> ProcOk(mem, p))
  }

  // ---- What the invariant says ---------------------------------------------

  /** The frame table and the page tables are inverse of each other, bits included. */
  lemma InverseTables(mem: Mem, p: int, v: int, i: int)
    requires MemInv(mem) && Started(mem, p) && 0 <= v < mem.pcbs[p].limit
    ensures HasEntry(mem, p, v)
    ensures (Entry(mem, p, v).valid && Entry(mem, p, v).frame == i) <==> Holds(mem, i, p, v)
    ensures Holds(mem, i, p, v) ==> Entry(mem, p, v) == Pte(true, i, mem.ram[i].r, mem.ram[i].m)
  {
    assert ProcOk(mem, p);
    assert EntryOk(mem, p, v);
    if Holds(mem, i, p, v) {
      assert FrameOk(mem, i);
    }
  }

  /** Every started live process owns a table frame, an occupied one with a table
      of its size; no two share one; and every table frame is owned like this. */
  lemma OneTableFrame(mem: Mem)
    requires MemInv(mem)
    ensures forall p :: Started(mem, p) ==>
              var t := mem.pcbs[p].frameIndex;
              && 0 <= t < FRAMES && mem.ram[t].occupied && mem.ram[t].pid == p
              && mem.ram[t].table.Some? && |mem.ram[t].table.value| == mem.pcbs[p].limit
    ensures forall p, q | Started(mem, p) && Started(mem, q) :: mem.pcbs[p].frameIndex == mem.pcbs[q].frameIndex ==> p == q
    ensures forall i :: 0 <= i < FRAMES && mem.ram[i].table.Some? ==>
              Started(mem, mem.ram[i].pid) && mem.pcbs[mem.ram[i].pid].frameIndex == i
  {
    forall p | Started(mem, p)
      ensures var t := mem.pcbs[p].frameIndex;
        && 0 <= t < FRAMES && mem.ram[t].occupied && mem.ram[t].pid == p
        && mem.ram[t].table.Some? && |mem.ram[t].table.value| == mem.pcbs[p].limit
    {
      assert ProcOk(mem, p);
    }
    forall i | 0 <= i < FRAMES && mem.ram[i].table.Some?
      ensures Started(mem, mem.ram[i].pid) && mem.pcbs[mem.ram[i].pid].frameIndex == i
    {
      assert FrameOk(mem, i);
    }
  }

  /** Pinned frames are exactly the pending frames of processes, one each. */
  lemma PinnedFrames(mem: Mem, i: int)
    requires MemInv(mem) && 0 <= i < FRAMES
    ensures mem.ram[i].reserved <==> exists p :: p in mem.pcbs && mem.pcbs[p].pendingFrame == i
    ensures mem.ram[i].reserved ==>
              && mem.ram[i].pid in mem.pcbs
              && mem.pcbs[mem.ram[i].pid].pendingFrame == i
              && mem.pcbs[mem.ram[i].pid].pendingPage == mem.ram[i].vpage
    ensures forall p, q | p in mem.pcbs && q in mem.pcbs ::
              mem.pcbs[p].pendingFrame == i && mem.pcbs[q].pendingFrame == i ==> p == q
  {
    assert FrameOk(mem, i);
    forall p | p in mem.pcbs && mem.pcbs[p].pendingFrame == i
      ensures mem.ram[i].reserved && mem.ram[i].pid == p
    {
      assert ProcOk(mem, p);
    }
    if mem.ram[i].reserved {
      assert ProcOk(mem, mem.ram[i].pid);
    }
  }

  /** MemInv looks at five fields of a control block only. */
  predicate SameMemFields(c: Pcb, d: Pcb) {
    && c.id == d.id && c.limit == d.limit && c.frameIndex == d.frameIndex
    && c.pendingPage == d.pendingPage && c.pendingFrame == d.pendingFrame
  }

  lemma OtherFields(mem: Mem, mem': Mem)
    requires MemInv(mem) && mem'.ram == mem.ram && !mem'.trapped
    requires mem'.pcbs.Keys == mem.pcbs.Keys
    requires forall p :: p in mem.pcbs ==> SameMemFields(mem.pcbs[p], mem'.pcbs[p])
    ensures MemInv(mem')
  {
    forall i | 0 <= i < FRAMES ensures FrameOk(mem', i) {
      assert FrameOk(mem, i);
    }
    forall p | p in mem'.pcbs ensures ProcOk(mem', p) {
      assert ProcOk(mem, p);
      if mem'.pcbs[p].frameIndex != -1 {
        forall v | 0 <= v < mem'.pcbs[p].limit ensures EntryOk(mem', p, v) {
          assert EntryOk(mem, p, v);
        }
      }
    }
  }

  lemma AdmitKeeps(mem: Mem, p: int, c: Pcb)
    requires MemInv(mem) && p !in mem.pcbs
    requires c.id == p && p > 0 && 0 < c.limit <= 64
    requires c.frameIndex == -1 && c.pendingPage == -1 && c.pendingFrame == -1
    ensures MemInv(SetPcb(mem, p, c))
  {
    var mem' := SetPcb(mem, p, c);
    forall i | 0 <= i < FRAMES ensures FrameOk(mem', i) {
      assert FrameOk(mem, i);
    }
    forall q | q in mem'.pcbs ensures ProcOk(mem', q) {
      if q != p {
        assert ProcOk(mem, q);
        if mem.pcbs[q].frameIndex != -1 {
          forall v | 0 <= v < mem.pcbs[q].limit ensures EntryOk(mem', q, v) {
            assert EntryOk(mem, q, v);
          }
        }
      }
    }
  }

  // ---- The replacement scan ------------------------------------------------

  /** The better victim: a page not used recently before one that was, and of
      pages equal in that a clean one before a dirty one. */
  predicate GoesBefore(a: Frame, b: Frame) {
    (!a.r && b.r) || (a.r == b.r && !a.m && b.m)
  }

  /** The classes of the scan are in this order. */
  lemma ClassOrder(a: Frame, b: Frame)
    ensures Class(a) < Class(b) <==> GoesBefore(a, b)
  {
  }

  /** The victim the policy asks for: no evictable frame is better, and every
      evictable frame before it is worse. */
  ghost predicate IsNruVictim(ram: seq<Frame>, i: int) {
    && 0 <= i < |ram| && Evictable(ram[i])
    && (forall j :: 0 <= j < |ram| && Evictable(ram[j]) ==> !GoesBefore(ram[j], ram[i]))
    && (forall j :: 0 <= j < i && Evictable(ram[j]) ==> GoesBefore(ram[i], ram[j]))
  }

  ghost predicate IsFirstFree(ram: seq<Frame>, i: int) {
    && 0 <= i < |ram| && !ram[i].occupied
    && forall j :: 0 <= j < i ==> ram[j].occupied
  }

  /** What the scan has established about the frames before i. */
  ghost predicate ScanSoFar(ram: seq<Frame>, i: int, cls: int, victim: int) {
    && 0 <= i <= |ram| && -1 <= victim < i
    && (forall j :: 0 <= j < i ==> ram[j].occupied)
    && (victim == -1 ==> cls == 4 && forall j :: 0 <= j < i ==> !Evictable(ram[j]))
    && (victim != -1 ==>
          && Evictable(ram[victim]) && cls == Class(ram[victim])
          && (forall j :: 0 <= j < i && Evictable(ram[j]) ==> cls <= Class(ram[j]))
          && (forall j :: 0 <= j < victim && Evictable(ram[j]) ==> cls < Class(ram[j])))
  }

  lemma LeastIsVictim(ram: seq<Frame>, i: int)
    requires 0 <= i < |ram| && Evictable(ram[i])
    requires forall j :: 0 <= j < |ram| && Evictable(ram[j]) ==> Class(ram[i]) <= Class(ram[j])
    requires forall j :: 0 <= j < i && Evictable(ram[j]) ==> Class(ram[i]) < Class(ram[j])
    ensures IsNruVictim(ram, i)
  {
    forall j | 0 <= j < |ram| && Evictable(ram[j])
      ensures !GoesBefore(ram[j], ram[i]) && (j < i ==> GoesBefore(ram[i], ram[j]))
    {
      ClassOrder(ram[j], ram[i]);
      ClassOrder(ram[i], ram[j]);
    }
  }

  /** The scan answers Free(i) exactly for the lowest free frame, Evict(i)
      exactly for the NRU victim of a full memory, and NoFrame exactly when
      every frame is a table or pinned. */
  lemma {:induction false} ScanMeaning(ram: seq<Frame>, i: nat, cls: int, victim: int)
    requires ScanSoFar(ram, i, cls, victim)
    ensures match Scan(ram, i, cls, victim)
            case Free(f) => IsFirstFree(ram, f)
            case Evict(f) => (forall j :: 0 <= j < |ram| ==> ram[j].occupied) && IsNruVictim(ram, f)
            case NoFrame => forall j :: 0 <= j < |ram| ==> ram[j].occupied && !Evictable(ram[j])
    decreases |ram| - i
  {
    if i == |ram| {
      if victim != -1 {
        LeastIsVictim(ram, victim);
      }
    } else if ram[i].occupied {
      if ram[i].table.None? && !ram[i].reserved && Class(ram[i]) < cls {
        ScanMeaning(ram, i + 1, Class(ram[i]), i);
      } else {
        ScanMeaning(ram, i + 1, cls, victim);
      }
    }
  }

  lemma ChoiceMeaning(ram: seq<Frame>)
    ensures forall i :: ChooseFrame(ram) == Free(i) <==> IsFirstFree(ram, i)
    ensures forall i :: ChooseFrame(ram) == Evict(i) <==>
              (forall j :: 0 <= j < |ram| ==> ram[j].occupied) && IsNruVictim(ram, i)
    ensures ChooseFrame(ram).NoFrame? <==> forall j :: 0 <= j < |ram| ==> ram[j].occupied && !Evictable(ram[j])
  {
    ScanMeaning(ram, 0, 4, -1);
  }

  // ---- Eviction: the victim's mapping disappears ---------------------------

  function Evicted(mem: Mem, i: int): Mem
    requires 0 <= i < |mem.ram|
  {
    SetFrame(DropMapping(mem, i), i, FREED_FRAME)
  }

  lemma EvictKeeps(mem: Mem, i: int)
    requires MemInv(mem) && 0 <= i < FRAMES && Evictable(mem.ram[i])
    ensures var mem' := Evicted(mem, i);
      && MemInv(mem') && IsFree(mem'.ram[i]) && mem'.pcbs == mem.pcbs
      && DropMapping(mem, i).ram[i] == mem.ram[i]
      && forall p, v :: HasEntry(mem, p, v) ==>
           HasEntry(mem', p, v) &&
           Entry(mem', p, v) == if p == mem.ram[i].pid && v == mem.ram[i].vpage then EMPTY_PTE else Entry(mem, p, v)
  {
    var mem' := Evicted(mem, i);
    assert FrameOk(mem, i);
    var p0, v0 := mem.ram[i].pid, mem.ram[i].vpage;
    var t := mem.pcbs[p0].frameIndex;
    assert ProcOk(mem, p0);
    assert mem'.ram == mem.ram[t := mem.ram[t].(table := Some(mem.ram[t].table.value[v0 := EMPTY_PTE]))][i := FREED_FRAME];
    forall p, v | HasEntry(mem, p, v)
      ensures HasEntry(mem', p, v)
      ensures Entry(mem', p, v) == if p == p0 && v == v0 then EMPTY_PTE else Entry(mem, p, v)
    {
      if p != p0 { assert ProcOk(mem, p); }
    }
    forall j | 0 <= j < FRAMES ensures FrameOk(mem', j) {
      assert FrameOk(mem, j);
    }
    forall q | q in mem'.pcbs ensures ProcOk(mem', q) {
      assert ProcOk(mem, q);
      if mem'.pcbs[q].frameIndex != -1 {
        forall v | 0 <= v < mem'.pcbs[q].limit ensures EntryOk(mem', q, v) {
          assert EntryOk(mem, q, v);
        }
      }
    }
  }

  // ---- Placing a page or a table on a free frame ---------------------------

  /** The memory after page `page` of p was put on frame i, with p's control
      block replaced by c. */
  function Placed(mem: Mem, p: int, page: nat, i: int, write: bool, pin: bool, c: Pcb): Mem
    requires HasEntry(mem, p, page) && 0 <= i < |mem.ram|
  {
    var t := mem.pcbs[p].frameIndex;
    var table := mem.ram[t].table.value[page := Pte(true, i, true, write)];
    mem.(ram := mem.ram[t := mem.ram[t].(table := Some(table))][i := Frame(true, p, None, page, true, write, pin)],
         pcbs := mem.pcbs[p := c])
  }

  lemma PlacedKeeps(mem: Mem, p: int, page: nat, i: int, write: bool, pin: bool, c: Pcb)
    requires MemInv(mem) && Started(mem, p) && page < mem.pcbs[p].limit
    requires HasEntry(mem, p, page) && !Entry(mem, p, page).valid
    requires 0 <= i < FRAMES && IsFree(mem.ram[i])
    requires c.id == p && c.limit == mem.pcbs[p].limit && c.frameIndex == mem.pcbs[p].frameIndex
    requires pin ==> mem.pcbs[p].pendingFrame == -1 && c.pendingFrame == i && c.pendingPage == page
    requires !pin ==> c.pendingFrame == mem.pcbs[p].pendingFrame && c.pendingPage == mem.pcbs[p].pendingPage
    ensures MemInv(Placed(mem, p, page, i, write, pin, c))
  {
    var mem' := Placed(mem, p, page, i, write, pin, c);
    assert ProcOk(mem, p);
    var t := mem.pcbs[p].frameIndex;
    assert t != i;
    forall j | 0 <= j < FRAMES ensures FrameOk(mem', j) {
      assert FrameOk(mem, j);
    }
    forall q | q in mem'.pcbs ensures ProcOk(mem', q) {
      assert ProcOk(mem, q);
      if mem'.pcbs[q].frameIndex != -1 {
        forall v | 0 <= v < mem'.pcbs[q].limit ensures EntryOk(mem', q, v) {
          assert EntryOk(mem, q, v);
        }
      }
    }
  }

  lemma DefineTableKeeps(mem: Mem, p: int, i: int)
    requires MemInv(mem) && p in mem.pcbs && mem.pcbs[p].frameIndex == -1
    requires 0 <= i < FRAMES && IsFree(mem.ram[i])
    ensures var mem' := DefineTable(mem, p, i);
      && MemInv(mem')
      && mem'.pcbs == mem.pcbs[p := mem.pcbs[p].(frameIndex := i)]
      && mem'.ram[i] == Frame(true, p, mem'.ram[i].table, -1, true, false, false)
      && forall v :: 0 <= v < mem.pcbs[p].limit ==> HasEntry(mem', p, v) && Entry(mem', p, v) == EMPTY_PTE
  {
    var mem' := DefineTable(mem, p, i);
    assert ProcOk(mem, p);
    forall j | 0 <= j < FRAMES ensures FrameOk(mem', j) {
      assert FrameOk(mem, j);
    }
    forall q | q in mem'.pcbs ensures ProcOk(mem', q) {
      assert ProcOk(mem, q);
      if mem'.pcbs[q].frameIndex != -1 {
        forall v | 0 <= v < mem'.pcbs[q].limit ensures EntryOk(mem', q, v) {
          if q != p { assert EntryOk(mem, q, v); }
        }
      }
    }
  }

  // ---- fault_handler -------------------------------------------------------

  /** The memory a fault starts from once a frame was chosen: with the victim
      evicted, or unchanged. */
  function Cleared(mem: Mem, ch: Choice): Mem
    requires !ch.NoFrame? ==> 0 <= ch.frame < |mem.ram|
  {
    if ch.Evict? then Evicted(mem, ch.frame) else mem
  }

  lemma ClearedKeeps(mem: Mem)
    requires MemInv(mem)
    ensures var ch := ChooseFrame(mem.ram); var mem' := Cleared(mem, ch);
      && MemInv(mem') && mem'.pcbs == mem.pcbs
      && (!ch.NoFrame? ==> IsFree(mem'.ram[ch.frame]))
      && forall p, v :: HasEntry(mem, p, v) && !Entry(mem, p, v).valid ==>
           HasEntry(mem', p, v) && !Entry(mem', p, v).valid
  {
    var ch := ChooseFrame(mem.ram);
    ChoiceMeaning(mem.ram);
    if ch.Evict? {
      EvictKeeps(mem, ch.frame);
    } else if ch.Free? {
      assert IsFirstFree(mem.ram, ch.frame);
      assert FrameOk(mem, ch.frame);
    }
  }

  /** A table fault (type 0): if any frame can be had, p gets an empty page
      table in it; nothing else about any process changes. */
  lemma TableFault(mem: Mem, now: int, p: int)
    requires MemInv(mem) && p in mem.pcbs && mem.pcbs[p].frameIndex == -1
    ensures var mem' := FaultHandler(mem, now, p, 0, Table, false); var ch := ChooseFrame(mem.ram);
      && MemInv(mem')
      && (ch.NoFrame? ==> mem' == mem)
      && (!ch.NoFrame? ==>
            && mem'.pcbs == mem.pcbs[p := mem.pcbs[p].(frameIndex := ch.frame)]
            && mem'.ram[ch.frame] == Frame(true, p, mem'.ram[ch.frame].table, -1, true, false, false)
            && forall v :: 0 <= v < mem.pcbs[p].limit ==> HasEntry(mem', p, v) && Entry(mem', p, v) == EMPTY_PTE)
  {
    var ch := ChooseFrame(mem.ram);
    ChoiceMeaning(mem.ram);
    ClearedKeeps(mem);
    assert ProcOk(mem, p);
    if !ch.NoFrame? {
      var base := Cleared(mem, ch);
      DefineTableKeeps(base, p, ch.frame);
      if ch.Evict? {
        EvictKeeps(mem, ch.frame);
        assert DefineTable(DropMapping(mem, ch.frame), p, ch.frame).ram == DefineTable(base, p, ch.frame).ram;
      }
    }
  }

  /** The control block of p after a page fault of the given kind was served
      with the given choice. */
  function FaultedPcb(c: Pcb, now: int, page: nat, kind: Fault, ch: Choice, dirty: bool): Pcb {
    if kind.Demand? then
      if ch.NoFrame? then c.(state := Blocked, unblockAt := now + 10, pendingPage := -1, pendingFrame := -1)
      else c.(state := Blocked, unblockAt := now + (if ch.Evict? && dirty then 20 else 10),
              pendingPage := page, pendingFrame := ch.frame)
    else if ch.Free? then c.(unblockAt := now + 10)
    else c
  }

  /** A page fault (types 1 and 2) places the page on the chosen frame; the
      wait is 20 ticks exactly when a dirty page was evicted, else 10. */
  lemma PageFault(mem: Mem, now: int, p: int, page: nat, kind: Fault, write: bool)
    requires MemInv(mem) && Started(mem, p) && page < mem.pcbs[p].limit && !kind.Table?
    requires HasEntry(mem, p, page) && !Entry(mem, p, page).valid
    requires mem.pcbs[p].pendingFrame == -1
    ensures var mem' := FaultHandler(mem, now, p, page, kind, write); var ch := ChooseFrame(mem.ram);
      && MemInv(mem')
      && mem'.pcbs == mem.pcbs[p := FaultedPcb(mem.pcbs[p], now, page, kind, ch,
                                               !ch.NoFrame? && mem.ram[ch.frame].m)]
      && (ch.NoFrame? ==> mem'.ram == mem.ram)
      && (!ch.NoFrame? ==>
            && HasEntry(Cleared(mem, ch), p, page)
            && mem' == Placed(Cleared(mem, ch), p, page, ch.frame, write, kind.Demand?, mem'.pcbs[p])
            && Holds(mem', ch.frame, p, page) && HasEntry(mem', p, page)
            && Entry(mem', p, page) == Pte(true, ch.frame, true, write)
            && mem'.ram[ch.frame] == Frame(true, p, None, page, true, write, kind.Demand?))
  {
    var ch := ChooseFrame(mem.ram);
    if ch.NoFrame? {
      NoFrameFault(mem, now, p, page, kind, write);
    } else {
      var c' := FaultedPcb(mem.pcbs[p], now, page, kind, ch, mem.ram[ch.frame].m);
      var base := Cleared(mem, ch);
      ClearedKeeps(mem);
      FaultIsPlaced(mem, now, p, page, kind, write);
      PlacedKeeps(base, p, page, ch.frame, write, kind.Demand?, c');
      PlacedHolds(base, p, page, ch.frame, write, kind.Demand?, c');
      assert FaultHandler(mem, now, p, page, kind, write).pcbs[p] == c';
    }
  }

  lemma NoFrameFault(mem: Mem, now: int, p: int, page: nat, kind: Fault, write: bool)
    requires MemInv(mem) && p in mem.pcbs && mem.pcbs[p].pendingFrame == -1
    requires !kind.Table? && ChooseFrame(mem.ram).NoFrame?
    ensures var mem' := FaultHandler(mem, now, p, page, kind, write);
      && MemInv(mem') && mem'.ram == mem.ram
      && mem'.pcbs == mem.pcbs[p := FaultedPcb(mem.pcbs[p], now, page, kind, NoFrame, false)]
  {
    assert ProcOk(mem, p);
    var mem' := StartFault(mem, now, p, kind);
    OtherFields(mem, mem');
    assert mem'.pcbs == mem.pcbs[p := FaultedPcb(mem.pcbs[p], now, page, kind, NoFrame, false)];
  }

  lemma FaultIsPlaced(mem: Mem, now: int, p: int, page: nat, kind: Fault, write: bool)
    requires MemInv(mem) && Started(mem, p) && !kind.Table?
    requires HasEntry(mem, p, page) && !Entry(mem, p, page).valid
    requires !ChooseFrame(mem.ram).NoFrame?
    ensures var ch := ChooseFrame(mem.ram);
      && HasEntry(Cleared(mem, ch), p, page)
      && FaultHandler(mem, now, p, page, kind, write)
         == Placed(Cleared(mem, ch), p, page, ch.frame, write, kind.Demand?,
                   FaultedPcb(mem.pcbs[p], now, page, kind, ch, mem.ram[ch.frame].m))
  {
    var ch := ChooseFrame(mem.ram);
    ChoiceMeaning(mem.ram);
    ClearedKeeps(mem);
    assert FrameOk(mem, ch.frame);
    var c' := FaultedPcb(mem.pcbs[p], now, page, kind, ch, mem.ram[ch.frame].m);
    if ch.Evict? {
      SwapIsPlaced(mem, now, p, page, kind, write, ch.frame, c');
    } else {
      UseFreeIsPlaced(mem, now, p, page, kind, write, ch.frame, c');
    }
  }

  lemma PlacedHolds(mem: Mem, p: int, page: nat, i: int, write: bool, pin: bool, c: Pcb)
    requires MemInv(mem) && Started(mem, p) && HasEntry(mem, p, page)
    requires 0 <= i < FRAMES && IsFree(mem.ram[i]) && c.frameIndex == mem.pcbs[p].frameIndex
    ensures var mem' := Placed(mem, p, page, i, write, pin, c);
      && Holds(mem', i, p, page) && HasEntry(mem', p, page)
      && Entry(mem', p, page) == Pte(true, i, true, write)
      && mem'.ram[i] == Frame(true, p, None, page, true, write, pin)
  {
    assert ProcOk(mem, p);
    assert mem.pcbs[p].frameIndex != i;
  }

  lemma UseFreeIsPlaced(mem: Mem, now: int, p: int, page: nat, kind: Fault, write: bool, i: int, c': Pcb)
    requires MemInv(mem) && Started(mem, p) && !kind.Table? && HasEntry(mem, p, page)
    requires 0 <= i < FRAMES && IsFree(mem.ram[i])
    requires c' == FaultedPcb(mem.pcbs[p], now, page, kind, Free(i), false)
    ensures UseFree(StartFault(mem, now, p, kind), now, p, i, page, kind, write)
         == Placed(mem, p, page, i, write, kind.Demand?, c')
  {
    assert ProcOk(mem, p);
    var t := mem.pcbs[p].frameIndex;
    assert t != i;
    var left := UseFree(StartFault(mem, now, p, kind), now, p, i, page, kind, write);
    var right := Placed(mem, p, page, i, write, kind.Demand?, c');
    assert left.ram == right.ram;
    assert left.pcbs == right.pcbs;
  }

  lemma SwapIsPlaced(mem: Mem, now: int, p: int, page: nat, kind: Fault, write: bool, i: int, c': Pcb)
    requires MemInv(mem) && Started(mem, p) && !kind.Table? && HasEntry(mem, p, page)
    requires 0 <= i < FRAMES && Evictable(mem.ram[i]) && HasEntry(Evicted(mem, i), p, page)
    requires c' == FaultedPcb(mem.pcbs[p], now, page, kind, Evict(i), mem.ram[i].m)
    ensures Swap(StartFault(mem, now, p, kind), now, p, i, page, kind, write)
         == Placed(Evicted(mem, i), p, page, i, write, kind.Demand?, c')
  {
    assert ProcOk(mem, p);
    assert FrameOk(mem, i);
    assert ProcOk(mem, mem.ram[i].pid);
    EvictKeeps(mem, i);
    var mem0 := StartFault(mem, now, p, kind);
    assert DropMapping(mem0, i) == DropMapping(mem, i).(pcbs := mem0.pcbs);
    SwappedIn(DropMapping(mem, i), mem0, now, p, page, kind, write, i, c');
  }

  /** swap, once the victim's mapping was dropped: dropped is the memory with
      the control blocks as they were before the fault. */
  lemma SwappedIn(dropped: Mem, mem0: Mem, now: int, p: int, page: nat, kind: Fault, write: bool, i: int, c': Pcb)
    requires !kind.Table? && |dropped.ram| == FRAMES == |mem0.ram| && 0 <= i < FRAMES && !dropped.trapped
    requires dropped.ram[i].table.None? && !dropped.ram[i].reserved && dropped.ram[i].m == mem0.ram[i].m
    requires mem0 == StartFault(mem0.(pcbs := dropped.pcbs), now, p, kind)
    requires DropMapping(mem0, i) == dropped.(pcbs := mem0.pcbs)
    requires HasEntry(dropped, p, page) && HasEntry(SetFrame(dropped, i, FREED_FRAME), p, page)
    requires c' == FaultedPcb(dropped.pcbs[p], now, page, kind, Evict(i), mem0.ram[i].m)
    ensures Swap(mem0, now, p, i, page, kind, write)
         == Placed(SetFrame(dropped, i, FREED_FRAME), p, page, i, write, kind.Demand?, c')
  {
    var left := Swap(mem0, now, p, i, page, kind, write);
    var right := Placed(SetFrame(dropped, i, FREED_FRAME), p, page, i, write, kind.Demand?, c');
    assert left.ram == right.ram;
    assert left.pcbs == right.pcbs;
  }

  // ---- check ---------------------------------------------------------------

  /** Translating page `page` of a started process: the page whose number is the
      limit is read out of bounds; beyond it the page is invalid and nothing
      changes; below it a hit sets R, and M on a write, in the entry and its frame
      alike, and a miss changes nothing. */
  lemma CheckKeeps(mem: Mem, p: int, page: nat, write: bool)
    requires MemInv(mem) && Started(mem, p)
    ensures var (mem', res) := Check(mem, p, page, write);
      && mem'.pcbs == mem.pcbs && (mem'.trapped <==> page == mem.pcbs[p].limit)
      && (page != mem.pcbs[p].limit ==> MemInv(mem'))
      && (res.Invalid? <==> page >= mem.pcbs[p].limit)
      && (!res.Hit? && page != mem.pcbs[p].limit ==> mem' == mem)
      && (res.Miss? <==> page < mem.pcbs[p].limit && HasEntry(mem, p, page) && !Entry(mem, p, page).valid)
      && (res.Hit? ==>
            && HasEntry(mem, p, page) && Entry(mem, p, page).valid && HasEntry(mem', p, page)
            && Entry(mem', p, page) == Entry(mem, p, page).(r := true, m := Entry(mem, p, page).m || write)
            && forall q, v :: HasEntry(mem, q, v) && (q != p || v != page) ==>
                 HasEntry(mem', q, v) && Entry(mem', q, v) == Entry(mem, q, v))
  {
    assert ProcOk(mem, p);
    var (mem', res) := Check(mem, p, page, write);
    if res.Hit? {
      HitKeeps(mem, p, page, write);
    } else if page < mem.pcbs[p].limit {
      assert EntryOk(mem, p, page);
      assert HasEntry(mem, p, page);
    }
  }

  lemma HitKeeps(mem: Mem, p: int, page: nat, write: bool)
    requires MemInv(mem) && Started(mem, p) && page < mem.pcbs[p].limit
    requires HasEntry(mem, p, page) && Entry(mem, p, page).valid
    ensures var (mem', res) := Check(mem, p, page, write);
      && res.Hit? && MemInv(mem') && mem'.pcbs == mem.pcbs
      && HasEntry(mem', p, page)
      && Entry(mem', p, page) == Entry(mem, p, page).(r := true, m := Entry(mem, p, page).m || write)
      && forall q, v :: HasEntry(mem, q, v) && (q != p || v != page) ==>
           HasEntry(mem', q, v) && Entry(mem', q, v) == Entry(mem, q, v)
  {
    var (mem', res) := Check(mem, p, page, write);
    assert ProcOk(mem, p);
    assert EntryOk(mem, p, page);
    var e := Entry(mem, p, page);
    var t := mem.pcbs[p].frameIndex;
    assert FrameOk(mem, e.frame);
    assert t != e.frame;
    var e' := e.(r := true, m := e.m || write);
    assert mem'.ram == mem.ram[t := mem.ram[t].(table := Some(mem.ram[t].table.value[page := e']))]
                              [e.frame := mem.ram[e.frame].(r := true, m := mem.ram[e.frame].m || write)];
    forall q, v | HasEntry(mem, q, v) && (q != p || v != page)
      ensures HasEntry(mem', q, v) && Entry(mem', q, v) == Entry(mem, q, v)
    {
      assert ProcOk(mem, q);
    }
    forall j | 0 <= j < FRAMES ensures FrameOk(mem', j) {
      assert FrameOk(mem, j);
    }
    forall q | q in mem'.pcbs ensures ProcOk(mem', q) {
      assert ProcOk(mem, q);
      if mem'.pcbs[q].frameIndex != -1 {
        forall v | 0 <= v < mem'.pcbs[q].limit ensures EntryOk(mem', q, v) {
          assert EntryOk(mem, q, v);
        }
      }
    }
  }

  /** The off-by-one of check, exactly: on a started process it reads outside
      the page table if and only if the page equals the limit. */
  lemma CheckTrapsExactly(mem: Mem, p: int, page: nat, write: bool)
    requires MemInv(mem) && Started(mem, p)
    ensures Check(mem, p, page, write).0.trapped <==> page == mem.pcbs[p].limit
  {
    CheckKeeps(mem, p, page, write);
  }

  // ---- clear_recent --------------------------------------------------------

  lemma ClearKeeps(mem: Mem)
    requires MemInv(mem)
    ensures var mem' := ClearRecent(mem);
      && MemInv(mem') && mem'.pcbs == mem.pcbs
      && (forall i :: 0 <= i < FRAMES ==> !mem'.ram[i].r && mem'.ram[i].m == mem.ram[i].m)
      && forall p, v :: HasEntry(mem, p, v) ==>
           HasEntry(mem', p, v) && Entry(mem', p, v) == Entry(mem, p, v).(r := false)
  {
    var mem' := ClearRecent(mem);
    forall i | 0 <= i < FRAMES ensures !ClearTraps(mem, mem.ram[i]) && !mem'.ram[i].r && mem'.ram[i].m == mem.ram[i].m {
      assert FrameOk(mem, i);
    }
    assert !mem'.trapped;
    forall p, v | HasEntry(mem, p, v)
      ensures HasEntry(mem', p, v) && Entry(mem', p, v) == Entry(mem, p, v).(r := false)
    {
      assert ProcOk(mem, p);
    }
    forall j | 0 <= j < FRAMES ensures FrameOk(mem', j) {
      assert FrameOk(mem, j);
    }
    forall q | q in mem'.pcbs ensures ProcOk(mem', q) {
      assert ProcOk(mem, q);
      if mem'.pcbs[q].frameIndex != -1 {
        forall v | 0 <= v < mem'.pcbs[q].limit ensures EntryOk(mem', q, v) {
          assert EntryOk(mem, q, v);
          assert HasEntry(mem, q, v);
        }
      }
    }
  }

  // ---- Wake-up and exit ----------------------------------------------------

  /** Waking p unpins its frame, which still holds the page it faulted on. */
  lemma WakeKeeps(mem: Mem, p: int)
    requires MemInv(mem) && p in mem.pcbs
    ensures var mem' := Wake(mem, p); var c := mem.pcbs[p];
      && MemInv(mem')
      && mem'.pcbs == mem.pcbs[p := c.(state := Waiting, pendingPage := -1, pendingFrame := -1)]
      && (c.pendingFrame != -1 ==>
            && Holds(mem', c.pendingFrame, p, c.pendingPage)
            && mem'.ram == mem.ram[c.pendingFrame := mem.ram[c.pendingFrame].(reserved := false)])
      && (c.pendingFrame == -1 ==> mem'.ram == mem.ram)
      && forall q, v :: HasEntry(mem, q, v) ==> HasEntry(mem', q, v) && Entry(mem', q, v) == Entry(mem, q, v)
  {
    var mem' := Wake(mem, p);
    var c := mem.pcbs[p];
    assert ProcOk(mem, p);
    if c.pendingFrame != -1 {
      assert FrameOk(mem, c.pendingFrame);
      forall q, v | HasEntry(mem, q, v)
        ensures HasEntry(mem', q, v) && Entry(mem', q, v) == Entry(mem, q, v)
      {
        assert ProcOk(mem, q);
      }
      forall j | 0 <= j < FRAMES ensures FrameOk(mem', j) {
        assert FrameOk(mem, j);
      }
      forall q | q in mem'.pcbs ensures ProcOk(mem', q) {
        assert ProcOk(mem, q);
        if mem'.pcbs[q].frameIndex != -1 {
          forall v | 0 <= v < mem'.pcbs[q].limit ensures EntryOk(mem', q, v) {
            assert EntryOk(mem, q, v);
          }
        }
      }
    } else {
      assert mem'.pcbs[p] == c.(state := Waiting);
      OtherFields(mem, mem');
    }
  }

  /** The exit of p frees its table frame and all its pages, and nothing else. */
  lemma FreeKeeps(mem: Mem, p: int)
    requires MemInv(mem) && Started(mem, p)
    ensures var mem' := FreeProcess(mem, p);
      && MemInv(mem') && mem'.pcbs == mem.pcbs - {p}
      && (forall i :: 0 <= i < FRAMES ==>
            mem'.ram[i] == if mem.ram[i].occupied && mem.ram[i].pid == p then FREED_FRAME else mem.ram[i])
      && forall q, v :: HasEntry(mem, q, v) && q != p ==> HasEntry(mem', q, v) && Entry(mem', q, v) == Entry(mem, q, v)
  {
    var mem' := FreeProcess(mem, p);
    assert ProcOk(mem, p);
    forall i | 0 <= i < FRAMES
      ensures mem'.ram[i] == if mem.ram[i].occupied && mem.ram[i].pid == p then FREED_FRAME else mem.ram[i]
    {
      assert FrameOk(mem, i);
    }
    forall q, v | HasEntry(mem, q, v) && q != p
      ensures HasEntry(mem', q, v) && Entry(mem', q, v) == Entry(mem, q, v)
    {
      assert ProcOk(mem, q);
    }
    forall j | 0 <= j < FRAMES ensures FrameOk(mem', j) {
      assert FrameOk(mem, j);
    }
    forall q | q in mem'.pcbs ensures ProcOk(mem', q) {
      assert ProcOk(mem, q);
      if mem'.pcbs[q].frameIndex != -1 {
        forall v | 0 <= v < mem'.pcbs[q].limit ensures EntryOk(mem', q, v) {
          assert EntryOk(mem, q, v);
        }
      }
    }
  }

  // ---- Pigeonhole ----------------------------------------------------------

  function StartedSet(mem: Mem): set<int> {
    set p | p in mem.pcbs && mem.pcbs[p].frameIndex != -1
  }

  function PendingSet(mem: Mem): set<int> {
    set p | p in mem.pcbs && mem.pcbs[p].pendingFrame != -1
  }

  /** An injective image has as many elements as its source. */
  lemma {:induction false} ImageSize(s: set<int>, f: map<int, int>, image: set<int>)
    requires s <= f.Keys
    requires forall x, y | x in s && y in s :: f[x] == f[y] ==> x == y
    requires image == set x | x in s :: f[x]
    ensures |image| == |s|
  {
    if x :| x in s {
      var rest := set y | y in s - {x} :: f[y];
      assert image == rest + {f[x]};
      ImageSize(s - {x}, f, rest);
    } else {
      assert forall x :: x !in s;
      assert s == {};
      assert forall y :: y !in image;
      assert image == {};
    }
  }

  function Interval(n: nat): (r: set<int>)
    ensures forall i :: i in r <==> 0 <= i < n
    ensures |r| == n
  {
    if n == 0 then {} else Interval(n - 1) + {n - 1}
  }

  lemma TableCount(mem: Mem, tables: set<int>)
    requires MemInv(mem)
    requires tables == set i | 0 <= i < FRAMES && mem.ram[i].table.Some?
    ensures |tables| == |StartedSet(mem)|
  {
    var f := map p | p in mem.pcbs :: mem.pcbs[p].frameIndex;
    var image := set p | p in StartedSet(mem) :: f[p];
    forall p | p in StartedSet(mem) ensures f[p] in tables && mem.ram[f[p]].pid == p {
      assert ProcOk(mem, p);
    }
    forall i | i in tables ensures i in image {
      assert FrameOk(mem, i);
      assert mem.ram[i].pid in StartedSet(mem);
    }
    assert image == tables;
    ImageSize(StartedSet(mem), f, image);
  }

  lemma PinnedCount(mem: Mem, pinned: set<int>)
    requires MemInv(mem)
    requires pinned == set i | 0 <= i < FRAMES && mem.ram[i].reserved
    ensures |pinned| == |PendingSet(mem)|
  {
    var f := map p | p in mem.pcbs :: mem.pcbs[p].pendingFrame;
    var image := set p | p in PendingSet(mem) :: f[p];
    forall p | p in PendingSet(mem) ensures f[p] in pinned && mem.ram[f[p]].pid == p {
      assert ProcOk(mem, p);
    }
    forall i | i in pinned ensures i in image {
      assert FrameOk(mem, i);
      assert mem.ram[i].pid in PendingSet(mem);
    }
    assert image == pinned;
    ImageSize(PendingSet(mem), f, image);
  }

  /** The scan fails exactly when started and pending processes together own
      all 32 frames. */
  lemma FrameAvailable(mem: Mem)
    requires MemInv(mem)
    ensures |StartedSet(mem)| + |PendingSet(mem)| <= FRAMES
    ensures ChooseFrame(mem.ram).NoFrame? <==> |StartedSet(mem)| + |PendingSet(mem)| == FRAMES
  {
    var tables := set i | 0 <= i < FRAMES && mem.ram[i].table.Some?;
    var pinned := set i | 0 <= i < FRAMES && mem.ram[i].reserved;
    TableCount(mem, tables);
    PinnedCount(mem, pinned);
    ChoiceMeaning(mem.ram);
    forall i | 0 <= i < FRAMES
      ensures !(i in tables && i in pinned)
      ensures mem.ram[i].occupied && !Evictable(mem.ram[i]) <==> i in tables + pinned
    {
      assert FrameOk(mem, i);
    }
    FullCover(FRAMES, tables, pinned);
  }

  /** A frame is left for one more page table: the tables of the started
      processes and the pinned pages do not take up all of memory. */
  predicate HasRoom(mem: Mem) {
    |StartedSet(mem)| + |PendingSet(mem)| < FRAMES
  }

  lemma SameRoom(mem: Mem, mem': Mem)
    requires mem'.pcbs.Keys == mem.pcbs.Keys
    requires forall p :: p in mem.pcbs ==>
               mem'.pcbs[p].frameIndex == mem.pcbs[p].frameIndex && mem'.pcbs[p].pendingFrame == mem.pcbs[p].pendingFrame
    ensures StartedSet(mem') == StartedSet(mem) && PendingSet(mem') == PendingSet(mem)
  {
    forall p
      ensures p in StartedSet(mem') <==> p in StartedSet(mem)
      ensures p in PendingSet(mem') <==> p in PendingSet(mem)
    {
      assert p in mem'.pcbs.Keys <==> p in mem.pcbs.Keys;
    }
  }

  /** Two disjoint sets of frame numbers cover memory exactly when their sizes
      add up to it. */
  lemma FullCover(n: nat, a: set<int>, b: set<int>)
    requires a !! b && forall i :: i in a + b ==> 0 <= i < n
    ensures |a| + |b| <= n
    ensures |a| + |b| == n <==> forall i :: 0 <= i < n ==> i in a + b
  {
    var all := Interval(n);
    assert |a + b| == |a| + |b|;
    assert all == (a + b) + (all - (a + b));
    if |a| + |b| == n {
      assert all - (a + b) == {};
    }
    if forall i :: 0 <= i < n ==> i in a + b {
      assert a + b == all;
    }
  }
}
