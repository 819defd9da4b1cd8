/** The memory manager as the program runs it: a frame array updated in place.
    Every method is tied to the transition on values in module Mmu. */
module MmuMachine {
  import opened Common
  import opened Mmu
  import opened MmuProofs

  class MemoryUnit {
    const ram: array<Frame>
    var pcbs: map<int, Pcb>
    var trapped: bool

    ghost predicate Valid()
      reads this, ram
    {
      ram.Length == FRAMES
    }

    ghost function View(): Mem
      reads this, ram
    {
      Mem(ram[..], pcbs, trapped)
    }

    constructor ()
      ensures Valid() && fresh(ram)
      ensures View() == Mem(seq(FRAMES, _ => BOOT_FRAME), map[], false)
      ensures MemInv(View())
    {
      ram := new Frame[FRAMES](_ => BOOT_FRAME);
      pcbs := map[];
      trapped := false;
      new;
      assert ram[..] == seq(FRAMES, _ => BOOT_FRAME);
      forall i | 0 <= i < FRAMES ensures FrameOk(View(), i) {
        assert View().ram[i] == BOOT_FRAME;
      }
    }

    method SetFrame(i: int, f: Frame)
      requires Valid()
      modifies this`trapped, ram
      ensures View() == Mmu.SetFrame(old(View()), i, f)
    {
      if 0 <= i < ram.Length {
        ram[i] := f;
      } else {
        trapped := true;
      }
    }

    /** A write to entry v of the page table of p. */
    method SetEntry(p: int, v: int, e: Pte)
      requires Valid()
      modifies this`trapped, ram
      ensures View() == Mmu.SetEntry(old(View()), p, v, e)
    {
      if p in pcbs && 0 <= pcbs[p].frameIndex < ram.Length {
        var t := pcbs[p].frameIndex;
        if ram[t].table.Some? && 0 <= v < |ram[t].table.value| {
          ram[t] := ram[t].(table := Some(ram[t].table.value[v := e]));
          return;
        }
      }
      trapped := true;
    }

    method SetPcb(p: int, c: Pcb)
      modifies this`pcbs
      ensures View() == Mmu.SetPcb(old(View()), p, c)
    {
      pcbs := pcbs[p := c];
    }

    /** check */
    method Check(p: int, page: nat, write: bool) returns (res: Outcome)
      requires Valid()
      modifies this`trapped, ram
      ensures (View(), res) == Mmu.Check(old(View()), p, page, write)
    {
      if p !in pcbs || !(0 <= pcbs[p].frameIndex < ram.Length) {
        trapped := true;
        return Invalid;
      }
      if page > pcbs[p].limit {
        return Invalid;
      }
      var t := pcbs[p].frameIndex;
      if ram[t].table.None? || page >= |ram[t].table.value| {
        trapped := true;
        return Invalid;
      }
      var e := ram[t].table.value[page];
      if !e.valid {
        return Miss;
      }
      SetEntry(p, page, e.(r := true, m := e.m || write));
      if 0 <= e.frame < ram.Length {
        ram[e.frame] := ram[e.frame].(r := true, m := ram[e.frame].m || write);
        return Hit;
      } else {
        trapped := true;
        return Invalid;
      }
    }

    /** page_fault_delay */
    method PageFaultDelay(i: int) returns (d: int)
      requires Valid()
      ensures d == Mmu.Delay(View(), i)
    {
      d := 10;
      if 0 <= i < ram.Length && ram[i].m {
        d := 20;
      }
    }

    /** define_page_table */
    method DefinePageTable(p: int, i: int)
      requires Valid()
      modifies this, ram
      ensures View() == Mmu.DefineTable(old(View()), p, i)
    {
      if p !in pcbs || !(0 <= i < ram.Length) || pcbs[p].limit < 0 {
        trapped := true;
        return;
      }
      var limit := pcbs[p].limit;
      var table := new Pte[limit](_ => EMPTY_PTE);
      for j := 0 to limit
        modifies table
        invariant forall k :: 0 <= k < j ==> table[k] == EMPTY_PTE
      {
        table[j] := Pte(false, -1, false, false);
      }
      assert table[..] == seq(limit, _ => EMPTY_PTE);
      ram[i] := ram[i].(occupied := true, pid := p, r := true, m := false, vpage := -1, table := Some(table[..]));
      pcbs := pcbs[p := pcbs[p].(frameIndex := i)];
    }

    /** put_page_in_frame */
    method PutPageInFrame(p: int, page: nat, i: int, write: bool)
      requires Valid()
      modifies this, ram
      ensures View() == Mmu.PutPage(old(View()), p, page, i, write)
    {
      if p !in pcbs || pcbs[p].frameIndex < 0 {
        return;
      }
      if !(0 <= i < ram.Length) {
        trapped := true;
        return;
      }
      ram[i] := ram[i].(occupied := true, pid := p, table := None, r := true, vpage := page, m := write);
      SetEntry(p, page, Pte(true, i, true, write));
    }

    /** The entry that maps the victim is cleared. */
    method DropMapping(i: int)
      requires Valid() && 0 <= i < ram.Length
      modifies this`trapped, ram
      ensures View() == Mmu.DropMapping(old(View()), i)
    {
      var victim := ram[i];
      if victim.pid in pcbs && pcbs[victim.pid].frameIndex >= 0 && victim.vpage >= 0 {
        SetEntry(victim.pid, victim.vpage, EMPTY_PTE);
      }
    }

    /** swap */
    method Swap(now: int, p: int, i: int, page: nat, kind: Fault, write: bool)
      requires Valid()
      modifies this, ram
      ensures View() == Mmu.Swap(old(View()), now, p, i, page, kind, write)
    {
      if !(0 <= i < ram.Length) {
        trapped := true;
        return;
      }
      var until := now;
      if !kind.Initial? {
        var delay := PageFaultDelay(i);
        until := now + delay;
      }
      DropMapping(i);
      if kind.Table? {
        DefinePageTable(p, i);
        return;
      }
      if p !in pcbs {
        return;
      }
      if kind.Demand? {
        pcbs := pcbs[p := pcbs[p].(state := Blocked, unblockAt := until)];
      }
      SetEntry(p, page, Pte(true, i, true, write));
      ram[i] := ram[i].(m := write, pid := p, r := true, occupied := true, vpage := page,
                        reserved := ram[i].reserved || kind.Demand?);
      if kind.Demand? {
        pcbs := pcbs[p := pcbs[p].(pendingPage := page, pendingFrame := i)];
      }
    }

    /** The body of fault_handler's loop for a free frame. */
    method UseFreeFrame(now: int, p: int, i: int, page: nat, kind: Fault, write: bool)
      requires Valid() && 0 <= i < ram.Length
      modifies this, ram
      ensures View() == Mmu.UseFree(old(View()), now, p, i, page, kind, write)
    {
      if kind.Table? {
        DefinePageTable(p, i);
        return;
      }
      if kind.Demand? {
        ram[i] := ram[i].(reserved := true);
      }
      if p in pcbs {
        var delay := PageFaultDelay(i);
        pcbs := pcbs[p := pcbs[p].(unblockAt := now + delay)];
      }
      PutPageInFrame(p, page, i, write);
      if kind.Demand? && p in pcbs {
        pcbs := pcbs[p := pcbs[p].(pendingPage := page, pendingFrame := i)];
      }
    }

    /** fault_handler: one pass over the frames, which ends at the first free
        one and otherwise remembers the first frame of the lowest class. */
    method FaultHandler(now: int, p: int, page: nat, kind: Fault, write: bool)
      requires Valid()
      modifies this, ram
      ensures View() == Mmu.FaultHandler(old(View()), now, p, page, kind, write)
    {
      if kind.Demand? && p in pcbs {
        pcbs := pcbs[p := pcbs[p].(state := Blocked, unblockAt := now + 10, pendingPage := -1, pendingFrame := -1)];
      }
      ghost var start := View();
      var cls, victim, i := 4, -1, 0;
      while i < ram.Length
        invariant 0 <= i <= ram.Length && -1 <= victim < ram.Length
        invariant View() == start == Mmu.StartFault(old(View()), now, p, kind)
        invariant Scan(ram[..], i, cls, victim) == ChooseFrame(ram[..])
      {
        if !ram[i].occupied {
          UseFreeFrame(now, p, i, page, kind, write);
          return;
        }
        if ram[i].table.None? && !ram[i].reserved {
          var current := Class(ram[i]);
          if current < cls {
            cls, victim := current, i;
          }
        }
        i := i + 1;
      }
      if victim != -1 {
        Swap(now, p, victim, page, kind, write);
      }
    }

    /** initialize_PCB */
    method InitProcess(now: int, p: int)
      requires Valid()
      modifies this, ram
      ensures View() == Mmu.InitProcess(old(View()), now, p)
    {
      if p in pcbs && pcbs[p].frameIndex == -1 {
        FaultHandler(now, p, 0, Table, false);
        FaultHandler(now, p, 0, Initial, false);
      }
    }

    /** The inner loop of clear_recent. */
    method ClearedTable(table: seq<Pte>, limit: int) returns (t: seq<Pte>)
      ensures t == ClearTable(table, limit)
    {
      t := table;
      var j := 0;
      while j < limit && j < |t|
        invariant 0 <= j <= |t| == |table|
        invariant forall k :: 0 <= k < |t| ==> t[k] == if k < j && k < limit then table[k].(r := false) else table[k]
      {
        t := t[j := t[j].(r := false)];
        j := j + 1;
      }
    }

    /** clear_recent */
    method ClearRecent()
      requires Valid()
      modifies this`trapped, ram
      ensures View() == Mmu.ClearRecent(old(View()))
    {
      ghost var before := View();
      for i := 0 to ram.Length
        invariant forall k :: 0 <= k < i ==> ram[k] == ClearFrame(before, before.ram[k])
        invariant forall k :: i <= k < ram.Length ==> ram[k] == before.ram[k]
        invariant trapped <==> before.trapped || exists k :: 0 <= k < i && ClearTraps(before, before.ram[k])
      {
        var f := ram[i];
        if f.occupied {
          f := f.(r := false);
          if f.table.Some? {
            if f.pid in pcbs {
              var limit := pcbs[f.pid].limit;
              if limit > |f.table.value| {
                trapped := true;
              }
              var t := ClearedTable(f.table.value, limit);
              f := f.(table := Some(t));
            } else {
              trapped := true;
            }
          }
          ram[i] := f;
        }
      }
      assert ram[..] == Mmu.ClearRecent(before).ram;
    }

    /** freeReserved */
    method FreeReserved(i: int)
      requires Valid()
      modifies this`trapped, ram
      ensures View() == Mmu.FreeReserved(old(View()), i)
    {
      if 0 <= i < ram.Length {
        ram[i] := ram[i].(reserved := false);
      } else {
        trapped := true;
      }
    }

    /** freePageTable, and the control block is freed. */
    method FreePageTable(p: int)
      requires Valid()
      modifies this, ram
      ensures View() == Mmu.FreeProcess(old(View()), p)
    {
      if p !in pcbs || !(0 <= pcbs[p].frameIndex < ram.Length) {
        trapped := true;
        return;
      }
      ghost var before := ram[..];
      var t := pcbs[p].frameIndex;
      ram[t] := FREED_FRAME;
      for i := 0 to ram.Length
        modifies ram
        invariant forall k :: 0 <= k < ram.Length ==>
          ram[k] == if k == t || (k < i && before[k].pid == p) then FREED_FRAME else before[k]
      {
        if ram[i].pid == p {
          ram[i] := FREED_FRAME;
        }
      }
      pcbs := pcbs - {p};
      assert ram[..] == Mmu.FreeProcess(old(View()), p).ram;
    }

    /** The part of checkBlockEnd that concerns the memory of p. */
    method Wake(p: int)
      requires Valid()
      modifies this, ram
      ensures View() == Mmu.Wake(old(View()), p)
    {
      if p in pcbs {
        if pcbs[p].pendingPage != -1 && pcbs[p].pendingFrame != -1 {
          FreeReserved(pcbs[p].pendingFrame);
          pcbs := pcbs[p := pcbs[p].(pendingPage := -1, pendingFrame := -1)];
        }
        pcbs := pcbs[p := pcbs[p].(state := Waiting)];
      }
    }
  }
}
