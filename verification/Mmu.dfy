/** The demand-paging memory manager as a transition system on values.
    Page tables live inside the frames that hold them, as in the C code. */
module Mmu {
  import opened Common

  const FRAMES := 32

  datatype Pte = Pte(valid: bool, frame: int, r: bool, m: bool)

  datatype Frame = Frame(occupied: bool, pid: int, table: Option<seq<Pte>>,
                         vpage: int, r: bool, m: bool, reserved: bool)

  /** `trapped` records an access outside a page table or through a missing
      control block: undefined behaviour of the C program. */
  datatype Mem = Mem(ram: seq<Frame>, pcbs: map<int, Pcb>, trapped: bool)

  /** Which of the three jobs fault_handler is doing (its `type` 0, 1, 2). */
  datatype Fault = Table | Demand | Initial

  datatype Outcome = Invalid | Hit | Miss

  const EMPTY_PTE := Pte(false, -1, false, false)
  const BOOT_FRAME := Frame(false, 0, None, 0, false, false, false)
  const FREED_FRAME := Frame(false, -1, None, -1, false, false, false)

  /** The page table of process p can be read at entry v. */
  predicate HasEntry(mem: Mem, p: int, v: int) {
    && p in mem.pcbs
    && 0 <= mem.pcbs[p].frameIndex < |mem.ram|
    && mem.ram[mem.pcbs[p].frameIndex].table.Some?
    && 0 <= v < |mem.ram[mem.pcbs[p].frameIndex].table.value|
  }

  function Entry(mem: Mem, p: int, v: int): Pte
    requires HasEntry(mem, p, v)
  {
    mem.ram[mem.pcbs[p].frameIndex].table.value[v]
  }

  function SetFrame(mem: Mem, i: int, f: Frame): Mem {
    if 0 <= i < |mem.ram| then mem.(ram := mem.ram[i := f]) else mem.(trapped := true)
  }

  function SetEntry(mem: Mem, p: int, v: int, e: Pte): Mem {
    if HasEntry(mem, p, v) then
      var t := mem.pcbs[p].frameIndex;
      SetFrame(mem, t, mem.ram[t].(table := Some(mem.ram[t].table.value[v := e])))
    else mem.(trapped := true)
  }

  function SetPcb(mem: Mem, p: int, c: Pcb): Mem {
    mem.(pcbs := mem.pcbs[p := c])
  }

  /** check: translate a page of p; a hit sets the R (and, on a write, M) bits
      in the entry and in the frame it names. */
  function Check(mem: Mem, p: int, page: nat, write: bool): (Mem, Outcome) {
    if p !in mem.pcbs || !(0 <= mem.pcbs[p].frameIndex < |mem.ram|) then (mem.(trapped := true), Invalid)
    else if page > mem.pcbs[p].limit then (mem, Invalid)
    else if !HasEntry(mem, p, page) then (mem.(trapped := true), Invalid)
    else
      var e := Entry(mem, p, page);
      if !e.valid then (mem, Miss)
      else
        var mem1 := SetEntry(mem, p, page, e.(r := true, m := e.m || write));
        if 0 <= e.frame < |mem1.ram| then
          var f := mem1.ram[e.frame];
          (SetFrame(mem1, e.frame, f.(r := true, m := f.m || write)), Hit)
        else (mem1.(trapped := true), Invalid)
  }

  function Class(f: Frame): nat {
    (if f.r then 2 else 0) + (if f.m then 1 else 0)
  }

  /** A frame the replacement scan may evict. */
  predicate Evictable(f: Frame) {
    f.occupied && f.table.None? && !f.reserved
  }

  datatype Choice = Free(frame: int) | Evict(frame: int) | NoFrame

  /** The single pass of fault_handler, resumed at index i with the best class
      and victim seen so far. */
  function Scan(ram: seq<Frame>, i: nat, cls: int, victim: int): (c: Choice)
    requires i <= |ram| && -1 <= victim < |ram|
    ensures !c.NoFrame? ==> 0 <= c.frame < |ram|
    decreases |ram| - i
  {
    if i == |ram| then if victim != -1 then Evict(victim) else NoFrame
    else if !ram[i].occupied then Free(i)
    else if ram[i].table.Some? || ram[i].reserved then Scan(ram, i + 1, cls, victim)
    else if Class(ram[i]) < cls then Scan(ram, i + 1, Class(ram[i]), i)
    else Scan(ram, i + 1, cls, victim)
  }

  function ChooseFrame(ram: seq<Frame>): (c: Choice)
    ensures !c.NoFrame? ==> 0 <= c.frame < |ram|
  {
    Scan(ram, 0, 4, -1)
  }

  function Delay(mem: Mem, i: int): int {
    if 0 <= i < |mem.ram| && mem.ram[i].m then 20 else 10
  }

  /** define_page_table */
  function DefineTable(mem: Mem, p: int, i: int): Mem {
    if p !in mem.pcbs || !(0 <= i < |mem.ram|) || mem.pcbs[p].limit < 0 then mem.(trapped := true)
    else
      var c := mem.pcbs[p];
      var f := mem.ram[i].(occupied := true, pid := p, r := true, m := false, vpage := -1,
                           table := Some(seq(c.limit, _ => EMPTY_PTE)));
      SetPcb(SetFrame(mem, i, f), p, c.(frameIndex := i))
  }

  /** put_page_in_frame */
  function PutPage(mem: Mem, p: int, page: nat, i: int, write: bool): Mem {
    if p !in mem.pcbs || mem.pcbs[p].frameIndex < 0 then mem
    else if !(0 <= i < |mem.ram|) then mem.(trapped := true)
    else
      var f := mem.ram[i].(occupied := true, pid := p, table := None, r := true, vpage := page, m := write);
      SetEntry(SetFrame(mem, i, f), p, page, Pte(true, i, true, write))
  }

  /** The first step of swap: the entry that maps the victim is cleared. */
  function DropMapping(mem: Mem, i: int): Mem {
    if !(0 <= i < |mem.ram|) then mem.(trapped := true)
    else
      var f := mem.ram[i];
      if f.pid in mem.pcbs && mem.pcbs[f.pid].frameIndex >= 0 && f.vpage >= 0
      then SetEntry(mem, f.pid, f.vpage, EMPTY_PTE)
      else mem
  }

  /** swap */
  function Swap(mem: Mem, now: int, p: int, i: int, page: nat, kind: Fault, write: bool): Mem {
    if !(0 <= i < |mem.ram|) then mem.(trapped := true)
    else
      var until := if kind.Initial? then now else now + Delay(mem, i);
      var mem1 := DropMapping(mem, i);
      if kind.Table? then DefineTable(mem1, p, i)
      else if p !in mem1.pcbs then mem1
      else
        var c := mem1.pcbs[p];
        var mem2 := if kind.Demand? then SetPcb(mem1, p, c.(state := Blocked, unblockAt := until)) else mem1;
        var mem3 := SetEntry(mem2, p, page, Pte(true, i, true, write));
        var f := mem3.ram[i].(m := write, pid := p, r := true, occupied := true, vpage := page,
                              reserved := mem3.ram[i].reserved || kind.Demand?);
        var mem4 := SetFrame(mem3, i, f);
        if kind.Demand? then SetPcb(mem4, p, mem4.pcbs[p].(pendingPage := page, pendingFrame := i)) else mem4
  }

  /** The free-frame branch of fault_handler. */
  function UseFree(mem: Mem, now: int, p: int, i: int, page: nat, kind: Fault, write: bool): Mem
    requires 0 <= i < |mem.ram|
  {
    if kind.Table? then DefineTable(mem, p, i)
    else
      var mem1 := if kind.Demand? then SetFrame(mem, i, mem.ram[i].(reserved := true)) else mem;
      var mem2 := if p in mem1.pcbs
                  then SetPcb(mem1, p, mem1.pcbs[p].(unblockAt := now + Delay(mem1, i)))
                  else mem1;
      var mem3 := PutPage(mem2, p, page, i, write);
      if kind.Demand? && p in mem3.pcbs
      then SetPcb(mem3, p, mem3.pcbs[p].(pendingPage := page, pendingFrame := i))
      else mem3
  }

  /** The part of fault_handler before the scan. */
  function StartFault(mem: Mem, now: int, p: int, kind: Fault): Mem {
    if kind.Demand? && p in mem.pcbs
    then SetPcb(mem, p, mem.pcbs[p].(state := Blocked, unblockAt := now + 10, pendingPage := -1, pendingFrame := -1))
    else mem
  }

  /** fault_handler */
  function FaultHandler(mem: Mem, now: int, p: int, page: nat, kind: Fault, write: bool): Mem {
    var mem0 := StartFault(mem, now, p, kind);
    match ChooseFrame(mem0.ram)
    case Free(i) => UseFree(mem0, now, p, i, page, kind, write)
    case Evict(i) => Swap(mem0, now, p, i, page, kind, write)
    case NoFrame => mem0
  }

  /** initialize_PCB: the page table, then page 0. */
  function InitProcess(mem: Mem, now: int, p: int): Mem {
    if p in mem.pcbs && mem.pcbs[p].frameIndex == -1
    then FaultHandler(FaultHandler(mem, now, p, 0, Table, false), now, p, 0, Initial, false)
    else mem
  }

  function ClearTable(t: seq<Pte>, limit: int): (r: seq<Pte>)
    ensures |r| == |t|
  {
    seq(|t|, j requires 0 <= j < |t| => if j < limit then t[j].(r := false) else t[j])
  }

  function ClearFrame(mem: Mem, f: Frame): Frame {
    if !f.occupied then f
    else if f.table.Some? && f.pid in mem.pcbs
    then f.(r := false, table := Some(ClearTable(f.table.value, mem.pcbs[f.pid].limit)))
    else f.(r := false)
  }

  predicate ClearTraps(mem: Mem, f: Frame) {
    f.occupied && f.table.Some? &&
    (f.pid !in mem.pcbs || mem.pcbs[f.pid].limit > |f.table.value|)
  }

  /** clear_recent */
  function ClearRecent(mem: Mem): Mem {
    mem.(ram := seq(|mem.ram|, i requires 0 <= i < |mem.ram| => ClearFrame(mem, mem.ram[i])),
         trapped := mem.trapped || exists i :: 0 <= i < |mem.ram| && ClearTraps(mem, mem.ram[i]))
  }

  function FreeReserved(mem: Mem, i: int): Mem {
    if 0 <= i < |mem.ram| then SetFrame(mem, i, mem.ram[i].(reserved := false)) else mem.(trapped := true)
  }

  /** freePageTable followed by freeing the control block. */
  function FreeProcess(mem: Mem, p: int): Mem {
    if p !in mem.pcbs || !(0 <= mem.pcbs[p].frameIndex < |mem.ram|) then mem.(trapped := true)
    else
      var t := mem.pcbs[p].frameIndex;
      mem.(ram := seq(|mem.ram|, i requires 0 <= i < |mem.ram| =>
                        if i == t || mem.ram[i].pid == p then FREED_FRAME else mem.ram[i]),
           pcbs := mem.pcbs - {p})
  }

  /** The pending page of p becomes usable: checkBlockEnd's work on the MMU. */
  function Wake(mem: Mem, p: int): Mem {
    if p !in mem.pcbs then mem
    else
      var c := mem.pcbs[p];
      if c.pendingPage != -1 && c.pendingFrame != -1
      then SetPcb(FreeReserved(mem, c.pendingFrame), p,
                  c.(pendingPage := -1, pendingFrame := -1, state := Waiting))
      else SetPcb(mem, p, c.(state := Waiting))
  }
}
