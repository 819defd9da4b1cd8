/** What the R and M bits mean over any sequence of calls of the memory
    manager, whichever processes they are for and however they interleave. */
module MmuHistory {
  import opened Common
  import opened Mmu
  import opened MmuProofs

  /** The calls the scheduler makes. Access is a request: translate the page
      and, on a miss, fault it in. */
  datatype Call =
    | Admit(c: Pcb)
    | Start(p: int, now: int)
    | Access(p: int, page: nat, write: bool, now: int)
    | ClearBits
    | Awake(p: int)
    | Exit(p: int)

  /** What a call did to pages, as the outside world saw it. */
  datatype Event = Loaded(p: int, v: int, write: bool) | Used(p: int, v: int, write: bool) | Cleared

  /** What the scheduler guarantees when it makes the call. */
  predicate Permitted(mem: Mem, call: Call) {
    match call
    case Admit(c) =>
      && c.id !in mem.pcbs && c.id > 0 && 0 < c.limit <= 64
      && c.frameIndex == -1 && c.pendingPage == -1 && c.pendingFrame == -1
    case Start(p, _) => p in mem.pcbs && mem.pcbs[p].frameIndex == -1 && mem.pcbs[p].pendingFrame == -1
    case Access(p, page, _, _) => Started(mem, p) && mem.pcbs[p].pendingFrame == -1 && page != mem.pcbs[p].limit
    case ClearBits => true
    case Awake(p) => p in mem.pcbs
    case Exit(p) => Started(mem, p)
  }

  function Apply(mem: Mem, call: Call): Mem {
    match call
    case Admit(c) => SetPcb(mem, c.id, c)
    case Start(p, now) => InitProcess(mem, now, p)
    case Access(p, page, write, now) =>
      var (mem1, res) := Check(mem, p, page, write);
      if res.Miss? then FaultHandler(mem1, now, p, page, Demand, write) else mem1
    case ClearBits => ClearRecent(mem)
    case Awake(p) => Wake(mem, p)
    case Exit(p) => FreeProcess(mem, p)
  }

  function Log(mem: Mem, call: Call): seq<Event> {
    match call
    case Start(p, now) =>
      if ChooseFrame(mem.ram).NoFrame? || ChooseFrame(FaultHandler(mem, now, p, 0, Table, false).ram).NoFrame?
      then [] else [Loaded(p, 0, false)]
    case Access(p, page, write, _) =>
      var res := Check(mem, p, page, write).1;
      if res.Hit? then [Used(p, page, write)]
      else if res.Miss? && !ChooseFrame(mem.ram).NoFrame? then [Loaded(p, page, write)]
      else []
    case ClearBits => [Cleared]
    case _ => []
  }

  // ---- The meaning of the bits -----------------------------------------------

  predicate Touches(e: Event, p: int, v: int) {
    !e.Cleared? && e.p == p && e.v == v
  }

  predicate Writes(e: Event, p: int, v: int) {
    Touches(e, p, v) && e.write
  }

  predicate Loads(e: Event, p: int, v: int) {
    e.Loaded? && e.p == p && e.v == v
  }

  /** A write to page v of p was served since the page was last loaded, the
      faulting access included. */
  ghost predicate Written(log: seq<Event>, p: int, v: int) {
    exists i :: 0 <= i < |log| && Writes(log[i], p, v) && forall j :: i < j < |log| ==> !Loads(log[j], p, v)
  }

  /** The page was loaded or used since the last clear. */
  ghost predicate Referenced(log: seq<Event>, p: int, v: int) {
    exists i :: 0 <= i < |log| && Touches(log[i], p, v) && forall j :: i < j < |log| ==> !log[j].Cleared?
  }

  ghost predicate BitsMatch(mem: Mem, log: seq<Event>) {
    forall p, v :: HasEntry(mem, p, v) && Entry(mem, p, v).valid ==>
      (Entry(mem, p, v).m <==> Written(log, p, v)) && (Entry(mem, p, v).r <==> Referenced(log, p, v))
  }

  lemma WrittenNext(log: seq<Event>, e: Event, p: int, v: int)
    ensures Written(log + [e], p, v) <==> Writes(e, p, v) || (Written(log, p, v) && !Loads(e, p, v))
  {
    var log' := log + [e];
    if Writes(e, p, v) {
      assert log'[|log|] == e;
    } else if Written(log, p, v) && !Loads(e, p, v) {
      var i :| 0 <= i < |log| && Writes(log[i], p, v) && forall j :: i < j < |log| ==> !Loads(log[j], p, v);
      assert log'[i] == log[i];
    }
    if Written(log', p, v) && !Writes(e, p, v) {
      var i :| 0 <= i < |log'| && Writes(log'[i], p, v) && forall j :: i < j < |log'| ==> !Loads(log'[j], p, v);
      assert i < |log| && log'[|log|] == e;
      assert Writes(log[i], p, v);
      forall j | i < j < |log| ensures !Loads(log[j], p, v) {
        assert log'[j] == log[j];
      }
    }
  }

  lemma ReferencedNext(log: seq<Event>, e: Event, p: int, v: int)
    ensures Referenced(log + [e], p, v) <==> Touches(e, p, v) || (Referenced(log, p, v) && !e.Cleared?)
  {
    var log' := log + [e];
    if Touches(e, p, v) {
      assert log'[|log|] == e;
    } else if Referenced(log, p, v) && !e.Cleared? {
      var i :| 0 <= i < |log| && Touches(log[i], p, v) && forall j :: i < j < |log| ==> !log[j].Cleared?;
      assert log'[i] == log[i];
    }
    if Referenced(log', p, v) && !Touches(e, p, v) {
      var i :| 0 <= i < |log'| && Touches(log'[i], p, v) && forall j :: i < j < |log'| ==> !log'[j].Cleared?;
      assert i < |log| && log'[|log|] == e;
      assert Touches(log[i], p, v);
      forall j | i < j < |log| ensures !log[j].Cleared? {
        assert log'[j] == log[j];
      }
    }
  }

  // ---- One call at a time ----------------------------------------------------

  /** The entries a process has are those below its limit, once it is started. */
  lemma EntriesOf(mem: Mem, p: int, v: int)
    requires MemInv(mem)
    ensures HasEntry(mem, p, v) <==> Started(mem, p) && 0 <= v < mem.pcbs[p].limit
  {
    if p in mem.pcbs {
      assert ProcOk(mem, p);
    }
  }

  /** Every valid entry, but for page `page` of p, is as before. */
  ghost predicate Preserves(mem: Mem, mem': Mem, p: int, page: int) {
    forall q, v :: HasEntry(mem', q, v) && Entry(mem', q, v).valid && !(q == p && v == page) ==>
      HasEntry(mem, q, v) && Entry(mem', q, v) == Entry(mem, q, v)
  }

  lemma ClearedPreserves(mem: Mem)
    requires MemInv(mem)
    ensures Preserves(mem, MmuProofs.Cleared(mem, ChooseFrame(mem.ram)), -1, -1)
  {
    var ch := ChooseFrame(mem.ram);
    ChoiceMeaning(mem.ram);
    var mem' := MmuProofs.Cleared(mem, ch);
    if ch.Evict? {
      EvictKeeps(mem, ch.frame);
      forall q, v | HasEntry(mem', q, v) && Entry(mem', q, v).valid
        ensures HasEntry(mem, q, v) && Entry(mem', q, v) == Entry(mem, q, v)
      {
        EntriesOf(mem, q, v);
        EntriesOf(mem', q, v);
      }
    }
  }

  lemma TablePreserves(mem: Mem, now: int, p: int)
    requires MemInv(mem) && p in mem.pcbs && mem.pcbs[p].frameIndex == -1
    ensures Preserves(mem, FaultHandler(mem, now, p, 0, Table, false), -1, -1)
  {
    TableFault(mem, now, p);
    var mem' := FaultHandler(mem, now, p, 0, Table, false);
    var ch := ChooseFrame(mem.ram);
    if !ch.NoFrame? {
      ChoiceMeaning(mem.ram);
      ClearedKeeps(mem);
      ClearedPreserves(mem);
      var base := MmuProofs.Cleared(mem, ch);
      forall q, v | HasEntry(mem', q, v) && Entry(mem', q, v).valid
        ensures HasEntry(mem, q, v) && Entry(mem', q, v) == Entry(mem, q, v)
      {
        EntriesOf(mem', q, v);
        assert q != p;
        EntriesOf(base, q, v);
        TableElsewhere(mem, now, p, q, v);
      }
    }
  }

  lemma TableElsewhere(mem: Mem, now: int, p: int, q: int, v: int)
    requires MemInv(mem) && p in mem.pcbs && mem.pcbs[p].frameIndex == -1 && q != p
    requires !ChooseFrame(mem.ram).NoFrame? && HasEntry(FaultHandler(mem, now, p, 0, Table, false), q, v)
    ensures var base := MmuProofs.Cleared(mem, ChooseFrame(mem.ram));
      HasEntry(base, q, v) && Entry(FaultHandler(mem, now, p, 0, Table, false), q, v) == Entry(base, q, v)
  {
    var ch := ChooseFrame(mem.ram);
    ClearedKeeps(mem);
    ChoiceMeaning(mem.ram);
    TableFault(mem, now, p);
    var mem' := FaultHandler(mem, now, p, 0, Table, false);
    var base := MmuProofs.Cleared(mem, ch);
    EntriesOf(mem', q, v);
    EntriesOf(base, q, v);
    assert ProcOk(base, q);
    if ch.Evict? {
      EvictKeeps(mem, ch.frame);
    }
  }

  lemma PlacedPreserves(mem: Mem, p: int, page: nat, i: int, write: bool, pin: bool, c: Pcb)
    requires MemInv(mem) && Started(mem, p) && HasEntry(mem, p, page) && 0 <= i < FRAMES && IsFree(mem.ram[i])
    requires c.id == p && c.frameIndex == mem.pcbs[p].frameIndex && c.limit == mem.pcbs[p].limit
    ensures Preserves(mem, Placed(mem, p, page, i, write, pin, c), p, page)
  {
    var mem' := Placed(mem, p, page, i, write, pin, c);
    forall q, v | HasEntry(mem', q, v) && Entry(mem', q, v).valid && !(q == p && v == page)
      ensures HasEntry(mem, q, v) && Entry(mem', q, v) == Entry(mem, q, v)
    {
      assert ProcOk(mem, q);
      assert ProcOk(mem, p);
    }
  }

  lemma FaultPreserves(mem: Mem, now: int, p: int, page: nat, kind: Fault, write: bool)
    requires MemInv(mem) && Started(mem, p) && page < mem.pcbs[p].limit && !kind.Table?
    requires HasEntry(mem, p, page) && !Entry(mem, p, page).valid && mem.pcbs[p].pendingFrame == -1
    ensures Preserves(mem, FaultHandler(mem, now, p, page, kind, write), p, page)
  {
    PageFault(mem, now, p, page, kind, write);
    var ch := ChooseFrame(mem.ram);
    var mem' := FaultHandler(mem, now, p, page, kind, write);
    if ch.NoFrame? {
      forall q, v | HasEntry(mem', q, v) ensures HasEntry(mem, q, v) && Entry(mem', q, v) == Entry(mem, q, v) {
      }
    } else {
      ClearedKeeps(mem);
      ClearedPreserves(mem);
      PlacedPreserves(MmuProofs.Cleared(mem, ch), p, page, ch.frame, write, kind.Demand?, mem'.pcbs[p]);
    }
  }

  /** Bits still match when one page was loaded and nothing else changed. */
  lemma LoadMatches(mem: Mem, mem': Mem, log: seq<Event>, p: int, page: int, write: bool)
    requires BitsMatch(mem, log) && Preserves(mem, mem', p, page)
    requires HasEntry(mem', p, page) && Entry(mem', p, page).r && Entry(mem', p, page).m == write
    ensures BitsMatch(mem', log + [Loaded(p, page, write)])
  {
    var e := Loaded(p, page, write);
    forall q, v | HasEntry(mem', q, v) && Entry(mem', q, v).valid
      ensures Entry(mem', q, v).m <==> Written(log + [e], q, v)
      ensures Entry(mem', q, v).r <==> Referenced(log + [e], q, v)
    {
      WrittenNext(log, e, q, v);
      ReferencedNext(log, e, q, v);
    }
  }

  lemma SameMatches(mem: Mem, mem': Mem, log: seq<Event>)
    requires BitsMatch(mem, log) && Preserves(mem, mem', -1, -1) && MemInv(mem')
    ensures BitsMatch(mem', log)
  {
    forall q, v | HasEntry(mem', q, v) && Entry(mem', q, v).valid
      ensures HasEntry(mem, q, v) && Entry(mem', q, v) == Entry(mem, q, v)
    {
    }
  }

  lemma AccessMatches(mem: Mem, log: seq<Event>, p: int, page: nat, write: bool, now: int)
    requires MemInv(mem) && BitsMatch(mem, log) && Permitted(mem, Access(p, page, write, now))
    ensures var call := Access(p, page, write, now); var mem' := Apply(mem, call);
      MemInv(mem') && BitsMatch(mem', log + Log(mem, call))
  {
    CheckKeeps(mem, p, page, write);
    var (mem1, res) := Check(mem, p, page, write);
    if res.Miss? {
      PageFault(mem, now, p, page, Demand, write);
      FaultPreserves(mem, now, p, page, Demand, write);
      var mem' := FaultHandler(mem, now, p, page, Demand, write);
      if ChooseFrame(mem.ram).NoFrame? {
        NoFrameMatches(mem, mem', log, p, page);
      } else {
        LoadMatches(mem, mem', log, p, page, write);
      }
    } else if res.Hit? {
      HitMatches(mem, log, p, page, write);
    } else {
      assert log + [] == log;
    }
  }

  lemma NoFrameMatches(mem: Mem, mem': Mem, log: seq<Event>, p: int, page: int)
    requires BitsMatch(mem, log) && Preserves(mem, mem', p, page) && mem'.ram == mem.ram
    requires HasEntry(mem, p, page) && !Entry(mem, p, page).valid
    requires p in mem'.pcbs && mem'.pcbs[p].frameIndex == mem.pcbs[p].frameIndex
    ensures BitsMatch(mem', log + [])
  {
    assert log + [] == log;
    assert !Entry(mem', p, page).valid;
  }

  lemma HitMatches(mem: Mem, log: seq<Event>, p: int, page: nat, write: bool)
    requires MemInv(mem) && BitsMatch(mem, log) && Started(mem, p) && page != mem.pcbs[p].limit
    requires Check(mem, p, page, write).1.Hit?
    ensures BitsMatch(Check(mem, p, page, write).0, log + [Used(p, page, write)])
  {
    CheckKeeps(mem, p, page, write);
    var mem' := Check(mem, p, page, write).0;
    var e := Used(p, page, write);
    forall q, v | HasEntry(mem', q, v) && Entry(mem', q, v).valid
      ensures Entry(mem', q, v).m <==> Written(log + [e], q, v)
      ensures Entry(mem', q, v).r <==> Referenced(log + [e], q, v)
    {
      EntriesOf(mem', q, v);
      EntriesOf(mem, q, v);
      WrittenNext(log, e, q, v);
      ReferencedNext(log, e, q, v);
    }
  }

  lemma StartMatches(mem: Mem, log: seq<Event>, p: int, now: int)
    requires MemInv(mem) && BitsMatch(mem, log) && Permitted(mem, Start(p, now))
    ensures var mem' := Apply(mem, Start(p, now)); MemInv(mem') && BitsMatch(mem', log + Log(mem, Start(p, now)))
  {
    TableFault(mem, now, p);
    TablePreserves(mem, now, p);
    var mem1 := FaultHandler(mem, now, p, 0, Table, false);
    SameMatches(mem, mem1, log);
    assert log + [] == log;
    if !ChooseFrame(mem.ram).NoFrame? {
      assert ProcOk(mem, p);
      assert HasEntry(mem1, p, 0);
      PageFault(mem1, now, p, 0, Initial, false);
      FaultPreserves(mem1, now, p, 0, Initial, false);
      if !ChooseFrame(mem1.ram).NoFrame? {
        LoadMatches(mem1, FaultHandler(mem1, now, p, 0, Initial, false), log, p, 0, false);
      }
    }
  }

  lemma ClearMatches(mem: Mem, log: seq<Event>)
    requires MemInv(mem) && BitsMatch(mem, log)
    ensures MemInv(ClearRecent(mem)) && BitsMatch(ClearRecent(mem), log + [Cleared])
  {
    ClearKeeps(mem);
    var mem' := ClearRecent(mem);
    forall q, v | HasEntry(mem', q, v) && Entry(mem', q, v).valid
      ensures Entry(mem', q, v).m <==> Written(log + [Cleared], q, v)
      ensures Entry(mem', q, v).r <==> Referenced(log + [Cleared], q, v)
    {
      EntriesOf(mem', q, v);
      EntriesOf(mem, q, v);
      WrittenNext(log, Cleared, q, v);
      ReferencedNext(log, Cleared, q, v);
    }
  }

  lemma OtherMatches(mem: Mem, log: seq<Event>, call: Call)
    requires MemInv(mem) && BitsMatch(mem, log) && Permitted(mem, call) && (call.Admit? || call.Awake? || call.Exit?)
    ensures MemInv(Apply(mem, call)) && BitsMatch(Apply(mem, call), log)
  {
    var mem' := Apply(mem, call);
    match call {
      case Admit(c) => AdmitKeeps(mem, c.id, c);
      case Awake(p) => WakeKeeps(mem, p);
      case Exit(p) => FreeKeeps(mem, p);
    }
    forall q, v | HasEntry(mem', q, v) ensures HasEntry(mem, q, v) && Entry(mem', q, v) == Entry(mem, q, v) {
      EntriesOf(mem', q, v);
      EntriesOf(mem, q, v);
    }
    SameMatches(mem, mem', log);
  }

  lemma CallMatches(mem: Mem, log: seq<Event>, call: Call)
    requires MemInv(mem) && BitsMatch(mem, log) && Permitted(mem, call)
    ensures MemInv(Apply(mem, call)) && BitsMatch(Apply(mem, call), log + Log(mem, call))
  {
    match call {
      case Access(p, page, write, now) => AccessMatches(mem, log, p, page, write, now);
      case Start(p, now) => StartMatches(mem, log, p, now);
      case ClearBits => ClearMatches(mem, log);
      case _ =>
        OtherMatches(mem, log, call);
        assert log + [] == log;
    }
  }

  // ---- Any sequence of calls -------------------------------------------------

  function EmptyMemory(): Mem {
    Mem(seq(FRAMES, _ => BOOT_FRAME), map[], false)
  }

  function After(calls: seq<Call>): Mem {
    if calls == [] then EmptyMemory() else Apply(After(calls[..|calls| - 1]), calls[|calls| - 1])
  }

  function History(calls: seq<Call>): seq<Event> {
    if calls == [] then []
    else
      var before := calls[..|calls| - 1];
      History(before) + Log(After(before), calls[|calls| - 1])
  }

  predicate AllPermitted(calls: seq<Call>) {
    calls != [] ==>
      AllPermitted(calls[..|calls| - 1]) && Permitted(After(calls[..|calls| - 1]), calls[|calls| - 1])
  }

  lemma {:induction false} HistoryMatches(calls: seq<Call>)
    requires AllPermitted(calls)
    ensures MemInv(After(calls)) && BitsMatch(After(calls), History(calls))
  {
    if calls == [] {
      forall i | 0 <= i < FRAMES ensures FrameOk(EmptyMemory(), i) {
        assert EmptyMemory().ram[i] == BOOT_FRAME;
      }
    } else {
      var before := calls[..|calls| - 1];
      HistoryMatches(before);
      CallMatches(After(before), History(before), calls[|calls| - 1]);
    }
  }

  /** After any sequence of permitted calls, for every valid entry: M is set
      exactly if a write to the page was served since it was loaded, R exactly
      if it was loaded or used since the last clear, and both bits equal those
      of the frame the page is in. */
  lemma BitsTellHistory(calls: seq<Call>, p: int, v: int)
    requires AllPermitted(calls) && HasEntry(After(calls), p, v) && Entry(After(calls), p, v).valid
    ensures var mem := After(calls); var e := Entry(mem, p, v);
      && (e.m <==> Written(History(calls), p, v))
      && (e.r <==> Referenced(History(calls), p, v))
      && Holds(mem, e.frame, p, v) && mem.ram[e.frame].r == e.r && mem.ram[e.frame].m == e.m
  {
    HistoryMatches(calls);
    var mem := After(calls);
    EntriesOf(mem, p, v);
    InverseTables(mem, p, v, Entry(mem, p, v).frame);
  }
}
