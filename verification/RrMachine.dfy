/** The Round-Robin scheduler as the program runs it: globals updated in place,
    phase by phase, until everything has finished. */
module RrMachine {
  import opened Common
  import opened Mmu
  import opened MmuMachine
  import opened RoundRobin
  import opened RrBlockEnd
  import opened RrInvariants
  import opened RrTicks
  import opened RrLiveness
  import opened RrArrivals
  import opened RrEndings
  import opened RrFrames
  import opened ArrivalMachine
  import opened MessageQueue
  import Arrival
  import Statistics

  /** dequeue_by_id on a queue of ids. */
  method DequeueById(q: seq<int>, id: int) returns (r: seq<int>)
    ensures r == Without(q, id)
  {
    var i := 0;
    while i < |q|
      invariant 0 <= i <= |q| && id !in q[..i]
    {
      if q[i] == id {
        assert q[..i] + q[i..] == q && q[i..][1..] == q[i + 1..];
        WithoutMiddle(q[..i], q[i..]);
        return q[..i] + q[i + 1..];
      }
      i := i + 1;
    }
    assert q[..i] == q;
    r := q;
  }

  /** The message msgrcv takes: at index i, or nowhere. */
  lemma {:induction false} FirstMail(mail: seq<Request>, id: int, i: nat)
    requires i <= |mail| && forall k :: 0 <= k < i ==> mail[k].sender != id
    ensures i == |mail| ==> TakeMail(mail, id) == (None, mail)
    ensures i < |mail| && mail[i].sender == id ==> TakeMail(mail, id) == (Some(mail[i]), mail[..i] + mail[i + 1..])
    decreases |mail|
  {
    if i == 0 {
      assert |mail| > 0 ==> mail[..i] + mail[i + 1..] == mail[1..];
    } else {
      FirstMail(mail[1..], id, i - 1);
      assert mail == [mail[0]] + mail[1..];
      if i < |mail| {
        assert mail[1..][i - 1] == mail[i];
        assert mail[..i] + mail[i + 1..] == [mail[0]] + (mail[1..][..i - 1] + mail[1..][i..]);
      }
    }
  }

  class Scheduler {
    const cfg: Config
    const mmu: MemoryUnit
    /** The messages from the generator. */
    const ch: Channel<Arrival.Msg>
    var clock: int
    var current: seq<int>
    var ready: seq<int>
    var blocked: seq<int>
    var running: Option<int>
    var children: map<int, Child>
    var mailbox: seq<Request>
    var requests: seq<Request>
    var shm: int
    var finishSignal: bool
    var quantums: int
    var lastClear: int
    var clears: nat
    var preemptAt: int
    var switchUntil: int
    var checked: bool
    /** The jobs that no message taken so far was about. */
    ghost var incoming: seq<Job>
    var receiving: bool
    var lastSync: int
    var perf: Statistics.Perf
    var finished: seq<Pcb>
    var hung: bool
    /** How often checkBlockEnd has run. */
    ghost var blockChecks: nat

    ghost predicate Valid()
      reads this, mmu, mmu.ram
    {
      mmu.Valid()
    }

    ghost function View(): Kernel
      reads this, mmu, mmu.ram
    {
      Kernel(clock, mmu.View(), current, ready, blocked, running, children, mailbox, requests, shm, finishSignal,
             quantums, lastClear, clears, preemptAt, switchUntil, checked, incoming, receiving, lastSync,
             perf, finished, hung)
    }

    constructor (cfg: Config, ch: Channel<Arrival.Msg>)
      ensures this.cfg == cfg && this.ch == ch && fresh(mmu) && fresh(mmu.ram) && Valid() && View() == Boot(cfg)
    {
      this.cfg, this.ch := cfg, ch;
      mmu := new MemoryUnit();
      clock, current, ready, blocked, running := 0, [], [], [], None;
      children, mailbox, requests, shm, finishSignal := map[], [], [], 0, false;
      quantums, lastClear, clears, preemptAt, switchUntil, checked := 0, -1, 0, -1, -1, false;
      incoming, receiving, lastSync := cfg.jobs, true, -1;
      perf, finished, hung := Statistics.INITIAL, [], false;
      blockChecks := 0;
    }

    /** msgrcv: the first message of type id leaves the mailbox. */
    method ReceiveRequest(id: int) returns (m: Option<Request>)
      modifies this`mailbox
      ensures (m, mailbox) == TakeMail(old(mailbox), id)
      ensures m.None? ==> mailbox == old(mailbox)
    {
      var mail := mailbox;
      var i := 0;
      while i < |mail|
        invariant 0 <= i <= |mail| && forall k :: 0 <= k < i ==> mail[k].sender != id
      {
        if mail[i].sender == id {
          FirstMail(mail, id, i);
          mailbox := mail[..i] + mail[i + 1..];
          return Some(mail[i]);
        }
        i := i + 1;
      }
      FirstMail(mail, id, |mail|);
      return None;
    }

    /** get_process: the running process first, then the list of live ones. */
    method GetProcess(id: int) returns (found: bool)
      requires Valid()
      ensures found <==> running == Some(id) || id in current
      ensures QueuesOk(View()) ==> (found <==> id in mmu.pcbs)
    {
      if QueuesOk(View()) {
        Place(View(), id);
        assert id in current <==> multiset(current)[id] > 0;
      }
      if running == Some(id) {
        return true;
      }
      for i := 0 to |current|
        invariant id !in current[..i]
      {
        if current[i] == id {
          return true;
        }
      }
      return false;
    }

    /** handleRequests */
    method HandleRequests()
      requires Valid()
      modifies this, mmu, mmu.ram
      ensures Valid() && View() == RoundRobin.HandleRequests(old(View()))
      ensures blockChecks == old(blockChecks)
    {
      if running.None? {
        return;
      }
      QueueRequest(running.value);
      CheckReqs();
    }

    method QueueRequest(id: int)
      modifies this`mailbox, this`requests
      ensures var (m, rest) := TakeMail(old(mailbox), id);
        if m.Some? then mailbox == rest && requests == old(requests) + [m.value.(tick := clock)]
        else mailbox == old(mailbox) && requests == old(requests)
    {
      var m := ReceiveRequest(id);
      if m.Some? {
        requests := requests + [m.value.(tick := clock)];
      }
    }

    /** checkReqs */
    method CheckReqs()
      requires Valid()
      modifies this, mmu, mmu.ram
      ensures Valid() && View() == RoundRobin.CheckReqs(old(View()))
      ensures blockChecks == old(blockChecks)
    {
      if requests == [] || requests[0].sender !in mmu.pcbs {
        return;
      }
      var r := requests[0];
      var res := mmu.Check(r.sender, r.page, r.write);
      if r.tick <= clock {
        requests := requests[1..];
        if res.Miss? {
          if running == Some(r.sender) {
            BlockRunning(r);
          } else {
            BlockReady(r);
          }
        }
      }
    }

    method BlockRunning(r: Request)
      requires Valid() && r.sender in mmu.pcbs
      modifies this`quantums, this`blocked, this`switchUntil, this`running, this`preemptAt, mmu, mmu.ram
      ensures Valid() && View() == RoundRobin.BlockRunning(old(View()), r)
    {
      StopAndFault(r);
      LeaveForBlock(r.sender);
    }

    method LeaveForBlock(p: int)
      modifies this`quantums, this`blocked, this`switchUntil, this`running, this`preemptAt
      ensures quantums == old(quantums) + 1 && blocked == old(blocked) + [p]
      ensures switchUntil == clock + 1 && running == None && preemptAt == -1
    {
      quantums := quantums + 1;
      blocked := blocked + [p];
      switchUntil, running, preemptAt := clock + 1, None, -1;
    }

    /** The control block is brought up to date and the page faulted in. */
    method StopAndFault(r: Request)
      requires Valid() && r.sender in mmu.pcbs
      modifies mmu, mmu.ram
      ensures Valid()
      ensures var p := r.sender; var c := old(mmu.pcbs[p]).(remaining := shm, lastStopped := clock, state := Blocked);
        mmu.View() == Mmu.FaultHandler(Mmu.SetPcb(old(mmu.View()), p, c), clock, p, r.page, Demand, r.write)
    {
      var p := r.sender;
      mmu.SetPcb(p, mmu.pcbs[p].(remaining := shm, lastStopped := clock, state := Blocked));
      mmu.FaultHandler(clock, p, r.page, Demand, r.write);
    }

    method BlockReady(r: Request)
      requires Valid() && r.sender in mmu.pcbs
      modifies this, mmu, mmu.ram
      ensures Valid() && View() == RoundRobin.BlockReady(old(View()), r)
      ensures blockChecks == old(blockChecks)
    {
      var p := r.sender;
      if p !in ready {
        return;
      }
      mmu.SetPcb(p, mmu.pcbs[p].(state := Blocked));
      mmu.FaultHandler(clock, p, r.page, Demand, r.write);
      MoveToBlocked(p);
    }

    method MoveToBlocked(p: int)
      modifies this`ready, this`blocked
      ensures ready == Without(old(ready), p) && blocked == old(blocked) + [p]
    {
      ready := DequeueById(ready, p);
      blocked := blocked + [p];
    }

    /** checkBlockEnd: the queue is walked while nodes are unlinked from it. */
    method CheckBlockEnd()
      requires Valid()
      modifies this`blockChecks, this`blocked, this`ready, mmu, mmu.ram
      ensures Valid() && View() == RoundRobin.CheckBlockEnd(old(View()))
      ensures blockChecks == old(blockChecks) + 1
    {
      blockChecks := blockChecks + 1;
      var node := blocked;
      while node != []
        invariant Valid() && blockChecks == old(blockChecks) + 1
        invariant WakeWalk(View(), node) == RoundRobin.CheckBlockEnd(old(View()))
        decreases |node|
      {
        var p, next := node[0], node[1..];
        if p in mmu.pcbs && mmu.pcbs[p].unblockAt <= clock {
          WakeUp(p);
        }
        node := next;
      }
    }

    method WakeUp(p: int)
      requires Valid()
      modifies this`blocked, this`ready, mmu, mmu.ram
      ensures Valid() && View() == WakeOne(old(View()), p)
    {
      blocked := DequeueById(blocked, p);
      mmu.Wake(p);
      ready := ready + [p];
    }

    /** handleFinishedProcesses */
    method HandleFinished()
      requires Valid()
      modifies this, mmu, mmu.ram
      ensures Valid() && View() == RoundRobin.HandleFinished(old(View()))
      ensures blockChecks == old(blockChecks)
    {
      if running.None? || !finishSignal || running.value !in mmu.pcbs {
        return;
      }
      var p := running.value;
      if p in children && children[p].remaining > 0 {
        hung := true;
        return;
      }
      FinishRunning(p);
    }

    method FinishRunning(p: int)
      requires Valid() && p in mmu.pcbs
      modifies this`perf, this`finished, this`current, this`children, this`finishSignal, this`switchUntil, this`quantums
      modifies this`running, this`preemptAt, mmu, mmu.ram
      ensures Valid() && View() == RoundRobin.FinishRunning(old(View()), p)
    {
      Account(mmu.pcbs[p].(finish := clock, remaining := shm, state := Done));
      mmu.FreePageTable(p);
      LeaveCpu(p);
    }

    method LeaveCpu(p: int)
      modifies this`current, this`children, this`finishSignal, this`switchUntil, this`quantums, this`running, this`preemptAt
      ensures current == Without(old(current), p) && children == old(children) - {p}
      ensures !finishSignal && switchUntil == clock + 1 && quantums == old(quantums) + 1
      ensures running == None && preemptAt == -1
    {
      current := DequeueById(current, p);
      children := children - {p};
      finishSignal, switchUntil, quantums, running, preemptAt := false, clock + 1, quantums + 1, None, -1;
    }

    method Account(c: Pcb)
      modifies this`perf, this`finished
      ensures View() == old(View()).(perf := Statistics.Record(old(perf), c), finished := old(finished) + [c])
    {
      perf := Statistics.Record(perf, c);
      finished := finished + [c];
    }

    /** receiveProcesses: messages are taken lowest type first, up to a sentinel
        of this tick or the final message. */
    method ReceiveProcesses()
      requires Valid() && ReceiveLoop(ch.msgs, clock).Returns?
      modifies this`ready, this`current, this`receiving, this`lastSync, mmu`pcbs, ch
      ensures Valid() && View() == Receiving(old(View()), ReceiveLoop(old(ch.msgs), clock))
      ensures ch.msgs == ReceiveLoop(old(ch.msgs), clock).rest
    {
      ghost var s, c := View(), ReceiveLoop(ch.msgs, clock);
      var more := true;
      while more
        invariant Valid() && clock == old(clock)
        invariant more ==> LeftToTake(Admitting, s, c, View(), ReceiveLoop(ch.msgs, clock))
        invariant !more ==> View() == Receiving(s, c) && ch.msgs == c.rest
        decreases more, |ch.msgs|
      {
        NextToTake(Admitting, s, c, View(), ch.msgs, clock);
        more := TakeMessage();
      }
    }

    /** One turn of the loop. */
    method TakeMessage() returns (more: bool)
      requires Valid() && ch.msgs != []
      modifies this`ready, this`current, this`receiving, this`lastSync, mmu`pcbs, ch
      ensures var m := old(ch.msgs)[Arrival.Lowest(old(ch.msgs))];
        && Valid() && (more <==> !Ends(m, clock))
        && ch.msgs == RemoveAt(old(ch.msgs), Arrival.Lowest(old(ch.msgs)))
        && match m
           case Process(j) => View() == Admitting(old(View()), j)
           case Sentinel(t) => View() == if t >= clock then old(View()).(lastSync := t) else old(View())
           case End => View() == old(View()).(receiving := false)
    {
      var m := ReceiveLowest(ch);
      more := true;
      match m {
        case Process(j) =>
          AdmitProcess(j);
        case Sentinel(t) =>
          if t >= clock {
            lastSync, more := t, false;
          }
        case End =>
          receiving, more := false, false;
      }
    }

    method AdmitProcess(j: Job)
      requires Valid()
      modifies this`ready, this`current, mmu`pcbs
      ensures Valid() && View() == Admitting(old(View()), j)
    {
      mmu.SetPcb(j.id, CreatePcb(j));
      ready := ready + [j.id];
      current := current + [j.id];
    }

    /** runProcess at time t */
    method RunProcess(p: int, t: int)
      requires Valid()
      modifies this`shm, this`children, mmu, mmu.ram
      ensures Valid() && View() == RoundRobin.RunProcess(old(View()), p, t)
    {
      if p !in mmu.pcbs {
        return;
      }
      var remaining := mmu.pcbs[p].remaining;
      if mmu.pcbs[p].forked {
        var c := Begun(mmu.pcbs[p], t);
        if c.lastStopped >= 0 {
          c := c.(waiting := c.waiting + t - c.lastStopped);
        }
        mmu.SetPcb(p, c.(state := Running));
        shm := remaining;
      } else {
        Fork(p, t);
      }
    }

    /** The first run of a process: its memory is set up and a child is forked. */
    method Fork(p: int, t: int)
      requires Valid() && p in mmu.pcbs
      modifies this`shm, this`children, mmu, mmu.ram
      ensures Valid() && View() == RoundRobin.Launch(old(View()), p, t)
    {
      var remaining := mmu.pcbs[p].remaining;
      mmu.SetPcb(p, Begun(mmu.pcbs[p], t));
      mmu.InitProcess(t, p);
      if p in mmu.pcbs {
        mmu.SetPcb(p, mmu.pcbs[p].(forked := true, state := Running));
        children := children[p := Child(remaining, 0, 0)];
        shm := remaining;
      }
    }

    /** The front of the ready queue gets the CPU at time t. */
    method Dispatch(t: int)
      requires Valid() && ready != []
      modifies this`running, this`ready, this`shm, this`children, this`preemptAt, mmu, mmu.ram
      ensures Valid() && View() == RoundRobin.Dispatch(old(View()), cfg.quantum, t)
    {
      var p := ready[0];
      TakeFront();
      RunProcess(p, t);
      preemptAt := t + cfg.quantum;
    }

    method TakeFront()
      requires Valid() && ready != []
      modifies this`running, this`ready
      ensures Valid() && View() == RoundRobin.TakeFront(old(View()))
    {
      running, ready := Some(ready[0]), ready[1..];
    }

    method StopRunning(p: int)
      requires Valid() && p in mmu.pcbs
      modifies this`quantums, this`ready, this`running, this`switchUntil, mmu`pcbs
      ensures Valid() && View() == RoundRobin.StopRunning(old(View()), p)
    {
      mmu.SetPcb(p, mmu.pcbs[p].(remaining := shm, lastStopped := clock, state := Waiting));
      quantums := quantums + 1;
      ready := ready + [p];
      running, switchUntil := None, clock + 1;
    }

    /** The running process is put back; the block-end check that was put off at
        the start of this iteration is made up for. */
    method PutBack(p: int)
      requires Valid() && p in mmu.pcbs
      modifies this`blockChecks, this`quantums, this`ready, this`blocked, this`running, this`switchUntil, this`checked, mmu, mmu.ram
      ensures Valid() && View() == RoundRobin.PutBack(old(View()), p)
      ensures blockChecks == old(blockChecks) + (if checked && !old(checked) then 1 else 0) && (old(checked) ==> checked)
      ensures checked
    {
      StopRunning(p);
      if !checked {
        CheckBlockEnd();
        checked := true;
      }
    }

    /** RR_algo */
    method RrAlgo()
      requires Valid()
      modifies this, mmu, mmu.ram
      ensures Valid() && View() == RoundRobin.RrAlgo(old(View()), cfg.quantum)
      ensures blockChecks == old(blockChecks) + (if checked && !old(checked) then 1 else 0) && (old(checked) ==> checked)
    {
      if running.Some? {
        EndTurn(running.value);
      } else if ready != [] {
        Dispatch(clock);
      }
    }

    /** p keeps the CPU, with a new quantum once the old one is used up, unless
        somebody waits who did not arrive just now. */
    method EndTurn(p: int)
      requires Valid() && running == Some(p)
      modifies this, mmu, mmu.ram
      ensures Valid() && View() == RoundRobin.RrAlgo(old(View()), cfg.quantum)
      ensures blockChecks == old(blockChecks) + (if checked && !old(checked) then 1 else 0) && (old(checked) ==> checked)
    {
      if clock < preemptAt {
        return;
      }
      if ready == [] || (ready[0] in mmu.pcbs && mmu.pcbs[ready[0]].arrival == clock) {
        preemptAt, quantums := clock + cfg.quantum, quantums + 1;
        return;
      }
      if p in mmu.pcbs {
        Preempt(p);
      }
    }

    method Preempt(p: int)
      requires Valid() && p in mmu.pcbs
      modifies this, mmu, mmu.ram
      ensures Valid() && View() == RoundRobin.Preempt(old(View()), p, cfg.quantum)
      ensures blockChecks == old(blockChecks) + (if checked && !old(checked) then 1 else 0) && (old(checked) ==> checked)
    {
      ghost var s := View();
      var next := clock + 1;
      PutBack(p);
      SwitchTo(next);
      PreemptIs(s, p, cfg.quantum, next);
    }

    method SwitchTo(t: int)
      requires Valid()
      modifies this`running, this`ready, this`shm, this`children, this`preemptAt, mmu, mmu.ram
      ensures Valid() && View() == RoundRobin.SwitchTo(old(View()), cfg.quantum, t)
    {
      if ready != [] {
        Dispatch(t);
      }
    }

    /** clear_recent is due at each new multiple of k quantums. */
    method ClearCheck()
      requires Valid()
      modifies this`lastClear, this`clears, mmu, mmu.ram
      ensures Valid() && View() == RoundRobin.ClearCheck(old(View()), cfg.k)
    {
      if cfg.k > 0 && quantums > 0 && quantums % cfg.k == 0 && quantums > lastClear {
        mmu.ClearRecent();
        lastClear, clears := quantums, clears + 1;
      }
    }

    /** A grant: the running child consumes one tick and may send one request. */
    method GrantTick()
      requires Valid()
      modifies this`mailbox, this`children, this`shm, this`finishSignal
      ensures Valid() && View() == RoundRobin.ChildStep(cfg, old(View()))
    {
      ghost var s := View();
      if running.None? || running.value !in children || children[running.value].remaining <= 0 {
        return;
      }
      RunChild(running.value);
      ChildStepIs(cfg, s, View(), running.value);
    }

    /** The child p sends what is due, its own time and the shared remaining time
        go down, and at zero it exits with a signal. */
    method RunChild(p: int)
      requires p in children
      modifies this`mailbox, this`children, this`shm, this`finishSignal
      ensures var ch := old(children[p]); var prog := Program(cfg, p);
        var send := ch.next < |prog| && prog[ch.next].tick == ch.ran;
        && mailbox == (if send then old(mailbox) + [prog[ch.next].(sender := p)] else old(mailbox))
        && children == old(children)[p := Child(ch.remaining - 1, ch.ran + 1, if send then ch.next + 1 else ch.next)]
        && shm == ch.remaining - 1 && finishSignal == (old(finishSignal) || ch.remaining == 1)
    {
      var ch := children[p];
      var next := SendDue(p, ch);
      children := children[p := Child(ch.remaining - 1, ch.ran + 1, next)];
      shm := ch.remaining - 1;
      if shm == 0 {
        finishSignal := true;
      }
    }

    /** At most one request per tick, the next of the program. */
    method SendDue(p: int, ch: Child) returns (next: nat)
      modifies this`mailbox
      ensures var prog := Program(cfg, p);
        if ch.next < |prog| && prog[ch.next].tick == ch.ran
        then mailbox == old(mailbox) + [prog[ch.next].(sender := p)] && next == ch.next + 1
        else mailbox == old(mailbox) && next == ch.next
    {
      var prog := Program(cfg, p);
      next := ch.next;
      if next < |prog| && prog[next].tick == ch.ran {
        mailbox := mailbox + [prog[next].(sender := p)];
        next := next + 1;
      }
    }

    /** Generator and scheduler are in step; `queue` is what the generator has
        still to send. */
    ghost predicate InTouch(queue: seq<Job>)
      reads this, ch
    {
      receiving ==> InStep(cfg.jobs, clock, incoming, queue, ch.msgs)
    }

    method AcceptArrivals(ghost queue: seq<Job>)
      requires Valid() && InTouch(queue)
      modifies this`switchUntil, this`ready, this`current, this`incoming, this`receiving, this`lastSync, mmu`pcbs, ch
      ensures Valid() && View() == Received(cfg, old(View()))
      ensures ch.msgs == LeftUnderWay(old(ch.msgs), clock, old(receiving && clock > lastSync))
    {
      switchUntil := -1;
      if receiving && clock > lastSync {
        ReceiveInStep(queue);
      }
    }

    method ReceiveInStep(ghost queue: seq<Job>)
      requires Valid() && InStep(cfg.jobs, clock, incoming, queue, ch.msgs)
      modifies this`ready, this`current, this`incoming, this`receiving, this`lastSync, mmu`pcbs, ch
      ensures Valid() && View() == Receive(cfg, old(View()))
      ensures ch.msgs == LeftUnderWay(old(ch.msgs), clock, true)
    {
      KernelReceives(cfg, View(), queue, ch.msgs);
      ReceiveProcesses();
      incoming := queue;
    }

    method Decide()
      requires Valid()
      modifies this, mmu, mmu.ram
      ensures Valid() && View() == Decided(cfg, old(View()))
      ensures blockChecks == old(blockChecks) + (if checked && !old(checked) then 1 else 0) && (old(checked) ==> checked)
    {
      if clock > 0 {
        RrAlgo();
      }
    }

    method Grant()
      requires Valid()
      modifies this`mailbox, this`children, this`shm, this`finishSignal
      ensures Valid() && View() == Granted(cfg, old(View()))
    {
      if clock >= switchUntil {
        GrantTick();
      }
    }

    method Schedule(ghost queue: seq<Job>)
      requires Valid() && InTouch(queue)
      modifies this, mmu, mmu.ram, ch
      ensures ch.msgs == LeftUnderWay(old(ch.msgs), old(clock), old(receiving && clock > lastSync))
      ensures Valid() && View() == Granted(cfg, RoundRobin.ClearCheck(Decided(cfg, Received(cfg, old(View()))), cfg.k))
      ensures blockChecks == old(blockChecks) + (if checked && !old(checked) then 1 else 0) && (old(checked) ==> checked)
    {
      AcceptArrivals(queue);
      DecideAndGrant();
    }

    method DecideAndGrant()
      requires Valid()
      modifies this, mmu, mmu.ram
      ensures Valid() && View() == Granted(cfg, RoundRobin.ClearCheck(Decided(cfg, old(View())), cfg.k))
      ensures blockChecks == old(blockChecks) + (if checked && !old(checked) then 1 else 0) && (old(checked) ==> checked)
    {
      Decide();
      ClearAndGrant();
    }

    method ClearAndGrant()
      requires Valid()
      modifies this`lastClear, this`clears, this`mailbox, this`children, this`shm, this`finishSignal, mmu, mmu.ram
      ensures Valid() && View() == Granted(cfg, RoundRobin.ClearCheck(old(View()), cfg.k))
    {
      ClearCheck();
      Grant();
    }

    method FirstCheck()
      requires Valid()
      modifies this`blockChecks, this`checked, this`blocked, this`ready, mmu, mmu.ram
      ensures Valid() && View() == RoundRobin.FirstCheck(old(View()))
      ensures blockChecks == old(blockChecks) + (if checked then 1 else 0)
    {
      if preemptAt != clock || running.None? {
        CheckBlockEnd();
        checked := true;
      } else {
        checked := false;
      }
    }

    method Settle()
      requires Valid()
      modifies this, mmu, mmu.ram
      ensures Valid() && View() == RoundRobin.Settle(cfg, old(View()))
      ensures blockChecks == old(blockChecks) + (if checked then 1 else 0)
    {
      HandleRequests();
      FirstCheck();
      HandleFinished();
    }

    method LateCheck()
      requires Valid()
      modifies this`blockChecks, this`blocked, this`ready, mmu, mmu.ram
      ensures Valid() && View() == RoundRobin.LateCheck(old(View()))
      ensures blockChecks == old(blockChecks) + (if checked then 0 else 1)
    {
      if !checked {
        CheckBlockEnd();
      }
    }

    method Advance(ghost queue: seq<Job>)
      requires Valid() && InTouch(queue)
      modifies this, mmu, mmu.ram, ch
      ensures ch.msgs == LeftUnderWay(old(ch.msgs), old(clock), old(Receives()))
      ensures Valid() && View() == RoundRobin.Advance(cfg, old(View()))
      ensures blockChecks == old(blockChecks) + (if checked && !old(checked) then 1 else 0) && (old(checked) ==> checked)
    {
      if switchUntil == -1 || clock >= switchUntil {
        ghost var s := View();
        Schedule(queue);
        AdvanceOf(cfg, s, View());
      }
    }

    predicate Receives()
      reads this
    {
      (switchUntil == -1 || clock >= switchUntil) && receiving && clock > lastSync
    }

    /** One pass of the main loop; the block queue is checked exactly once. */
    method Iterate(ghost queue: seq<Job>)
      requires Valid() && InTouch(queue)
      modifies this, mmu, mmu.ram, ch
      ensures Valid() && View() == RoundRobin.Iteration(cfg, old(View()))
      ensures !hung ==> blockChecks == old(blockChecks) + 1
      ensures !hung ==> ch.msgs == LeftUnderWay(old(ch.msgs), old(clock), Calls(cfg, old(View())))
    {
      var now := clock;
      SettleArrivals(cfg, View());
      Settle();
      if hung {
        return;
      }
      Advance(queue);
      LateCheck();
      clock := now + 1;
    }

    /** Tick by tick the generator goes first. */
    method Turn(generator: Generator)
      requires Valid() && generator.ch == ch && Iterates(cfg, View())
      requires ArrivalsOk(cfg, View(), Traffic(generator.queue, ch.msgs))
      modifies this, mmu, mmu.ram, ch, generator
      ensures Valid() && View() == RoundRobin.Iteration(cfg, old(View()))
      ensures Traffic(generator.queue, ch.msgs)
           == ArrivalMachine.Turn(old(Traffic(generator.queue, ch.msgs)), old(clock), Calls(cfg, old(View())))
      ensures ArrivalsOk(cfg, View(), Traffic(generator.queue, ch.msgs))
    {
      ghost var g := Traffic(generator.queue, ch.msgs);
      Hears(cfg, View(), g);
      NoHang(cfg, View());
      TurnKeepsStep(cfg, View(), g);
      generator.Turn(clock);
      Iterate(generator.queue);
    }

    method Step(generator: Generator, ghost n: nat) returns (ghost next: nat)
      requires Valid() && generator.ch == ch && ConfigOk(cfg) && SoundRun(cfg) && (n == 0 || n <= Bound(cfg))
      requires View() == Run(cfg, n) && !Finished(View())
      requires ArrivalsOk(cfg, View(), Traffic(generator.queue, ch.msgs))
      modifies this, mmu, mmu.ram, ch, generator
      ensures Valid() && n < Bound(cfg) && next == n + 1 && View() == Run(cfg, next)
      ensures ArrivalsOk(cfg, View(), Traffic(generator.queue, ch.msgs))
    {
      next := Goes(cfg, n, View());
      Turn(generator);
    }

    /** The main loop, with the generator at work beside it. It ends for every
        input whose run is sound, with every job finished once and fully accounted
        for. */
    method Execute(generator: Generator)
      requires Valid() && ConfigOk(cfg) && SoundRun(cfg) && View() == Boot(cfg)
      requires generator.ch == ch && Traffic(generator.queue, ch.msgs) == Opening(cfg.jobs)
      modifies this, mmu, mmu.ram, ch, generator
      ensures Valid() && EndedWell(cfg, View())
    {
      ghost var n := 0;
      BootInStep(cfg, View(), Traffic(generator.queue, ch.msgs));
      while ready != [] || blocked != [] || receiving || running.Some?
        invariant Valid() && n >= 0 && (n == 0 || n <= Bound(cfg)) && View() == Run(cfg, n)
        invariant ArrivalsOk(cfg, View(), Traffic(generator.queue, ch.msgs))
        decreases Bound(cfg) - n
      {
        n := Step(generator, n);
      }
      RunEnds(cfg, n, View());
    }
  }

  lemma ChildStepIs(cfg: Config, s: Kernel, s': Kernel, p: int)
    requires s.running == Some(p) && p in s.children && s.children[p].remaining > 0
    requires var ch := s.children[p]; var prog := Program(cfg, p);
      var send := ch.next < |prog| && prog[ch.next].tick == ch.ran;
      s' == s.(mailbox := if send then s.mailbox + [prog[ch.next].(sender := p)] else s.mailbox,
               children := s.children[p := Child(ch.remaining - 1, ch.ran + 1, if send then ch.next + 1 else ch.next)],
               shm := ch.remaining - 1, finishSignal := s.finishSignal || ch.remaining == 1)
    ensures s' == ChildStep(cfg, s)
  {
  }

  lemma AdvanceOf(cfg: Config, s: Kernel, s': Kernel)
    requires s.switchUntil == -1 || s.clock >= s.switchUntil
    requires s' == Granted(cfg, RoundRobin.ClearCheck(Decided(cfg, Received(cfg, s)), cfg.k))
    ensures s' == RoundRobin.Advance(cfg, s)
  {
    ScheduleIs(cfg, s);
  }

  /** A whole simulation: if the run is sound, every job of the input comes out
      finished, once, with turnaround = runtime + waiting. */
  method Simulate(cfg: Config) returns (finished: seq<Pcb>)
    requires ConfigOk(cfg) && SoundRun(cfg)
    ensures multiset(FinishedIds(finished)) == multiset(Ids(cfg.jobs))
    ensures forall c :: c in finished ==> HasJob(cfg, c) && Accounted(c)
  {
    var ch := new Channel<Arrival.Msg>();
    var generator := new Generator(cfg.jobs, ch);
    var scheduler := new Scheduler(cfg, ch);
    scheduler.Execute(generator);
    finished := scheduler.finished;
  }

  lemma SoundSoFar(cfg: Config, n: nat)
    requires SoundRun(cfg) && (n == 0 || n <= Bound(cfg))
    ensures Sound(cfg, n)
  {
  }

  /** An unfinished run makes an iteration, before the bound is reached. */
  lemma Goes(cfg: Config, n: nat, s: Kernel) returns (next: nat)
    requires ConfigOk(cfg) && SoundRun(cfg) && (n == 0 || n <= Bound(cfg)) && s == Run(cfg, n) && !Finished(s)
    ensures n < Bound(cfg) && next == n + 1 && Run(cfg, next) == Iteration(cfg, s) && Iterates(cfg, s)
  {
    GoesBefore(cfg, n, s);
    RunKeeps(cfg, n, s);
    assert SoundAt(cfg, n);
    SoundIterates(cfg, s);
    next := NextRun(cfg, n, s);
  }

  lemma GoesBefore(cfg: Config, n: nat, s: Kernel)
    requires ConfigOk(cfg) && SoundRun(cfg) && (n == 0 || n <= Bound(cfg)) && s == Run(cfg, n) && !Finished(s)
    ensures n < Bound(cfg) && Sound(cfg, n)
  {
    SoundSoFar(cfg, n);
    if n >= Bound(cfg) {
      Terminates(cfg, n);
    }
  }

  lemma SoundIterates(cfg: Config, s: Kernel)
    requires Inv(cfg, s) && StepOk(cfg, s) && !Finished(s)
    ensures Iterates(cfg, s) && Tick(cfg, s) == Iteration(cfg, s)
  {
    SettleKeeps(cfg, s, 20);
  }

  lemma NextRun(cfg: Config, n: nat, s: Kernel) returns (next: nat)
    requires s == Run(cfg, n)
    ensures next == n + 1 && Run(cfg, next) == Tick(cfg, s)
  {
    next := n + 1;
  }

  /** Only handleFinishedProcesses waits for a child. */
  lemma NoHang(cfg: Config, s: Kernel)
    requires !RoundRobin.Settle(cfg, s).hung
    ensures !Iteration(cfg, s).hung
  {
    var s1 := RoundRobin.Settle(cfg, s);
    ScheduleBooks(cfg, s1);
    AdmitFrame(s1.(switchUntil := -1));
    CheckBooks(RoundRobin.Advance(cfg, s1));
  }

  lemma Hears(cfg: Config, s: Kernel, g: Traffic)
    requires ArrivalsOk(cfg, s, g)
    ensures var g1 := AfterSends(g, s.clock); s.receiving ==> InStep(cfg.jobs, s.clock, s.incoming, g1.queue, g1.msgs)
  {
    if s.receiving {
      GeneratorInStep(cfg.jobs, s.clock - 1, s.incoming, g.queue, g.msgs);
    }
  }

  lemma TurnKeepsStep(cfg: Config, s: Kernel, g: Traffic)
    requires ArrivalsOk(cfg, s, g) && Iterates(cfg, s)
    ensures ArrivalsOk(cfg, Iteration(cfg, s), ArrivalMachine.Turn(g, s.clock, Calls(cfg, s)))
  {
    ArrivalsNext(cfg, s, g);
  }

  lemma RunEnds(cfg: Config, n: nat, s: Kernel)
    requires ConfigOk(cfg) && SoundRun(cfg) && (n == 0 || n <= Bound(cfg)) && s == Run(cfg, n) && Finished(s)
    ensures EndedWell(cfg, s)
  {
    SoundSoFar(cfg, n);
    RunKeeps(cfg, n, s);
    AllDone(cfg, s);
  }
}
