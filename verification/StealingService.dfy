/** What a loop body of one CPU of the two does, spelled out: whoever has waited
    longest is started at once, and the CPU never idles while a process can run. */
module StealingService {
  import opened Common
  import opened Routing
  import opened Stealing
  import opened StealingTime

  // ---- One loop body -------------------------------------------------------------

  /** The processes that the given number of receive loops take from the mailbox;
      a termination message ends one. */
  function Taken(inbox: seq<Message>, loops: nat): seq<Data> {
    if inbox == [] || loops == 0 then []
    else match inbox[0]
      case New(d) => [d] + Taken(inbox[1..], loops)
      case Terminate => Taken(inbox[1..], loops - 1)
  }

  /** Who waits at a sub-scheduler when it has read its messages; it reads twice. */
  function Queueing(s: Sub): seq<Data> {
    Datas(s.queue) + Taken(s.inbox, 2)
  }

  lemma {:induction false} DrainTakes(s: Sub, loops: nat)
    requires loops > 0
    ensures Datas(Drain(s).queue) + Taken(Drain(s).inbox, loops - 1) == Datas(s.queue) + Taken(s.inbox, loops)
    decreases |s.inbox|
  {
    if s.inbox != [] && s.inbox[0].New? {
      var d := s.inbox[0].d;
      var s1 := s.(inbox := s.inbox[1..], queue := s.queue + [FromData(d)]);
      DrainTakes(s1, loops);
      DatasAppend(s.queue, d);
      Regroup(Datas(s.queue), d, Taken(s.inbox[1..], loops));
    }
  }

  lemma DatasAppend(queue: seq<Pcb>, d: Data)
    ensures Datas(queue + [FromData(d)]) == Datas(queue) + [d]
  {
  }

  lemma Regroup(a: seq<Data>, d: Data, b: seq<Data>)
    ensures a + [d] + b == a + ([d] + b)
  {
  }

  lemma DrainedTwice(s: Sub)
    ensures Datas(Drain(Drain(s)).queue) == Queueing(s)
  {
    DrainTakes(s, 2);
    DrainTakes(Drain(s), 1);
    assert Datas(Drain(Drain(s)).queue) + [] == Datas(Drain(Drain(s)).queue);
  }

  /** The process on the CPU is d, started at the given time. */
  predicate OnCpuSince(s: Sub, d: Data, start: int) {
    s.running.Some? && ToData(s.running.value) == d && s.running.value.start == start
  }

  /** The loop body of a tick: an exited process is taken off the CPU, which then
      rests for the tick. One that has not exited runs for a tick, and if the CPU is
      free, whoever has waited longest starts and runs for a tick, both unless a
      stall signal came within the last three ticks; nothing starts at time 0. */
  lemma LoopServes(c: Cpu)
    requires CpuOk(c) && !c.done
    ensures var s, s' := c.sub, Happen(c, Loops).sub; var waiting := Queueing(s);
      if s.running.Some? && s.shm == 0 then
        && s'.running.None? && |s'.finished| == |s.finished| + 1
        && ToData(s'.finished[|s.finished|]) == ToData(s.running.value) && s'.finished[|s.finished|].finish == c.clock
        && Datas(s'.queue) == waiting
      else
        && s'.finished == s.finished
        && if s.running.Some? then
             && OnCpuSince(s', ToData(s.running.value), s.running.value.start) && Datas(s'.queue) == waiting
             && s'.shm == if Held(c) then s.shm else s.shm - 1
           else if c.clock > 0 && !Held(c) && waiting != [] then
             && OnCpuSince(s', waiting[0], c.clock) && Datas(s'.queue) == waiting[1..]
             && s'.shm == waiting[0].runtime - 1
           else
             s'.running.None? && Datas(s'.queue) == waiting
  {
    DrainSupplied(c.sub);
    DrainedTwice(c.sub);
    var s1 := Drain(c.sub);
    DrainSupplied(s1);
    if Exits(c) {
      DrainIgnores(s1, Finish(s1, c.clock));
    } else {
      BodyServes(c, Drain(s1));
    }
  }

  lemma {:induction false} DrainIgnores(s: Sub, s': Sub)
    requires s'.inbox == s.inbox && s'.queue == s.queue
    ensures Drain(s').queue == Drain(s).queue && Drain(s').inbox == Drain(s).inbox
    ensures Drain(s') == s'.(inbox := Drain(s').inbox, queue := Drain(s').queue, receiving := Drain(s').receiving)
    decreases |s.inbox|
  {
    if s.inbox != [] && s.inbox[0].New? {
      var rest, queue := s.inbox[1..], s.queue + [FromData(s.inbox[0].d)];
      DrainIgnores(s.(inbox := rest, queue := queue), s'.(inbox := rest, queue := queue));
    }
  }

  lemma BodyServes(c: Cpu, s: Sub)
    requires CpuOk(c) && !c.done && Supplied(s) && !Exits(c)
    requires s == c.sub.(inbox := s.inbox, queue := s.queue, receiving := s.receiving)
    ensures var s' := Grant(Dispatch(Unstall(s, c.clock), c.clock)); var waiting := Datas(s.queue);
      && s'.finished == s.finished
      && if s.running.Some? then
           && OnCpuSince(s', ToData(s.running.value), s.running.value.start) && Datas(s'.queue) == waiting
           && s'.shm == if Held(c) then s.shm else s.shm - 1
         else if c.clock > 0 && !Held(c) && waiting != [] then
           && OnCpuSince(s', waiting[0], c.clock) && Datas(s'.queue) == waiting[1..]
           && s'.shm == waiting[0].runtime - 1
         else
           s'.running.None? && Datas(s'.queue) == waiting
  {
    if s.queue != [] {
      assert Fresh(s.queue[0]);
      assert Datas(s.queue[1..]) == Datas(s.queue)[1..];
    }
  }
  /** Either signal makes the CPU read its messages, up to a termination message, and
      leaves the process on it, if any, as far as it is; a steal then takes the last
      process of the queue. */
  lemma SignalReads(c: Cpu, e: Event)
    requires e.Stalls? || e.Steals?
    ensures var s, s' := c.sub, Happen(c, e).sub; var queue := Datas(s.queue) + Taken(s.inbox, 1);
      && Datas(s'.queue) == (if e.Steals? && queue != [] then queue[..|queue| - 1] else queue)
      && s'.shm == s.shm && s'.finished == s.finished
      && (s.running.Some? ==> OnCpuSince(s', ToData(s.running.value), s.running.value.start))
      && (s.running.None? ==> s'.running.None?)
  {
    DrainTakes(c.sub, 1);
    assert Datas(Drain(c.sub).queue) + [] == Datas(Drain(c.sub).queue);
    DrainIgnores(c.sub, c.sub);
    if e.Stalls? {
      var s1 := Stopped(c.sub, c.clock);
      DrainIgnores(c.sub, s1);
      assert Happen(c, e).sub == Drain(s1).(stallEnd := c.clock + 3);
    }
  }

  function Stopped(s: Sub, now: int): Sub {
    (if !s.stalled && s.running.Some? && s.running.value.forked
     then s.(running := Some(s.running.value.(lastStopped := now, remaining := s.shm, state := Waiting)))
     else s).(stalled := true)
  }
}
