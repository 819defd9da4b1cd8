/** The FCFS schedulers as the programs run them: linked queues, message queues
    and the shared load slots updated in place. */
module StealingMachine {
  import opened Common
  import opened PcbQueue
  import opened Routing
  import opened Stealing
  import opened MessageQueue
  import Statistics

  class SubScheduler {
    const cpu: nat
    const readyQueue: Queue
    const inbox: Channel<Message>
    const replies: Channel<Reply>
    const load: array<int>
    var running: Option<Pcb>
    var shm: int
    var receiving: bool
    var stalled: bool
    var stallEnd: int
    var switchUntil: int
    var perf: Statistics.Perf
    var finished: seq<Pcb>

    ghost predicate Valid()
      reads this, readyQueue, readyQueue.spine
    {
      && cpu < 2 && load.Length == 4 && readyQueue.Valid()
      && perf == Statistics.RecordAll(finished)
    }

    ghost function View(): Sub
      reads this, readyQueue, inbox
    {
      Sub(inbox.msgs, readyQueue.contents, running, shm, receiving, stalled, stallEnd, switchUntil, finished)
    }

    constructor (cpu: nat, inbox: Channel<Message>, replies: Channel<Reply>, load: array<int>)
      requires cpu < 2 && load.Length == 4 && inbox.msgs == []
      ensures Valid() && View() == NEW_SUB && fresh(readyQueue)
      ensures this.cpu == cpu && this.inbox == inbox && this.replies == replies && this.load == load
    {
      this.cpu, this.inbox, this.replies, this.load := cpu, inbox, replies, load;
      readyQueue := new Queue();
      running, shm, receiving, stalled, stallEnd, switchUntil := None, 0, true, false, -1, -1;
      perf, finished := Statistics.INITIAL, [];
    }

    /** The loop that empties the message queue. */
    method Drain()
      requires Valid()
      modifies this`receiving, inbox, readyQueue, readyQueue.spine
      ensures Valid() && View() == Stealing.Drain(old(View()))
      ensures forall i :: 0 <= i < |readyQueue.spine| ==>
                readyQueue.spine[i] in old(readyQueue.spine) || fresh(readyQueue.spine[i])
    {
      var more := true;
      while more
        invariant Valid()
        invariant (if more then Stealing.Drain(View()) else View()) == Stealing.Drain(old(View()))
        invariant forall i :: 0 <= i < |readyQueue.spine| ==>
                    readyQueue.spine[i] in old(readyQueue.spine) || fresh(readyQueue.spine[i])
        decreases more, |inbox.msgs|
      {
        more := TakeMessage();
      }
    }

    /** One turn of the loop. */
    method TakeMessage() returns (more: bool)
      requires Valid()
      modifies this`receiving, inbox, readyQueue, readyQueue.spine
      ensures Valid() && (more ==> |inbox.msgs| < |old(inbox.msgs)|)
      ensures (if more then Stealing.Drain(View()) else View()) == Stealing.Drain(old(View()))
      ensures forall i :: 0 <= i < |readyQueue.spine| ==>
                readyQueue.spine[i] in old(readyQueue.spine) || fresh(readyQueue.spine[i])
    {
      var m := inbox.Receive();
      more := true;
      match m {
        case None => more := false;
        case Some(New(d)) => readyQueue.Enqueue(FromData(d));
        case Some(Terminate) => receiving, more := false, false;
      }
    }

    /** steal_handler */
    method StealHandler()
      requires Valid()
      modifies this`receiving, inbox, replies, readyQueue, readyQueue.spine
      ensures Valid()
      ensures var (s, reply) := Stealing.StealHandler(old(View()));
        View() == s && replies.msgs == old(replies.msgs) + [reply]
    {
      Drain();
      var stolen := readyQueue.DequeueRear();
      if stolen.Some? {
        replies.Send(Stolen(ToData(stolen.value)));
      } else {
        replies.Send(Nothing);
      }
    }

    /** stall_sig */
    method StallSignal(now: int)
      requires Valid()
      modifies this, inbox, readyQueue, readyQueue.spine
      ensures Valid() && View() == Stealing.StallSignal(old(View()), now)
    {
      if !stalled && running.Some? && running.value.forked {
        running := Some(running.value.(lastStopped := now, remaining := shm, state := Waiting));
      }
      stalled := true;
      Drain();
      stallEnd := now + 3;
    }

    method Unstall(now: int)
      requires Valid()
      modifies this`stalled, this`running
      ensures Valid() && View() == Stealing.Unstall(old(View()), now)
    {
      if stalled && now >= stallEnd {
        stalled := false;
        if running.Some? && running.value.forked {
          var c := running.value;
          if c.lastStopped >= 0 {
            c := c.(waiting := c.waiting + now - c.lastStopped);
          }
          running := Some(c.(state := Running));
        }
      }
    }

    /** write_load_shm: the two slots of this CPU. */
    method WriteLoad(count: int, total: int)
      requires Valid()
      modifies load
      ensures load[2 * cpu] == count && load[2 * cpu + 1] == total
      ensures load[2 - 2 * cpu] == old(load[2 - 2 * cpu]) && load[3 - 2 * cpu] == old(load[3 - 2 * cpu])
    {
      load[2 * cpu], load[2 * cpu + 1] := count, total;
    }

    /** update_load_shm: queue length and remaining time, the running process
        included by what its child still has to run. */
    method UpdateLoad()
      requires Valid()
      modifies load
      ensures load[2 * cpu] == |readyQueue.contents|
      ensures load[2 * cpu + 1] == TotalRemaining(readyQueue.contents) + if running.Some? && shm > 0 then shm else 0
      ensures load[2 - 2 * cpu] == old(load[2 - 2 * cpu]) && load[3 - 2 * cpu] == old(load[3 - 2 * cpu])
    {
      var total := readyQueue.TotalRemainingTime();
      if running.Some? && shm > 0 {
        total := total + shm;
      }
      WriteLoad(readyQueue.size, total);
    }

    /** FCFS_algo: the load that is published counts the dispatched process. */
    method Dispatch(now: int)
      requires Valid()
      modifies this`running, this`shm, this`switchUntil, load, readyQueue
      ensures Valid() && View() == Stealing.Dispatch(old(View()), now)
      ensures running != old(running) ==>
                && load[2 * cpu] == |readyQueue.contents|
                && load[2 * cpu + 1] == TotalRemaining(readyQueue.contents) + shm
    {
      if running.Some? || stalled || (switchUntil != -1 && now < switchUntil) || now <= 0 {
        return;
      }
      var r := readyQueue.Dequeue();
      if r.Some? {
        var c := r.value;
        var total := readyQueue.TotalRemainingTime();
        WriteLoad(readyQueue.size, total + c.remaining);
        shm := c.remaining;
        if c.start == -1 {
          c := c.(start := now, waiting := now - c.arrival);
        }
        running, switchUntil := Some(c.(forked := true, state := Running)), -1;
      }
    }

    /** A grant: the child runs for a tick. */
    method Grant()
      requires Valid()
      modifies this`shm
      ensures Valid() && View() == Stealing.Grant(old(View()))
    {
      if running.Some? && !stalled && shm > 0 {
        shm := shm - 1;
      }
    }

    method Account(c: Pcb)
      requires perf == Statistics.RecordAll(finished)
      modifies this`perf, this`finished
      ensures finished == old(finished) + [c] && perf == Statistics.RecordAll(finished)
    {
      perf := Statistics.Record(perf, c);
      finished := finished + [c];
      assert finished[..|finished| - 1] == old(finished);
    }

    /** finishLogic, with the online figures kept up to date. */
    method FinishLogic(now: int)
      requires Valid()
      modifies this`running, this`switchUntil, this`perf, this`finished
      ensures Valid() && View() == Stealing.Finish(old(View()), now)
    {
      if running.Some? && shm <= 0 {
        var c := running.value.(finish := now, remaining := 0, state := Done);
        Account(c);
        running, switchUntil := None, now + 1;
      }
    }

    /** One tick of the main loop, with the load published at its end. */
    method Tick(now: int)
      requires Valid()
      modifies this, inbox, load, readyQueue, readyQueue.spine
      ensures Valid() && View() == Stealing.Tick(old(View()), now)
      ensures load[2 * cpu] == |readyQueue.contents|
      ensures load[2 * cpu + 1] == TotalRemaining(readyQueue.contents) + if running.Some? && shm > 0 then shm else 0
    {
      Drain();
      FinishLogic(now);
      Drain();
      Unstall(now);
      Dispatch(now);
      Grant();
      UpdateLoad();
    }
  }

  /** The four slots of the shared load memory: ready count and remaining time of
      each CPU. */
  datatype Loads = Loads(c1: int, rt1: int, c2: int, rt2: int)

  function OneLess(count: int): int {
    if count > 0 then count - 1 else count
  }

  class MainScheduler {
    const readyQueue: Queue
    const to0: Channel<Message>
    const to1: Channel<Message>
    const load: array<int>

    ghost predicate Valid()
      reads this, readyQueue, readyQueue.spine
    {
      to0 != to1 && load.Length == 4 && readyQueue.Valid()
    }

    constructor (to0: Channel<Message>, to1: Channel<Message>, load: array<int>)
      requires to0 != to1 && load.Length == 4
      ensures Valid() && fresh(readyQueue) && readyQueue.contents == []
      ensures this.to0 == to0 && this.to1 == to1 && this.load == load
    {
      this.to0, this.to1, this.load := to0, to1, load;
      readyQueue := new Queue();
    }

    /** FCFS_algo of the main scheduler: the whole queue is routed by projected
        ready counts, and the projections are published. */
    method RouteAll()
      requires Valid()
      modifies load, to0, to1, readyQueue
      ensures Valid() && readyQueue.contents == []
      ensures var plan := Route(Plan0(old(load[0]), old(load[2]), old(load[1]), old(load[3])),
                                Datas(old(readyQueue.contents)));
        && to0.msgs == old(to0.msgs) + Messages(plan.to1) && to1.msgs == old(to1.msgs) + Messages(plan.to2)
        && load[0] == plan.c1 && load[1] == plan.rt1 && load[2] == plan.c2 && load[3] == plan.rt2
    {
      var c1, c2, rt1, rt2 := load[0], load[2], load[1], load[3];
      ghost var plan := Plan0(c1, c2, rt1, rt2);
      ghost var whole := Route(plan, Datas(readyQueue.contents));
      assert Messages([]) == [];
      while readyQueue.front != null
        invariant Valid()
        invariant plan.c1 == c1 && plan.c2 == c2 && plan.rt1 == rt1 && plan.rt2 == rt2
        invariant Route(plan, Datas(readyQueue.contents)) == whole
        invariant to0.msgs == old(to0.msgs) + Messages(plan.to1) && to1.msgs == old(to1.msgs) + Messages(plan.to2)
        decreases |readyQueue.contents|
      {
        ghost var q := readyQueue.contents;
        assert Datas(q)[0] == ToData(q[0]) && Datas(q)[1..] == Datas(q[1..]);
        var pcb := readyQueue.Dequeue();
        var d := ToData(pcb.value);
        plan := RouteOne(plan, d);
        if c1 <= c2 {
          to0.Send(New(d));
          c1, rt1 := c1 + 1, rt1 + d.runtime;
          assert Messages(plan.to1) == Messages(plan.to1[..|plan.to1| - 1]) + [New(d)];
        } else {
          to1.Send(New(d));
          c2, rt2 := c2 + 1, rt2 + d.runtime;
          assert Messages(plan.to2) == Messages(plan.to2[..|plan.to2| - 1]) + [New(d)];
        }
      }
      load[0], load[1], load[2], load[3] := c1, rt1, c2, rt2;
    }

    /** The first half of check_threshold: the slots are read, and if they are too
        far apart, a CPU is chosen to take from. */
    method ChooseBusier(limit: int) returns (read: Loads, busier: Option<nat>)
      requires Valid()
      ensures load[0] == read.c1 && load[1] == read.rt1 && load[2] == read.c2 && load[3] == read.rt2
      ensures busier.Some? <==> Abs(read.rt1 - read.rt2) > limit
      ensures busier.Some? && limit >= 0 ==>
                busier.value < 2 && load[2 * busier.value + 1] > load[3 - 2 * busier.value]
    {
      read := Loads(load[0], load[1], load[2], load[3]);
      var diff := read.rt1 - read.rt2;
      if diff < 0 {
        diff := -diff;
      }
      busier := None;
      if diff > limit {
        busier := Some(if read.rt1 > read.rt2 then 0 else 1);
      }
    }

    /** The second half, once the reply has come: a stolen process is sent to the
        lighter CPU, and what was read in the first half is corrected and written
        over whatever the slots hold by now. */
    method ForwardStolen(read: Loads, busier: nat, reply: Reply)
      requires Valid() && busier < 2
      modifies load, to0, to1
      ensures Valid()
      ensures reply.Nothing? ==> load[..] == old(load[..]) && to0.msgs == old(to0.msgs) && to1.msgs == old(to1.msgs)
      ensures reply.Stolen? ==>
                && to0.msgs == old(to0.msgs) + (if busier == 1 then [New(reply.d)] else [])
                && to1.msgs == old(to1.msgs) + (if busier == 0 then [New(reply.d)] else [])
                && load[0] == (if busier == 0 then OneLess(read.c1) else read.c1 + 1)
                && load[1] == (if busier == 0 then Max(read.rt1 - reply.d.runtime, 0) else read.rt1 + reply.d.runtime)
                && load[2] == (if busier == 1 then OneLess(read.c2) else read.c2 + 1)
                && load[3] == (if busier == 1 then Max(read.rt2 - reply.d.runtime, 0) else read.rt2 + reply.d.runtime)
    {
      match reply {
        case Nothing =>
        case Stolen(d) =>
          var c1, rt1, c2, rt2 := read.c1, read.rt1, read.c2, read.rt2;
          if busier == 0 {
            to1.Send(New(d));
            if c1 > 0 {
              c1 := c1 - 1;
            }
            rt1 := rt1 - d.runtime;
            if rt1 < 0 {
              rt1 := 0;
            }
            c2, rt2 := c2 + 1, rt2 + d.runtime;
          } else {
            to0.Send(New(d));
            if c2 > 0 {
              c2 := c2 - 1;
            }
            rt2 := rt2 - d.runtime;
            if rt2 < 0 {
              rt2 := 0;
            }
            c1, rt1 := c1 + 1, rt1 + d.runtime;
          }
          load[0], load[1], load[2], load[3] := c1, rt1, c2, rt2;
      }
    }
  }
}
