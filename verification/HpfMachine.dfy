/** The HPF scheduler as the program runs it: a linked ready queue and globals
    updated in place, until everything has finished. */
module HpfMachine {
  import opened Common
  import opened PcbQueue
  import opened Hpf
  import opened HpfArrivals
  import opened ArrivalMachine
  import opened MessageQueue
  import Arrival
  import Statistics

  class Scheduler {
    const jobs: seq<Job>
    const readyQueue: Queue
    /** The messages from the generator. */
    const ch: Channel<Arrival.Msg>
    var clock: int
    var running: Option<Pcb>
    var shm: int
    var finishSignal: bool
    var switchUntil: int
    /** The jobs that no message taken so far was about. */
    ghost var incoming: seq<Job>
    var receiving: bool
    var perf: Statistics.Perf
    var finished: seq<Pcb>

    ghost predicate Valid()
      reads this, readyQueue, readyQueue.spine
    {
      readyQueue.Valid()
    }

    ghost function View(): State
      reads this, readyQueue
    {
      State(clock, readyQueue.contents, running, shm, finishSignal, switchUntil, incoming, receiving, perf, finished)
    }

    constructor (jobs: seq<Job>, ch: Channel<Arrival.Msg>)
      ensures this.jobs == jobs && this.ch == ch && fresh(readyQueue) && readyQueue.spine == [] && Valid() && View() == Boot(jobs)
    {
      this.jobs, this.ch := jobs, ch;
      readyQueue := new Queue();
      clock, running, shm, finishSignal, switchUntil := 0, None, 0, false, -1;
      incoming, receiving, perf, finished := jobs, true, Statistics.INITIAL, [];
    }

    /** The end of the running process, once its child has signalled it. */
    method Finish()
      requires Valid()
      modifies this
      ensures Valid() && View() == Hpf.Finish(old(View()))
    {
      if running.None? || !finishSignal {
        return;
      }
      var c := running.value.(finish := clock, remaining := shm, state := Done);
      finishSignal := false;
      switchUntil := clock + 1;
      perf := Statistics.Record(perf, c);
      finished := finished + [c];
      running := None;
    }

    /** The loop that receives arrivals: messages are taken lowest type first, up
        to a sentinel of this tick or the final message. */
    method Receive()
      requires Valid() && ReceiveLoop(ch.msgs, clock).Returns?
      modifies this`receiving, readyQueue, readyQueue.spine, ch
      ensures Valid() && View() == Receiving(old(View()), ReceiveLoop(old(ch.msgs), clock))
      ensures ch.msgs == ReceiveLoop(old(ch.msgs), clock).rest
      ensures forall i :: 0 <= i < |readyQueue.spine| ==>
                readyQueue.spine[i] in old(readyQueue.spine) || fresh(readyQueue.spine[i])
    {
      ghost var s, c := View(), ReceiveLoop(ch.msgs, clock);
      var more := true;
      while more
        invariant Valid()
        invariant more ==> LeftToTake(Admitting, s, c, View(), ReceiveLoop(ch.msgs, clock))
        invariant !more ==> View() == Receiving(s, c) && ch.msgs == c.rest
        invariant forall i :: 0 <= i < |readyQueue.spine| ==>
                    readyQueue.spine[i] in old(readyQueue.spine) || fresh(readyQueue.spine[i])
        decreases more, |ch.msgs|
      {
        NextToTake(Admitting, s, c, View(), ch.msgs, clock);
        more := TakeMessage();
      }
    }

    /** One turn of the loop. */
    method TakeMessage() returns (more: bool)
      requires Valid() && ch.msgs != []
      modifies this`receiving, readyQueue, readyQueue.spine, ch
      ensures var m := old(ch.msgs)[Arrival.Lowest(old(ch.msgs))];
        && Valid() && (more <==> !Ends(m, clock))
        && ch.msgs == RemoveAt(old(ch.msgs), Arrival.Lowest(old(ch.msgs)))
        && match m
           case Process(j) => View() == Admitting(old(View()), j)
           case Sentinel(t) => View() == old(View())
           case End => View() == old(View()).(receiving := false)
      ensures forall i :: 0 <= i < |readyQueue.spine| ==>
                readyQueue.spine[i] in old(readyQueue.spine) || fresh(readyQueue.spine[i])
    {
      var m := ReceiveLowest(ch);
      more := true;
      match m {
        case Process(j) =>
          readyQueue.EnqueuePriority(CreatePcb(j));
        case Sentinel(t) =>
          more := t < clock;
        case End =>
          receiving, more := false, false;
      }
    }

    /** HPF_algo */
    method Algo()
      requires Valid()
      modifies this`running, this`shm, readyQueue, readyQueue.spine
      ensures Valid() && View() == Hpf.Algo(old(View()))
      ensures forall i :: 0 <= i < |readyQueue.spine| ==>
                readyQueue.spine[i] in old(readyQueue.spine) || fresh(readyQueue.spine[i])
    {
      var empty := readyQueue.IsEmpty();
      if empty {
        return;
      }
      assert readyQueue.NodeOk(0);
      if running.Some? {
        if readyQueue.front.pcb.priority < running.value.priority {
          readyQueue.EnqueuePriority(Stopped(running.value, clock, shm));
          running := None;
        }
      } else {
        var c := readyQueue.Dequeue();
        running := Some(Dispatched(c.value, clock));
        shm := c.value.remaining;
      }
    }

    /** One granted tick of the child. */
    method Grant()
      requires Valid()
      modifies this`shm, this`finishSignal
      ensures Valid() && View() == Hpf.Grant(old(View()))
    {
      if running.Some? && shm > 0 {
        shm := shm - 1;
        if shm == 0 {
          finishSignal := true;
        }
      }
    }

    /** Generator and scheduler are in step; `queue` is what the generator has
        still to send. */
    ghost predicate InTouch(queue: seq<Job>)
      reads this, ch
    {
      receiving ==> InStep(jobs, clock, incoming, queue, ch.msgs)
    }

    method AcceptArrivals(ghost queue: seq<Job>)
      requires Valid() && InTouch(queue)
      modifies this`incoming, this`receiving, readyQueue, readyQueue.spine, ch
      ensures Valid() && View() == Received(jobs, old(View()))
      ensures ch.msgs == LeftUnderWay(old(ch.msgs), clock, old(receiving))
      ensures forall i :: 0 <= i < |readyQueue.spine| ==>
                readyQueue.spine[i] in old(readyQueue.spine) || fresh(readyQueue.spine[i])
    {
      if receiving {
        TransitionReceives(jobs, View(), queue, ch.msgs);
        Receive();
        incoming := queue;
      }
    }

    predicate Receives()
      reads this
    {
      (switchUntil == -1 || clock >= switchUntil) && receiving
    }

    method Advance(ghost queue: seq<Job>)
      requires Valid() && InTouch(queue)
      modifies this, readyQueue, readyQueue.spine, ch
      ensures Valid() && View() == Hpf.Advance(jobs, old(View()))
      ensures ch.msgs == LeftUnderWay(old(ch.msgs), old(clock), old(Receives()))
      ensures forall i :: 0 <= i < |readyQueue.spine| ==>
                readyQueue.spine[i] in old(readyQueue.spine) || fresh(readyQueue.spine[i])
    {
      if switchUntil == -1 || clock >= switchUntil {
        switchUntil := -1;
        AcceptArrivals(queue);
        Decide();
        Grant();
      }
    }

    method Decide()
      requires Valid()
      modifies this`running, this`shm, readyQueue, readyQueue.spine
      ensures Valid() && View() == Decided(old(View()))
      ensures forall i :: 0 <= i < |readyQueue.spine| ==>
                readyQueue.spine[i] in old(readyQueue.spine) || fresh(readyQueue.spine[i])
    {
      if clock > 0 {
        Algo();
      }
    }

    /** One pass of the main loop, after the generator's turn. */
    method Step(generator: Generator, ghost n: nat) returns (ghost next: nat)
      requires Valid() && generator.ch == ch && InputOk(jobs) && View() == Run(jobs, n) && !Over(View())
      requires ArrivalsOk(jobs, View(), Traffic(generator.queue, ch.msgs))
      modifies this, readyQueue, readyQueue.spine, ch, generator
      ensures Valid() && n < Bound(jobs) && next == n + 1 && View() == Run(jobs, next)
      ensures ArrivalsOk(jobs, View(), Traffic(generator.queue, ch.msgs))
      ensures forall i :: 0 <= i < |readyQueue.spine| ==>
                readyQueue.spine[i] in old(readyQueue.spine) || fresh(readyQueue.spine[i])
    {
      next := Goes(jobs, n, View());
      Turn(generator);
    }

    method Turn(generator: Generator)
      requires Valid() && generator.ch == ch && !Over(View())
      requires ArrivalsOk(jobs, View(), Traffic(generator.queue, ch.msgs))
      modifies this, readyQueue, readyQueue.spine, ch, generator
      ensures Valid() && View() == Tick(jobs, old(View()))
      ensures ArrivalsOk(jobs, View(), Traffic(generator.queue, ch.msgs))
      ensures forall i :: 0 <= i < |readyQueue.spine| ==>
                readyQueue.spine[i] in old(readyQueue.spine) || fresh(readyQueue.spine[i])
    {
      ghost var g := Traffic(generator.queue, ch.msgs);
      Hears(jobs, View(), g);
      ArrivalsNext(jobs, View(), g);
      generator.Turn(clock);
      var now := clock;
      Finish();
      Advance(generator.queue);
      clock := now + 1;
    }

    /** The main loop, with the generator at work beside it. It ends for every
        input, with every job finished once and fully accounted for. */
    method Execute(generator: Generator)
      requires Valid() && InputOk(jobs) && View() == Boot(jobs)
      requires generator.ch == ch && Traffic(generator.queue, ch.msgs) == Opening(jobs)
      modifies this, readyQueue, readyQueue.spine, ch, generator
      ensures Valid() && Over(View()) && AllAccounted(jobs, finished)
    {
      ghost var n := 0;
      StartsInStep(jobs, View(), Traffic(generator.queue, ch.msgs));
      var empty := readyQueue.IsEmpty();
      while !empty || receiving || running.Some?
        invariant Valid() && n >= 0 && View() == Run(jobs, n) && (empty <==> readyQueue.contents == [])
        invariant ArrivalsOk(jobs, View(), Traffic(generator.queue, ch.msgs))
        invariant forall i :: 0 <= i < |readyQueue.spine| ==>
                    readyQueue.spine[i] in old(readyQueue.spine) || fresh(readyQueue.spine[i])
        decreases Bound(jobs) - n
      {
        n := Step(generator, n);
        empty := readyQueue.IsEmpty();
      }
      RunEnds(jobs, n, View());
    }
  }

  /** Every job has finished, once, with turnaround = runtime + waiting. */
  ghost predicate AllAccounted(jobs: seq<Job>, finished: seq<Pcb>) {
    multiset(JobsOf(finished)) == multiset(jobs) && forall c :: c in finished ==> Accounted(c)
  }

  /** A whole simulation: every job of the input comes out finished, once. */
  method Simulate(jobs: seq<Job>) returns (finished: seq<Pcb>)
    requires InputOk(jobs)
    ensures AllAccounted(jobs, finished)
  {
    var ch := new Channel<Arrival.Msg>();
    var generator := new Generator(jobs, ch);
    var scheduler := new Scheduler(jobs, ch);
    scheduler.Execute(generator);
    finished := scheduler.finished;
  }

  lemma StartsInStep(jobs: seq<Job>, s: State, g: Traffic)
    requires InputOk(jobs) && s == Boot(jobs) && g == Opening(jobs)
    ensures ArrivalsOk(jobs, s, g)
  {
    StartInStep(jobs);
  }

  lemma Hears(jobs: seq<Job>, s: State, g: Traffic)
    requires ArrivalsOk(jobs, s, g)
    ensures var g1 := AfterSends(g, s.clock); s.receiving ==> InStep(jobs, s.clock, s.incoming, g1.queue, g1.msgs)
  {
    if s.receiving {
      GeneratorInStep(jobs, s.clock - 1, s.incoming, g.queue, g.msgs);
    }
  }

  lemma Goes(jobs: seq<Job>, n: nat, s: State) returns (next: nat)
    requires InputOk(jobs) && s == Run(jobs, n) && !Over(s)
    ensures n < Bound(jobs) && next == n + 1 && Run(jobs, next) == Tick(jobs, s)
  {
    if n >= Bound(jobs) {
      Terminates(jobs, n);
    }
    next := n + 1;
  }

  lemma RunEnds(jobs: seq<Job>, n: nat, s: State)
    requires InputOk(jobs) && s == Run(jobs, n) && Over(s)
    ensures AllAccounted(jobs, s.finished)
  {
    RunKeeps(jobs, n, s);
    assert JobsOf(s.ready) == [];
  }
}
