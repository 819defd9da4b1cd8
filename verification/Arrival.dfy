/** How jobs get from the generator to a scheduler: one message queue that is
    read lowest type first, tick sentinels, and a final message. */
module Arrival {
  import opened Common

  /** Message types 1, 2 and 5. */
  datatype Msg = Process(j: Job) | Sentinel(t: int) | End

  function Type(m: Msg): nat {
    match m case Process(_) => 1 case Sentinel(_) => 2 case End => 5
  }

  /** msgrcv with msgtyp -5: the first message of the lowest type. */
  function Lowest(msgs: seq<Msg>): (k: nat)
    requires msgs != []
    ensures k < |msgs|
    ensures forall i :: 0 <= i < |msgs| ==> Type(msgs[k]) <= Type(msgs[i])
    ensures forall i :: 0 <= i < k ==> Type(msgs[k]) < Type(msgs[i])
  {
    if |msgs| == 1 then 0
    else
      var rest := 1 + Lowest(msgs[1..]);
      if Type(msgs[0]) <= Type(msgs[rest]) then 0 else rest
  }

  /** The processes under way, in the order they were sent. */
  function Processes(msgs: seq<Msg>): seq<Job> {
    if msgs == [] then []
    else (if msgs[0].Process? then [msgs[0].j] else []) + Processes(msgs[1..])
  }

  lemma {:induction false} ProcessesConcat(a: seq<Msg>, b: seq<Msg>)
    ensures Processes(a + b) == Processes(a) + Processes(b)
  {
    if a == [] {
      assert a + b == b;
    } else {
      assert (a + b)[0] == a[0] && (a + b)[1..] == a[1..] + b;
      ProcessesConcat(a[1..], b);
      var first := if a[0].Process? then [a[0].j] else [];
      assert first + (Processes(a[1..]) + Processes(b)) == (first + Processes(a[1..])) + Processes(b);
    }
  }

  lemma {:induction false} NoProcesses(msgs: seq<Msg>)
    requires forall i :: 0 <= i < |msgs| ==> !msgs[i].Process?
    ensures Processes(msgs) == []
  {
    if msgs != [] {
      NoProcesses(msgs[1..]);
    }
  }

  lemma ProcessesAround(a: seq<Msg>, m: Msg, b: seq<Msg>)
    ensures Processes(a + [m] + b) == Processes(a) + (if m.Process? then [m.j] else []) + Processes(b)
    ensures Processes(a + b) == Processes(a) + Processes(b)
  {
    ProcessesConcat(a + [m], b);
    ProcessesConcat(a, [m]);
    ProcessesConcat(a, b);
  }

  /** What the lowest-type-first order means for the processes under way: the
      oldest is taken, and anything else only when there is none. */
  lemma TakeLowest(msgs: seq<Msg>)
    requires msgs != []
    ensures var k := Lowest(msgs); var rest := RemoveAt(msgs, k);
      && (msgs[k].Process? ==> Processes(msgs) == [msgs[k].j] + Processes(rest))
      && (!msgs[k].Process? ==> Processes(msgs) == [] && Processes(rest) == [])
  {
    var k := Lowest(msgs);
    var a, m, b := msgs[..k], msgs[k], msgs[k + 1..];
    assert msgs == a + [m] + b;
    TakenFrom(a, m, b);
  }

  lemma TakenFrom(a: seq<Msg>, m: Msg, b: seq<Msg>)
    requires forall i :: 0 <= i < |a| ==> Type(m) < Type(a[i])
    requires forall i :: 0 <= i < |b| ==> Type(m) <= Type(b[i])
    ensures m.Process? ==> Processes(a + [m] + b) == [m.j] + Processes(a + b)
    ensures !m.Process? ==> Processes(a + [m] + b) == [] && Processes(a + b) == []
  {
    if m.Process? {
      FirstProcess(a, m, b);
    } else {
      NoProcesses(a + [m] + b);
      NoProcesses(a + b);
    }
  }

  lemma FirstProcess(a: seq<Msg>, m: Msg, b: seq<Msg>)
    requires m.Process? && forall i :: 0 <= i < |a| ==> !a[i].Process?
    ensures Processes(a + [m] + b) == [m.j] + Processes(a + b)
  {
    NoProcesses(a);
    ProcessesAround(a, m, b);
    assert [] + [m.j] + Processes(b) == [m.j] + ([] + Processes(b));
  }

  // ---- Generator and scheduler, interleaved in any way -------------------------

  datatype Phase = Between(last: int) | Sending(t: int) | Over

  /** How a call of receiveProcesses returned. */
  datatype Return = OnSentinel(t: int) | OnEnd

  /** `queue` is the generator's; `listening` the tick of the call in progress. */
  datatype Link = Link(
    queue: seq<Job>, phase: Phase, msgs: seq<Msg>,
    admitted: seq<Job>, listening: Option<int>, receiving: bool, returned: Option<Return>)

  function Start(jobs: seq<Job>): Link {
    Link(jobs, Between(-1), [], [], None, true, None)
  }

  datatype Step = NewTick(t: int) | SendProcess | SendSentinel | SendEnd | Call(now: int) | Take

  predicate Due(s: Link, t: int) {
    s.queue != [] && s.queue[0].arrival <= t
  }

  predicate Enabled(s: Link, step: Step) {
    match step
    case NewTick(t) => s.phase.Between? && s.queue != [] && t != s.phase.last
    case SendProcess => s.phase.Sending? && Due(s, s.phase.t)
    case SendSentinel => s.phase.Sending? && !Due(s, s.phase.t)
    case SendEnd => s.phase.Between? && s.queue == []
    case Call(_) => s.receiving && s.listening.None?
    case Take => s.listening.Some? && s.msgs != []
  }

  function Perform(s: Link, step: Step): Link
    requires Enabled(s, step)
  {
    match step
    case NewTick(t) => s.(phase := Sending(t))
    case SendProcess => s.(msgs := s.msgs + [Process(s.queue[0])], queue := s.queue[1..])
    case SendSentinel => s.(msgs := s.msgs + [Sentinel(s.phase.t)], phase := Between(s.phase.t))
    case SendEnd => s.(msgs := s.msgs + [End], phase := Over)
    case Call(now) => s.(listening := Some(now), returned := None)
    case Take => Received(s.(msgs := RemoveAt(s.msgs, Lowest(s.msgs))), s.msgs[Lowest(s.msgs)])
  }

  /** One turn of the loop in receiveProcesses. */
  function Received(s: Link, m: Msg): Link
    requires s.listening.Some?
  {
    match m
    case Process(j) => s.(admitted := s.admitted + [j])
    case Sentinel(t) => if t >= s.listening.value then s.(listening := None, returned := Some(OnSentinel(t))) else s
    case End => s.(listening := None, receiving := false, returned := Some(OnEnd))
  }

  ghost predicate ByArrival(jobs: seq<Job>) {
    forall i, j :: 0 <= i < j < |jobs| ==> jobs[i].arrival <= jobs[j].arrival
  }

  /** Everything up to arrival time t has left the generator. */
  predicate SentUpTo(s: Link, t: int) {
    s.queue == [] || s.queue[0].arrival > t
  }

  ghost predicate Inv(jobs: seq<Job>, s: Link) {
    && s.admitted + Processes(s.msgs) + s.queue == jobs
    && (forall m :: m in s.msgs && m.Sentinel? ==> SentUpTo(s, m.t))
    && (s.phase.Over? ==> s.queue == [])
    && ((exists m :: m in s.msgs && m.End?) || !s.receiving ==> s.phase.Over?)
    && (match s.returned
        case Some(OnSentinel(t)) => forall i :: 0 <= i < |jobs| && jobs[i].arrival <= t ==> i < |s.admitted|
        case Some(OnEnd) => s.admitted == jobs
        case None => true)
    && (!s.receiving ==> s.admitted == jobs)
    && (!s.receiving <==> s.returned == Some(OnEnd)) && (s.listening.Some? ==> s.receiving && s.returned.None?)
  }

  lemma SendKeeps(jobs: seq<Job>, s: Link)
    requires ByArrival(jobs) && Inv(jobs, s) && Enabled(s, SendProcess)
    ensures Inv(jobs, Perform(s, SendProcess))
  {
    var m := Process(s.queue[0]);
    ProcessesConcat(s.msgs, [m]);
    assert Processes([m]) == [s.queue[0]];
    assert s.queue == [s.queue[0]] + s.queue[1..];
    var k := |s.admitted + Processes(s.msgs)|;
    assert jobs[k] == s.queue[0];
    assert |s.queue| > 1 ==> jobs[k + 1] == s.queue[1];
  }

  lemma SentinelKeeps(jobs: seq<Job>, s: Link)
    requires Inv(jobs, s) && (Enabled(s, SendSentinel) || Enabled(s, SendEnd))
    ensures Enabled(s, SendSentinel) ==> Inv(jobs, Perform(s, SendSentinel))
    ensures Enabled(s, SendEnd) ==> Inv(jobs, Perform(s, SendEnd))
  {
    var m := if s.phase.Sending? then Sentinel(s.phase.t) else End;
    ProcessesConcat(s.msgs, [m]);
    assert Processes([m]) == [];
  }

  lemma TakeKeeps(jobs: seq<Job>, s: Link)
    requires ByArrival(jobs) && Inv(jobs, s) && Enabled(s, Take)
    ensures Inv(jobs, Perform(s, Take))
  {
    TakeLowest(s.msgs);
    var k := Lowest(s.msgs);
    TakenKeeps(jobs, s, s.msgs[k], RemoveAt(s.msgs, k));
  }

  lemma TakenKeeps(jobs: seq<Job>, s: Link, m: Msg, rest: seq<Msg>)
    requires ByArrival(jobs) && Inv(jobs, s) && s.listening.Some? && m in s.msgs
    requires forall x :: x in rest ==> x in s.msgs
    requires m.Process? ==> Processes(s.msgs) == [m.j] + Processes(rest)
    requires !m.Process? ==> Processes(s.msgs) == [] && Processes(rest) == []
    ensures Inv(jobs, Received(s.(msgs := rest), m))
  {
    match m {
      case Process(j) => Shift(s.admitted, j, Processes(rest), s.queue);
      case Sentinel(t) =>
        Nothing(s.admitted, s.queue);
        Covered(jobs, s.admitted, s.queue, t);
      case End => Nothing(s.admitted, s.queue);
    }
  }

  lemma Shift(a: seq<Job>, j: Job, b: seq<Job>, c: seq<Job>)
    ensures (a + [j]) + b + c == a + ([j] + b) + c
  {
    assert (a + [j]) + b == a + ([j] + b);
  }

  lemma Nothing(a: seq<Job>, c: seq<Job>)
    ensures a + [] + c == a + c && a + [] + [] == a && a + [] == a
  {
  }

  lemma Covered(jobs: seq<Job>, admitted: seq<Job>, queue: seq<Job>, t: int)
    requires ByArrival(jobs) && admitted + queue == jobs && (queue == [] || queue[0].arrival > t)
    ensures forall i :: 0 <= i < |jobs| && jobs[i].arrival <= t ==> i < |admitted|
  {
    if queue != [] {
      assert jobs[|admitted|] == queue[0];
    }
  }

  lemma StepKeeps(jobs: seq<Job>, s: Link, step: Step)
    requires ByArrival(jobs) && Inv(jobs, s) && Enabled(s, step)
    ensures Inv(jobs, Perform(s, step))
  {
    match step {
      case NewTick(_) =>
      case SendProcess => SendKeeps(jobs, s);
      case SendSentinel => SentinelKeeps(jobs, s);
      case SendEnd => SentinelKeeps(jobs, s);
      case Call(_) =>
      case Take => TakeKeeps(jobs, s);
    }
  }

  /** The states a run of generator and scheduler goes through. */
  ghost predicate IsRun(jobs: seq<Job>, run: seq<Link>, steps: seq<Step>) {
    && |run| == |steps| + 1 && run[0] == Start(jobs)
    && forall i :: 0 <= i < |steps| ==> Enabled(run[i], steps[i]) && run[i + 1] == Perform(run[i], steps[i])
  }

  lemma {:induction false} RunKeeps(jobs: seq<Job>, run: seq<Link>, steps: seq<Step>, i: nat)
    requires ByArrival(jobs) && IsRun(jobs, run, steps) && i < |run|
    ensures Inv(jobs, run[i])
    decreases i
  {
    if i == 0 {
      assert [] + [] + jobs == jobs;
    } else {
      RunKeeps(jobs, run, steps, i - 1);
      StepKeeps(jobs, run[i - 1], steps[i - 1]);
    }
  }

  /** For an input in order of arrival, however generator and scheduler
      interleave: admissions are a prefix of the input in its order; a call that
      returns on sentinel t has admitted every job that arrives up to t; and
      once the final message was received every job has been admitted once. */
  lemma AdmissionsArePrefix(jobs: seq<Job>, run: seq<Link>, steps: seq<Step>, i: nat)
    requires ByArrival(jobs) && IsRun(jobs, run, steps) && i < |run|
    ensures var s := run[i];
      && s.admitted <= jobs
      && (s.returned.Some? && s.returned.value.OnSentinel? ==>
            forall k :: 0 <= k < |jobs| && jobs[k].arrival <= s.returned.value.t ==> k < |s.admitted|)
      && (!s.receiving ==> s.admitted == jobs)
  {
    RunKeeps(jobs, run, steps, i);
    var s := run[i];
    assert s.admitted == jobs[..|s.admitted|];
  }
  // ---- Every message sent is under way or was taken ------------------------------

  /** What the generator is to send in a step ... */
  function Utters(s: Link, step: Step): seq<Msg>
    requires Enabled(s, step)
  {
    match step
    case SendProcess => [Process(s.queue[0])]
    case SendSentinel => [Sentinel(s.phase.t)]
    case SendEnd => [End]
    case _ => []
  }

  /** ... and what the scheduler takes. */
  function Hears(s: Link, step: Step): seq<Msg>
    requires Enabled(s, step)
  {
    if step.Take? then [s.msgs[Lowest(s.msgs)]] else []
  }

  ghost function SentSoFar(jobs: seq<Job>, run: seq<Link>, steps: seq<Step>, i: nat): seq<Msg>
    requires IsRun(jobs, run, steps) && i < |run|
  {
    if i == 0 then [] else SentSoFar(jobs, run, steps, i - 1) + Utters(run[i - 1], steps[i - 1])
  }

  ghost function HeardSoFar(jobs: seq<Job>, run: seq<Link>, steps: seq<Step>, i: nat): seq<Msg>
    requires IsRun(jobs, run, steps) && i < |run|
  {
    if i == 0 then [] else HeardSoFar(jobs, run, steps, i - 1) + Hears(run[i - 1], steps[i - 1])
  }

  /** What is under way: of what was sent, in that order, what was not taken. */
  ghost predicate InTransit(msgs: seq<Msg>, sent: seq<Msg>, heard: seq<Msg>) {
    Among(msgs, sent) && multiset(msgs) + multiset(heard) == multiset(sent)
  }

  lemma StepInTransit(s: Link, step: Step, sent: seq<Msg>, heard: seq<Msg>)
    requires Enabled(s, step) && InTransit(s.msgs, sent, heard)
    ensures InTransit(Perform(s, step).msgs, sent + Utters(s, step), heard + Hears(s, step))
  {
    assert sent + [] == sent && heard + [] == heard;
    if step.Take? {
      Taken(s.msgs, sent, heard, Lowest(s.msgs));
    } else if step.SendProcess? || step.SendSentinel? || step.SendEnd? {
      Uttered(s.msgs, sent, heard, Utters(s, step)[0]);
    }
  }

  lemma Taken(msgs: seq<Msg>, sent: seq<Msg>, heard: seq<Msg>, k: nat)
    requires InTransit(msgs, sent, heard) && k < |msgs|
    ensures InTransit(RemoveAt(msgs, k), sent, heard + [msgs[k]])
  {
    AmongLess(msgs, sent, k);
    assert msgs == msgs[..k] + [msgs[k]] + msgs[k + 1..];
  }

  lemma Uttered(msgs: seq<Msg>, sent: seq<Msg>, heard: seq<Msg>, m: Msg)
    requires InTransit(msgs, sent, heard)
    ensures InTransit(msgs + [m], sent + [m], heard)
  {
    AmongMore(msgs, sent, m);
  }

  /** However generator and scheduler interleave, no message is lost, duplicated or
      overtaken by one of its type. */
  lemma {:induction false} MessagesConserved(jobs: seq<Job>, run: seq<Link>, steps: seq<Step>, i: nat)
    requires IsRun(jobs, run, steps) && i < |run|
    ensures InTransit(run[i].msgs, SentSoFar(jobs, run, steps, i), HeardSoFar(jobs, run, steps, i))
    decreases i
  {
    if i > 0 {
      MessagesConserved(jobs, run, steps, i - 1);
      StepInTransit(run[i - 1], steps[i - 1], SentSoFar(jobs, run, steps, i - 1), HeardSoFar(jobs, run, steps, i - 1));
    }
  }

  /** A call goes on with the next message unless it was the final one or a sentinel
      of its tick or later; then it returns on that. */
  lemma CallReturnsExactly(s: Link)
    requires Enabled(s, Take)
    ensures var m := s.msgs[Lowest(s.msgs)]; var s' := Perform(s, Take);
      match m
      case Process(j) => s'.listening == s.listening && s'.admitted == s.admitted + [j]
      case Sentinel(t) =>
        s'.admitted == s.admitted
        && if t < s.listening.value then s'.listening == s.listening
           else s'.listening.None? && s'.returned == Some(OnSentinel(t)) && s'.receiving == s.receiving
      case End => s'.listening.None? && s'.returned == Some(OnEnd) && !s'.receiving && s'.admitted == s.admitted
  {
  }

  /** The generator can always go on until it has sent everything: with the next
      tick, with the next due job, with the sentinel, or with the final message; and
      it does at most one of these. */
  lemma GeneratorGoesOn(s: Link)
    ensures match s.phase
            case Between(last) =>
              if s.queue == [] then Enabled(s, SendEnd) && Perform(s, SendEnd).phase.Over?
              else Enabled(s, NewTick(last + 1)) && !Enabled(s, NewTick(last)) && !Enabled(s, SendEnd)
            case Sending(t) =>
              if s.queue != [] && s.queue[0].arrival <= t
              then Enabled(s, SendProcess) && !Enabled(s, SendSentinel) && Perform(s, SendProcess).phase == s.phase
              else Enabled(s, SendSentinel) && !Enabled(s, SendProcess) && Perform(s, SendSentinel).phase == Between(t)
            case Over => !Enabled(s, SendProcess) && !Enabled(s, SendSentinel) && !Enabled(s, SendEnd)
  {
  }
}
