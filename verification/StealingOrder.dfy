/** Each CPU of the two serves its processes in the order of their messages, without
    those that are stolen. */
module StealingOrder {
  import opened Common
  import opened Routing
  import opened Stealing
  import opened StealingTime
  import opened StealingService

  // ---- The line of processes --------------------------------------------------------

  function Mailed(inbox: seq<Message>): seq<Data> {
    if inbox == [] then []
    else (if inbox[0].New? then [inbox[0].d] else []) + Mailed(inbox[1..])
  }

  /** Who has started, in the order of starting. */
  function Started(s: Sub): seq<Data> {
    Datas(s.finished) + if s.running.Some? then [ToData(s.running.value)] else []
  }

  function Behind(s: Sub): seq<Data> {
    Datas(s.queue) + Mailed(s.inbox)
  }

  /** All processes of a sub-scheduler. */
  function Line(s: Sub): seq<Data> {
    Started(s) + Behind(s)
  }

  lemma {:induction false} MailedConcat(a: seq<Message>, m: Message)
    ensures Mailed(a + [m]) == Mailed(a) + if m.New? then [m.d] else []
  {
    if a == [] {
      assert a + [m] == [m];
    } else {
      assert (a + [m])[0] == a[0] && (a + [m])[1..] == a[1..] + [m];
      MailedConcat(a[1..], m);
      Join(if a[0].New? then [a[0].d] else [], Mailed(a[1..]), if m.New? then [m.d] else []);
    }
  }

  lemma Join(a: seq<Data>, b: seq<Data>, c: seq<Data>)
    ensures a + (b + c) == (a + b) + c
  {
  }

  lemma {:induction false} DrainLine(s: Sub)
    ensures Behind(Drain(s)) == Behind(s) && Started(Drain(s)) == Started(s)
    decreases |s.inbox|
  {
    if s.inbox != [] && s.inbox[0].New? {
      var d := s.inbox[0].d;
      DrainLine(s.(inbox := s.inbox[1..], queue := s.queue + [FromData(d)]));
      DatasAppend(s.queue, d);
      Regroup(Datas(s.queue), d, Mailed(s.inbox[1..]));
    }
  }

  lemma FinishLine(s: Sub, now: int)
    ensures Behind(Finish(s, now)) == Behind(s) && Started(Finish(s, now)) == Started(s)
  {
    if s.running.Some? && s.shm <= 0 {
      var c := s.running.value.(finish := now, remaining := 0, state := Done);
      assert Datas(s.finished + [c]) == Datas(s.finished) + [ToData(s.running.value)];
    }
  }

  /** A start takes the first of those behind. */
  lemma DispatchLine(s: Sub, now: int)
    ensures Line(Dispatch(s, now)) == Line(s) && Started(s) <= Started(Dispatch(s, now))
  {
    var s' := Dispatch(s, now);
    if s' != s {
      assert Datas(s.queue) == [ToData(s.queue[0])] + Datas(s.queue[1..]);
      assert Started(s) == Datas(s.finished) && Started(s') == Datas(s.finished) + [ToData(s.queue[0])];
    }
  }

  lemma TickLine(s: Sub, now: int)
    ensures Line(Tick(s, now)) == Line(s) && Started(s) <= Started(Tick(s, now))
  {
    DrainLine(s);
    FinishLine(Drain(s), now);
    var s1 := Finish(Drain(s), now);
    DrainLine(s1);
    var s2 := Unstall(Drain(s1), now);
    assert Line(s2) == Line(s) && Started(s2) == Started(s);
    DispatchLine(s2, now);
    GrantLine(Dispatch(s2, now));
  }

  lemma GrantLine(s: Sub)
    ensures Line(Grant(s)) == Line(s) && Started(Grant(s)) == Started(s)
  {
  }

  lemma StallLine(s: Sub, now: int)
    ensures Line(StallSignal(s, now)) == Line(s) && Started(StallSignal(s, now)) == Started(s)
  {
    var s1 := if !s.stalled && s.running.Some? && s.running.value.forked
              then s.(running := Some(s.running.value.(lastStopped := now, remaining := s.shm, state := Waiting)))
              else s;
    DrainLine(s1.(stalled := true));
  }

  /** A steal takes one out of the line, behind those that have started. */
  lemma StealLine(s: Sub) returns (k: nat)
    ensures var (s', reply) := StealHandler(s);
      && Started(s') == Started(s)
      && match reply
         case Nothing => Line(s') == Line(s)
         case Stolen(d) => |Started(s)| <= k < |Line(s)| && Line(s)[k] == d && Line(s') == RemoveAt(Line(s), k)
  {
    DrainLine(s);
    k := 0;
    var s1 := Drain(s);
    if s1.queue != [] {
      var last := |s1.queue| - 1;
      k := |Started(s)| + last;
      assert Datas(s1.queue) == Datas(s1.queue[..last]) + [ToData(s1.queue[last])];
      OutOfLine(Started(s), Datas(s1.queue[..last]), ToData(s1.queue[last]), Mailed(s1.inbox));
    }
  }

  lemma OutOfLine(a: seq<Data>, b: seq<Data>, d: Data, c: seq<Data>)
    ensures var whole := a + (b + [d] + c);
      whole[|a| + |b|] == d && a + (b + c) == RemoveAt(whole, |a| + |b|)
  {
  }

  // ---- In the order of the messages ---------------------------------------------------

  /** What an event adds to the processes a sub-scheduler was sent ... */
  function Came(e: Event): seq<Data> {
    if e.Arrives? && e.m.New? then [e.m.d] else []
  }

  /** ... and to those that were stolen from it. */
  function Left(c: Cpu, e: Event): seq<Data> {
    if e.Steals? && StealHandler(c.sub).1.Stolen? then [StealHandler(c.sub).1.d] else []
  }

  function Arrived(events: seq<Event>): seq<Data> {
    if events == [] then [] else Arrived(events[..|events| - 1]) + Came(events[|events| - 1])
  }

  function Lost(events: seq<Event>): seq<Data> {
    if events == [] then []
    else Lost(events[..|events| - 1]) + Left(CpuAfter(events[..|events| - 1]), events[|events| - 1])
  }

  ghost predicate InLine(line: seq<Data>, arrived: seq<Data>, lost: seq<Data>) {
    Among(line, arrived) && multiset(line) + multiset(lost) == multiset(arrived)
  }

  lemma LostOne(line: seq<Data>, arrived: seq<Data>, lost: seq<Data>, k: nat)
    requires InLine(line, arrived, lost) && k < |line|
    ensures InLine(RemoveAt(line, k), arrived, lost + [line[k]])
  {
    AmongLess(line, arrived, k);
    assert line == line[..k] + [line[k]] + line[k + 1..];
  }

  lemma CameOne(line: seq<Data>, arrived: seq<Data>, lost: seq<Data>, d: Data)
    requires InLine(line, arrived, lost)
    ensures InLine(line + [d], arrived + [d], lost)
  {
    AmongMore(line, arrived, d);
  }

  lemma EventInOrder(c: Cpu, e: Event, arrived: seq<Data>, lost: seq<Data>)
    requires InLine(Line(c.sub), arrived, lost)
    ensures InLine(Line(Happen(c, e).sub), arrived + Came(e), lost + Left(c, e))
  {
    match e {
      case Arrives(m) =>
        ArrivalInOrder(c, m, arrived, lost);
        NobodyMore(Line(Happen(c, e).sub), arrived + Came(e), [], lost, Left(c, e));
      case Steals =>
        StealInOrder(c, arrived, lost);
        NobodyMore(Line(Happen(c, e).sub), arrived, Came(e), lost + Left(c, e), []);
      case _ =>
        SameLine(c, e);
        NobodyMore(Line(Happen(c, e).sub), arrived, Came(e), lost, Left(c, e));
    }
  }

  lemma NobodyMore(line: seq<Data>, arrived: seq<Data>, came: seq<Data>, lost: seq<Data>, left: seq<Data>)
    requires InLine(line, arrived, lost) && came == [] && left == []
    ensures InLine(line, arrived + came, lost) && InLine(line, arrived, lost + left)
    ensures InLine(line, arrived + came, lost + left)
  {
    assert arrived + [] == arrived && lost + [] == lost;
  }

  lemma SameLine(c: Cpu, e: Event)
    requires e.Stalls? || e.Loops? || e.Passes?
    ensures Line(Happen(c, e).sub) == Line(c.sub) && Came(e) == [] && Left(c, e) == []
  {
    if e.Stalls? {
      StallLine(c.sub, c.clock);
    } else if e.Loops? {
      TickLine(c.sub, c.clock);
    }
  }

  lemma ArrivalInOrder(c: Cpu, m: Message, arrived: seq<Data>, lost: seq<Data>)
    requires InLine(Line(c.sub), arrived, lost)
    ensures InLine(Line(Happen(c, Arrives(m)).sub), arrived + Came(Arrives(m)), lost)
  {
    MailedConcat(c.sub.inbox, m);
    ArriveLine(c.sub, m);
    if m.New? {
      CameOne(Line(c.sub), arrived, lost, m.d);
    } else {
      assert arrived + [] == arrived && Line(c.sub) + [] == Line(c.sub);
    }
  }

  lemma StealInOrder(c: Cpu, arrived: seq<Data>, lost: seq<Data>)
    requires InLine(Line(c.sub), arrived, lost)
    ensures InLine(Line(StealHandler(c.sub).0), arrived, lost + Left(c, Steals))
  {
    var k := StealLine(c.sub);
    if StealHandler(c.sub).1.Stolen? {
      LostOne(Line(c.sub), arrived, lost, k);
    } else {
      assert lost + [] == lost;
    }
  }

  /** After any sequence of events: the processes of the CPU, those that have
      started first and in the order of their starts, are those that it was sent, in
      the order of the messages, without the stolen ones. */
  lemma {:induction false} ServedInOrder(events: seq<Event>)
    ensures InLine(Line(CpuAfter(events).sub), Arrived(events), Lost(events))
  {
    if events != [] {
      var before, e := events[..|events| - 1], events[|events| - 1];
      ServedInOrder(before);
      EventInOrder(CpuAfter(before), e, Arrived(before), Lost(before));
    }
  }

  lemma ArriveLine(s: Sub, m: Message)
    requires Mailed(s.inbox + [m]) == Mailed(s.inbox) + if m.New? then [m.d] else []
    ensures Line(s.(inbox := s.inbox + [m])) == Line(s) + if m.New? then [m.d] else []
  {
  }

  /** What has started stays first in line, in its order. */
  lemma StartsAreFinal(events: seq<Event>, e: Event)
    ensures Started(CpuAfter(events).sub) <= Started(CpuAfter(events + [e]).sub)
  {
    assert (events + [e])[..|events|] == events;
    var s := CpuAfter(events).sub;
    match e {
      case Arrives(m) =>
      case Steals => var k := StealLine(s);
      case Stalls => StallLine(s, CpuAfter(events).clock);
      case Loops => TickLine(s, CpuAfter(events).clock);
      case Passes =>
    }
  }
  /** Nobody is overtaken: when a process has started, every process that came
      before it has started before, or was stolen. */
  lemma NobodyOvertaken(events: seq<Event>, i: nat, j: nat)
    requires Distinct(Arrived(events)) && i < j < |Arrived(events)|
    requires Arrived(events)[j] in Started(CpuAfter(events).sub)
    ensures Arrived(events)[i] in Started(CpuAfter(events).sub) || Arrived(events)[i] in Lost(events)
  {
    ServedInOrder(events);
    var s := CpuAfter(events).sub;
    StartedBefore(Started(s), Behind(s), Arrived(events), Lost(events), i, j);
  }

  lemma StartedBefore(started: seq<Data>, behind: seq<Data>, arrived: seq<Data>, lost: seq<Data>, i: nat, j: nat)
    requires InLine(started + behind, arrived, lost) && Distinct(arrived) && i < j < |arrived| && arrived[j] in started
    ensures arrived[i] in started || arrived[i] in lost
  {
    if arrived[i] !in lost {
      var line := started + behind;
      assert arrived[i] in multiset(arrived);
      assert arrived[i] in multiset(line);
      assert arrived[i] in line;
      var k :| 0 <= k < |started| && started[k] == arrived[j];
      if arrived[i] !in started {
        var l :| 0 <= l < |line| && line[l] == arrived[i];
        AmongOrdered(line, arrived, k, l, j, i);
      }
    }
  }

  /** Positions are kept in order. */
  lemma {:induction false} AmongOrdered(a: seq<Data>, b: seq<Data>, k: nat, l: nat, k': nat, l': nat)
    requires Among(a, b) && Distinct(b) && k < l < |a| && k' < |b| && l' < |b| && a[k] == b[k'] && a[l] == b[l']
    ensures k' < l'
    decreases |b|
  {
    var a0, b0 := a[..|a| - 1], b[..|b| - 1];
    if a[|a| - 1] == b[|b| - 1] && Among(a0, b0) {
      AmongElements(a0, b0);
      assert a0[k] == a[k];
      assert a[k] in b0;
      if l == |a| - 1 {
        assert l' == |b| - 1;
        var m :| 0 <= m < |b0| && b0[m] == a[k];
        assert b[m] == b[k'];
      } else {
        assert a0[l] == a[l];
        assert a[l] in b0;
        AmongOrdered(a0, b0, k, l, k', l');
      }
    } else {
      AmongElements(a, b0);
      assert a[k] in b0 && a[l] in b0;
      AmongOrdered(a, b0, k, l, k', l');
    }
  }
}
