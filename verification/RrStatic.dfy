/** A condition on the input alone under which every run is sound, and what
    the unsound case does to the finish signal. */
module RrStatic {
  import opened Common
  import opened MmuProofs
  import opened RoundRobin
  import opened RrInvariants
  import opened RrTicks
  import opened RrCapacity
  import opened RrEndings
  import opened RrLiveness

  /** At most 22 processes in all, and no process has a request for its last
      tick or for the page at its limit. */
  ghost predicate StaticOk(cfg: Config) {
    && ConfigOk(cfg) && |cfg.jobs| <= 22
    && forall j, r :: j in cfg.jobs && r in Program(cfg, j.id) ==> r.tick != j.runtime - 1 && r.page != j.limit
  }

  /** A request under way comes from a child that has not exited, and is not for
      the page at its limit. */
  predicate MailTimely(s: Kernel) {
    forall i :: 0 <= i < |s.mailbox| ==>
      var r := s.mailbox[i];
      && r.sender in s.children && s.children[r.sender].remaining > 0
      && r.sender in s.mem.pcbs && r.page != s.mem.pcbs[r.sender].limit
  }

  lemma TimelyIsOk(cfg: Config, s: Kernel)
    requires Inv(cfg, s) && MailTimely(s)
    ensures RequestOk(s)
  {
  }

  lemma ChildStepTimely(cfg: Config, s: Kernel)
    requires StaticOk(cfg) && Core(cfg, s, s.clock) && s.mailbox == []
    ensures MailTimely(ChildStep(cfg, s))
  {
    if s.running.Some? {
      var p := s.running.value;
      assert ProcInv(cfg, s, p);
      var c := s.mem.pcbs[p];
      var prog := Program(cfg, p);
      var next := s.children[p].next;
      assert JobOf(c) in cfg.jobs && JobOf(c).id == p by {
        assert MmuProofs.ProcOk(s.mem, p);
      }
      if next < |prog| {
        assert prog[next] in Program(cfg, JobOf(c).id);
      }
    }
  }

  lemma GrantTimely(cfg: Config, s: Kernel, s1: Kernel, s2: Kernel, hi: int)
    requires StaticOk(cfg) && Checked(cfg, s, s1, s2, hi) && s2.mailbox == []
    requires s2.clock == s.clock && (s1.switchUntil == -1 || s1.switchUntil == s.clock + 1)
    ensures MailTimely(Granted(cfg, s2))
  {
    if s2.clock >= s2.switchUntil {
      ChildStepTimely(cfg, s2);
    }
  }

  lemma ScheduleTimely(cfg: Config, s: Kernel, hi: int)
    requires StaticOk(cfg) && Resumable(cfg, s, hi) && RoomAt(Received(cfg, s))
    ensures MailTimely(Schedule(cfg, s))
  {
    RrTicks.ReceivedKeeps(cfg, s, if s.checked then 1 else 0, hi);
    var r := Received(cfg, s);
    if r.clock > 0 {
      RrTicks.AlgoKeeps(cfg, r, hi);
    }
    ScheduleIs(cfg, s);
    var s1 := Decided(cfg, r);
    DecisionChecked(cfg, s, r, s1, hi);
    GrantTimely(cfg, s, s1, ClearCheck(s1, cfg.k), hi);
  }

  lemma StepIsOk(cfg: Config, s: Kernel)
    requires StaticOk(cfg) && Inv(cfg, s) && MailTimely(s) && Spaced(s)
    ensures StepOk(cfg, s)
  {
    TimelyIsOk(cfg, s);
    FewLive(cfg, s);
    StepHasRoom(cfg, s, 1);
  }

  lemma TickTimely(cfg: Config, s: Kernel)
    requires StaticOk(cfg) && Inv(cfg, s) && MailTimely(s) && StepOk(cfg, s)
    ensures MailTimely(Tick(cfg, s))
  {
    if !Finished(s) {
      RrTicks.SettleKeeps(cfg, s, 20);
      var s1 := Settle(cfg, s);
      TickIs(cfg, s);
      AdvanceTimely(cfg, s, s1, 20);
      LateTimely(Advance(cfg, s1), s.clock + 1);
    }
  }

  lemma LateTimely(s: Kernel, next: int)
    requires MailTimely(s)
    ensures MailTimely(LateCheck(s).(clock := next))
  {
    BlockEndFrame(s, s.blocked);
    WakeWalkRecords(s, s.blocked);
  }

  lemma AdvanceTimely(cfg: Config, s: Kernel, s1: Kernel, hi: int)
    requires StaticOk(cfg) && Inv(cfg, s) && Settled(cfg, s, s1, hi) && (Emptied(s) || RoomAt(Received(cfg, s1)))
    ensures MailTimely(Advance(cfg, s1))
  {
    if Emptied(s) {
      EmptiedAdvances(cfg, s, s1, s.clock + 1, hi);
    } else {
      AdvanceIs(cfg, s1);
      SettledResumable(cfg, s, s1, hi);
      ScheduleTimely(cfg, s1, hi);
    }
  }

  lemma {:induction false} TimelyRun(cfg: Config, n: nat, s: Kernel)
    requires StaticOk(cfg) && s == Run(cfg, n)
    ensures Inv(cfg, s) && MailTimely(s) && Spaced(s)
    decreases n
  {
    if n == 0 {
      BootOk(cfg);
    } else {
      var before := RunBack(cfg, n, s);
      TimelyRun(cfg, n - 1, before);
      StepIsOk(cfg, before);
      TickTimely(cfg, before);
      SpacedKeeps(cfg, before);
      RunStep(cfg, before);
    }
  }

  /** Inputs of this kind have only sound runs: the theorems about sound runs
      hold for them with no hypothesis on the run. */
  lemma StaticIsSound(cfg: Config, n: nat)
    requires StaticOk(cfg)
    ensures Sound(cfg, n)
  {
    forall i: nat | i < n ensures SoundAt(cfg, i) {
      var s := Run(cfg, i);
      TimelyRun(cfg, i, s);
      StepIsOk(cfg, s);
    }
  }

  /** ... and can be simulated. */
  lemma StaticRunIsSound(cfg: Config)
    requires StaticOk(cfg)
    ensures SoundRun(cfg)
  {
    forall i: nat | i < Bound(cfg) ensures SoundAt(cfg, i) {
      StaticIsSound(cfg, i + 1);
    }
  }

  /** For such inputs, unconditionally: the scheduler is done within Bound
      ticks, every job has finished exactly once, and its turnaround is its
      runtime plus its waiting time. */
  lemma StaticTerminates(cfg: Config, n: nat)
    requires StaticOk(cfg) && n >= Bound(cfg)
    ensures Finished(Run(cfg, n))
    ensures multiset(FinishedIds(Run(cfg, n).finished)) == multiset(Ids(cfg.jobs))
    ensures forall c :: c in Run(cfg, n).finished ==> HasJob(cfg, c) && Accounted(c)
  {
    StaticIsSound(cfg, n);
    Terminates(cfg, n);
  }

  lemma FewJobsSound(cfg: Config, n: nat)
    requires ConfigOk(cfg) && |cfg.jobs| <= 22 && forall i: nat :: i < n ==> RequestOkAt(cfg, i)
    ensures Sound(cfg, n)
  {
    forall i: nat | i < n ensures FewAt(cfg, i) {
      FewJobsAt(cfg, n, i);
    }
    FewLiveIsSound(cfg, n);
  }

  /** With at most 22 jobs only the requests decide: the run ends well if and
      only if none of them is a fault of an exited child or for the page at the
      limit. */
  lemma FewEndWellExactly(cfg: Config, n: nat)
    requires ConfigOk(cfg) && |cfg.jobs| <= 22 && n >= Bound(cfg)
    ensures EndedWell(cfg, Run(cfg, n)) <==> forall i: nat :: i < n ==> RequestOkAt(cfg, i)
  {
    EndsWellExactly(cfg, n);
    if Sound(cfg, n) {
      forall i: nat | i < n ensures RequestOkAt(cfg, i) {
        assert SoundAt(cfg, i);
      }
    } else if forall i: nat :: i < n ==> RequestOkAt(cfg, i) {
      FewJobsSound(cfg, n);
      assert false;
    }
  }

  // ---- The lost signal -------------------------------------------------------

  /** The finish signal is lost to an empty CPU exactly when the request being
      served is a fault of a child that has already exited. */
  lemma SignalLostExactly(cfg: Config, s: Kernel)
    requires Inv(cfg, s)
    ensures LastTickFault(s) <==> Settle(cfg, s).finishSignal && Settle(cfg, s).running.None?
  {
    if LastTickFault(s) {
      FaultInRange(cfg, s);
      TranslationKeeps(cfg, s);
      ServedRequest(s);
      var s1 := HandleRequests(s);
      assert s1.finishSignal && s1.running.None?;
      BlockEndFrame(s1, s1.blocked);
    } else if LimitAccess(s) {
      TrappedSettles(cfg, s);
    } else {
      RrTicks.SettleKeeps(cfg, s, 20);
    }
  }

  /** After an access outside the page table the signal is still credited to
      the running process. */
  lemma TrappedSettles(cfg: Config, s: Kernel)
    requires Inv(cfg, s) && LimitAccess(s)
    ensures !Settle(cfg, s).finishSignal
  {
    var p := s.running.value;
    assert ProcInv(cfg, s, p);
    if FaultNow(s) {
      FaultInRange(cfg, s);
    }
    ServedRequest(s);
    CheckKeeps(s.mem, p, s.mailbox[0].page, s.mailbox[0].write);
    var s1 := HandleRequests(s);
    BlockEndFrame(s1, s1.blocked);
    WakeWalkRecords(s1, s1.blocked);
  }
}
