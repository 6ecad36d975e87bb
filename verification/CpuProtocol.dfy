/** What the vCPU protocol promises in every run: the pause barrier, no lost wakeups,
    PSCI power alternation, and no lost fault. */
module CpuProtocol {
  import opened Wrappers
  import opened Cpus

  // ---------------------------------------------------------------------------
  // Sleepers

  /** A sleeping worker's own wait condition still holds. */
  ghost predicate SleepOk(s: Sys, i: nat)
    requires s.Shaped() && i < |s.pc|
  {
    i in s.asleep ==>
      match s.pc[i]
      case Waiting => s.cell.MustWait(i)
      case IoWaiting => s.cell.MustHold()
      case Draining => s.cell.AnyRunning()
      case _ => false
  }

  /** No thread sleeps once its wait condition is false, not even the two waits that
      also have a timeout. */
  ghost predicate SleepInv(s: Sys) {
    && s.Shaped()
    && (forall i :: 0 <= i < |s.pc| ==> SleepOk(s, i))
    && (s.vmmAsleep ==> s.vmm == Pausing && s.cell.AnyRunning() && !s.cell.stop)
  }

  lemma LaunchedRuns(c: Cell, i: nat)
    requires i < |c.running|
    ensures c.Launched(i).AnyRunning()
  {
    assert c.Launched(i).running[i];
  }

  lemma DecideKeepsSleepInv(s: Sys, i: nat, bootOk: bool)
    requires SleepInv(s) && i < |s.pc| && i !in s.asleep
    ensures SleepInv(Decide(s, i, bootOk))
  {
    var t := Decide(s, i, bootOk);
    LaunchedRuns(s.cell, i);
    LaunchedRuns(s.cell.Powered(i, On), i);
    forall j | 0 <= j < |t.pc| ensures SleepOk(t, j) {
      assert SleepOk(s, j);
    }
  }

  lemma LaunchKeepsSleepInv(s: Sys, e: Step)
    requires SleepInv(s) && Enabled(s, e) && Launches(e)
    ensures SleepInv(Apply(s, e))
  {
    if e.EnterLoop? {
      DecideKeepsSleepInv(s.(cell := s.cell.Parked(e.i)).Notified(), e.i, e.bootOk);
    } else {
      assert SleepOk(s, e.i);
      if e.Recheck? {
        DecideKeepsSleepInv(s, e.i, e.bootOk);
      } else {
        ResumeKeepsSleepInv(s, e.i);
      }
    }
  }

  lemma ResumeKeepsSleepInv(s: Sys, i: nat)
    requires SleepInv(s) && i < |s.pc| && i !in s.asleep
    ensures SleepInv(ResumeIo(s, i))
  {
    var t := ResumeIo(s, i);
    LaunchedRuns(s.cell, i);
    forall j | 0 <= j < |t.pc| ensures SleepOk(t, j) {
      assert SleepOk(s, j);
    }
  }

  lemma OtherKeepsSleepInv(s: Sys, e: Step)
    requires SleepInv(s) && Enabled(s, e) && !Launches(e)
    ensures SleepInv(Apply(s, e))
  {
    var t := Apply(s, e);
    forall j | 0 <= j < |t.pc| ensures SleepOk(t, j) {
      assert SleepOk(s, j);
    }
  }

  // ---------------------------------------------------------------------------
  // Power

  /** The power state after a list of power events, if each was possible in its turn:
      CPU_ON when off, then a boot with that call's entry and context, then CPU_OFF. */
  function Phase(h: seq<Psci>): Option<Power> {
    if h == [] then Some(Off)
    else match (Phase(h[..|h| - 1]), h[|h| - 1])
         case (Some(Off), PowerOn(entry, context)) => Some(Pending(entry, context))
         case (Some(Pending(entry, context)), Boot(e, c)) =>
           if e == entry && c == context then Some(On) else None
         case (Some(On), PowerOff) => Some(Off)
         case _ => None
  }

  lemma PhaseAppend(h: seq<Psci>, e: Psci)
    ensures Phase(h + [e]) == match (Phase(h), e)
                              case (Some(Off), PowerOn(entry, context)) => Some(Pending(entry, context))
                              case (Some(Pending(entry, context)), Boot(x, c)) =>
                                if x == entry && c == context then Some(On) else None
                              case (Some(On), PowerOff) => Some(Off)
                              case _ => None
  {
    assert (h + [e])[..|h|] == h;
  }

  /** Has entered the guest and not been turned off since. */
  predicate NeedsPower(p: Pc) {
    OnGuest(p) || p in {AwaitReply, Replied, IoWaiting}
  }

  ghost predicate PowerOk(s: Sys, i: nat)
    requires s.Shaped() && i < |s.pc|
  {
    && Phase(s.history[i]) == Some(s.cell.power[i])
    && (NeedsPower(s.pc[i]) ==> s.cell.power[i] == On)
    && (!s.cell.started ==> s.cell.power[i] == Off)
  }

  ghost predicate PowerInv(s: Sys) {
    s.Shaped() && forall i :: 0 <= i < |s.pc| ==> PowerOk(s, i)
  }

  lemma DecideKeepsPowerInv(s: Sys, i: nat, bootOk: bool)
    requires PowerInv(s) && i < |s.pc|
    ensures PowerInv(Decide(s, i, bootOk))
  {
    var t := Decide(s, i, bootOk);
    assert PowerOk(s, i);
    if s.cell.power[i].Pending? {
      PhaseAppend(s.history[i], Boot(s.cell.power[i].entry, s.cell.power[i].context));
    }
    forall j | 0 <= j < |t.pc| ensures PowerOk(t, j) {
      assert PowerOk(s, j);
    }
  }

  lemma LaunchKeepsPowerInv(s: Sys, e: Step)
    requires PowerInv(s) && Enabled(s, e) && Launches(e)
    ensures PowerInv(Apply(s, e))
  {
    if e.EnterLoop? {
      var parked := s.(cell := s.cell.Parked(e.i)).Notified();
      forall j | 0 <= j < |s.pc| ensures PowerOk(parked, j) {
        assert PowerOk(s, j);
      }
      DecideKeepsPowerInv(parked, e.i, e.bootOk);
    } else if e.Recheck? {
      DecideKeepsPowerInv(s, e.i, e.bootOk);
    } else {
      var t := Apply(s, e);
      forall j | 0 <= j < |t.pc| ensures PowerOk(t, j) {
        assert PowerOk(s, j);
      }
    }
  }

  lemma PsciKeepsPowerInv(s: Sys, e: Step)
    requires PowerInv(s) && Enabled(s, e) && (e.TurnOn? || e.TurnOff? || e.Start?)
    ensures PowerInv(Apply(s, e))
  {
    var t := Apply(s, e);
    forall j | 0 <= j < |t.pc| ensures PowerOk(t, j) {
      assert PowerOk(s, j);
      if e.TurnOff? {
        PhaseAppend(s.history[j], PowerOff);
        assert PowerOk(s, e.i);
      } else {
        PhaseAppend(s.history[j], PowerOn(e.entry, e.context));
        if e.TurnOn? {
          assert PowerOk(s, e.i);
        }
      }
    }
  }

  lemma OtherKeepsPowerInv(s: Sys, e: Step)
    requires PowerInv(s) && Enabled(s, e) && !Launches(e) && !e.TurnOn? && !e.TurnOff? && !e.Start?
    ensures PowerInv(Apply(s, e))
  {
    var t := Apply(s, e);
    forall j | 0 <= j < |t.pc| ensures PowerOk(t, j) {
      assert PowerOk(s, j);
    }
  }

  lemma {:induction false} PhasePrefix(h: seq<Psci>, n: nat)
    requires Phase(h).Some? && n <= |h|
    ensures Phase(h[..n]).Some?
  {
    if n < |h| {
      PhasePrefix(h[..|h| - 1], n);
      assert h[..|h| - 1][..n] == h[..n];
    } else {
      assert h[..n] == h;
    }
  }

  /** What an event says about the phases around it. */
  ghost predicate Fits(before: Option<Power>, e: Psci, after: Option<Power>) {
    match e
    case PowerOn(entry, context) => before == Some(Off) && after == Some(Pending(entry, context))
    case Boot(entry, context) => before == Some(Pending(entry, context)) && after == Some(On)
    case PowerOff => before == Some(On) && after == Some(Off)
  }

  lemma PhaseFits(h: seq<Psci>, e: Psci)
    requires Phase(h + [e]).Some?
    ensures Fits(Phase(h), e, Phase(h + [e]))
  {
    PhaseAppend(h, e);
  }

  lemma PhaseStep(h: seq<Psci>, n: nat)
    requires Phase(h).Some? && n < |h|
    ensures Fits(Phase(h[..n]), h[n], Phase(h[..n + 1]))
  {
    PhasePrefix(h, n + 1);
    assert h[..n + 1] == h[..n] + [h[n]];
    PhaseFits(h[..n], h[n]);
  }

  /** Between two successful CPU_ON calls for a vCPU there is exactly one boot, with the
      first call's entry and context, and then exactly one CPU_OFF. */
  lemma PowerAlternates(h: seq<Psci>, a: nat, b: nat)
    requires Phase(h).Some? && a < b < |h| && h[a].PowerOn? && h[b].PowerOn?
    requires forall k :: a < k < b ==> !h[k].PowerOn?
    ensures b == a + 3 && h[a + 1] == Boot(h[a].entry, h[a].context) && h[a + 2] == PowerOff
  {
    PhaseStep(h, a);
    PhaseStep(h, a + 1);
    PhaseStep(h, a + 2);
    if b > a + 3 {
      PhaseStep(h, a + 3);
    }
  }

  // ---------------------------------------------------------------------------
  // Faults

  /** The worker has passed its own fault reporting. */
  predicate PastReport(p: Pc) {
    p in {Reported, Draining, Gone}
  }

  ghost predicate Unreported(s: Sys, i: nat)
    requires s.Shaped()
  {
    i < |s.pc| && s.pc[i] == Leaving(true)
  }

  /** Every failed worker's fault is exactly where it should be: still to be sent, in
      the channel, polled, or drained; and only failed workers have faults. */
  ghost predicate FaultOk(s: Sys, i: nat)
    requires s.Shaped()
  {
    && (i in s.erred ==> Unreported(s, i) || Failed(i) in s.channel || i in s.polled || i in s.drained)
    && (Failed(i) in s.channel || i in s.polled || i in s.drained ==> i in s.erred && i < |s.pc| && PastReport(s.pc[i]))
    && (Unreported(s, i) ==> i in s.erred)
    && (Failed(i) in s.channel ==> i !in s.polled)
    && !(i in s.polled && i in s.drained)
  }

  ghost predicate NoRepeats(channel: seq<Message>) {
    forall a, b :: 0 <= a < b < |channel| && channel[a].Failed? ==> channel[a] != channel[b]
  }

  ghost predicate FaultInv(s: Sys) {
    && s.Shaped() && NoRepeats(s.channel)
    && (forall i: nat {:trigger FaultOk(s, i)} :: FaultOk(s, i))
    && (s.vmm != Done ==> s.drained == [])
    && (s.vmm == Done ==> s.channel == [] && forall i :: 0 <= i < |s.pc| ==> s.pc[i] == Gone)
  }

  lemma {:induction false} FaultsHas(channel: seq<Message>, i: nat)
    ensures i in Faults(channel) <==> Failed(i) in channel
  {
    if channel != [] {
      FaultsHas(channel[1..], i);
    }
  }

  /** A worker before its report moves on, perhaps by failing. */
  ghost predicate Moves(s: Sys, t: Sys, i: nat)
    requires s.Shaped()
  {
    && t.Shaped() && i < |s.pc| == |t.pc| && t.pc == s.pc[i := t.pc[i]]
    && !s.pc[i].Leaving? && !PastReport(s.pc[i]) && !PastReport(t.pc[i])
    && t.vmm == s.vmm && t.polled == s.polled && t.drained == s.drained
    && t.erred == (if t.pc[i] == Leaving(true) then s.erred + {i} else s.erred)
    && (t.channel == s.channel || (exists m: Message :: !m.Failed? && t.channel == s.channel + [m]))
  }

  lemma MoveKeepsFaultInv(s: Sys, t: Sys, i: nat)
    requires FaultInv(s) && Moves(s, t, i)
    ensures FaultInv(t)
  {
    assert FaultOk(s, i);
    forall j: nat ensures FaultOk(t, j) {
      assert FaultOk(s, j);
    }
  }

  lemma DecideMoves(s: Sys, i: nat, bootOk: bool)
    requires s.Shaped() && i < |s.pc| && s.pc[i] in {Top, Waiting}
    ensures Moves(s, Decide(s, i, bootOk), i)
  {
  }

  lemma LaunchMoves(s: Sys, e: Step)
    requires s.Shaped() && Enabled(s, e) && Launches(e)
    ensures Moves(s, Apply(s, e), e.i)
  {
    if e.EnterLoop? {
      DecideMoves(s.(cell := s.cell.Parked(e.i)).Notified(), e.i, e.bootOk);
    } else if e.Recheck? {
      DecideMoves(s, e.i, e.bootOk);
    }
  }

  lemma LaunchKeepsFaultInv(s: Sys, e: Step)
    requires FaultInv(s) && Enabled(s, e) && Launches(e)
    ensures FaultInv(Apply(s, e))
  {
    LaunchMoves(s, e);
    MoveKeepsFaultInv(s, Apply(s, e), e.i);
  }

  lemma ExitMoves(s: Sys, e: Step)
    requires s.Shaped() && Enabled(s, e) && HandlesExit(e)
    ensures Moves(s, Apply(s, e), e.i)
  {
    if e.SendShutdown? {
      assert Apply(s, e).channel == s.channel + [Shutdown];
    } else if e.SendAccess? {
      assert Apply(s, e).channel == s.channel + [Access(e.i)];
    }
  }

  lemma ExitKeepsFaultInv(s: Sys, e: Step)
    requires FaultInv(s) && Enabled(s, e) && HandlesExit(e)
    ensures FaultInv(Apply(s, e))
  {
    ExitMoves(s, e);
    MoveKeepsFaultInv(s, Apply(s, e), e.i);
  }

  lemma LeaveKeepsFaultInv(s: Sys, e: Step)
    requires FaultInv(s) && Enabled(s, e) && Leaves(e)
    ensures FaultInv(Apply(s, e))
  {
    assert FaultOk(s, e.i);
    forall i: nat ensures FaultOk(Apply(s, e), i) {
      assert FaultOk(s, i);
    }
  }

  lemma VmmKeepsFaultInv(s: Sys, e: Step)
    requires FaultInv(s) && Enabled(s, e) && !Launches(e) && !HandlesExit(e) && !Leaves(e)
    ensures FaultInv(Apply(s, e))
  {
    var t := Apply(s, e);
    forall i: nat ensures FaultOk(t, i) {
      assert FaultOk(s, i);
      FaultsHas(s.channel, i);
    }
  }

  // ---------------------------------------------------------------------------
  // Every run

  ghost predicate Inv(s: Sys) {
    RunInv(s) && SleepInv(s) && PowerInv(s) && FaultInv(s)
  }

  lemma InitialInv(n: nat)
    ensures Inv(Initial(n))
  {
    var s := Initial(n);
    InitialRunInv(n);
    forall i | 0 <= i < n ensures PowerOk(s, i) {
    }
    forall i: nat ensures FaultOk(s, i) {
    }
  }

  lemma StepKeepsInv(s: Sys, e: Step)
    requires Inv(s) && Enabled(s, e)
    ensures Inv(Apply(s, e))
  {
    StepKeepsRunInv(s, e);
    if Launches(e) {
      LaunchKeepsSleepInv(s, e);
      LaunchKeepsPowerInv(s, e);
      LaunchKeepsFaultInv(s, e);
    } else {
      OtherKeepsSleepInv(s, e);
      if e.TurnOn? || e.TurnOff? || e.Start? {
        PsciKeepsPowerInv(s, e);
      } else {
        OtherKeepsPowerInv(s, e);
      }
      if HandlesExit(e) {
        ExitKeepsFaultInv(s, e);
      } else if Leaves(e) {
        LeaveKeepsFaultInv(s, e);
      } else {
        VmmKeepsFaultInv(s, e);
      }
    }
  }

  /** The protocol invariant holds in every state of every run. */
  lemma {:induction false} EveryRun(n: nat, es: seq<Step>, k: nat)
    requires k <= |es|
    ensures Inv(After(Initial(n), es, k))
  {
    if k == 0 {
      InitialInv(n);
    } else {
      EveryRun(n, es, k - 1);
      var p := After(Initial(n), es, k - 1);
      if Enabled(p, es[k - 1]) {
        StepKeepsInv(p, es[k - 1]);
      }
    }
  }

  lemma RunsInvariantly(n: nat, es: seq<Step>, k: nat)
    requires k <= |es|
    ensures RunInv(After(Initial(n), es, k))
  {
    EveryRun(n, es, k);
  }

  /** Paused with nobody running. */
  ghost predicate Quiet(s: Sys) {
    s.cell.paused && !s.cell.AnyRunning()
  }

  lemma QuietUntilResume(s: Sys, e: Step)
    requires RunInv(s) && Enabled(s, e) && Quiet(s) && e != Resume
    ensures Quiet(Apply(s, e))
  {
    forall t | 0 <= t < |Apply(s, e).cell.running| ensures !Apply(s, e).cell.running[t] {
      assert !s.cell.running[t];
    }
  }

  lemma {:induction false} QuietInEveryLaterState(n: nat, es: seq<Step>, k: nat, m: nat)
    requires k <= m <= |es| && Quiet(After(Initial(n), es, k))
    requires forall j :: k <= j < m ==> es[j] != Resume
    ensures Quiet(After(Initial(n), es, m))
    decreases m
  {
    if k < m {
      QuietInEveryLaterState(n, es, k, m - 1);
      RunsInvariantly(n, es, m - 1);
      var p := After(Initial(n), es, m - 1);
      if Enabled(p, es[m - 1]) {
        QuietUntilResume(p, es[m - 1]);
      }
    }
  }

  /** Once pause has returned Paused, no vCPU runs or touches guest registers until
      resume, whatever else happens: replies, CPU_ON, stop, exits, faults. */
  lemma PauseBarrier(n: nat, es: seq<Step>, k: nat, m: nat)
    requires k <= m <= |es| && After(Initial(n), es, k).vmm == Held
    requires forall j :: k <= j < m ==> es[j] != Resume
    ensures var s := After(Initial(n), es, m);
            Quiet(s) && forall i :: 0 <= i < |s.pc| ==> !OnGuest(s.pc[i])
  {
    EveryRun(n, es, k);
    QuietInEveryLaterState(n, es, k, m);
    EveryRun(n, es, m);
    var s := After(Initial(n), es, m);
    forall i | 0 <= i < |s.pc| ensures !OnGuest(s.pc[i]) {
      NobodyOnGuest(s, i);
    }
  }

  /** Stopped with nobody running. */
  ghost predicate Halted(s: Sys) {
    s.cell.stop && !s.cell.AnyRunning()
  }

  lemma HaltedForGood(s: Sys, e: Step)
    requires RunInv(s) && Enabled(s, e) && Halted(s)
    ensures Halted(Apply(s, e))
  {
    forall t | 0 <= t < |Apply(s, e).cell.running| ensures !Apply(s, e).cell.running[t] {
      assert !s.cell.running[t];
    }
  }

  lemma {:induction false} HaltedInEveryLaterState(n: nat, es: seq<Step>, k: nat, m: nat)
    requires k <= m <= |es| && Halted(After(Initial(n), es, k))
    ensures Halted(After(Initial(n), es, m))
    decreases m
  {
    if k < m {
      HaltedInEveryLaterState(n, es, k, m - 1);
      RunsInvariantly(n, es, m - 1);
      var p := After(Initial(n), es, m - 1);
      if Enabled(p, es[m - 1]) {
        HaltedForGood(p, es[m - 1]);
      }
    }
  }

  lemma NobodyOnGuest(s: Sys, i: nat)
    requires RunInv(s) && !s.cell.AnyRunning() && i < |s.pc|
    ensures !OnGuest(s.pc[i])
  {
    assert RunOk(s, i);
  }

  /** After any vCPU has been destroyed none ever runs again. */
  lemma NobodyRunsAfterDestroy(n: nat, es: seq<Step>, k: nat, m: nat, i: nat)
    requires k <= m <= |es| && i < |After(Initial(n), es, k).pc| && After(Initial(n), es, k).pc[i] == Gone
    ensures var s := After(Initial(n), es, m);
            Halted(s) && forall j :: 0 <= j < |s.pc| ==> !OnGuest(s.pc[j])
  {
    EveryRun(n, es, k);
    assert RunOk(After(Initial(n), es, k), i);
    HaltedInEveryLaterState(n, es, k, m);
    EveryRun(n, es, m);
    var s := After(Initial(n), es, m);
    forall j | 0 <= j < |s.pc| ensures !OnGuest(s.pc[j]) {
      NobodyOnGuest(s, j);
    }
  }

  /** In every run the power events of each vCPU alternate as CPU_ON, boot, CPU_OFF, and
      guest code runs only while its power state is On. */
  lemma PowerInEveryRun(n: nat, es: seq<Step>, k: nat, i: nat)
    requires k <= |es| && i < |After(Initial(n), es, k).pc|
    ensures var s := After(Initial(n), es, k);
            && s.Shaped() && Phase(s.history[i]) == Some(s.cell.power[i])
            && (OnGuest(s.pc[i]) ==> s.cell.power[i] == On)
  {
    EveryRun(n, es, k);
    assert PowerOk(After(Initial(n), es, k), i);
  }

  /** In every run, a sleeping thread's wait condition holds: the workers' three waits, and
      the VM thread's wait for a pause. */
  lemma NoLostWakeup(n: nat, es: seq<Step>, k: nat, i: nat)
    requires k <= |es| && i < |After(Initial(n), es, k).pc|
    ensures var s := After(Initial(n), es, k);
            && s.Shaped()
            && (i in s.asleep ==> && s.pc[i] in {Waiting, IoWaiting, Draining}
                                  && (s.pc[i] == Waiting ==> s.cell.MustWait(i))
                                  && (s.pc[i] == IoWaiting ==> s.cell.MustHold())
                                  && (s.pc[i] == Draining ==> s.cell.AnyRunning()))
            && (s.vmmAsleep ==> s.vmm == Pausing && s.cell.AnyRunning() && !s.cell.stop)
  {
    EveryRun(n, es, k);
    assert SleepOk(After(Initial(n), es, k), i);
  }

  // ---------------------------------------------------------------------------
  // From faults to results

  lemma {:induction false} FirstFaultIsFirst(channel: seq<Message>)
    ensures FirstFault(channel) == if Faults(channel) == [] then Ok(Unit) else Err(Worker(Faults(channel)[0]))
  {
    if channel != [] && !channel[0].Failed? {
      FirstFaultIsFirst(channel[1..]);
    }
  }

  /** A polled fault is the run loop's result, and the first drained one is the stop's. */
  ghost predicate ResultOk(s: Sys) {
    && (s.polled != {} <==> s.result.Err? && s.result.error.Worker?)
    && (s.polled != {} ==> s.result.error.cpu in s.polled)
    && (s.result.Err? ==> s.vmm in {Ending, Joining, Done})
    && (s.vmm != Done ==> s.drained == [])
    && s.fault == if s.drained == [] then Ok(Unit) else Err(Worker(s.drained[0]))
  }

  /** Nothing that a result depends on has changed. */
  predicate SameResult(s: Sys, t: Sys) {
    t.polled == s.polled && t.result == s.result && t.drained == s.drained && t.fault == s.fault && t.vmm == s.vmm
  }

  lemma WorkersKeepResult(s: Sys, e: Step)
    requires s.Shaped() && Enabled(s, e) && (Launches(e) || Leaves(e))
    ensures SameResult(s, Apply(s, e))
  {
  }

  lemma ExitsKeepResult(s: Sys, e: Step)
    requires s.Shaped() && Enabled(s, e) && HandlesExit(e)
    ensures SameResult(s, Apply(s, e))
  {
  }

  lemma VmmKeepsResult(s: Sys, e: Step)
    requires s.Shaped() && ResultOk(s) && Enabled(s, e) && !Launches(e) && !HandlesExit(e) && !Leaves(e)
    ensures ResultOk(Apply(s, e))
  {
    if e.Join? {
      FirstFaultIsFirst(s.channel);
    }
  }

  lemma StepKeepsResult(s: Sys, e: Step)
    requires s.Shaped() && ResultOk(s) && Enabled(s, e)
    ensures ResultOk(Apply(s, e))
  {
    if Launches(e) || Leaves(e) {
      WorkersKeepResult(s, e);
    } else if HandlesExit(e) {
      ExitsKeepResult(s, e);
    } else {
      VmmKeepsResult(s, e);
    }
  }

  lemma {:induction false} ResultInEveryRun(n: nat, es: seq<Step>, k: nat)
    requires k <= |es|
    ensures ResultOk(After(Initial(n), es, k))
  {
    if k != 0 {
      ResultInEveryRun(n, es, k - 1);
      EveryRun(n, es, k - 1);
      var p := After(Initial(n), es, k - 1);
      if Enabled(p, es[k - 1]) {
        StepKeepsResult(p, es[k - 1]);
      }
    }
  }

  /** When the VM thread is done, a worker has failed exactly if a fault was polled or
      drained, every failed worker's fault was delivered once, and no other. */
  lemma NoFaultLost(n: nat, es: seq<Step>, k: nat)
    requires k <= |es| && After(Initial(n), es, k).vmm == Done
    ensures var s := After(Initial(n), es, k);
            && (s.erred != {} <==> s.polled != {} || s.drained != [])
            && (forall i: nat :: i in s.erred <==> i in s.polled || i in s.drained)
            && (forall i: nat :: !(i in s.polled && i in s.drained))
            && s.channel == []
  {
    EveryRun(n, es, k);
    var s := After(Initial(n), es, k);
    forall i: nat ensures i in s.erred <==> i in s.polled || i in s.drained {
      assert FaultOk(s, i);
    }
    forall i: nat ensures !(i in s.polled && i in s.drained) {
      assert FaultOk(s, i);
    }
    if s.drained != [] {
      assert s.drained[0] in s.drained;
    }
  }
}
