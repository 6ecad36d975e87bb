/** vCPU ownership, PSCI power and cancellable quiescence: one mutex, one condition
    variable, a worker thread per vCPU and the VMM thread, as a state machine whose
    steps are the critical sections and the thread-local moves between them. */
module Cpus {
  import opened Wrappers

  // ---------------------------------------------------------------------------
  // The state behind the mutex

  datatype Power = Off | Pending(entry: nat, context: nat) | On

  datatype Cell = Cell(stop: bool, paused: bool, started: bool, power: seq<Power>, running: seq<bool>) {

    predicate Shaped() {
      |power| == |running|
    }

    /** The wait condition of a worker at the top of its loop. */
    predicate MustWait(i: nat)
      requires i < |power|
    {
      !stop && (!started || paused || power[i] == Off)
    }

    /** The wait condition of a worker with an I/O result to write back. */
    predicate MustHold() {
      paused && !stop
    }

    predicate AnyRunning() {
      exists j :: 0 <= j < |running| && running[j]
    }

    function Parked(i: nat): Cell
      requires i < |running|
    {
      this.(running := running[i := false])
    }

    function Launched(i: nat): Cell
      requires i < |running|
    {
      this.(running := running[i := true])
    }

    function Powered(i: nat, p: Power): Cell
      requires i < |power|
    {
      this.(power := power[i := p])
    }
  }

  const SUCCESS: int := 0
  const INVALID_PARAMETERS: int := -2
  const ALREADY_ON: int := -4
  const ON_PENDING: int := -5
  const INVALID_ADDRESS: int := -9

  /** The result of CPU_ON; only success changes the power state. */
  function OnCode(c: Cell, target: nat, entry: nat): int {
    if target >= |c.power| then INVALID_PARAMETERS
    else if entry % 4 != 0 then INVALID_ADDRESS
    else match c.power[target]
         case On => ALREADY_ON
         case Pending(_, _) => ON_PENDING
         case Off => SUCCESS
  }

  // ---------------------------------------------------------------------------
  // Threads

  /** Where a worker is. */
  datatype Pc =
    | Top              // about to lock at the top of its loop
    | Waiting          // in the loop's condition wait
    | Guest            // running guest code
    | Exited           // back from the guest, stop not yet checked
    | Handling         // handling the exit: reads and writes guest registers
    | ShuttingDown     // shutdown event sent, stop not yet requested
    | Sent             // I/O access sent, not yet marked as waiting
    | AwaitReply       // waiting for the I/O reply, out of the guest
    | Replied          // reply received, write-back not yet allowed
    | IoWaiting        // in the write-back condition wait
    | Writeback        // writes the I/O result to guest registers
    | Leaving(fault: bool) // worker function returned
    | Reported         // fault, if any, is in the channel
    | Draining         // waits for the others before destroying its vCPU
    | Gone             // vCPU destroyed

  datatype Vmm = Free | Pausing | Held | Ending | Joining | Done

  datatype Message = Access(cpu: nat) | Failed(cpu: nat) | Shutdown

  /** Successful power events of one vCPU. */
  datatype Psci = PowerOn(entry: nat, context: nat) | Boot(entry: nat, context: nat) | PowerOff

  /** Why the run loop or the stop returns an error. */
  datatype Cause = Worker(cpu: nat) | Other

  /** `result` is what the run loop returns, `fault` what the stop returns after it. */
  datatype Sys = Sys(cell: Cell, pc: seq<Pc>, vmm: Vmm, asleep: set<nat>, vmmAsleep: bool,
                     history: seq<seq<Psci>>, channel: seq<Message>, polled: set<nat>, drained: seq<nat>,
                     erred: set<nat>, result: Result<Unit, Cause>, fault: Result<Unit, Cause>)
  {
    predicate Shaped() {
      cell.Shaped() && |pc| == |cell.power| == |history|
    }

    function At(i: nat, p: Pc): Sys
      requires i < |pc|
    {
      this.(pc := pc[i := p])
    }

    /** Every sleeper is awake and will check its condition again. */
    function Notified(): Sys {
      this.(asleep := {}, vmmAsleep := false)
    }

    function Logged(i: nat, e: Psci): Sys
      requires i < |history|
    {
      this.(history := history[i := history[i] + [e]])
    }

    /** The worker function returns, with a fault if it failed. */
    function Left(i: nat, fault: bool): Sys
      requires i < |pc|
    {
      this.(pc := pc[i := Leaving(fault)], erred := if fault then erred + {i} else erred)
    }
  }

  /** Nothing started, every worker about to enter its loop. */
  function Initial(n: nat): Sys {
    Sys(Cell(false, false, false, seq(n, _ => Off), seq(n, _ => false)), seq(n, _ => Top), Free, {}, false,
        seq(n, _ => []), [], {}, [], {}, Ok(Unit), Ok(Unit))
  }

  // ---------------------------------------------------------------------------
  // Worker steps

  /** With the lock held at the loop's condition: leave, wait, or boot if needed and go. */
  function Decide(s: Sys, i: nat, bootOk: bool): Sys
    requires s.Shaped() && i < |s.pc|
  {
    if s.cell.stop then s.Left(i, false)
    else if s.cell.MustWait(i) then s.At(i, Waiting).(asleep := s.asleep + {i})
    else if s.cell.power[i].Pending? then
      var p := s.cell.power[i];
      if !bootOk then s.Left(i, true)
      else s.Logged(i, Boot(p.entry, p.context)).(cell := s.cell.Powered(i, On).Launched(i)).At(i, Guest)
    else s.(cell := s.cell.Launched(i)).At(i, Guest)
  }

  function Enter(s: Sys, i: nat, bootOk: bool): Sys
    requires s.Shaped() && i < |s.pc|
  {
    Decide(s.(cell := s.cell.Parked(i)).Notified(), i, bootOk)
  }

  /** With the lock held after an I/O reply: leave, wait, or write back. */
  function ResumeIo(s: Sys, i: nat): Sys
    requires s.Shaped() && i < |s.pc|
  {
    if s.cell.stop then s.Left(i, false)
    else if s.cell.MustHold() then s.At(i, IoWaiting).(asleep := s.asleep + {i})
    else s.(cell := s.cell.Launched(i)).At(i, Writeback)
  }

  function CpuOn(s: Sys, target: nat, entry: nat, context: nat): Sys
    requires s.Shaped()
  {
    if OnCode(s.cell, target, entry) != SUCCESS then s
    else s.Logged(target, PowerOn(entry, context))
         .(cell := s.cell.Powered(target, Pending(entry, context))).Notified()
  }

  datatype Step =
    | EnterLoop(i: nat, bootOk: bool)
    | Recheck(i: nat, bootOk: bool)
    | ExitGuest(i: nat, ok: bool)
    | CheckStop(i: nat)
    | Continue(i: nat)
    | Fault(i: nat)
    | TurnOff(i: nat)
    | TurnOn(i: nat, target: nat, entry: nat, context: nat)
    | SendShutdown(i: nat)
    | StopAll(i: nat)
    | SendAccess(i: nat)
    | WaitIo(i: nat)
    | GetReply(i: nat)
    | LoseReply(i: nat)
    | CompleteIo(i: nat)
    | Report(i: nat)
    | Quit(i: nat)
    | DrainWait(i: nat)
    | Destroy(i: nat)
    | Wake(i: nat)
    | WakeVmm
    | Start(entry: nat, context: nat)
    | PauseBegin
    | PauseWait
    | PauseEnd
    | Resume
    | Poll
    | EndLoop(failed: bool)
    | Stop
    | Join

  predicate Enabled(s: Sys, e: Step)
    requires s.Shaped()
  {
    match e
    case EnterLoop(i, _) => i < |s.pc| && s.pc[i] == Top
    case Recheck(i, _) => i < |s.pc| && s.pc[i] == Waiting && i !in s.asleep
    case ExitGuest(i, _) => i < |s.pc| && s.pc[i] == Guest
    case CheckStop(i) => i < |s.pc| && s.pc[i] == Exited
    case Continue(i) => i < |s.pc| && s.pc[i] in {Handling, Writeback}
    case Fault(i) => i < |s.pc| && s.pc[i] in {Handling, Writeback}
    case TurnOff(i) => i < |s.pc| && s.pc[i] == Handling
    case TurnOn(i, _, _, _) => i < |s.pc| && s.pc[i] == Handling
    case SendShutdown(i) => i < |s.pc| && s.pc[i] == Handling
    case StopAll(i) => i < |s.pc| && s.pc[i] == ShuttingDown
    case SendAccess(i) => i < |s.pc| && s.pc[i] == Handling
    case WaitIo(i) => i < |s.pc| && s.pc[i] == Sent
    case GetReply(i) => i < |s.pc| && s.pc[i] == AwaitReply
    case LoseReply(i) => i < |s.pc| && s.pc[i] == AwaitReply
    case CompleteIo(i) => i < |s.pc| && (s.pc[i] == Replied || (s.pc[i] == IoWaiting && i !in s.asleep))
    case Report(i) => i < |s.pc| && s.pc[i].Leaving?
    case Quit(i) => i < |s.pc| && s.pc[i] == Reported
    case DrainWait(i) => i < |s.pc| && s.pc[i] == Draining && s.cell.AnyRunning()
    case Destroy(i) => i < |s.pc| && s.pc[i] == Draining && i !in s.asleep && !s.cell.AnyRunning()
    case Wake(_) => true
    case WakeVmm => true
    case Start(_, _) => 0 < |s.pc| && s.vmm == Free && !s.cell.started
    case PauseBegin => s.vmm == Free
    case PauseWait => s.vmm == Pausing && s.cell.AnyRunning() && !s.cell.stop
    case PauseEnd => s.vmm == Pausing && !s.vmmAsleep && (!s.cell.AnyRunning() || s.cell.stop)
    case Resume => s.vmm == Held
    case Poll => s.vmm == Free && s.channel != []
    case EndLoop(_) => s.vmm in {Free, Held}
    case Stop => s.vmm == Ending
    case Join => s.vmm == Joining && forall i :: 0 <= i < |s.pc| ==> s.pc[i] == Gone
  }

  function Faults(channel: seq<Message>): seq<nat> {
    if channel == [] then []
    else (if channel[0].Failed? then [channel[0].cpu] else []) + Faults(channel[1..])
  }

  /** The first fault still in the channel. */
  function FirstFault(channel: seq<Message>): Result<Unit, Cause> {
    if channel == [] then Ok(Unit)
    else if channel[0].Failed? then Err(Worker(channel[0].cpu)) else FirstFault(channel[1..])
  }

  function Apply(s: Sys, e: Step): Sys
    requires s.Shaped() && Enabled(s, e)
  {
    match e
    case EnterLoop(i, bootOk) => Enter(s, i, bootOk)
    case Recheck(i, bootOk) => Decide(s, i, bootOk)
    case ExitGuest(i, ok) => if ok then s.At(i, Exited) else s.Left(i, true)
    case CheckStop(i) => if s.cell.stop then s.Left(i, false) else s.At(i, Handling)
    case Continue(i) => s.At(i, Top)
    case Fault(i) => s.Left(i, true)
    case TurnOff(i) => s.Logged(i, PowerOff).(cell := s.cell.Powered(i, Off)).At(i, Top)
    case TurnOn(_, target, entry, context) => CpuOn(s, target, entry, context)
    case SendShutdown(i) => s.(channel := s.channel + [Shutdown]).At(i, ShuttingDown)
    case StopAll(i) => s.(cell := s.cell.(stop := true)).Notified().Left(i, false)
    case SendAccess(i) => s.(channel := s.channel + [Access(i)]).At(i, Sent)
    case WaitIo(i) => s.(cell := s.cell.Parked(i)).Notified().At(i, AwaitReply)
    case GetReply(i) => s.At(i, Replied)
    case LoseReply(i) => s.Left(i, !s.cell.stop)
    case CompleteIo(i) => ResumeIo(s, i)
    case Report(i) => (if s.pc[i].fault then s.(channel := s.channel + [Failed(i)]) else s).At(i, Reported)
    case Quit(i) => s.(cell := s.cell.Parked(i).(stop := true)).Notified().At(i, Draining)
    case DrainWait(i) => s.(asleep := s.asleep + {i})
    case Destroy(i) => s.At(i, Gone)
    case Wake(i) => s.(asleep := s.asleep - {i})
    case WakeVmm => s.(vmmAsleep := false)
    case Start(entry, context) =>
      s.Logged(0, PowerOn(entry, context))
       .(cell := s.cell.Powered(0, Pending(entry, context)).(started := true)).Notified()
    case PauseBegin => s.(cell := s.cell.(paused := true), vmm := Pausing)
    case PauseWait => s.(vmmAsleep := true)
    case PauseEnd => s.(vmm := if s.cell.stop then Ending else Held)
    case Resume => s.(cell := s.cell.(paused := false), vmm := Free).Notified()
    case Poll =>
      var rest := s.(channel := s.channel[1..]);
      (match s.channel[0]
       case Failed(i) => rest.(polled := s.polled + {i}, vmm := Ending, result := Err(Worker(i)))
       case Shutdown => rest.(vmm := Ending)
       case Access(_) => rest)
    case EndLoop(failed) => s.(vmm := Ending, result := if failed then Err(Other) else s.result)
    case Stop => s.(cell := s.cell.(stop := true), vmm := Joining).Notified()
    case Join => s.(vmm := Done, drained := Faults(s.channel), channel := [], fault := FirstFault(s.channel))
  }

  // ---------------------------------------------------------------------------
  // Who may touch the guest

  /** Runs guest code or reads and writes guest registers. */
  predicate OnGuest(p: Pc) {
    p in {Guest, Exited, Handling, ShuttingDown, Sent, Writeback}
  }

  predicate MayBeRunning(p: Pc) {
    OnGuest(p) || p == Top || p.Leaving? || p == Reported
  }

  ghost predicate RunOk(s: Sys, i: nat)
    requires s.Shaped() && i < |s.pc|
  {
    && (OnGuest(s.pc[i]) ==> s.cell.running[i])
    && (s.cell.running[i] ==> MayBeRunning(s.pc[i]))
    && (s.pc[i] in {Draining, Gone} ==> s.cell.stop)
    && (s.pc[i] == Gone ==> !s.cell.AnyRunning())
  }

  /** Running flags cover everyone on the guest, a held pause has nobody running, and
      once a vCPU is destroyed nobody runs. */
  ghost predicate RunInv(s: Sys) {
    && s.Shaped()
    && (forall i :: 0 <= i < |s.pc| ==> RunOk(s, i))
    && (s.vmm in {Pausing, Held} ==> s.cell.paused)
    && (s.vmm == Held ==> !s.cell.AnyRunning())
    && (s.vmm in {Joining, Done} ==> s.cell.stop)
  }

  lemma InitialRunInv(n: nat)
    ensures RunInv(Initial(n))
  {
  }

  /** Steps that may put a worker on the guest. */
  predicate Launches(e: Step) {
    e.EnterLoop? || e.Recheck? || e.CompleteIo?
  }

  /** Steps of a worker that is on the guest. */
  predicate HandlesExit(e: Step) {
    || e.ExitGuest? || e.CheckStop? || e.Continue? || e.Fault? || e.TurnOff? || e.TurnOn? || e.SendShutdown?
    || e.StopAll? || e.SendAccess? || e.WaitIo?
  }

  /** Steps of a worker that has left the guest. */
  predicate Leaves(e: Step) {
    e.GetReply? || e.LoseReply? || e.Report? || e.Quit? || e.DrainWait? || e.Destroy?
  }

  /** A worker that is not marked as running decides at the loop's condition. */
  lemma DecideKeepsRunInv(s: Sys, i: nat, bootOk: bool)
    requires RunInv(s) && i < |s.pc| && s.pc[i] in {Top, Waiting} && !s.cell.running[i]
    ensures RunInv(Decide(s, i, bootOk))
  {
    var t := Decide(s, i, bootOk);
    forall j | 0 <= j < |t.pc| ensures RunOk(t, j) {
      assert RunOk(s, j);
    }
  }

  lemma ParkKeepsRunInv(s: Sys, i: nat)
    requires RunInv(s) && i < |s.pc| && s.pc[i] == Top
    ensures RunInv(s.(cell := s.cell.Parked(i)).Notified())
  {
    var t := s.(cell := s.cell.Parked(i)).Notified();
    forall j | 0 <= j < |t.pc| ensures RunOk(t, j) {
      assert RunOk(s, j);
    }
  }

  lemma LaunchKeepsRunInv(s: Sys, e: Step)
    requires RunInv(s) && Enabled(s, e) && Launches(e)
    ensures RunInv(Apply(s, e))
  {
    if e.EnterLoop? {
      ParkKeepsRunInv(s, e.i);
      DecideKeepsRunInv(s.(cell := s.cell.Parked(e.i)).Notified(), e.i, e.bootOk);
    } else if e.Recheck? {
      assert RunOk(s, e.i);
      DecideKeepsRunInv(s, e.i, e.bootOk);
    } else {
      var t := ResumeIo(s, e.i);
      forall j | 0 <= j < |t.pc| ensures RunOk(t, j) {
        assert RunOk(s, j);
      }
    }
  }

  lemma ExitKeepsRunInv(s: Sys, e: Step)
    requires RunInv(s) && Enabled(s, e) && HandlesExit(e)
    ensures RunInv(Apply(s, e))
  {
    if e.WaitIo? || e.StopAll? {
      SettleKeepsRunInv(s, e);
    } else if e.TurnOff? || e.TurnOn? {
      PsciKeepsRunInv(s, e);
    } else {
      var t := Apply(s, e);
      forall j | 0 <= j < |t.pc| ensures RunOk(t, j) {
        assert RunOk(s, j);
      }
    }
  }

  lemma PsciKeepsRunInv(s: Sys, e: Step)
    requires RunInv(s) && Enabled(s, e) && (e.TurnOff? || e.TurnOn?)
    ensures RunInv(Apply(s, e))
  {
    var t := Apply(s, e);
    forall j | 0 <= j < |t.pc| ensures RunOk(t, j) {
      assert RunOk(s, j);
    }
  }

  lemma SettleKeepsRunInv(s: Sys, e: Step)
    requires RunInv(s) && Enabled(s, e) && (e.WaitIo? || e.StopAll?)
    ensures RunInv(Apply(s, e))
  {
    var t := Apply(s, e);
    forall j | 0 <= j < |t.pc| ensures RunOk(t, j) {
      assert RunOk(s, j);
    }
  }

  lemma LeaveKeepsRunInv(s: Sys, e: Step)
    requires RunInv(s) && Enabled(s, e) && Leaves(e)
    ensures RunInv(Apply(s, e))
  {
    var t := Apply(s, e);
    forall j | 0 <= j < |t.pc| ensures RunOk(t, j) {
      assert RunOk(s, j);
    }
  }

  lemma VmmKeepsRunInv(s: Sys, e: Step)
    requires RunInv(s) && Enabled(s, e) && !Launches(e) && !HandlesExit(e) && !Leaves(e)
    ensures RunInv(Apply(s, e))
  {
    var t := Apply(s, e);
    forall j | 0 <= j < |t.pc| ensures RunOk(t, j) {
      assert RunOk(s, j);
    }
  }

  lemma StepKeepsRunInv(s: Sys, e: Step)
    requires RunInv(s) && Enabled(s, e)
    ensures RunInv(Apply(s, e))
  {
    if Launches(e) {
      LaunchKeepsRunInv(s, e);
    } else if HandlesExit(e) {
      ExitKeepsRunInv(s, e);
    } else if Leaves(e) {
      LeaveKeepsRunInv(s, e);
    } else {
      VmmKeepsRunInv(s, e);
    }
  }

  /** The state after the first n steps of a schedule; a step that is not enabled does
      not happen. */
  function After(s: Sys, es: seq<Step>, n: nat): Sys
    requires n <= |es|
  {
    if n == 0 then s
    else
      var p := After(s, es, n - 1);
      if p.Shaped() && Enabled(p, es[n - 1]) then Apply(p, es[n - 1]) else p
  }
}
