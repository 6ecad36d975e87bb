/** The virtio-mmio transport: the status state machine, queue configuration, and
    lenient-mode isolation of a device whose guest misbehaved. Status, feature and
    interrupt words are sets of bit positions. */
module Transport {
  import opened Wrappers
  import opened Errors
  import opened GuestMemory
  import opened Virtqueue
  import opened Bits

  const DRIVER_OK: nat := 2
  const FEATURES_OK: nat := 3
  const NEEDS_RESET: nat := 6
  const FAILED: nat := 7
  const VERSION_1: nat := 32

  /** ACKNOWLEDGE, DRIVER and FEATURES_OK. */
  const NEGOTIATED: set<nat> := {0, 1, FEATURES_OK}
  const HANDSHAKE: set<nat> := {0, 1, DRIVER_OK, FEATURES_OK}

  /** What a device offers, what it insists on, and whether guest errors are fatal. */
  datatype Identity = Identity(features: set<nat>, required: set<nat>, strict: bool) {

    /** An offered subset with VERSION_1 and every required feature. */
    predicate Accepts(negotiated: set<nat>) {
      negotiated <= features && VERSION_1 in negotiated && required <= negotiated
    }
  }

  datatype Registers = Registers(featureSel: nat, driverSel: nat, queueSel: nat, status: set<nat>,
                                 negotiated: set<nat>, interrupt: set<nat>, rings: seq<Queue>) {

    /** The data path runs: the whole handshake and neither fault bit. */
    predicate Active() {
      HANDSHAKE <= status && NEEDS_RESET !in status && FAILED !in status
    }
  }

  /** What a device callback did to the queues, and its result. */
  datatype Call = Call(rings: seq<Queue>, interrupt: set<nat>, result: Result<Unit, DeviceError>)

  function Fresh(): Queue {
    Queue(MAX_QUEUE, false, 0, 0, 0, 0, 0)
  }

  predicate AllValid(rings: seq<Queue>, v: View) {
    forall i :: 0 <= i < |rings| ==> rings[i].IsValid(v)
  }

  function SetLow(address: nat, value: nat): nat {
    address / U32_LIMIT * U32_LIMIT + value
  }

  function SetHigh(address: nat, value: nat): nat {
    value * U32_LIMIT + address % U32_LIMIT
  }

  // ---------------------------------------------------------------------------
  // Register writes

  function AfterReset(s: Registers): Registers {
    Registers(0, 0, 0, {}, {}, {}, seq(|s.rings|, _ => Fresh()))
  }

  function StatusWritten(s: Registers, id: Identity, value: set<nat>, v: View): Result<Registers, DeviceError> {
    if !(s.status <= value) then Err(StatusBitsCleared)
    else
      var status := if id.Accepts(s.negotiated) then value else value - {FEATURES_OK};
      if DRIVER_OK in status - s.status && !(NEGOTIATED <= status && AllValid(s.rings, v)) then Err(DriverNotReady)
      else Ok(s.(status := status))
  }

  function FeaturesWritten(s: Registers, value: nat): Registers {
    if FEATURES_OK in s.status || s.driverSel >= 2 then s
    else if s.driverSel == 0 then
      s.(negotiated := (set b | b in s.negotiated && 32 <= b) + BitsOf(value, 0))
    else
      s.(negotiated := (set b | b in s.negotiated && b < 32) + BitsOf(value, 32))
  }

  predicate RingRegister(offset: nat) {
    offset in {0x38, 0x44, 0x80, 0x84, 0x90, 0x94, 0xa0, 0xa4}
  }

  /** A write to a queue's own register, once the queue may be configured. */
  function RingConfigured(q: Queue, offset: nat, value: nat, v: View): Result<Queue, DeviceError> {
    match offset
    case 0x38 =>
      if value > MAX_QUEUE then Err(QueueTooLarge)
      else if value !in {1, 2, 4, 8, 16, 32, 64, 128} then Err(QueueError)
      else Ok(q.(size := value))
    case 0x44 =>
      if value > 1 then Err(InvalidQueueReady)
      else if value == 1 && !q.(ready := true).IsValid(v) then Err(InvalidQueueMemory)
      else Ok(q.(ready := value == 1))
    case 0x80 => Ok(q.(desc := SetLow(q.desc, value)))
    case 0x84 => Ok(q.(desc := SetHigh(q.desc, value)))
    case 0x90 => Ok(q.(avail := SetLow(q.avail, value)))
    case 0x94 => Ok(q.(avail := SetHigh(q.avail, value)))
    case 0xa0 => Ok(q.(used := SetLow(q.used, value)))
    case 0xa4 => Ok(q.(used := SetHigh(q.used, value)))
    case _ => Ok(q)
  }

  function RingWritten(s: Registers, offset: nat, value: nat, v: View): Result<Registers, DeviceError> {
    if s.queueSel >= |s.rings| then Ok(s)
    else
      var disable := offset == 0x44 && value == 0;
      if DRIVER_OK in s.status && !disable then Err(QueueConfigurationAfterDriverOk)
      else if s.rings[s.queueSel].ready && !disable then Err(QueueConfigurationWhileReady)
      else match RingConfigured(s.rings[s.queueSel], offset, value, v)
           case Err(e) => Err(e)
           case Ok(q) => Ok(s.(rings := s.rings[s.queueSel := q]))
  }

  /** The meaning of a configuration write; `reset` is the device's own reset result. */
  function Configured(s: Registers, id: Identity, offset: nat, value: nat, v: View,
                      reset: Result<Unit, DeviceError>): Result<Registers, DeviceError> {
    if offset == 0x14 then Ok(s.(featureSel := value))
    else if offset == 0x24 then Ok(s.(driverSel := value))
    else if offset == 0x30 then Ok(s.(queueSel := value))
    else if offset == 0x20 then Ok(FeaturesWritten(s, value))
    else if offset == 0x70 && value == 0 then
      if reset.Err? then Err(reset.error) else Ok(AfterReset(s))
    else if offset == 0x70 then StatusWritten(s, id, BitsOf(value, 0), v)
    else if offset == 0x64 then Ok(s.(interrupt := s.interrupt - BitsOf(value, 0)))
    else if RingRegister(offset) then RingWritten(s, offset, value, v)
    else Ok(s)
  }

  // ---------------------------------------------------------------------------
  // The state machine

  /** Register state and the count of ignored writes. */
  datatype State = State(regs: Registers, rejected: nat)

  /** Pass through results and fatal errors; a guest error isolates a lenient device. */
  function Isolated(s: Registers): Registers {
    s.(status := s.status + {NEEDS_RESET},
    interrupt := if DRIVER_OK in s.status then s.interrupt + {1} else s.interrupt)
  }

  predicate Containable(id: Identity, result: Result<Unit, DeviceError>) {
    result.Err? && !id.strict && result.error.IsGuest()
  }

  function Contained(s: State, id: Identity, result: Result<Unit, DeviceError>): (State, Result<Unit, DeviceError>) {
    if Containable(id, result) then (s.(regs := Isolated(s.regs)), Ok(Unit)) else (s, result)
  }

  /** A data-path callback, made only while the device is active, and its containment. */
  function Called(s: State, id: Identity, call: Call): (State, Result<Unit, DeviceError>) {
    if !s.regs.Active() then (s, Ok(Unit))
    else Contained(s.(regs := s.regs.(rings := call.rings, interrupt := call.interrupt)), id, call.result)
  }

  datatype Event =
    | Notify(queue: nat, call: Call)
    | Configure(offset: nat, value: nat, view: View, reset: Result<Unit, DeviceError>)
    | Poll(call: Call)
    | Serve(call: Call)
    | Scan(result: Result<Unit, DeviceError>)
    | ConfigChange

  function Step(s: State, id: Identity, e: Event): (State, Result<Unit, DeviceError>) {
    match e
    case Notify(queue, call) =>
      if queue < |s.regs.rings| && s.regs.rings[queue].ready then Called(s, id, call) else (s, Ok(Unit))
    case Configure(offset, value, view, reset) =>
      (match Configured(s.regs, id, offset, value, view, reset)
       case Ok(regs) => (s.(regs := regs), Ok(Unit))
       case Err(e) => if !id.strict && e.IsGuest() then (s.(rejected := s.rejected + 1), Ok(Unit)) else (s, Err(e)))
    case Poll(call) => Called(s, id, call)
    case Serve(call) => Called(s, id, call)
    case Scan(result) => Contained(s, id, result)
    case ConfigChange => (s.(regs := s.regs.(interrupt := s.regs.interrupt + {1})), Ok(Unit))
  }

  function Run(s: State, id: Identity, es: seq<Event>, n: nat): State
    requires n <= |es|
  {
    if n == 0 then s else Step(Run(s, id, es, n - 1), id, es[n - 1]).0
  }

  // ---------------------------------------------------------------------------
  // What device callbacks keep

  predicate Calls(e: Event) {
    e.Notify? || e.Poll? || e.Serve?
  }

  ghost predicate Contractual(s: Registers, call: Call) {
    OnlyMoved(s.rings, call.rings)
  }

  /** Every callback made keeps the ring setup it is given. */
  ghost predicate Behaves(s: State, id: Identity, es: seq<Event>) {
    forall i {:trigger BehavesAt(s, id, es, i)} :: 0 <= i < |es| ==> BehavesAt(s, id, es, i)
  }

  ghost predicate BehavesAt(s: State, id: Identity, es: seq<Event>, i: nat)
    requires i < |es|
  {
    Calls(es[i]) ==> Contractual(Run(s, id, es, i).regs, es[i].call)
  }

  /** The host never fails: only guest errors come back. */
  ghost predicate HostFine(e: Event) {
    match e
    case Configure(_, _, _, reset) => reset.Ok?
    case Scan(result) => result.Err? ==> result.error.IsGuest()
    case ConfigChange => true
    case _ => e.call.result.Err? ==> e.call.result.error.IsGuest()
  }

  predicate IsReset(e: Event) {
    e.Configure? && e.offset == 0x70 && e.value == 0 && e.reset.Ok?
  }

  // ---------------------------------------------------------------------------
  // Invariants over every sequence of accesses

  /** FEATURES_OK means a legal feature subset; DRIVER_OK means the whole handshake. */
  ghost predicate Inv(s: Registers, id: Identity) {
    && RingsOk(s.rings)
    && (FEATURES_OK in s.status ==> id.Accepts(s.negotiated))
    && (DRIVER_OK in s.status ==> HANDSHAKE <= s.status)
  }

  lemma RingStaysWellFormed(q: Queue, offset: nat, value: nat, v: View)
    requires q.WellFormed() && RingConfigured(q, offset, value, v).Ok?
    ensures RingConfigured(q, offset, value, v).value.WellFormed()
  {
  }

  lemma ConfiguredKeepsInv(s: Registers, id: Identity, offset: nat, value: nat, v: View,
                           reset: Result<Unit, DeviceError>)
    requires Inv(s, id) && Configured(s, id, offset, value, v, reset).Ok?
    ensures Inv(Configured(s, id, offset, value, v, reset).value, id)
  {
    if RingRegister(offset) && s.queueSel < |s.rings| && RingConfigured(s.rings[s.queueSel], offset, value, v).Ok? {
      RingStaysWellFormed(s.rings[s.queueSel], offset, value, v);
    }
  }

  lemma CallStaysWellFormed(s: Registers, call: Call)
    requires RingsOk(s.rings) && Contractual(s, call)
    ensures RingsOk(call.rings)
  {
    forall i | 0 <= i < |call.rings| ensures call.rings[i].WellFormed() {
      assert SameSetup(s.rings[i], call.rings[i]);
    }
  }

  lemma CalledKeepsInv(s: State, id: Identity, call: Call)
    requires Inv(s.regs, id) && Contractual(s.regs, call)
    ensures Inv(Called(s, id, call).0.regs, id)
  {
    CallStaysWellFormed(s.regs, call);
  }

  lemma StepKeepsInv(s: State, id: Identity, e: Event)
    requires Inv(s.regs, id) && (Calls(e) ==> Contractual(s.regs, e.call))
    ensures Inv(Step(s, id, e).0.regs, id)
  {
    if Calls(e) {
      CalledKeepsInv(s, id, e.call);
    } else if e.Configure? && Configured(s.regs, id, e.offset, e.value, e.view, e.reset).Ok? {
      ConfiguredKeepsInv(s.regs, id, e.offset, e.value, e.view, e.reset);
    }
  }

  /** The transport invariant holds after every sequence of accesses and callbacks. */
  lemma {:induction false} TransportInvariant(s: State, id: Identity, es: seq<Event>, n: nat)
    requires Inv(s.regs, id) && Behaves(s, id, es) && n <= |es|
    ensures Inv(Run(s, id, es, n).regs, id)
  {
    if n != 0 {
      TransportInvariant(s, id, es, n - 1);
      assert BehavesAt(s, id, es, n - 1);
      StepKeepsInv(Run(s, id, es, n - 1), id, es[n - 1]);
    }
  }

  // ---------------------------------------------------------------------------
  // Queue setup while the driver is live

  /** Sizes and addresses are kept, and a ready flag may only fall. */
  ghost predicate Frozen(q: Queue, r: Queue) {
    r == q.(ready := r.ready, nextAvail := r.nextAvail, nextUsed := r.nextUsed) && (r.ready ==> q.ready)
  }

  ghost predicate AllFrozen(s: Registers, t: Registers) {
    |s.rings| == |t.rings| && forall i :: 0 <= i < |s.rings| ==> Frozen(s.rings[i], t.rings[i])
  }

  lemma StepFreezes(s: State, id: Identity, e: Event)
    requires DRIVER_OK in s.regs.status && !IsReset(e) && (Calls(e) ==> Contractual(s.regs, e.call))
    ensures DRIVER_OK in Step(s, id, e).0.regs.status && AllFrozen(s.regs, Step(s, id, e).0.regs)
  {
    if Calls(e) {
      forall i | 0 <= i < |s.regs.rings| ensures Frozen(s.regs.rings[i], e.call.rings[i]) {
        assert SameSetup(s.regs.rings[i], e.call.rings[i]);
      }
    }
  }

  ghost predicate NoReset(es: seq<Event>, m: nat, n: nat) {
    forall i {:trigger IsReset(es[i])} :: m <= i < n && i < |es| ==> !IsReset(es[i])
  }

  lemma FrozenTwice(a: Registers, b: Registers, c: Registers)
    requires AllFrozen(a, b) && AllFrozen(b, c)
    ensures AllFrozen(a, c)
  {
    forall i | 0 <= i < |a.rings| ensures Frozen(a.rings[i], c.rings[i]) {
      assert Frozen(a.rings[i], b.rings[i]) && Frozen(b.rings[i], c.rings[i]);
    }
  }

  lemma StepStaysFrozen(a: Registers, s: State, id: Identity, e: Event)
    requires AllFrozen(a, s.regs) && DRIVER_OK in s.regs.status && !IsReset(e)
    requires Calls(e) ==> Contractual(s.regs, e.call)
    ensures DRIVER_OK in Step(s, id, e).0.regs.status && AllFrozen(a, Step(s, id, e).0.regs)
  {
    StepFreezes(s, id, e);
    FrozenTwice(a, s.regs, Step(s, id, e).0.regs);
  }

  lemma {:induction false} StayFrozen(a: Registers, s: State, id: Identity, es: seq<Event>, m: nat, n: nat)
    requires Behaves(s, id, es) && m <= n <= |es| && NoReset(es, m, n)
    requires DRIVER_OK in Run(s, id, es, m).regs.status && AllFrozen(a, Run(s, id, es, m).regs)
    ensures DRIVER_OK in Run(s, id, es, n).regs.status && AllFrozen(a, Run(s, id, es, n).regs)
    decreases n
  {
    if m < n {
      StayFrozen(a, s, id, es, m, n - 1);
      assert BehavesAt(s, id, es, n - 1) && !IsReset(es[n - 1]);
      StepStaysFrozen(a, Run(s, id, es, n - 1), id, es[n - 1]);
    }
  }

  /** From DRIVER_OK until a reset, no access changes a ring's size or addresses or
      makes a queue ready. */
  lemma RingsFrozenWhileDriverOk(s: State, id: Identity, es: seq<Event>, m: nat, n: nat)
    requires Behaves(s, id, es) && m <= n <= |es| && NoReset(es, m, n)
    requires DRIVER_OK in Run(s, id, es, m).regs.status
    ensures DRIVER_OK in Run(s, id, es, n).regs.status
    ensures AllFrozen(Run(s, id, es, m).regs, Run(s, id, es, n).regs)
  {
    StayFrozen(Run(s, id, es, m).regs, s, id, es, m, n);
  }

  /** DRIVER_OK appears only on a write that found every queue ready and in view. */
  lemma DriverOkNeedsValidRings(s: State, id: Identity, e: Event)
    requires DRIVER_OK !in s.regs.status && DRIVER_OK in Step(s, id, e).0.regs.status
    ensures e.Configure? && e.offset == 0x70 && AllValid(s.regs.rings, e.view)
  {
  }

  // ---------------------------------------------------------------------------
  // Isolation

  lemma StepKeepsNeedsReset(s: State, id: Identity, e: Event)
    requires NEEDS_RESET in s.regs.status && !IsReset(e)
    ensures NEEDS_RESET in Step(s, id, e).0.regs.status
  {
  }

  /** Isolation lasts until a reset, whatever else is written. */
  lemma {:induction false} NeedsResetLasts(s: State, id: Identity, es: seq<Event>, m: nat, n: nat)
    requires m <= n <= |es| && NoReset(es, m, n)
    requires NEEDS_RESET in Run(s, id, es, m).regs.status
    ensures NEEDS_RESET in Run(s, id, es, n).regs.status && !Run(s, id, es, n).regs.Active()
    decreases n
  {
    if m < n {
      NeedsResetLasts(s, id, es, m, n - 1);
      assert !IsReset(es[n - 1]);
      StepKeepsNeedsReset(Run(s, id, es, n - 1), id, es[n - 1]);
    }
  }

  /** The same event with another callback outcome. */
  function Instead(e: Event, call: Call): Event {
    if Calls(e) then e.(call := call) else e
  }

  lemma IsolatedStepIgnoresDevice(s: State, id: Identity, e: Event, call: Call)
    requires !s.regs.Active()
    ensures Step(s, id, Instead(e, call)) == Step(s, id, e)
  {
  }

  /** While isolated the data path is dead: whatever its callbacks would have done has
      no effect on any later state. */
  lemma {:induction false} IsolationStopsDataPath(s: State, id: Identity, es: seq<Event>, fs: seq<Event>, n: nat,
                                                  call: nat -> Call)
    requires n <= |es| == |fs| && NEEDS_RESET in s.regs.status && NoReset(es, 0, n)
    requires forall i :: 0 <= i < |es| ==> fs[i] == Instead(es[i], call(i))
    ensures Run(s, id, fs, n) == Run(s, id, es, n)
  {
    if n != 0 {
      IsolationStopsDataPath(s, id, es, fs, n - 1, call);
      NeedsResetLasts(s, id, es, 0, n - 1);
      assert fs[n - 1] == Instead(es[n - 1], call(n - 1));
      IsolatedStepIgnoresDevice(Run(s, id, es, n - 1), id, es[n - 1], call(n - 1));
    }
  }

  /** With a host that does not fail, no access makes a lenient device return an
      error: a guest error isolates the device or is counted as an ignored write. */
  lemma LenientNeverFails(s: State, id: Identity, e: Event)
    requires !id.strict && HostFine(e)
    ensures Step(s, id, e).1.Ok?
  {
    if e.Configure? && Configured(s.regs, id, e.offset, e.value, e.view, e.reset).Err? {
      ConfigureErrorsAreGuest(s.regs, id, e.offset, e.value, e.view, e.reset);
    }
  }

  lemma ConfigureErrorsAreGuest(s: Registers, id: Identity, offset: nat, value: nat, v: View,
                                reset: Result<Unit, DeviceError>)
    requires reset.Ok? && Configured(s, id, offset, value, v, reset).Err?
    ensures Configured(s, id, offset, value, v, reset).error.IsGuest()
  {
  }

  /** In lenient mode a callback's guest error is never lost: the device is isolated,
      and a driver that is up is told. */
  lemma GuestErrorIsolates(s: State, id: Identity, e: Event)
    requires !id.strict && Calls(e) && s.regs.Active() && e.call.result.Err? && e.call.result.error.IsGuest()
    requires e.Notify? ==> e.queue < |s.regs.rings| && s.regs.rings[e.queue].ready
    ensures var after := Step(s, id, e).0.regs;
            && NEEDS_RESET in after.status && !after.Active() && 1 in after.interrupt
            && after.rings == e.call.rings && after.status == s.regs.status + {NEEDS_RESET}
  {
  }

  /** A status write that the transport accepts. */
  predicate SetsStatus(s: Registers, id: Identity, e: Event) {
    e.Configure? && e.offset == 0x70 && e.value != 0 && StatusWritten(s, id, BitsOf(e.value, 0), e.view).Ok?
  }

  /** Which result, if any, an event hands to containment. */
  predicate Faults(s: Registers, id: Identity, e: Event) {
    match e
    case Notify(queue, call) => s.Active() && queue < |s.rings| && s.rings[queue].ready && Containable(id, call.result)
    case Poll(call) => s.Active() && Containable(id, call.result)
    case Serve(call) => s.Active() && Containable(id, call.result)
    case Scan(result) => Containable(id, result)
    case _ => false
  }

  /** NEEDS_RESET is not the device's alone: it appears exactly when a guest error is
      contained or the driver writes the bit itself. */
  lemma NeedsResetArises(s: State, id: Identity, e: Event)
    requires NEEDS_RESET !in s.regs.status
    ensures NEEDS_RESET in Step(s, id, e).0.regs.status <==>
            || Faults(s.regs, id, e)
            || (SetsStatus(s.regs, id, e) && NEEDS_RESET in BitsOf(e.value, 0))
  {
  }

  /** A driver that writes 0x40 to a fresh device isolates it with no guest error. */
  lemma DriverMaySetNeedsReset(s: State, id: Identity, v: View)
    requires s.regs.status == {}
    ensures NEEDS_RESET in Step(s, id, Configure(0x70, 0x40, v, Ok(Unit))).0.regs.status
  {
    assert BitsOf(1, 6) == {6} + BitsOf(0, 7);
    assert BitsOf(0x40, 0) == BitsOf(0x20, 1) == BitsOf(0x10, 2) == BitsOf(8, 3) == BitsOf(4, 4) == BitsOf(2, 5)
        == BitsOf(1, 6);
  }

  // ---------------------------------------------------------------------------
  // The transport object

  class Mmio {
    const queues: Queues
    const id: Identity
    var featureSel: nat
    var driverSel: nat
    var queueSel: nat
    var status: set<nat>
    var rejected: nat

    ghost predicate Valid()
      reads this, queues
    {
      queues.Valid()
    }

    ghost function Regs(): Registers
      reads this, queues
    {
      Registers(featureSel, driverSel, queueSel, status, queues.negotiated, queues.interrupt, queues.rings)
    }

    constructor (count: nat, features: set<nat>, required: set<nat>, strict: bool)
      ensures Valid() && fresh(queues) && id == Identity(features + {VERSION_1}, required, strict)
      ensures Inv(Regs(), id) && rejected == 0 && status == {} && |queues.rings| == count
      ensures forall i :: 0 <= i < count ==> !queues.rings[i].ready
    {
      queues := new Queues(count);
      id := Identity(features + {VERSION_1}, required, strict);
      featureSel, driverSel, queueSel, status, rejected := 0, 0, 0, {}, 0;
    }

    predicate Active()
      reads this
    {
      HANDSHAKE <= status && NEEDS_RESET !in status && FAILED !in status
    }

    /** Apply one configuration write. A rejected write, also one that had to try out
        a ready flag first, leaves every register as it was. */
    method Configure(offset: nat, value: nat, view: View, reset: Result<Unit, DeviceError>)
      returns (r: Result<Unit, DeviceError>)
      requires Valid() && Inv(Regs(), id)
      modifies this`featureSel, this`driverSel, this`queueSel, this`status, queues
      ensures Valid() && Inv(Regs(), id)
      ensures r.Ok? ==> Configured(old(Regs()), id, offset, value, view, reset) == Ok(Regs())
      ensures r.Err? ==> Configured(old(Regs()), id, offset, value, view, reset) == Err(r.error)
      ensures r.Err? ==> Regs() == old(Regs())
    {
      ghost var outcome := Configured(Regs(), id, offset, value, view, reset);
      if outcome.Ok? {
        ConfiguredKeepsInv(Regs(), id, offset, value, view, reset);
      }
      r := Ok(Unit);
      if offset == 0x14 {
        featureSel := value;
      } else if offset == 0x24 {
        driverSel := value;
      } else if offset == 0x30 {
        queueSel := value;
      } else if offset == 0x20 {
        NegotiateFeatures(value);
      } else if offset == 0x70 {
        if value == 0 {
          if reset.Err? {
            return Err(reset.error);
          }
          Reset();
        } else {
          r := WriteStatus(BitsOf(value, 0), view);
        }
      } else if offset == 0x64 {
        queues.interrupt := queues.interrupt - BitsOf(value, 0);
      } else if RingRegister(offset) {
        r := WriteRing(offset, value, view);
      }
    }

    method NegotiateFeatures(value: nat)
      modifies queues`negotiated
      ensures Regs() == FeaturesWritten(old(Regs()), value)
    {
      if FEATURES_OK in status || driverSel >= 2 {
        return;
      }
      var kept := set b | b in queues.negotiated && (if driverSel == 0 then 32 <= b else b < 32);
      queues.negotiated := kept + BitsOf(value, if driverSel == 0 then 0 else 32);
    }

    method Reset()
      modifies this`featureSel, this`driverSel, this`queueSel, this`status, queues
      ensures Regs() == AfterReset(old(Regs()))
    {
      var i := 0;
      while i < |queues.rings|
        invariant i <= |queues.rings| == |old(queues.rings)|
        invariant forall k :: 0 <= k < i ==> queues.rings[k] == Fresh()
      {
        queues.rings := queues.rings[i := Fresh()];
        i := i + 1;
      }
      queues.negotiated, queues.interrupt := {}, {};
      featureSel, driverSel, queueSel, status := 0, 0, 0, {};
    }

    method WriteStatus(value: set<nat>, view: View) returns (r: Result<Unit, DeviceError>)
      modifies this`status
      ensures r.Ok? ==> StatusWritten(old(Regs()), id, value, view) == Ok(Regs())
      ensures r.Err? ==> StatusWritten(old(Regs()), id, value, view) == Err(r.error) && status == old(status)
    {
      if !(status <= value) {
        return Err(StatusBitsCleared);
      }
      var next := value;
      if FEATURES_OK in next && !id.Accepts(queues.negotiated) {
        next := next - {FEATURES_OK};
      }
      assert next == if id.Accepts(queues.negotiated) then value else value - {FEATURES_OK};
      if DRIVER_OK in next && DRIVER_OK !in status && !(NEGOTIATED <= next && AllValid(queues.rings, view)) {
        return Err(DriverNotReady);
      }
      status := next;
      return Ok(Unit);
    }

    method WriteRing(offset: nat, value: nat, view: View) returns (r: Result<Unit, DeviceError>)
      requires Valid() && RingRegister(offset)
      modifies queues`rings
      ensures r.Ok? ==> RingWritten(old(Regs()), offset, value, view) == Ok(Regs())
      ensures r.Err? ==> RingWritten(old(Regs()), offset, value, view) == Err(r.error)
      ensures r.Err? ==> queues.rings == old(queues.rings)
    {
      if queueSel >= |queues.rings| {
        return Ok(Unit);
      }
      var q := queues.rings[queueSel];
      var disable := offset == 0x44 && value == 0;
      if DRIVER_OK in status && !disable {
        return Err(QueueConfigurationAfterDriverOk);
      }
      if q.ready && !disable {
        return Err(QueueConfigurationWhileReady);
      }
      if offset == 0x44 && value <= 1 {
        queues.rings := queues.rings[queueSel := q.(ready := value == 1)];
        if value == 1 && !queues.rings[queueSel].IsValid(view) {
          queues.rings := queues.rings[queueSel := queues.rings[queueSel].(ready := false)];
          assert q == q.(ready := true).(ready := false);
          assert queues.rings == old(queues.rings);
          return Err(InvalidQueueMemory);
        }
        return Ok(Unit);
      }
      var next := RingConfigured(q, offset, value, view);
      if next.Err? {
        return Err(next.error);
      }
      queues.rings := queues.rings[queueSel := next.value];
      return Ok(Unit);
    }

    /** Contain a result: a guest error on a lenient device sets NEEDS_RESET, and tells
        the driver only once it is up. None reports that isolation. */
    method Contain(result: Result<Unit, DeviceError>) returns (r: Result<Option<Unit>, DeviceError>)
      requires Valid()
      modifies this`status, queues`interrupt
      ensures Valid() && State(Regs(), rejected) == Contained(State(old(Regs()), rejected), id, result).0
      ensures r.Err? <==> result.Err? && !Containable(id, result)
      ensures r.Err? ==> r.error == result.error
      ensures r.Ok? ==> (r.value.None? <==> result.Err?)
    {
      if result.Ok? {
        return Ok(Some(Unit));
      }
      if id.strict || !result.error.IsGuest() {
        return Err(result.error);
      }
      status := status + {NEEDS_RESET};
      if DRIVER_OK in status {
        queues.interrupt := queues.interrupt + {1};
      }
      return Ok(None);
    }
  }
}
