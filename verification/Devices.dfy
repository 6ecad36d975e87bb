/** The devices behind their transports: what a poll, a notification or a register write
    makes a device do, and the containment of what its guest got wrong. Each access is a
    step of the transport's state machine, with a callback that the device really made. */
module Devices {
  import opened Wrappers
  import opened Errors
  import opened GuestMemory
  import opened HotplugMemory
  import opened Virtqueue
  import opened Transport
  import opened Block
  import opened Net
  import opened Receive

  datatype Device = Blk(drive: Drive) | Nic(tx: Transmitter, rx: Receiver) | Mem(memory: VirtioMem) {

    function QueueCount(): nat {
      if Nic? then 2 else 1
    }

    /** Feature bits besides VERSION_1. */
    function Features(): set<nat> {
      match this
      case Blk(drive) => {2, F_FLUSH} + if drive.readOnly then {5} else {}
      case Nic(_, _) => {3, 5}
      case Mem(_) => {1}
    }

    function Required(): set<nat> {
      if Mem? then {1} else {}
    }

    /** The objects that callbacks may change besides queues and guest memory. */
    ghost function Parts(): set<object> {
      match this
      case Blk(drive) => {drive, drive.disk, drive.disk.image}
      case Nic(tx, rx) => {tx, rx}
      case Mem(memory) => {memory.control}
    }

    /** The objects that the device's own state is in. */
    ghost function State(): set<object> {
      if Nic? then {tx, rx} else {}
    }

    /** The right number of queues, and storage of its own. */
    ghost predicate Shaped(rings: seq<Queue>, ram: GuestRam)
      reads State()
    {
      && |rings| == QueueCount()
      && (Blk? ==> drive.Valid() && ram != drive.disk.image)
      && (Nic? ==> rx.Valid())
    }

    /** Able to work: a network device's frames are accounted for up to its ring position. */
    ghost predicate Ready(rings: seq<Queue>, ram: GuestRam)
      reads State()
    {
      Shaped(rings, ram) && (Nic? ==> tx.Settled() && tx.ledger.Behind(rings[1]))
    }

    /** What holds of a device between accesses: isolated ones need not be able to work. */
    ghost predicate Fits(s: Registers, ram: GuestRam)
      reads State()
    {
      Shaped(s.rings, ram) && (NEEDS_RESET !in s.status ==> Ready(s.rings, ram))
    }

    /** The backend keeps its contract: it never fails, and delivers whole packets. */
    ghost predicate Sound() {
      match this
      case Blk(drive) => drive.Healthy()
      case Nic(tx, rx) => Dependable(tx.verdicts) && Delivers(rx.arrivals, rx.capacity)
      case Mem(_) => true
    }
  }

  // ---------------------------------------------------------------------------
  // The devices' own callbacks

  /** A notification for one of the device's queues. */
  method Notified(d: Device, index: nat, queues: Queues, ram: GuestRam) returns (r: Result<Unit, DeviceError>)
    requires queues.Valid() && d.Ready(queues.rings, ram) && index < |queues.rings|
    modifies queues`rings, queues`interrupt, ram, d.Parts()
    ensures queues.Valid() && OnlyMoved(old(queues.rings), queues.rings)
    ensures ram.view.regions == old(ram.view.regions)
    ensures d.Shaped(queues.rings, ram) && (r.Ok? ==> d.Ready(queues.rings, ram))
    ensures d.Sound() && r.Err? ==> r.error.IsGuest()
    ensures d.Mem? ==> r.Ok? && d.memory.control.pluggedSizeMib == old(d.memory.control.pluggedSizeMib)
  {
    match d {
      case Blk(drive) =>
        r := drive.Notify(queues, ram);
      case Nic(tx, rx) =>
        if index == 0 {
          ghost var packets;
          r, packets := rx.ReceiveAll(queues, ram);
        } else {
          r := tx.Transmit(queues, ram);
        }
      case Mem(_) =>
        r := Ok(Unit);
    }
  }

  /** A chance to work without a notification; only the network device uses it. */
  method Polled(d: Device, queues: Queues, ram: GuestRam) returns (r: Result<Unit, DeviceError>)
    requires queues.Valid() && d.Ready(queues.rings, ram)
    modifies queues`rings, queues`interrupt, ram, d.Parts()
    ensures queues.Valid() && OnlyMoved(old(queues.rings), queues.rings)
    ensures ram.view.regions == old(ram.view.regions)
    ensures d.Shaped(queues.rings, ram) && (r.Ok? ==> d.Ready(queues.rings, ram))
    ensures d.Sound() && r.Err? ==> r.error.IsGuest()
    ensures d.Mem? ==> r.Ok? && d.memory.control.pluggedSizeMib == old(d.memory.control.pluggedSizeMib)
  {
    r := Ok(Unit);
    if d.Nic? {
      r := d.tx.Transmit(queues, ram);
      if r.Ok? {
        ghost var packets;
        r, packets := d.rx.ReceiveAll(queues, ram);
      }
    }
  }

  /** The device's part of a reset, before its registers are cleared. */
  method Reset(d: Device, ghost rings: seq<Queue>, ram: GuestRam) returns (r: Result<Unit, DeviceError>)
    requires d.Shaped(rings, ram)
    modifies d.Parts()
    ensures ram.view == old(ram.view)
    ensures d.Sound() ==> r.Ok?
    ensures d.Nic? ==> r.Ok? && d.rx.Valid() && d.tx.Settled() && d.tx.ledger == Ledger([], [], [])
    ensures d.Mem? ==> r.Ok? && d.memory.control.pluggedSizeMib == old(d.memory.control.pluggedSizeMib)
    ensures r.Err? ==> !r.error.IsGuest()
  {
    r := Ok(Unit);
    match d {
      case Blk(drive) => r := drive.Flush();
      case Nic(tx, rx) => tx.Reset();
      case Mem(memory) => memory.control.driverReady := false;
    }
  }

  // ---------------------------------------------------------------------------
  // Through the transport

  lemma StayMoved(rings: seq<Queue>)
    ensures OnlyMoved(rings, rings)
  {
    forall i | 0 <= i < |rings| ensures SameSetup(rings[i], rings[i]) {
    }
  }

  /** Poll the device if it is active; `call` is what it did. */
  method Poll(m: Mmio, d: Device, ram: GuestRam) returns (r: Result<Unit, DeviceError>, ghost call: Call)
    requires Inv(m.Regs(), m.id) && d.Fits(m.Regs(), ram)
    modifies m`status, m.queues`rings, m.queues`interrupt, ram, d.Parts()
    ensures Inv(m.Regs(), m.id) && ram.view.regions == old(ram.view.regions)
    ensures Contractual(old(m.Regs()), call)
    ensures (State(m.Regs(), m.rejected), r) == Step(State(old(m.Regs()), m.rejected), m.id, Event.Poll(call))
    ensures r.Ok? ==> d.Fits(m.Regs(), ram)
    ensures d.Sound() && r.Err? ==> m.id.strict && r.error.IsGuest()
    ensures d.Mem? ==> d.memory.control.pluggedSizeMib == old(d.memory.control.pluggedSizeMib)
  {
    StayMoved(m.queues.rings);
    call := Call(m.queues.rings, m.queues.interrupt, Ok(Unit));
    if !m.Active() {
      return Ok(Unit), call;
    }
    ghost var before := m.Regs();
    var result := Polled(d, m.queues, ram);
    call := Call(m.queues.rings, m.queues.interrupt, result);
    CallStaysWellFormed(before, call);
    r := Settle(m, result);
  }

  /** Contain what a callback came to. */
  method Settle(m: Mmio, result: Result<Unit, DeviceError>) returns (r: Result<Unit, DeviceError>)
    requires m.Valid()
    modifies m`status, m.queues`interrupt
    ensures (State(m.Regs(), m.rejected), r) == Contained(State(old(m.Regs()), m.rejected), m.id, result)
    ensures r.Err? ==> r == result && (m.id.strict || !r.error.IsGuest())
  {
    var contained := m.Contain(result);
    assert result.Ok? ==> result.value.Unit?;
    r := if contained.Err? then Err(contained.error) else Ok(Unit);
  }

  /** Notify an active device's ready queue; other notifications are ignored. */
  method Notify(m: Mmio, d: Device, index: nat, ram: GuestRam) returns (r: Result<Unit, DeviceError>, ghost call: Call)
    requires Inv(m.Regs(), m.id) && d.Fits(m.Regs(), ram)
    modifies m`status, m.queues`rings, m.queues`interrupt, ram, d.Parts()
    ensures Inv(m.Regs(), m.id) && ram.view.regions == old(ram.view.regions)
    ensures Contractual(old(m.Regs()), call)
    ensures (State(m.Regs(), m.rejected), r) == Step(State(old(m.Regs()), m.rejected), m.id, Event.Notify(index, call))
    ensures r.Ok? ==> d.Fits(m.Regs(), ram)
    ensures d.Sound() && r.Err? ==> m.id.strict && r.error.IsGuest()
    ensures d.Mem? ==> d.memory.control.pluggedSizeMib == old(d.memory.control.pluggedSizeMib)
  {
    StayMoved(m.queues.rings);
    call := Call(m.queues.rings, m.queues.interrupt, Ok(Unit));
    if !(m.Active() && index < |m.queues.rings| && m.queues.rings[index].ready) {
      return Ok(Unit), call;
    }
    ghost var before := m.Regs();
    var result := Notified(d, index, m.queues, ram);
    call := Call(m.queues.rings, m.queues.interrupt, result);
    CallStaysWellFormed(before, call);
    r := Settle(m, result);
  }

  /** Configuration writes other than a reset leave ring positions alone and isolation on. */
  lemma ConfiguredKeepsPositions(s: Registers, id: Identity, offset: nat, value: nat, v: View)
    requires Configured(s, id, offset, value, v, Ok(Unit)).Ok? && !(offset == 0x70 && value == 0)
    ensures var t := Configured(s, id, offset, value, v, Ok(Unit)).value;
            && |t.rings| == |s.rings| && (NEEDS_RESET in s.status ==> NEEDS_RESET in t.status)
            && forall i :: 0 <= i < |s.rings| ==> t.rings[i].nextAvail == s.rings[i].nextAvail
  {
  }

  lemma FitsPositions(d: Device, s: Registers, t: Registers, ram: GuestRam)
    requires d.Fits(s, ram) && |t.rings| == |s.rings| && (NEEDS_RESET in s.status ==> NEEDS_RESET in t.status)
    requires forall i :: 0 <= i < |s.rings| ==> t.rings[i].nextAvail == s.rings[i].nextAvail
    ensures d.Fits(t, ram)
  {
  }

  lemma RejectedIsGuest(s: Registers, id: Identity, offset: nat, value: nat, v: View)
    requires Configured(s, id, offset, value, v, Ok(Unit)).Err?
    ensures Configured(s, id, offset, value, v, Ok(Unit)).error.IsGuest()
  {
    ConfigureErrorsAreGuest(s, id, offset, value, v, Ok(Unit));
  }

  /** A reset: the device's own part first; if that fails nothing is cleared. */
  method WriteReset(m: Mmio, d: Device, ram: GuestRam)
    returns (r: Result<Unit, DeviceError>, ghost e: Event)
    requires Inv(m.Regs(), m.id) && d.Fits(m.Regs(), ram)
    modifies m`featureSel, m`driverSel, m`queueSel, m`status, m.queues, d.Parts()
    ensures Inv(m.Regs(), m.id) && ram.view == old(ram.view)
    ensures e == Event.Configure(0x70, 0, ram.view, r)
    ensures Configured(old(m.Regs()), m.id, 0x70, 0, ram.view, r) == if r.Ok? then Ok(m.Regs()) else Err(r.error)
    ensures r.Ok? ==> d.Fits(m.Regs(), ram)
    ensures r.Err? ==> !r.error.IsGuest() && m.Regs() == old(m.Regs())
    ensures d.Sound() ==> r.Ok?
    ensures d.Mem? ==> d.memory.control.pluggedSizeMib == old(d.memory.control.pluggedSizeMib)
  {
    var reset := Reset(d, m.queues.rings, ram);
    r := m.Configure(0x70, 0, ram.view, reset);
    assert r.Ok? ==> r.value.Unit? && reset.value.Unit?;
    e := Event.Configure(0x70, 0, ram.view, r);
  }

  /** Any other configuration write. */
  method WriteRegister(m: Mmio, d: Device, offset: nat, value: nat, ram: GuestRam)
    returns (r: Result<Unit, DeviceError>)
    requires Inv(m.Regs(), m.id) && d.Fits(m.Regs(), ram) && !(offset == 0x70 && value == 0)
    modifies m`featureSel, m`driverSel, m`queueSel, m`status, m.queues
    ensures Inv(m.Regs(), m.id) && d.Fits(m.Regs(), ram)
    ensures Configured(old(m.Regs()), m.id, offset, value, ram.view, Ok(Unit)) ==
            if r.Ok? then Ok(m.Regs()) else Err(r.error)
    ensures r.Err? ==> r.error.IsGuest() && m.Regs() == old(m.Regs())
  {
    ghost var before := m.Regs();
    r := m.Configure(offset, value, ram.view, Ok(Unit));
    if r.Ok? {
      ConfiguredKeepsPositions(before, m.id, offset, value, ram.view);
      FitsPositions(d, before, m.Regs(), ram);
    } else {
      RejectedIsGuest(before, m.id, offset, value, ram.view);
    }
  }

  /** A configuration write, counted and ignored if a lenient device rejects it. */
  method WriteConfig(m: Mmio, d: Device, offset: nat, value: nat, ram: GuestRam)
    returns (r: Result<Unit, DeviceError>, ghost e: Event)
    requires Inv(m.Regs(), m.id) && d.Fits(m.Regs(), ram)
    modifies m, m.queues, d.Parts()
    ensures Inv(m.Regs(), m.id) && ram.view == old(ram.view)
    ensures e.Configure? && e.view == ram.view && e.offset == offset && e.value == value
    ensures (State(m.Regs(), m.rejected), r) == Step(State(old(m.Regs()), old(m.rejected)), m.id, e)
    ensures r.Ok? ==> d.Fits(m.Regs(), ram)
    ensures d.Sound() && r.Err? ==> m.id.strict && r.error.IsGuest()
    ensures d.Mem? ==> d.memory.control.pluggedSizeMib == old(d.memory.control.pluggedSizeMib)
  {
    if offset == 0x70 && value == 0 {
      r, e := WriteReset(m, d, ram);
      assert r.Ok? ==> r.value.Unit?;
    } else {
      e := Event.Configure(offset, value, ram.view, Ok(Unit));
      r := WriteRegister(m, d, offset, value, ram);
      assert r.Ok? ==> r.value.Unit?;
      if r.Err? && !m.id.strict {
        m.rejected := m.rejected + 1;
        r := Ok(Unit);
      }
    }
  }

  /** A 32-bit register write: a notification or a configuration write. It is the step `e`
      of the transport, with what the device really did. */
  method Write(m: Mmio, d: Device, offset: nat, value: nat, ram: GuestRam)
    returns (r: Result<Unit, DeviceError>, ghost e: Event)
    requires Inv(m.Regs(), m.id) && d.Fits(m.Regs(), ram)
    modifies m, m.queues, ram, d.Parts()
    ensures Inv(m.Regs(), m.id) && ram.view.regions == old(ram.view.regions)
    ensures if offset == 0x50 then e.Notify? && e.queue == value
            else e.Configure? && e.view == old(ram.view) && e.offset == offset && e.value == value
    ensures Calls(e) ==> Contractual(old(m.Regs()), e.call)
    ensures (State(m.Regs(), m.rejected), r) == Step(State(old(m.Regs()), old(m.rejected)), m.id, e)
    ensures r.Ok? ==> d.Fits(m.Regs(), ram)
    ensures d.Sound() && r.Err? ==> m.id.strict && r.error.IsGuest()
    ensures d.Mem? ==> d.memory.control.pluggedSizeMib == old(d.memory.control.pluggedSizeMib)
  {
    if offset == 0x50 {
      ghost var call;
      r, call := Notify(m, d, value, ram);
      e := Event.Notify(value, call);
    } else {
      r, e := WriteConfig(m, d, offset, value, ram);
    }
  }

  /** What the run loop does to a device: poll it, or write one of its registers. */
  datatype Doing = Polling | Writing(offset: nat, value: nat)

  method Act(m: Mmio, d: Device, doing: Doing, ram: GuestRam) returns (r: Result<Unit, DeviceError>, ghost e: Event)
    requires Inv(m.Regs(), m.id) && d.Fits(m.Regs(), ram)
    modifies m, m.queues, ram, d.Parts()
    ensures Inv(m.Regs(), m.id) && ram.view.regions == old(ram.view.regions)
    ensures e.Configure? ==> e.view == old(ram.view)
    ensures Calls(e) ==> Contractual(old(m.Regs()), e.call)
    ensures (State(m.Regs(), m.rejected), r) == Step(State(old(m.Regs()), old(m.rejected)), m.id, e)
    ensures r.Ok? ==> d.Fits(m.Regs(), ram)
    ensures d.Sound() && r.Err? ==> m.id.strict && r.error.IsGuest()
    ensures d.Mem? ==> d.memory.control.pluggedSizeMib == old(d.memory.control.pluggedSizeMib)
  {
    match doing {
      case Polling =>
        ghost var call;
        r, call := Poll(m, d, ram);
        e := Event.Poll(call);
      case Writing(offset, value) =>
        r, e := Write(m, d, offset, value, ram);
    }
  }
}
