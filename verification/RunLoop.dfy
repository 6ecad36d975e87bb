/** The run loop over all devices of a VM: control requests, polls, hot-plug and trapped
    accesses in any order, with any guest writes between them. Whatever the guest does,
    after every turn the ready rings of every device that is not isolated are guest
    memory, and with a host that does not fail a lenient VM never fails either. */
module RunLoop {
  import opened Wrappers
  import opened Errors
  import opened GuestMemory
  import opened Mappings
  import opened Transaction
  import opened HotplugMemory
  import opened Transport
  import opened Runtime
  import opened RunSafety
  import opened Devices
  import opened Net
  import opened Receive
  import L = Layout

  datatype Operation = Pause | Resume

  datatype Access = Access(space: L.Space, address: nat, width: nat, write: bool, value: nat)

  /** What the platform's event poll returns; an access comes with the host's results of
      serving the UART and of completing it. */
  datatype Polled = Idle | Shutdown | Io(access: Access, uart: bool, completed: bool) | Broken

  /** One pass of the loop, with everything it is told from outside: a control request and
      the platform's answer, or a pass over the devices; or another thread asks for a new
      memory size. `writes(k)` is guest memory when
      the loop next looks at it: the guest runs all the time. */
  datatype Turn =
    | Ask(operation: Operation, outcome: Result<bool, Unit>)
    | Retarget(mib: nat)
    | Pass(input: bool, irqs: bool, writes: nat -> map<nat, byte>, pause: Option<bool>, resume: bool, polled: Polled)

  /** The loop's state after a turn. */
  datatype Snapshot = Snapshot(fleet: seq<Registers>, view: View, blocks: map<nat, Region>,
                               table: map<nat, Region>, paused: bool)

  /** Offset and width name a register or a configuration field. */
  predicate Decodes(write: bool, offset: nat, width: nat) {
    if write then width == 4
    else width in {1, 2, 4, 8} && if 0x100 <= offset < 0x1000 then offset + width <= 0x1000 else width == 4
  }

  /** The access starts in some device's window. */
  ghost predicate Mapped(m: L.Machine, a: Access) {
    m.uart.Has(a.space, a.address) || exists k :: 0 <= k < |m.virtio| && m.virtio[k].Has(a.space, a.address)
  }

  ghost predicate Handled(m: L.Machine, polled: Polled) {
    match polled
    case Broken => false
    case Io(access, uart, completed) => Mapped(m, access) && uart && completed
    case _ => true
  }

  /** The host does its part of a turn, and an access is to some device. */
  ghost predicate Cooperative(m: L.Machine, t: Turn) {
    match t
    case Ask(_, outcome) => outcome.Ok?
    case Retarget(_) => true
    case Pass(input, irqs, _, pause, resume, polled) => input && irqs && pause.Some? && resume && Handled(m, polled)
  }

  ghost predicate AllCooperative(m: L.Machine, turns: seq<Turn>) {
    forall k :: 0 <= k < |turns| ==> Cooperative(m, turns[k])
  }

  class Machine {
    const devices: seq<Mmio>
    const parts: seq<Device>
    const mapper: MappingTable
    const ram: GuestRam
    const layout: L.Machine
    const needs: L.Needs
    const strict: bool
    /** The base RAM that is mapped. */
    ghost const base: map<nat, Region>

    constructor (devices: seq<Mmio>, parts: seq<Device>, mapper: MappingTable, ram: GuestRam, layout: L.Machine,
                 needs: L.Needs, strict: bool, ghost base: map<nat, Region>)
      ensures this.devices == devices && this.parts == parts && this.mapper == mapper && this.ram == ram
      ensures this.layout == layout && this.needs == needs && this.strict == strict && this.base == base
    {
      this.devices, this.parts, this.mapper, this.ram := devices, parts, mapper, ram;
      this.layout, this.needs, this.strict, this.base := layout, needs, strict, base;
    }

    /** Devices have their own transports; there is at most one network device
        and one memory device, and the latter comes last. */
    ghost predicate Assembled() {
      && |devices| == |parts| && Apart(devices)
      && (forall i :: 0 <= i < |devices| ==> devices[i].id.strict == strict)
      && (forall i :: 0 <= i < |parts| && parts[i].Mem? ==> i == |parts| - 1)
      && (forall i, j :: 0 <= i < |parts| && 0 <= j < |parts| && parts[i].Nic? && parts[j].Nic? ==> i == j)
    }

    /** Each device has its window of an accepted layout. */
    ghost predicate Placed() {
      L.Acceptable(layout, needs) && |devices| == |layout.virtio|
    }

    predicate HasMemory() {
      parts != [] && parts[|parts| - 1].Mem?
    }

    function Memory(): VirtioMem
      requires HasMemory()
    {
      parts[|parts| - 1].memory
    }

    /** The objects that the i-th device's state is in. */
    ghost function Objects(i: nat): set<object>
      requires i < |devices| == |parts|
    {
      {devices[i], devices[i].queues} + parts[i].State()
    }

    /** Everything that an access to the i-th device may change. */
    ghost function Touched(i: nat): set<object>
      requires i < |devices| == |parts|
    {
      {devices[i], devices[i].queues, ram} + parts[i].Parts()
    }

    ghost function MemoryObjects(): set<object> {
      {mapper, ram} + if HasMemory() then {Memory(), Memory().control} else {}
    }

    /** Everything the loop may change. */
    ghost function Owned(): (s: set<object>)
      requires |devices| == |parts|
      ensures forall i :: 0 <= i < |devices| ==> devices[i] in s && devices[i].queues in s && parts[i].Parts() <= s
    {
      DeviceObjects(|devices|) + MemoryObjects()
    }

    ghost function DeviceObjects(n: nat): (s: set<object>)
      requires n <= |devices| == |parts|
      ensures forall i :: 0 <= i < n ==> devices[i] in s && devices[i].queues in s && parts[i].Parts() <= s
    {
      if n == 0 then {} else DeviceObjects(n - 1) + {devices[n - 1], devices[n - 1].queues} + parts[n - 1].Parts()
    }

    /** Nothing else is owned. */
    lemma {:induction false} DeviceObjectsWithin(n: nat, s: set<object>)
      requires n <= |devices| == |parts|
      requires forall i :: 0 <= i < n ==> devices[i] in s && devices[i].queues in s && parts[i].Parts() <= s
      ensures DeviceObjects(n) <= s
    {
      if n != 0 {
        DeviceObjectsWithin(n - 1, s);
      }
    }

    ghost predicate Good(i: nat)
      requires i < |devices| == |parts|
      reads Objects(i)
    {
      Inv(devices[i].Regs(), devices[i].id) && parts[i].Fits(devices[i].Regs(), ram)
    }

    ghost predicate AllGood()
      requires |devices| == |parts|
      reads Owned()
    {
      forall i :: 0 <= i < |devices| ==> Good(i)
    }

    /** Block table, mappings and guest view are in step. */
    ghost predicate MemoryOk()
      reads MemoryObjects()
    {
      && mapper.Valid()
      && if HasMemory() then Memory().Valid() && Memory().Accounted() && Memory().Agrees(mapper.table, ram.view, base)
         else mapper.table == base
    }

    /** What even a fatal error leaves: a table of disjoint mappings, and blocks on the grid of
        a window that base RAM stays out of. */
    ghost predicate BooksSound()
      reads MemoryObjects()
    {
      && mapper.Valid()
      && (HasMemory() ==> Memory().Valid() && Outside(base, Memory().start, Memory().capacity))
    }

    ghost predicate Valid()
      requires |devices| == |parts|
      reads Owned()
    {
      && Assembled() && AllGood() && SafeRings(Fleet(devices), ram.view) && MemoryOk()
    }

    /** Different devices share no state. */
    lemma ObjectsApart(i: nat, j: nat)
      requires Assembled() && i < |devices| && j < |devices| && i != j
      ensures Touched(i) !! Objects(j)
    {
      assert ApartAt(devices, i, j) && ApartAt(devices, j, i);
      assert parts[j].Nic? ==> !parts[i].Nic?;
    }

    /** No access reaches the mapper or the block table. */
    lemma BooksApart(i: nat)
      requires i < |devices| == |parts|
      ensures mapper !in Touched(i) && (HasMemory() ==> Memory() !in Touched(i))
    {
      MapperApart(parts[i], devices[i], ram, mapper);
      if HasMemory() {
        TableApart(parts[i], devices[i], ram, Memory());
      }
    }

    static lemma MapperApart(d: Device, m: Mmio, ram: GuestRam, mapper: MappingTable)
      ensures mapper !in {m, m.queues, ram} + d.Parts()
    {
    }

    static lemma RamApart(d: Device, m: Mmio, ram: GuestRam)
      ensures ram !in {m, m.queues} + d.State()
    {
    }

    static lemma TableApart(d: Device, m: Mmio, ram: GuestRam, memory: VirtioMem)
      ensures memory !in {m, m.queues, ram} + d.Parts()
    {
    }

    /** What a hot-plug opportunity may change. */
    ghost function Served(): set<object>
      requires HasMemory()
    {
      Transports() + Rings() + {mapper, ram, Memory(), Memory().control}
    }

    ghost function Transports(): set<object> {
      set i | 0 <= i < |devices| :: devices[i]
    }

    ghost function Rings(): set<object> {
      QueuesOf(devices)
    }

    /** It does not reach a network device's own state. */
    lemma StateApart(i: nat)
      requires i < |devices| == |parts| && HasMemory()
      ensures parts[i].State() !! Served()
    {
      if parts[i].Nic? {
        SenderApart(parts[i].tx);
        ReceiverApart(parts[i].rx);
      }
    }

    lemma SenderApart(tx: Transmitter)
      requires HasMemory()
      ensures tx !in Served()
    {
      assert forall k :: 0 <= k < |devices| ==> tx as object != devices[k];
      assert forall k :: 0 <= k < |devices| ==> tx as object != devices[k].queues;
    }

    lemma ReceiverApart(rx: Receiver)
      requires HasMemory()
      ensures rx !in Served()
    {
      assert forall k :: 0 <= k < |devices| ==> rx as object != devices[k];
      assert forall k :: 0 <= k < |devices| ==> rx as object != devices[k].queues;
    }

    /** An access leaves the memory books alone. */
    twostate lemma MemoryKept()
      requires old(MemoryOk()) && unchanged(mapper) && ram.view.regions == old(ram.view.regions)
      requires HasMemory() ==> && unchanged(Memory())
                               && Memory().control.pluggedSizeMib == old(Memory().control.pluggedSizeMib)
      ensures MemoryOk()
    {
      assert mapper.Valid();
      if HasMemory() {
        var m := Memory();
        assert m.Valid();
        assert m.Accounted();
        assert m.Agrees(mapper.table, ram.view, base);
      }
    }

    /** No backend, allocation or hypervisor call ever fails. */
    ghost predicate HostFine() {
      && (forall i :: 0 <= i < |parts| ==> parts[i].Sound())
      && Reliable(mapper.host) && (HasMemory() ==> Reliable(Memory().allocation))
    }

    /** The guest runs and writes its memory. */
    method GuestRuns(bytes: map<nat, byte>)
      requires |devices| == |parts| && Valid()
      modifies ram
      ensures Valid()
    {
      ghost var v := ram.view;
      forall i | 0 <= i < |devices| ensures ram !in Objects(i) && Good(i) {
        RamApart(parts[i], devices[i], ram);
      }
      ram.view := View(ram.view.regions, bytes);
      MemoryKept();
      SafeAlike(Fleet(devices), v, ram.view);
    }

    /** Poll or write one device: a step of its own transport, which no other notices. */
    method DoAlone(i: nat, doing: Doing) returns (r: Result<Unit, DeviceError>, ghost e: Event)
      requires |devices| == |parts| && Valid() && i < |devices|
      modifies Touched(i)
      ensures Accessed(old(Fleet(devices)), Fleet(devices), i, old(devices[i].rejected), devices[i].id, e,
                       old(ram.view), ram.view)
      ensures forall j :: 0 <= j < |devices| && (j == i ==> r.Ok?) ==> Good(j)
      ensures HasMemory() ==> Memory().control.pluggedSizeMib == old(Memory().control.pluggedSizeMib)
      ensures HostFine() && r.Err? ==> strict && r.error.IsGuest()
    {
      assert Good(i);
      ghost var before, rejected := Fleet(devices), devices[i].rejected;
      r, e := Devices.Act(devices[i], parts[i], doing, ram);
      forall j | 0 <= j < |devices| && j != i ensures devices[j].Regs() == before[j] && Good(j) {
        ObjectsApart(i, j);
      }
      assert Fleet(devices) == before[i := Step(State(before[i], rejected), devices[i].id, e).0.regs];
    }

    /** So it keeps the whole machine valid. */
    method DoOne(i: nat, doing: Doing) returns (r: Result<Unit, DeviceError>)
      requires |devices| == |parts| && Valid() && i < |devices|
      modifies Touched(i)
      ensures MemoryOk() && (r.Ok? ==> Valid())
      ensures HostFine() && r.Err? ==> strict && r.error.IsGuest()
    {
      ghost var before, v, rejected := Fleet(devices), ram.view, devices[i].rejected;
      assert Good(i);
      ghost var e;
      BooksApart(i);
      r, e := DoAlone(i, doing);
      MemoryKept();
      AccessKeepsSafe(before, Fleet(devices), i, rejected, devices[i].id, e, v, ram.view);
    }

    /** Poll every device, with the guest running in between. */
    method PollAll(writes: nat -> map<nat, byte>) returns (r: Result<Unit, DeviceError>)
      requires |devices| == |parts| && Valid()
      modifies Owned()
      ensures MemoryOk() && (r.Ok? ==> Valid())
      ensures HostFine() && r.Err? ==> strict && r.error.IsGuest()
    {
      var i := 0;
      while i < |devices|
        invariant i <= |devices| && Valid()
      {
        GuestRuns(writes(i));
        r := DoOne(i, Polling);
        if r.Err? {
          return;
        }
        i := i + 1;
      }
      return Ok(Unit);
    }

    /** Let the memory device process its queue. */
    method ServeMemory(pause: Option<bool>, resume: bool) returns (r: Result<Flow, RunError>)
      requires |devices| == |parts| && Valid() && HasMemory()
      modifies Served()
      ensures AllOk(devices)
      ensures r.Ok? ==> LastMoved(old(Fleet(devices)), Fleet(devices)) && SafeRings(Fleet(devices), ram.view)
      ensures BooksSound() && (r.Ok? || !r.error.IsHost() ==> MemoryOk())
      ensures HostFine() && r.Err? ==> !r.error.IsHost()
      ensures HostFine() && pause.Some? && resume && r.Err? ==> strict
    {
      assert Good(|devices| - 1);
      assert AllOk(devices) by {
        forall i | 0 <= i < |devices| ensures Inv(devices[i].Regs(), devices[i].id) {
          assert Good(i);
        }
      }
      ghost var ran, seen, taken;
      r, ran, seen, taken := ProcessMemory(devices, Memory(), mapper, ram, base, pause, resume);
    }

    lemma LastMovedFits(before: seq<Registers>, after: seq<Registers>, i: nat)
      requires |devices| == |parts| == |before| && LastMoved(before, after) && HasMemory() && i < |devices|
      requires parts[i].Fits(before[i], ram)
      requires parts[i].Mem? ==> i == |parts| - 1
      ensures parts[i].Fits(after[i], ram)
    {
    }

    /** Give the memory device its chance, if there is one. */
    method Hotplug(pause: Option<bool>, resume: bool) returns (r: Result<Flow, RunError>)
      requires |devices| == |parts| && Valid()
      modifies Owned()
      ensures r.Ok? ==> Valid()
      ensures BooksSound() && (r.Ok? || !r.error.IsHost() ==> MemoryOk())
      ensures HostFine() && r.Err? ==> !r.error.IsHost()
      ensures HostFine() && pause.Some? && resume && r.Err? ==> strict
    {
      if !HasMemory() {
        return Ok(Continue);
      }
      ghost var before := Fleet(devices);
      forall i | 0 <= i < |devices| ensures parts[i].State() !! Served() && parts[i].Fits(before[i], ram) {
        StateApart(i);
        assert Good(i);
      }
      r := ServeMemory(pause, resume);
      if r.Ok? {
        forall i | 0 <= i < |devices| ensures Good(i) {
          LastMovedFits(before, Fleet(devices), i);
        }
      }
    }

    // -------------------------------------------------------------------------
    // Trapped accesses

    /** The access starts in this device's window. */
    ghost predicate Found(t: L.Target, a: Access) {
      && (t.Uart? ==> layout.uart.Has(a.space, a.address))
      && (t.Slot? ==> t.k < |devices| && t.k < |layout.virtio| && layout.virtio[t.k].Has(a.space, a.address))
    }

    /** Find the device in whose window an access starts. */
    method Locate(a: Access) returns (t: L.Target)
      requires |devices| == |parts| && Valid() && Placed()
      ensures Valid() && Found(t, a)
      ensures t.Unmapped? <==> !Mapped(layout, a)
    {
      t := Decoded(a);
      assert AllGood() by {
        forall i | 0 <= i < |devices| ensures Good(i) {
        }
      }
      assert MemoryOk();
      assert SafeRings(Fleet(devices), ram.view);
    }

    method Decoded(a: Access) returns (t: L.Target)
      requires Placed()
      ensures Found(t, a) && (t.Unmapped? <==> !Mapped(layout, a))
    {
      t := L.Decode(layout, needs, a.space, a.address);
    }

    /** An access to a virtio window: false if it decodes to no register. */
    method AccessDevice(k: nat, a: Access) returns (r: Result<bool, DeviceError>)
      requires |devices| == |parts| && Valid() && k < |devices| && k < |layout.virtio|
      requires layout.virtio[k].Has(a.space, a.address)
      modifies Owned()
      ensures MemoryOk() && (r.Ok? ==> Valid())
      ensures HostFine() && r.Err? ==> strict && r.error.IsGuest()
    {
      var region := layout.virtio[k];
      var offset := a.address - region.address;
      if !(a.width in {1, 2, 4, 8} && offset + a.width <= region.size && Decodes(a.write, offset, a.width)) {
        return Ok(false);
      }
      if a.write {
        var done := DoOne(k, Writing(offset, a.value));
        if done.Err? {
          return Err(done.error);
        }
      }
      return Ok(true);
    }

    /** Let the device that was found serve the access. */
    method Reach(target: L.Target, a: Access, uart: bool) returns (r: Result<bool, RunError>)
      requires |devices| == |parts| && Valid() && !target.Unmapped?
      requires Found(target, a)
      modifies Owned()
      ensures MemoryOk() && (r.Ok? ==> Valid())
      ensures r.Err? ==> r.error.Device? || (r.error.SerialPort? && !uart)
      ensures HostFine() && r.Err? && r.error.Device? ==> strict && r.error.error.IsGuest()
    {
      if target.Uart? {
        var decoded := a.address - layout.uart.address < 8 && a.width == 1;
        return if decoded && a.write && !uart then Err(SerialPort) else Ok(decoded);
      }
      var served := AccessDevice(target.k, a);
      r := if served.Err? then Err(Device(served.error)) else Ok(served.value);
    }

    /** Serve an access: it reaches the only device in whose window it starts. What decodes
        to no register is an error in strict mode and ignored in lenient mode. */
    method HandleIo(a: Access, uart: bool, completed: bool) returns (r: Result<Unit, RunError>)
      requires |devices| == |parts| && Valid() && Placed()
      modifies Owned()
      ensures MemoryOk() && (r.Ok? ==> Valid())
      ensures r.Err? && r.error.UnmappedIo? <==> !Mapped(layout, a)
      ensures HostFine() && r.Err? ==> !r.error.IsHost()
      ensures HostFine() && Mapped(layout, a) && uart && completed && r.Err? ==> strict
    {
      var target := Locate(a);
      if target.Unmapped? {
        return Err(UnmappedIo);
      }
      var decoded := Reach(target, a, uart);
      if decoded.Err? {
        return Err(decoded.error);
      }
      if !decoded.value && strict {
        return Err(InvalidAccess);
      }
      r := if completed then Ok(Unit) else Err(Platform);
    }

    // -------------------------------------------------------------------------
    // The loop

    /** What the platform's event asks for: false to end the loop. */
    method HandleEvent(polled: Polled) returns (r: Result<bool, RunError>)
      requires |devices| == |parts| && Valid() && Placed()
      modifies Owned()
      ensures MemoryOk() && (r.Ok? ==> Valid())
      ensures HostFine() && r.Err? ==> !r.error.IsHost()
      ensures HostFine() && Handled(layout, polled) && r.Err? ==> strict
    {
      match polled {
        case Idle => return Ok(true);
        case Shutdown => return Ok(false);
        case Broken => return Err(Platform);
        case Io(access, uart, completed) =>
          var done := HandleIo(access, uart, completed);
          return if done.Err? then Err(done.error) else Ok(true);
      }
    }

    /** One pass over the devices: false to end the loop. */
    method OnePass(t: Turn) returns (r: Result<bool, RunError>)
      requires |devices| == |parts| && Valid() && Placed() && t.Pass?
      modifies Owned()
      ensures r.Ok? ==> Valid()
      ensures BooksSound() && (r.Ok? || !r.error.IsHost() ==> MemoryOk())
      ensures HostFine() && r.Err? ==> !r.error.IsHost()
      ensures HostFine() && Cooperative(layout, t) && r.Err? ==> strict
    {
      if !t.input {
        return Err(SerialPort);
      }
      var all := PollAll(t.writes);
      if all.Err? {
        return Err(Device(all.error));
      }
      GuestRuns(t.writes(|devices|));
      var flow := Hotplug(t.pause, t.resume);
      if flow.Err? {
        return Err(flow.error);
      }
      if flow.value.Break? {
        return Ok(false);
      }
      if !t.irqs {
        return Err(Platform);
      }
      GuestRuns(t.writes(|devices| + 1));
      r := HandleEvent(t.polled);
    }

    ghost function Snap(paused: bool): Snapshot
      requires |devices| == |parts|
      reads Owned()
    {
      Snapshot(Fleet(devices), ram.view, if HasMemory() then Memory().blocks else map[], mapper.table, paused)
    }

    /** Ready rings of devices that are not isolated are guest memory, and the mappings and
        the guest view hold exactly base RAM and the plugged blocks. */
    ghost predicate Safe(s: Snapshot) {
      && SafeRings(s.fleet, s.view)
      && (HasMemory() ==> s.table == base + s.blocks && s.view.regions == Lengths(s.table))
    }

    /** A held VM is left alone: from pause to resume nothing changes. */
    ghost predicate HoldsStill(s: Snapshot, t: Snapshot) {
      s.paused && t.paused ==> t == s
    }

    /** The platform is asked only for a change of state. */
    static function Answer(operation: Operation, paused: bool, outcome: Result<bool, Unit>): Result<bool, Unit> {
      if operation.Pause? != paused then outcome else Ok(false)
    }

    lemma SnapIsSafe(paused: bool)
      requires |devices| == |parts| && Valid()
      ensures Safe(Snap(paused))
    {
    }

    /** Every state is safe, and a held VM is left alone. */
    ghost predicate History(trace: seq<Snapshot>) {
      && (forall i :: 0 <= i < |trace| ==> Safe(trace[i]))
      && (forall i, j {:trigger trace[i], trace[j]} :: 0 <= i && j == i + 1 && j < |trace| ==>
                                                         HoldsStill(trace[i], trace[j]))
    }

    lemma HistoryGrows(trace: seq<Snapshot>, s: Snapshot)
      requires History(trace) && Safe(s) && (trace != [] ==> HoldsStill(trace[|trace| - 1], s))
      ensures History(trace + [s])
    {
    }

    lemma ControlApart(i: nat)
      requires i < |devices| == |parts| && HasMemory()
      ensures Memory().control !in Objects(i)
    {
      RequestApart(parts[i], devices[i], Memory().control);
    }

    static lemma RequestApart(d: Device, m: Mmio, control: MemoryControl)
      ensures control !in {m, m.queues} + d.State()
    {
    }

    /** A new memory target, accepted or not, takes effect only at the next pass. */
    method SetTarget(mib: nat)
      requires |devices| == |parts| && Valid()
      modifies if HasMemory() then {Memory().control} else {}
      ensures Valid() && forall p :: Snap(p) == old(Snap(p))
    {
      if HasMemory() {
        forall i | 0 <= i < |devices| ensures Memory().control !in Objects(i) && Good(i) {
          ControlApart(i);
        }
        var done := Memory().control.SetRequestedMib(mib);
        MemoryKept();
      }
    }

    /** One turn: a control request, a new memory target, or a pass over the devices; no pass
        while paused. */
    method TakeTurn(t: Turn, paused: bool) returns (r: Result<bool, RunError>, now: bool)
      requires |devices| == |parts| && Valid() && Placed()
      modifies Owned()
      ensures r.Ok? ==> Valid() && HoldsStill(old(Snap(paused)), Snap(now))
      ensures BooksSound() && (r.Ok? || !r.error.IsHost() ==> MemoryOk())
      ensures HostFine() && r.Err? ==> !r.error.IsHost()
      ensures HostFine() && Cooperative(layout, t) && r.Err? ==> strict
    {
      now := paused;
      if t.Ask? {
        var stopping := Answer(t.operation, paused, t.outcome);
        if stopping.Err? {
          return Err(Platform), now;
        }
        now := if stopping.value then paused else t.operation.Pause?;
        return Ok(!stopping.value), now;
      }
      if t.Retarget? {
        SetTarget(t.mib);
        return Ok(true), now;
      }
      if paused {
        return Ok(true), now;
      }
      r := OnePass(t);
    }

    /** Run turn after turn until told to end. */
    method Run(turns: seq<Turn>) returns (r: Result<Unit, RunError>, ghost trace: seq<Snapshot>)
      requires |devices| == |parts| && Valid() && Placed()
      modifies Owned()
      ensures History(trace)
      ensures r.Ok? ==> Valid()
      ensures BooksSound() && (r.Ok? || !r.error.IsHost() ==> MemoryOk())
      ensures HostFine() && r.Err? ==> !r.error.IsHost()
      ensures HostFine() && !strict && AllCooperative(layout, turns) ==> r.Ok?
    {
      var paused, n := false, 0;
      SnapIsSafe(false);
      trace := [Snap(false)];
      while n < |turns|
        invariant n <= |turns| && Valid() && trace != [] && trace[|trace| - 1] == Snap(paused) && History(trace)
      {
        var more;
        more, paused := TakeTurn(turns[n], paused);
        if more.Err? {
          return Err(more.error), trace;
        }
        SnapIsSafe(paused);
        HistoryGrows(trace, Snap(paused));
        trace := trace + [Snap(paused)];
        if !more.value {
          break;
        }
        n := n + 1;
      }
      return Ok(Unit), trace;
    }
  }
}
