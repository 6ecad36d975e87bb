/** The whole program of a VM: assemble the devices, map base RAM, run the loop, stop and
    clean up, and report the first error. */
module Program {
  import opened Wrappers
  import opened Errors
  import opened GuestMemory
  import opened Mappings
  import opened Transaction
  import opened HotplugMemory
  import opened Transport
  import opened Runtime
  import opened Devices
  import opened RunLoop
  import opened Shutdown
  import opened EndToEnd
  import opened Net
  import L = Layout

  datatype VmError = Start(refused: MemoryError) | Loop(error: RunError) | Fault | Cleaning(cleanup: CleanupError)

  ghost function Depends(d: Device): set<object> {
    d.State() + if d.Mem? then {d.memory, d.memory.control} else {}
  }

  ghost function AllDepends(parts: seq<Device>): (s: set<object>)
    ensures forall i :: 0 <= i < |parts| ==> Depends(parts[i]) <= s
  {
    if parts == [] then {} else AllDepends(parts[..|parts| - 1]) + Depends(parts[|parts| - 1])
  }

  lemma {:induction false} MapperApart(parts: seq<Device>, mapper: MappingTable)
    ensures mapper !in AllDepends(parts)
  {
    if parts != [] {
      MapperApart(parts[..|parts| - 1], mapper);
    }
  }

  /** A device that has not been used, and can be attached to this machine. */
  ghost predicate Unused(d: Device, m: L.Machine)
    reads Depends(d)
  {
    match d
    case Blk(drive) => drive.Valid()
    case Nic(tx, rx) => rx.Valid() && tx.Settled() && tx.ledger == Ledger([], [], [])
    case Mem(memory) =>
      && memory.Valid() && memory.Accounted() && memory.blocks == map[]
      && m.hotplug == Some(Range(memory.start, memory.capacity))
  }

  ghost predicate AllUnused(parts: seq<Device>, m: L.Machine)
    reads AllDepends(parts)
  {
    forall i :: 0 <= i < |parts| ==> Unused(parts[i], m)
  }

  ghost predicate Composed(parts: seq<Device>) {
    && (forall i :: 0 <= i < |parts| && parts[i].Mem? ==> i == |parts| - 1)
    && (forall i, j :: 0 <= i < |parts| && 0 <= j < |parts| && parts[i].Nic? && parts[j].Nic? ==> i == j)
  }

  /** A transport as created for a device: reset, with no queue ready. */
  ghost predicate Blank(m: Mmio, d: Device, strict: bool)
    reads m, m.queues
  {
    && Inv(m.Regs(), m.id) && m.id.strict == strict && |m.queues.rings| == d.QueueCount()
    && forall k :: 0 <= k < |m.queues.rings| ==> !m.queues.rings[k].ready
  }

  /** Give every device its transport. */
  method Attach(parts: seq<Device>, strict: bool) returns (devices: seq<Mmio>)
    ensures |devices| == |parts| && Apart(devices)
    ensures forall i :: 0 <= i < |devices| ==> fresh(devices[i]) && fresh(devices[i].queues)
    ensures forall i :: 0 <= i < |devices| ==> Blank(devices[i], parts[i], strict)
  {
    devices := [];
    while |devices| < |parts|
      invariant |devices| <= |parts| && Apart(devices)
      invariant forall i :: 0 <= i < |devices| ==> fresh(devices[i]) && fresh(devices[i].queues)
      invariant forall i :: 0 <= i < |devices| ==> Blank(devices[i], parts[i], strict)
    {
      var d := parts[|devices|];
      var m := new Mmio(d.QueueCount(), d.Features(), d.Required(), strict);
      ghost var n := |devices|;
      forall i, j ensures ApartAt(devices + [m], i, j) {
        assert ApartAt(devices, i, j);
      }
      devices := devices + [m];
    }
  }

  function MemoryOf(parts: seq<Device>): Option<VirtioMem> {
    if parts != [] && parts[|parts| - 1].Mem? then Some(parts[|parts| - 1].memory) else None
  }

  /** Everything the devices own. */
  ghost function Belongings(parts: seq<Device>): (s: set<object>)
    ensures forall i :: 0 <= i < |parts| ==> parts[i].Parts() <= s
    ensures MemoryOf(parts).Some? ==> MemoryOf(parts).value in s && MemoryOf(parts).value.control in s
  {
    (if parts == [] then {} else Belongings(parts[..|parts| - 1]) + parts[|parts| - 1].Parts()) +
    if MemoryOf(parts).Some? then {MemoryOf(parts).value, MemoryOf(parts).value.control} else {}
  }

  /** A memory device without blocks agrees with base RAM that stays out of its window. */
  lemma NoBlocksAgree(memory: VirtioMem, base: map<nat, Region>, bytes: map<nat, byte>)
    requires memory.blocks == map[] && TableOk(base) && Outside(base, memory.start, memory.capacity)
    ensures memory.Agrees(base, View(Lengths(base), bytes), base)
  {
    assert base + map[] == base;
  }

  lemma BlankIsSafe(devices: seq<Mmio>, parts: seq<Device>, strict: bool, v: View)
    requires |devices| == |parts| && forall i :: 0 <= i < |devices| ==> Blank(devices[i], parts[i], strict)
    ensures SafeRings(Fleet(devices), v)
  {
    forall i | 0 <= i < |devices| ensures RingsInView(Fleet(devices)[i], v) {
      assert Blank(devices[i], parts[i], strict);
    }
  }

  /** An unused device fits its blank transport. */
  lemma BlankFits(d: Device, t: Mmio, m: L.Machine, strict: bool, ram: GuestRam)
    requires Unused(d, m) && Blank(t, d, strict) && (d.Blk? ==> ram != d.drive.disk.image)
    ensures d.Fits(t.Regs(), ram)
  {
  }

  /** Base RAM that stays out of the memory device's window. */
  ghost predicate Suits(base: map<nat, Region>, parts: seq<Device>)
    reads if MemoryOf(parts).Some? then {MemoryOf(parts).value} else {}
  {
    TableOk(base) && (MemoryOf(parts).Some? ==> Outside(base, MemoryOf(parts).value.start, MemoryOf(parts).value.capacity))
  }

  /** The assembled machine, with all base RAM mapped and any contents in it. */
  method Build(m: L.Machine, needs: L.Needs, parts: seq<Device>, strict: bool, mapper: MappingTable,
               bytes: map<nat, byte>)
    returns (machine: Machine)
    requires Composed(parts) && AllUnused(parts, m)
    requires mapper.Valid() && Suits(mapper.table, parts)
    ensures machine.parts == parts && machine.mapper == mapper && machine.base == mapper.table
    ensures machine.strict == strict && machine.layout == m && machine.needs == needs
    ensures |machine.devices| == |machine.parts| && machine.Valid()
    ensures fresh(machine.ram) && fresh(machine.Transports()) && fresh(machine.Rings())
  {
    var ram := new GuestRam(View(Lengths(mapper.table), bytes));
    var devices := Attach(parts, strict);
    machine := new Machine(devices, parts, mapper, ram, m, needs, strict, mapper.table);
    if machine.HasMemory() {
      assert Unused(parts[|parts| - 1], m);
      NoBlocksAgree(machine.Memory(), mapper.table, bytes);
    }
    forall i | 0 <= i < |parts| ensures machine.Good(i) {
      BlankFits(parts[i], devices[i], m, strict, ram);
    }
    BlankIsSafe(devices, parts, strict, ram.view);
  }

  /** What a run leaves of the memory books: blocks outside base RAM and, unless the host
      failed, mappings of exactly base RAM and the blocks. */
  ghost predicate LeftInStep(memory: Option<VirtioMem>, table: map<nat, Region>, base: map<nat, Region>)
    reads if memory.Some? then {memory.value} else {}
  {
    base.Keys !! BlocksOf(memory).Keys && table == base + BlocksOf(memory)
  }

  lemma BlocksOutside(memory: VirtioMem, base: map<nat, Region>)
    requires memory.Valid() && TableOk(base) && Outside(base, memory.start, memory.capacity)
    ensures base.Keys !! memory.blocks.Keys
  {
    GridTable(base, memory.blocks, memory.start, memory.capacity, memory.blockSize);
  }

  /** The backends, the allocator and the hypervisor never fail. */
  ghost predicate HostNeverFails(parts: seq<Device>, host: nat -> bool) {
    && (forall i :: 0 <= i < |parts| ==> parts[i].Sound()) && Reliable(host)
    && (MemoryOf(parts).Some? ==> Reliable(MemoryOf(parts).value.allocation))
  }

  /** The loop is safe after every turn. */
  ghost predicate SafeThroughout(trace: seq<Snapshot>, base: map<nat, Region>, memory: bool) {
    forall i :: 0 <= i < |trace| ==>
                  && SafeRings(trace[i].fleet, trace[i].view)
                  && (memory ==> trace[i].table == base + trace[i].blocks && trace[i].view.regions == Lengths(trace[i].table))
  }

  lemma OwnedWithin(machine: Machine)
    requires |machine.devices| == |machine.parts|
    ensures machine.Owned() <=
            machine.Transports() + machine.Rings() + Belongings(machine.parts) + {machine.mapper, machine.ram}
  {
    machine.DeviceObjectsWithin(|machine.parts|, machine.Transports() + machine.Rings() + Belongings(machine.parts));
  }

  lemma BooksLeft(machine: Machine)
    requires machine.BooksSound() && TableOk(machine.base)
    ensures MemoryOf(machine.parts).Some? ==> MemoryOf(machine.parts).value.Valid()
    ensures machine.base.Keys !! BlocksOf(MemoryOf(machine.parts)).Keys
    ensures machine.MemoryOk() ==> LeftInStep(MemoryOf(machine.parts), machine.mapper.table, machine.base)
  {
    if machine.HasMemory() {
      BlocksOutside(machine.Memory(), machine.base);
    } else {
      assert machine.base + map[] == machine.base;
    }
  }

  lemma HostIsFine(machine: Machine)
    requires HostNeverFails(machine.parts, machine.mapper.host)
    ensures machine.HostFine()
  {
  }

  lemma HistoryIsSafe(machine: Machine, trace: seq<Snapshot>)
    requires machine.History(trace)
    ensures SafeThroughout(trace, machine.base, machine.HasMemory())
  {
    forall i | 0 <= i < |trace| ensures machine.Safe(trace[i]) {
    }
  }

  /** All that the machine may change is new or its own. */
  method BuildAlone(m: L.Machine, needs: L.Needs, parts: seq<Device>, strict: bool, mapper: MappingTable,
                    bytes: map<nat, byte>)
    returns (machine: Machine)
    requires Composed(parts) && AllUnused(parts, m)
    requires mapper.Valid() && Suits(mapper.table, parts)
    ensures machine.parts == parts && machine.mapper == mapper && machine.base == mapper.table
    ensures machine.strict == strict && machine.layout == m && machine.needs == needs
    ensures |machine.devices| == |machine.parts| && machine.Valid()
    ensures fresh(machine.Owned() - Belongings(parts) - {mapper})
  {
    machine := Build(m, needs, parts, strict, mapper, bytes);
    OwnedWithin(machine);
  }

  /** Run the loop of a machine, and take stock of the memory books. */
  method RunBuilt(machine: Machine, turns: seq<Turn>) returns (r: Result<Unit, RunError>, ghost trace: seq<Snapshot>)
    requires |machine.devices| == |machine.parts| && machine.Valid() && machine.Placed() && TableOk(machine.base)
    modifies machine.Owned()
    ensures machine.mapper.Valid() && SafeThroughout(trace, machine.base, machine.HasMemory())
    ensures MemoryOf(machine.parts).Some? ==> MemoryOf(machine.parts).value.Valid()
    ensures machine.base.Keys !! BlocksOf(MemoryOf(machine.parts)).Keys
    ensures HostNeverFails(machine.parts, machine.mapper.host) ==>
              LeftInStep(MemoryOf(machine.parts), machine.mapper.table, machine.base)
    ensures HostNeverFails(machine.parts, machine.mapper.host) && !machine.strict &&
            AllCooperative(machine.layout, turns) ==>
              r.Ok?
  {
    if HostNeverFails(machine.parts, machine.mapper.host) {
      HostIsFine(machine);
    }
    r, trace := machine.Run(turns);
    HistoryIsSafe(machine, trace);
    BooksLeft(machine);
  }

  /** Build the machine and run its loop. */
  method RunMachine(m: L.Machine, needs: L.Needs, parts: seq<Device>, strict: bool, mapper: MappingTable,
                    bytes: map<nat, byte>, turns: seq<Turn>)
    returns (r: Result<Unit, RunError>, ghost trace: seq<Snapshot>)
    requires L.Acceptable(m, needs) && needs.devices == |parts|
    requires Composed(parts) && AllUnused(parts, m)
    requires mapper.Valid() && Suits(mapper.table, parts)
    modifies mapper, Belongings(parts)
    ensures mapper.Valid() && SafeThroughout(trace, old(mapper.table), MemoryOf(parts).Some?)
    ensures MemoryOf(parts).Some? ==> MemoryOf(parts).value.Valid()
    ensures old(mapper.table).Keys !! BlocksOf(MemoryOf(parts)).Keys
    ensures HostNeverFails(parts, mapper.host) ==> LeftInStep(MemoryOf(parts), mapper.table, old(mapper.table))
    ensures HostNeverFails(parts, mapper.host) && !strict && AllCooperative(m, turns) ==> r.Ok?
  {
    var machine := BuildAlone(m, needs, parts, strict, mapper, bytes);
    r, trace := RunBuilt(machine, turns);
  }

  // ---------------------------------------------------------------------------
  // From start to end

  lemma {:induction false} LayoutSuits(m: L.Machine, needs: L.Needs, regions: seq<Region>, parts: seq<Device>)
    requires L.Acceptable(m, needs) && BaseOf(m, regions) && AllUnused(parts, m)
    ensures LaidOut(regions) && Suits(TableOf(regions, |regions|), parts)
    ensures MemoryOf(parts).Some? ==> MemoryOf(parts).value.Valid() && MemoryOf(parts).value.blocks == map[]
  {
    LayoutIsLaidOut(m, needs, regions);
    LaidOutTable(regions, |regions|);
    if MemoryOf(parts).Some? {
      assert Unused(parts[|parts| - 1], m);
      LayoutSuitsHotplug(m, needs, regions);
    }
  }

  lemma StartsMapped(regions: seq<Region>, blocks: map<nat, Region>)
    requires LaidOut(regions) && TableOf(regions, |regions|).Keys !! blocks.Keys
    ensures forall i :: 0 <= i < |regions| ==> regions[i].start !in blocks
  {
    forall i | 0 <= i < |regions| ensures regions[i].start !in blocks {
      TableOfHas(regions, |regions|, regions[i].start);
      assert regions[i].start in TableOf(regions, |regions|);
    }
  }

  /** What cleanup finds: sound books and, unless the host failed, exactly the base RAM so
      far mapped and the blocks. */
  ghost predicate ReadyToClean(parts: seq<Device>, mapper: MappingTable, regions: seq<Region>, mapped: nat)
    reads mapper, if MemoryOf(parts).Some? then {MemoryOf(parts).value} else {}
  {
    && mapper.Valid() && (MemoryOf(parts).Some? ==> MemoryOf(parts).value.Valid())
    && LaidOut(regions) && mapped <= |regions|
    && (forall i :: 0 <= i < mapped ==> regions[i].start !in BlocksOf(MemoryOf(parts)))
    && (HostNeverFails(parts, mapper.host) ==> Outstanding(mapper.table, regions, mapped, BlocksOf(MemoryOf(parts))))
  }

  /** Run the machine with all base RAM mapped. */
  method RunMapped(m: L.Machine, needs: L.Needs, regions: seq<Region>, parts: seq<Device>, strict: bool,
                   mapper: MappingTable, bytes: map<nat, byte>, turns: seq<Turn>)
    returns (r: Result<Unit, RunError>, ghost trace: seq<Snapshot>)
    requires L.Acceptable(m, needs) && needs.devices == |parts| && LaidOut(regions)
    requires Composed(parts) && AllUnused(parts, m)
    requires mapper.Valid() && Suits(mapper.table, parts) && mapper.table == TableOf(regions, |regions|)
    modifies mapper, Belongings(parts)
    ensures ReadyToClean(parts, mapper, regions, |regions|)
    ensures SafeThroughout(trace, TableOf(regions, |regions|), MemoryOf(parts).Some?)
    ensures HostNeverFails(parts, mapper.host) && !strict && AllCooperative(m, turns) ==> r.Ok?
  {
    r, trace := RunMachine(m, needs, parts, strict, mapper, bytes, turns);
    StartsMapped(regions, BlocksOf(MemoryOf(parts)));
  }

  /** Mapping base RAM does not touch the devices. */
  method MapAside(ghost m: L.Machine, regions: seq<Region>, ghost parts: seq<Device>, mapper: MappingTable,
                  stopping: nat -> bool)
    returns (mapped: nat, up: Result<bool, MemoryError>)
    requires AllUnused(parts, m) && LaidOut(regions) && mapper.Valid() && mapper.table == map[]
    modifies mapper
    ensures mapper.Valid() && mapped <= |regions| && mapper.table == TableOf(regions, mapped) && AllUnused(parts, m)
    ensures up.Ok? && up.value ==> mapped == |regions|
    ensures up.Err? ==> !Reliable(mapper.host)
  {
    MapperApart(parts, mapper);
    mapped, up := MapBase(mapper, regions, stopping);
  }

  /** Map base RAM; if it cannot all be mapped, nothing was plugged yet. */
  method MapFirst(ghost m: L.Machine, regions: seq<Region>, ghost parts: seq<Device>, mapper: MappingTable,
                  stopping: nat -> bool)
    returns (mapped: nat, up: Result<bool, MemoryError>)
    requires Suits(TableOf(regions, |regions|), parts) && AllUnused(parts, m)
    requires LaidOut(regions) && mapper.Valid() && mapper.table == map[] && BlocksOf(MemoryOf(parts)) == map[]
    requires MemoryOf(parts).Some? ==> MemoryOf(parts).value.Valid()
    modifies mapper
    ensures ReadyToClean(parts, mapper, regions, mapped)
    ensures HostNeverFails(parts, mapper.host) ==> up.Ok?
    ensures up.Ok? && up.value ==> mapped == |regions| && mapper.table == TableOf(regions, |regions|)
    ensures Suits(TableOf(regions, |regions|), parts) && AllUnused(parts, m)
  {
    mapped, up := MapAside(m, regions, parts, mapper, stopping);
    assert mapper.table + map[] == mapper.table;
  }

  /** Map base RAM and, unless stopped on the way, run the machine. */
  method StartAndRun(m: L.Machine, needs: L.Needs, regions: seq<Region>, parts: seq<Device>, strict: bool,
                     mapper: MappingTable, stopping: nat -> bool, bytes: map<nat, byte>, turns: seq<Turn>)
    returns (mapped: nat, r: Result<Unit, VmError>, ghost trace: seq<Snapshot>)
    requires L.Acceptable(m, needs) && BaseOf(m, regions) && needs.devices == |parts| && Composed(parts)
    requires AllUnused(parts, m)
    requires mapper.Valid() && mapper.table == map[]
    modifies mapper, Belongings(parts)
    ensures ReadyToClean(parts, mapper, regions, mapped)
    ensures SafeThroughout(trace, TableOf(regions, |regions|), MemoryOf(parts).Some?)
    ensures HostNeverFails(parts, mapper.host) && !strict && AllCooperative(m, turns) ==> r.Ok?
  {
    LayoutSuits(m, needs, regions, parts);
    var up;
    mapped, up := MapFirst(m, regions, parts, mapper, stopping);
    r, trace := Ok(Unit), [];
    if up.Err? {
      r := Err(Start(up.error));
    } else if up.value {
      var ended;
      ended, trace := RunMapped(m, needs, regions, parts, strict, mapper, bytes, turns);
      r := if ended.Err? then Err(Loop(ended.error)) else Ok(Unit);
    }
  }

  /** A whole VM. Its loop is safe after every turn; a host that never fails ends with nothing
      mapped, whatever the guest did and however the run ended; and on such a host a
      lenient VM reports no error unless a vCPU or a flush does. */
  method RunVm(m: L.Machine, needs: L.Needs, regions: seq<Region>, parts: seq<Device>, strict: bool,
               host: nat -> bool, stopping: nat -> bool, bytes: map<nat, byte>, turns: seq<Turn>,
               fault: Result<Unit, VmError>, flushes: seq<Result<Unit, DeviceError>>)
    returns (r: Result<Unit, VmError>, ghost trace: seq<Snapshot>, ghost left: map<nat, Region>)
    requires L.Acceptable(m, needs) && BaseOf(m, regions) && needs.devices == |parts| && Composed(parts)
    requires AllUnused(parts, m)
    modifies Belongings(parts)
    ensures SafeThroughout(trace, TableOf(regions, |regions|), MemoryOf(parts).Some?)
    ensures HostNeverFails(parts, host) ==> left == map[]
    ensures fault.Err? ==> r.Err?
    ensures HostNeverFails(parts, host) && !strict && AllCooperative(m, turns) && fault.Ok? && FirstError(flushes).Ok? ==>
              r.Ok?
  {
    var mapper := new MappingTable(host);
    var mapped, ended;
    mapped, ended, trace := StartAndRun(m, needs, regions, parts, strict, mapper, stopping, bytes, turns);
    ghost var order;
    var cleanup;
    cleanup, order := Cleanup(flushes, MemoryOf(parts), mapper, regions, mapped);
    left := mapper.table;
    r := Outcome(ended, fault, if cleanup.Err? then Err(Cleaning(cleanup.error)) else Ok(Unit));
  }
}
