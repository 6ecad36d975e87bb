/** virtio-mem: sparse guest memory in blocks on a grid. A request keeps the block
    table, the hypervisor mapping table and the guest view in step. */
module HotplugMemory {
  import opened Wrappers
  import opened Errors
  import opened GuestMemory
  import opened Finite
  import opened Mappings
  import opened Transaction

  const HOTPLUG_BLOCK_SIZE: nat := 0x800_0000

  datatype Lifecycle = Created | Running | Stopped

  /** The memory status shared between the device and control handles. */
  class MemoryControl {
    const regionSizeMib: nat
    const blockSizeMib: nat
    var requestedSizeMib: nat
    var pluggedSizeMib: nat
    var driverReady: bool
    var lifecycle: Lifecycle

    constructor (region: nat, block: nat)
      ensures regionSizeMib == region && blockSizeMib == block && requestedSizeMib == 0
      ensures pluggedSizeMib == 0 && !driverReady && lifecycle == Created
    {
      regionSizeMib, blockSizeMib, requestedSizeMib, pluggedSizeMib := region, block, 0, 0;
      driverReady, lifecycle := false, Created;
    }

    predicate TargetOk(target: nat)
      reads this
    {
      0 < blockSizeMib && target % blockSizeMib == 0 && target <= regionSizeMib
    }

    /** A target is accepted exactly while the VM has not stopped and when it is a
        whole number of blocks within the region; a refused target changes nothing. */
    method SetRequestedMib(target: nat) returns (r: Result<Unit, MemoryError>)
      requires 0 < blockSizeMib
      modifies this`requestedSizeMib
      ensures r.Ok? <==> lifecycle != Lifecycle.Stopped && TargetOk(target)
      ensures requestedSizeMib == if r.Ok? then target else old(requestedSizeMib)
    {
      if lifecycle == Lifecycle.Stopped {
        return Err(MemoryError.Stopped);
      }
      if !(target % blockSizeMib == 0 && target <= regionSizeMib) {
        return Err(InvalidTarget(target));
      }
      requestedSizeMib := target;
      return Ok(Unit);
    }
  }

  // ---------------------------------------------------------------------------
  // The block grid

  predicate PowerOfTwo(n: nat) {
    n == 1 || (0 < n && n % 2 == 0 && PowerOfTwo(n / 2))
  }

  function Alignment(blockSize: nat): (a: nat)
    ensures 0 < a
  {
    if blockSize > HOTPLUG_BLOCK_SIZE then blockSize else HOTPLUG_BLOCK_SIZE
  }

  lemma SmallPowers(n: nat)
    requires PowerOfTwo(n) && n <= 128
    ensures n in {1, 2, 4, 8, 16, 32, 64, 128}
  {
    if n > 1 {
      SmallPowers(n / 2);
    }
  }

  lemma AlignmentIsWholeBlocks(mib: nat)
    requires PowerOfTwo(mib)
    ensures IsMultipleOf(Alignment(mib * MIB), mib * MIB)
  {
    if mib <= 128 {
      SmallPowers(mib);
      var k := 128 / mib;
      assert mib * k == 128;
      assert HOTPLUG_BLOCK_SIZE == k * (mib * MIB);
      ProductIsMultiple(k, mib * MIB);
    } else {
      ProductIsMultiple(1, mib * MIB);
    }
  }

  /** `a` is the address of a block inside the hot-plug window. */
  predicate OnGrid(start: nat, capacity: nat, size: nat, a: nat)
    requires 0 < size
  {
    IsMultipleOf(a, size) && start <= a && a + size <= start + capacity
  }

  /** Non-overlapping blocks below `end` fill no more than the space from `start`. */
  lemma {:induction false} PackedBound(s: set<nat>, start: nat, end: nat, size: nat)
    requires start <= end
    requires forall a :: a in s ==> start <= a && a + size <= end
    requires forall a, b :: a in s && b in s && a < b ==> a + size <= b
    ensures |s| * size <= end - start
    decreases |s|
  {
    if s != {} {
      var last := Maximum(s);
      var rest := s - {last};
      PackedBound(rest, start, last, size);
      assert |s| * size == |rest| * size + size;
    }
  }

  ghost predicate AllOnGrid(s: set<nat>, start: nat, capacity: nat, size: nat)
    requires 0 < size
  {
    forall a {:trigger OnGrid(start, capacity, size, a)} :: a in s ==> OnGrid(start, capacity, size, a)
  }

  /** Blocks on the grid together take up no more than the window. */
  lemma GridBound(s: set<nat>, start: nat, capacity: nat, size: nat)
    requires 0 < size && AllOnGrid(s, start, capacity, size)
    ensures |s| * size <= capacity
  {
    forall a | a in s ensures start <= a && a + size <= start + capacity {
      assert OnGrid(start, capacity, size, a);
    }
    forall a, b | a in s && b in s && a < b ensures a + size <= b {
      assert OnGrid(start, capacity, size, a) && OnGrid(start, capacity, size, b);
      MultiplesApart(a, b, size);
    }
    PackedBound(s, start, start + capacity, size);
  }

  /** A region list of equal blocks keyed by address. */
  ghost predicate Blocks(t: map<nat, Region>, size: nat) {
    forall a :: a in t ==> t[a].start == a && t[a].len == size
  }

  ghost predicate Outside(base: map<nat, Region>, start: nat, capacity: nat) {
    forall a :: a in base ==> a + base[a].len <= start || start + capacity <= a
  }

  /** Base RAM with blocks on the window's grid makes a well-formed table. */
  lemma GridTable(base: map<nat, Region>, blocks: map<nat, Region>, start: nat, capacity: nat, size: nat)
    requires 0 < size && start + capacity < ADDRESS_LIMIT
    requires TableOk(base) && Outside(base, start, capacity)
    requires Blocks(blocks, size) && AllOnGrid(blocks.Keys, start, capacity, size)
    ensures base.Keys !! blocks.Keys && TableOk(base + blocks)
  {
    forall a | a in blocks ensures a !in base && start <= a && a + size <= start + capacity {
      assert OnGrid(start, capacity, size, a) && EntryOk(base, a);
    }
    var t := base + blocks;
    forall a ensures EntryOk(t, a) {
      assert EntryOk(base, a);
    }
    forall a, b ensures Separate(t, a, b) {
      assert EntryOk(base, a) && EntryOk(base, b) && Separate(base, a, b);
      if a in blocks && b in blocks && a < b {
        assert OnGrid(start, capacity, size, a) && OnGrid(start, capacity, size, b);
        MultiplesApart(a, b, size);
      }
    }
  }

  // ---------------------------------------------------------------------------
  // Requests

  const PLUG: nat := 0
  const UNPLUG: nat := 1
  const UNPLUG_ALL: nat := 2
  const STATE: nat := 3

  const ACK: nat := 0
  const NACK: nat := 1
  const BUSY: nat := 2
  const ERROR: nat := 3

  datatype Ask = Ask(kind: nat, addr: nat, count: nat)

  datatype Answer = Answer(code: nat, state: nat)

  /** The little-endian request layout: type, address, block count. */
  function Decode(req: seq<byte>): Ask
    requires |req| == 24
  {
    Ask(FromLe(req[..2]), FromLe(req[8..16]), FromLe(req[16..18]))
  }

  ghost predicate Committed(ask: Ask, r: Result<Answer, MemoryError>) {
    r.Ok? && r.value.code == ACK && ask.kind != STATE
  }

  function Next32(x: nat): nat {
    if x + 1 == U32_LIMIT then 0 else x + 1
  }

  /** No pin meets a block of `s`; an empty pin strictly inside a block counts. */
  ghost predicate Untouched(s: set<nat>, pins: seq<Range>, size: nat) {
    forall a, i {:trigger Range(a, size).Meets(pins[i])} :: a in s && 0 <= i < |pins| ==> !Range(a, size).Meets(pins[i])
  }

  /** `count` consecutive block addresses. */
  function Run(addr: nat, count: nat, size: nat): (s: seq<nat>)
    ensures |s| == count
    ensures forall i :: 0 <= i < count ==> s[i] == addr + i * size
  {
    if count == 0 then [] else Run(addr, count - 1, size) + [addr + (count - 1) * size]
  }

  lemma RunOnGrid(addr: nat, count: nat, start: nat, capacity: nat, size: nat)
    requires 0 < size && IsMultipleOf(addr, size) && start <= addr && addr + count * size <= start + capacity
    ensures Distinct(Run(addr, count, size))
    ensures AllOnGrid(SetOf(Run(addr, count, size)), start, capacity, size)
  {
    var s := Run(addr, count, size);
    forall i, j ensures Differ(s, i, j) {
      if 0 <= i < j < count {
        MulStrict(size, i, j);
      }
    }
    forall a | a in SetOf(s) ensures OnGrid(start, capacity, size, a) {
      FirstNHas(s, count, a);
      var i :| 0 <= i < count && s[i] == a;
      ProductIsMultiple(i, size);
      MultiplesAdd(addr, i * size, size);
      MulStrict(size, i, count);
    }
  }

  lemma MulStrict(size: nat, i: nat, j: nat)
    requires 0 < size && i < j
    ensures i * size + size <= j * size
  {
    assert j * size == (i + 1) * size + (j - i - 1) * size;
    assert (j - i - 1) * size >= 0;
  }

  ghost predicate Least(s: set<nat>, m: nat) {
    m in s && forall x :: x in s ==> m <= x
  }

  lemma {:induction false} MinimumExists(s: set<nat>)
    requires s != {}
    ensures exists m :: Least(s, m)
  {
    var x :| x in s;
    var rest := s - {x};
    if rest == {} {
      assert s == {x};
      assert Least(s, x);
    } else {
      MinimumExists(rest);
      var m :| Least(rest, m);
      var least := if x <= m then x else m;
      assert forall y :: y in s ==> y == x || y in rest;
      assert Least(s, least);
    }
  }

  function Minimum(s: set<nat>): (m: nat)
    requires s != {}
    ensures m in s && forall x :: x in s ==> m <= x
  {
    MinimumExists(s);
    var m :| m in s && forall x :: x in s ==> m <= x;
    m
  }

  /** The keys in ascending order. */
  method Keys(t: map<nat, Region>) returns (s: seq<nat>)
    ensures Distinct(s) && SetOf(s) == t.Keys
  {
    s := [];
    var rest := t.Keys;
    while rest != {}
      invariant Distinct(s) && SetOf(s) + rest == t.Keys && SetOf(s) !! rest
      decreases rest
    {
      var k := Minimum(rest);
      AppendDistinct(s, k);
      s := s + [k];
      rest := rest - {k};
    }
  }

  lemma {:induction false} FirstNSame(s: seq<nat>, t: seq<nat>, n: nat)
    requires n <= |s| && n <= |t| && forall i :: 0 <= i < n ==> s[i] == t[i]
    ensures FirstN(s, n) == FirstN(t, n)
  {
    if n != 0 {
      FirstNSame(s, t, n - 1);
    }
  }

  lemma AppendDistinct(s: seq<nat>, k: nat)
    requires Distinct(s) && k !in SetOf(s)
    ensures Distinct(s + [k]) && SetOf(s + [k]) == SetOf(s) + {k}
  {
    FirstNSame(s + [k], s, |s|);
    forall i, j ensures Differ(s + [k], i, j) {
      assert Differ(s, i, j);
      if 0 <= i < j == |s| {
        FirstNHas(s, |s|, s[i]);
      }
    }
  }

  datatype Verdict = Reply(answer: Answer) | Proceed(addresses: seq<nat>)

  /** An unknown type, a run outside the window, a plug of a plugged block or an
      unplug of an unplugged one. */
  ghost predicate Malformed(ask: Ask, plugged: set<nat>, start: nat, capacity: nat, size: nat)
    requires 0 < size
  {
    || ask.kind > 3
    || (ask.kind != UNPLUG_ALL && !RunInWindow(ask, start, capacity, size))
    || (ask.kind == PLUG && !(SetOf(Run(ask.addr, ask.count, size)) !! plugged))
    || (ask.kind == UNPLUG && !(SetOf(Run(ask.addr, ask.count, size)) <= plugged))
  }

  /** The blocks an unplug is about. */
  ghost function Affected(ask: Ask, plugged: set<nat>, size: nat): set<nat> {
    if ask.kind == UNPLUG_ALL then plugged else SetOf(Run(ask.addr, ask.count, size))
  }

  predicate RunInWindow(ask: Ask, start: nat, capacity: nat, size: nat)
    requires 0 < size
  {
    && 0 < ask.count && ask.addr + ask.count * size < ADDRESS_LIMIT
    && IsMultipleOf(ask.addr, size)
    && start <= ask.addr && ask.addr + ask.count * size <= start + capacity
  }

  /** What an acknowledged request has done to the block table and the view. */
  ghost predicate Granted(ask: Ask, before: map<nat, Region>, after: map<nat, Region>, v: View, w: View,
                          pins: seq<Range>, size: nat) {
    var run := SetOf(Run(ask.addr, ask.count, size));
    if ask.kind == PLUG then
      && run !! before.Keys && after.Keys == before.Keys + run
      && (forall a :: a in before ==> after[a] == before[a])
      && w == Edited(v, Run(ask.addr, ask.count, size), ask.count, true, size)
    else
      var gone := if ask.kind == UNPLUG_ALL then before.Keys else run;
      && gone <= before.Keys && after == before - gone && Untouched(gone, pins, size)
      && w.regions == v.regions - gone && w.bytes == v.bytes
  }

  /** The answer is true: of the request's form, of what it did and of what it found. */
  ghost predicate Truthful(ask: Ask, answer: Answer, before: map<nat, Region>, after: map<nat, Region>, v: View, w: View,
                           pins: seq<Range>, start: nat, capacity: nat, size: nat)
    requires 0 < size
  {
    && (answer.code == ERROR <==> Malformed(ask, before.Keys, start, capacity, size))
    && (if answer.code == ACK && ask.kind != STATE then Granted(ask, before, after, v, w, pins, size)
        else after == before && w == v)
    && (answer.code == ACK && ask.kind == STATE ==>
          StateOf(answer.state, SetOf(Run(ask.addr, ask.count, size)), before.Keys))
  }

  lemma AppliedIsGranted(ask: Ask, before: map<nat, Region>, delta: map<nat, Region>, addresses: seq<nat>,
                         v: View, pins: seq<Range>, size: nat)
    requires ask.kind in {PLUG, UNPLUG, UNPLUG_ALL} && delta.Keys == SetOf(addresses)
    requires ask.kind == UNPLUG_ALL ==> SetOf(addresses) == before.Keys
    requires ask.kind != UNPLUG_ALL ==> addresses == Run(ask.addr, ask.count, size)
    requires ask.kind == PLUG ==> Avoids(addresses, |addresses|, before.Keys)
    requires ask.kind != PLUG ==> SetOf(addresses) <= before.Keys && Untouched(SetOf(addresses), pins, size)
    ensures Granted(ask, before, Applied(before, delta, ask.kind == PLUG, SetOf(addresses)),
                    v, Edited(v, addresses, |addresses|, ask.kind == PLUG, size), pins, size)
  {
    if ask.kind == PLUG {
      AvoidsIsDisjoint(addresses, |addresses|, before.Keys);
      assert Applied(before, delta, true, SetOf(addresses)) == before + delta;
    }
  }

  lemma TargetKept(n: nat, requested: nat, blockMib: nat)
    requires 0 < blockMib && n <= requested / blockMib
    ensures n * blockMib <= requested
  {
    assert n * blockMib <= requested / blockMib * blockMib;
  }

  lemma PluggedCount(before: set<nat>, after: set<nat>, addresses: seq<nat>)
    requires Distinct(addresses) && Avoids(addresses, |addresses|, before) && after == before + SetOf(addresses)
    ensures |after| == |before| + |addresses|
  {
    AvoidsIsDisjoint(addresses, |addresses|, before);
    FirstNSize(addresses, |addresses|);
  }

  lemma PlugCount(before: map<nat, Region>, delta: map<nat, Region>, addresses: seq<nat>)
    requires delta.Keys == SetOf(addresses) && Distinct(addresses) && Avoids(addresses, |addresses|, before.Keys)
    ensures |Applied(before, delta, true, SetOf(addresses))| == |before| + |addresses|
  {
    var after := Applied(before, delta, true, SetOf(addresses));
    assert after == before + delta;
    PluggedCount(before.Keys, after.Keys, addresses);
  }

  /** Applying a cleared request grants it, within the target. */
  lemma ClearedIsGranted(ask: Ask, before: map<nat, Region>, delta: map<nat, Region>, addresses: seq<nat>,
                         after: map<nat, Region>, v: View, w: View, pins: seq<Range>, size: nat,
                         requested: nat, blockMib: nat)
    requires ask.kind in {PLUG, UNPLUG, UNPLUG_ALL} && delta.Keys == SetOf(addresses) && Distinct(addresses)
    requires ask.kind == UNPLUG_ALL ==> SetOf(addresses) == before.Keys
    requires ask.kind != UNPLUG_ALL ==> addresses == Run(ask.addr, ask.count, size)
    requires ask.kind == PLUG ==> && Avoids(addresses, |addresses|, before.Keys)
                                  && 0 < blockMib && ask.count + |before| <= requested / blockMib
    requires ask.kind != PLUG ==> SetOf(addresses) <= before.Keys && Untouched(SetOf(addresses), pins, size)
    requires after == Applied(before, delta, ask.kind == PLUG, SetOf(addresses))
    requires w == Edited(v, addresses, |addresses|, ask.kind == PLUG, size)
    ensures Granted(ask, before, after, v, w, pins, size)
    ensures ask.kind == PLUG ==> |after| <= requested / blockMib
  {
    AppliedIsGranted(ask, before, delta, addresses, v, pins, size);
    if ask.kind == PLUG {
      PlugCount(before, delta, addresses);
    }
  }

  /** State 0 reports all plugged, 1 none plugged and 2 a mixture. */
  ghost predicate StateOf(state: nat, run: set<nat>, plugged: set<nat>) {
    state == if run !! plugged then 1 else if run <= plugged then 0 else 2
  }

  method CountIn(s: seq<nat>, t: set<nat>) returns (n: nat)
    ensures n <= |s|
    ensures n == 0 <==> SetOf(s) !! t
    ensures n == |s| <==> SetOf(s) <= t
  {
    n := 0;
    var i := 0;
    while i < |s|
      invariant n <= i <= |s|
      invariant n == 0 <==> FirstN(s, i) !! t
      invariant n == i <==> FirstN(s, i) <= t
    {
      if s[i] in t {
        n := n + 1;
      }
      i := i + 1;
    }
  }

  /** Some block of the list meets a pin, with saturating pin ends. */
  method AnyPinned(s: seq<nat>, pins: seq<Range>, size: nat) returns (busy: bool)
    requires 0 < size && forall i :: 0 <= i < |s| ==> s[i] + size < ADDRESS_LIMIT
    ensures busy <==> !Untouched(SetOf(s), pins, size)
  {
    var i := 0;
    while i < |s|
      invariant i <= |s|
      invariant Untouched(FirstN(s, i), pins, size)
    {
      var j := 0;
      while j < |pins|
        invariant j <= |pins|
        invariant forall k :: 0 <= k < j ==> !Range(s[i], size).Meets(pins[k])
      {
        var end := pins[j].start + pins[j].len;
        var saturated := if end < ADDRESS_LIMIT then end else ADDRESS_LIMIT - 1;
        if pins[j].start < s[i] + size && saturated > s[i] {
          FirstNHas(s, |s|, s[i]);
          assert Range(s[i], size).Meets(pins[j]);
          return true;
        }
        j := j + 1;
      }
      i := i + 1;
    }
    return false;
  }

  // ---------------------------------------------------------------------------
  // The device

  class VirtioMem {
    const control: MemoryControl
    var start: nat
    const capacity: nat
    const blockSize: nat
    var requested: nat
    var plugged: nat
    var generation: nat
    var blocks: map<nat, Region>
    /** Whether the n-th host allocation succeeds. */
    const allocation: nat -> bool
    var allocations: nat

    constructor (control: MemoryControl, capacity: nat, blockSize: nat, allocation: nat -> bool)
      ensures this.control == control && start == 0 && this.capacity == capacity
      ensures this.blockSize == blockSize && requested == 0 && plugged == 0 && generation == 0
      ensures blocks == map[] && this.allocation == allocation && allocations == 0
    {
      this.control, this.capacity, this.blockSize, this.allocation := control, capacity, blockSize, allocation;
      start, requested, plugged, generation, blocks, allocations := 0, 0, 0, 0, map[], 0;
    }

    /** A device exists exactly for a power-of-two block size and a positive region
        aligned to the larger of a block and 128 MiB, all representable in bytes. */
    static method New(regionSizeMib: nat, blockSizeMib: nat, allocation: nat -> bool)
      returns (r: Result<VirtioMem, MemoryError>)
      ensures r.Ok? <==> && PowerOfTwo(blockSizeMib)
                         && blockSizeMib * MIB < ADDRESS_LIMIT && regionSizeMib * MIB < ADDRESS_LIMIT
                         && 0 < regionSizeMib
                         && IsMultipleOf(regionSizeMib * MIB, Alignment(blockSizeMib * MIB))
      ensures r.Ok? ==> fresh(r.value) && fresh(r.value.control) && r.value.Valid() && r.value.Accounted()
      ensures r.Ok? ==> && r.value.blockSize == blockSizeMib * MIB && r.value.capacity == regionSizeMib * MIB
                        && r.value.start == 0 && r.value.requested == 0 && r.value.plugged == 0
                        && r.value.blocks == map[] && r.value.allocation == allocation
      ensures r.Ok? ==> && r.value.control.blockSizeMib == blockSizeMib && r.value.control.regionSizeMib == regionSizeMib
                        && r.value.control.requestedSizeMib == 0 && r.value.control.lifecycle == Created
    {
      if !PowerOfTwo(blockSizeMib) {
        return Err(InvalidBlockSize(blockSizeMib));
      }
      if blockSizeMib * MIB >= ADDRESS_LIMIT {
        return Err(CapacityOverflow(blockSizeMib));
      }
      var blockSize, capacity := blockSizeMib * MIB, regionSizeMib * MIB;
      if capacity >= ADDRESS_LIMIT {
        return Err(CapacityOverflow(regionSizeMib));
      }
      if capacity == 0 || !IsMultipleOf(capacity, Alignment(blockSize)) {
        return Err(InvalidRegionSize(regionSizeMib));
      }
      AlignmentIsWholeBlocks(blockSizeMib);
      MultiplesTransitive(capacity, Alignment(blockSize), blockSize);
      var control := new MemoryControl(regionSizeMib, blockSizeMib);
      var device := new VirtioMem(control, capacity, blockSize, allocation);
      return Ok(device);
    }

    /** Places the window; a refused address leaves the device unattached. */
    method AttachAt(address: nat) returns (r: Result<Unit, MemoryError>)
      requires Valid() && blocks == map[] && PowerOfTwo(control.blockSizeMib)
      modifies this`start, this`requested
      ensures r.Ok? <==> IsMultipleOf(address, Alignment(blockSize)) && address + capacity < ADDRESS_LIMIT
      ensures Valid() && start == (if r.Ok? then address else old(start))
      ensures requested == if r.Ok? then control.requestedSizeMib * MIB else old(requested)
    {
      if !IsMultipleOf(address, Alignment(blockSize)) {
        return Err(HotplugAlignment(address));
      }
      if address + capacity >= ADDRESS_LIMIT {
        return Err(HotplugOverflow);
      }
      AlignmentIsWholeBlocks(control.blockSizeMib);
      MultiplesTransitive(address, Alignment(blockSize), blockSize);
      start := address;
      requested := control.requestedSizeMib * MIB;
      return Ok(Unit);
    }

    ghost predicate Geometry()
      reads this`start
    {
      && 0 < blockSize && 0 < control.blockSizeMib
      && IsMultipleOf(start, blockSize) && IsMultipleOf(capacity, blockSize)
      && start + capacity < ADDRESS_LIMIT
      && control.blockSizeMib * MIB == blockSize && control.regionSizeMib * MIB == capacity
    }

    ghost predicate Valid()
      reads this`start, this`blocks
    {
      && Geometry()
      && Blocks(blocks, blockSize) && AllOnGrid(blocks.Keys, start, capacity, blockSize)
    }

    ghost predicate Accounted()
      reads this`plugged, this`blocks, control`pluggedSizeMib
    {
      plugged == |blocks| * blockSize && control.pluggedSizeMib * MIB == plugged
    }

    /** The plugged size never exceeds the capacity, so that it fits 64 bits and the
        product of blocks and block size cannot overflow. */
    lemma PluggedFits()
      requires Valid() && Accounted()
      ensures plugged == |blocks| * blockSize && plugged <= capacity < ADDRESS_LIMIT
    {
      GridBound(blocks.Keys, start, capacity, blockSize);
      assert |blocks.Keys| == |blocks|;
    }

    /** Mapping table and guest view both hold exactly base RAM and the blocks. */
    ghost predicate Agrees(table: map<nat, Region>, v: View, base: map<nat, Region>)
      reads this`start, this`blocks
    {
      && TableOk(base) && Outside(base, start, capacity)
      && table == base + blocks
      && v.regions == Lengths(table)
    }

    /** Whether the transaction's regions and next view can be built at all. */
    ghost predicate Built(addresses: seq<nat>, plug: bool)
      reads this
    {
      plug ==> Avoids(addresses, |addresses|, blocks.Keys) && AllSucceed(allocation, allocations, |addresses|)
    }

    ghost function Handled(addresses: seq<nat>, plug: bool): map<nat, Region>
      reads this
      requires plug || SetOf(addresses) <= blocks.Keys
    {
      Delta(blocks, addresses, |addresses|, plug, blockSize, allocations)
    }

    /** A request list the device may act on. */
    ghost predicate Acceptable(addresses: seq<nat>, plug: bool)
      reads this`start, this`blocks
    {
      && 0 < blockSize && Distinct(addresses) && AllOnGrid(SetOf(addresses), start, capacity, blockSize)
      && (!plug ==> SetOf(addresses) <= blocks.Keys)
    }

    /** Plug or unplug all the addresses, or none of them. For every pattern of host
        failures: success commits all three views; a refusal leaves them as they were;
        a fatal error leaves table and view as they were, with the mappings off only
        where an undo call failed. Ok(false) means a clean rollback. */
    method Change(addresses: seq<nat>, plug: bool, mapper: MappingTable, ram: GuestRam, ghost base: map<nat, Region>)
      returns (r: Result<bool, MemoryError>)
      requires Valid() && Acceptable(addresses, plug) && Agrees(mapper.table, ram.view, base)
      modifies this`allocations, this`blocks, mapper, ram
      ensures Valid() && mapper.Valid()
      ensures r.Ok? ==> Agrees(mapper.table, ram.view, base)
      ensures r.Ok? ==> r.value == (old(Built(addresses, plug)) &&
                                    AllSucceed(mapper.host, old(mapper.calls), |addresses|))
      ensures r != Ok(true) ==> blocks == old(blocks) && ram.view == old(ram.view)
      ensures r == Ok(true) ==> && blocks == Applied(old(blocks), old(Handled(addresses, plug)), plug, SetOf(addresses))
                                && ram.view == Edited(old(ram.view), addresses, |addresses|, plug, blockSize)
      ensures if !old(Built(addresses, plug)) then
                r.Err? && !r.error.IsGuest() && mapper.table == old(mapper.table)
              else if AllSucceed(mapper.host, old(mapper.calls), |addresses|) then
                r == Ok(true)
              else
                Aborted(r, mapper.host, old(mapper.calls), addresses, old(mapper.table),
                        old(Handled(addresses, plug)), plug, mapper.table)
    {
      GridTable(base, blocks, start, capacity, blockSize);
      var regions, next;
      if plug {
        GridFits(base, blocks, start, capacity, blockSize, addresses, ram.view);
        var error, used;
        error, next, used := BuildPlug(allocation, allocations, addresses, ram.view, blockSize, blocks.Keys);
        if error.Some? {
          allocations := allocations + used;
          return Err(error.value);
        }
        regions := FreshRegions(addresses, |addresses|, blockSize, allocations);
      } else {
        regions, next := BuildUnplug(blocks, addresses, ram.view, blockSize);
      }
      ghost var delta := Handled(addresses, plug);
      HandledMatches(base, addresses, plug, regions);
      allocations := allocations + if plug then |addresses| else 0;
      r := Execute(mapper, regions, plug, addresses, delta);
      if r == Ok(true) {
        CommitAgrees(base, blocks, delta, addresses, plug, ram.view, start, capacity, blockSize);
        ram.view := next;
        blocks := Commit(blocks, regions, plug, addresses, delta);
      } else if r.Ok? {
        CleanAbortRestores(r, mapper.host, old(mapper.calls), addresses, old(mapper.table), delta, plug, mapper.table);
      }
    }

    /** The blocks a request is about: a run of them, or every plugged one. */
    method Targets(ask: Ask) returns (r: Option<seq<nat>>)
      requires Valid()
      ensures r.Some? <==> ask.kind == UNPLUG_ALL || RunInWindow(ask, start, capacity, blockSize)
      ensures r.Some? ==> Distinct(r.value) && AllOnGrid(SetOf(r.value), start, capacity, blockSize)
      ensures r.Some? ==> if ask.kind == UNPLUG_ALL then SetOf(r.value) == blocks.Keys
                          else r.value == Run(ask.addr, ask.count, blockSize)
    {
      if ask.kind == UNPLUG_ALL {
        var all := Keys(blocks);
        return Some(all);
      }
      if !RunInWindow(ask, start, capacity, blockSize) {
        return None;
      }
      RunOnGrid(ask.addr, ask.count, start, capacity, blockSize);
      return Some(Run(ask.addr, ask.count, blockSize));
    }

    /** The target leaves room for `count` more blocks. */
    predicate WithinTarget(count: nat)
      reads this`blocks, control`requestedSizeMib
      requires 0 < control.blockSizeMib
    {
      count + |blocks| <= control.requestedSizeMib / control.blockSizeMib
    }

    /** A well-formed plug beyond the target. */
    ghost predicate Overshoots(ask: Ask)
      reads this`start, this`blocks, control`requestedSizeMib
      requires 0 < blockSize && 0 < control.blockSizeMib
    {
      ask.kind == PLUG && !Malformed(ask, blocks.Keys, start, capacity, blockSize) && !WithinTarget(ask.count)
    }

    /** A well-formed unplug of a block that shares a byte with a pin. */
    ghost predicate Blocked(ask: Ask, pins: seq<Range>)
      reads this`start, this`blocks
      requires 0 < blockSize
    {
      && ask.kind in {UNPLUG, UNPLUG_ALL} && !Malformed(ask, blocks.Keys, start, capacity, blockSize)
      && !Untouched(Affected(ask, blocks.Keys, blockSize), pins, blockSize)
    }

    /** The request may go ahead on exactly these blocks. */
    ghost predicate Cleared(ask: Ask, addresses: seq<nat>, pins: seq<Range>)
      reads this`start, this`blocks, control`requestedSizeMib
      requires 0 < control.blockSizeMib
    {
      && Acceptable(addresses, ask.kind == PLUG) && ask.kind in {PLUG, UNPLUG, UNPLUG_ALL}
      && (ask.kind == UNPLUG_ALL ==> SetOf(addresses) == blocks.Keys)
      && (ask.kind != UNPLUG_ALL ==> addresses == Run(ask.addr, ask.count, blockSize))
      && (ask.kind == PLUG ==> Avoids(addresses, |addresses|, blocks.Keys) && WithinTarget(ask.count))
      && (ask.kind != PLUG ==> Untouched(SetOf(addresses), pins, blockSize))
    }

    /** Decide a request against the block table, the target and the pins, without
        changing anything: ERROR exactly for a malformed request, then NACK exactly
        for a plug beyond the target and BUSY exactly for an unplug that meets a pin. */
    method Judge(ask: Ask, pins: seq<Range>) returns (v: Verdict)
      requires Valid()
      ensures v.Reply? ==> v.answer.code in {ACK, NACK, BUSY, ERROR} && v.answer.state <= 2
      ensures (v.Reply? && v.answer.code == ERROR) <==> Malformed(ask, blocks.Keys, start, capacity, blockSize)
      ensures (v.Reply? && v.answer.code == ACK) ==>
                ask.kind == STATE && StateOf(v.answer.state, SetOf(Run(ask.addr, ask.count, blockSize)), blocks.Keys)
      ensures (v.Reply? && v.answer.code == NACK) <==> Overshoots(ask)
      ensures (v.Reply? && v.answer.code == BUSY) <==> Blocked(ask, pins)
      ensures v.Proceed? ==> Cleared(ask, v.addresses, pins)
    {
      if ask.kind > 3 {
        return Reply(Answer(ERROR, 0));
      }
      var targets := Targets(ask);
      if targets.None? {
        return Reply(Answer(ERROR, 0));
      }
      var addresses := targets.value;
      var count := CountIn(addresses, blocks.Keys);
      if ask.kind == STATE {
        return Reply(Answer(ACK, if count == 0 then 1 else if count == |addresses| then 0 else 2));
      }
      if (ask.kind == PLUG && count != 0) || (ask.kind == UNPLUG && count != |addresses|) {
        return Reply(Answer(ERROR, 0));
      }
      if ask.kind == PLUG && !WithinTarget(ask.count) {
        return Reply(Answer(NACK, 0));
      }
      if ask.kind != PLUG {
        forall i | 0 <= i < |addresses| ensures addresses[i] + blockSize < ADDRESS_LIMIT {
          FirstNHas(addresses, |addresses|, addresses[i]);
          assert OnGrid(start, capacity, blockSize, addresses[i]);
        }
        var busy := AnyPinned(addresses, pins, blockSize);
        if busy {
          return Reply(Answer(BUSY, 0));
        }
      }
      AvoidsIsDisjoint(addresses, |addresses|, blocks.Keys);
      return Proceed(addresses);
    }

    /** Handle one request. Whatever is not acknowledged changes neither the block
        table nor the view, and unless it is fatal not the mappings either; an
        acknowledged plug or unplug is granted in full. */
    method Request(ask: Ask, mapper: MappingTable, ram: GuestRam, pins: seq<Range>, ghost base: map<nat, Region>)
      returns (r: Result<Answer, MemoryError>)
      requires Valid() && Accounted() && mapper.Valid() && Agrees(mapper.table, ram.view, base)
      modifies this`allocations, this`blocks, this`plugged, this`generation, control`pluggedSizeMib, mapper, ram
      ensures Valid() && mapper.Valid()
      ensures r.Ok? ==> Accounted() && Agrees(mapper.table, ram.view, base)
      ensures r.Ok? ==> r.value.code <= 3 && r.value.state <= 2
      ensures r.Err? ==> !r.error.IsGuest()
      ensures !Committed(ask, r) ==> && blocks == old(blocks) && ram.view == old(ram.view)
                                     && plugged == old(plugged) && generation == old(generation)
      ensures r.Ok? && !Committed(ask, r) ==> mapper.table == old(mapper.table)
      ensures (r.Ok? && r.value.code == ERROR) <==> Malformed(ask, old(blocks.Keys), start, capacity, blockSize)
      ensures (r.Ok? && r.value.code == NACK) <==> old(Overshoots(ask))
      ensures old(Blocked(ask, pins)) ==> r.Ok? && r.value.code == BUSY
      ensures r.Ok? && r.value.code == ACK && ask.kind == STATE ==>
                StateOf(r.value.state, SetOf(Run(ask.addr, ask.count, blockSize)), blocks.Keys)
      ensures Committed(ask, r) ==>
                && Granted(ask, old(blocks), blocks, old(ram.view), ram.view, pins, blockSize)
                && generation == Next32(old(generation))
      ensures Committed(ask, r) && ask.kind == PLUG ==> |blocks| * control.blockSizeMib <= control.requestedSizeMib
      ensures Reliable(mapper.host) && Reliable(allocation) ==> r.Ok? && (r.value.code == BUSY ==> old(Blocked(ask, pins)))
    {
      var verdict := Judge(ask, pins);
      if verdict.Reply? {
        return Ok(verdict.answer);
      }
      var granted := Grant(ask, verdict.addresses, mapper, ram, pins, base);
      if granted == Ok(true) && ask.kind == PLUG {
        TargetKept(|blocks|, control.requestedSizeMib, control.blockSizeMib);
      }
      r := if granted.Err? then Err(granted.error) else Ok(Answer(if granted.value then ACK else BUSY, 0));
    }

    /** Carry out a cleared request: all of it, or nothing. */
    method Grant(ask: Ask, addresses: seq<nat>, mapper: MappingTable, ram: GuestRam,
                 ghost pins: seq<Range>, ghost base: map<nat, Region>)
      returns (r: Result<bool, MemoryError>)
      requires Valid() && Accounted() && Agrees(mapper.table, ram.view, base)
      requires Cleared(ask, addresses, pins)
      modifies this`allocations, this`blocks, this`plugged, this`generation, control`pluggedSizeMib, mapper, ram
      ensures Valid() && mapper.Valid()
      ensures r.Ok? ==> Accounted() && Agrees(mapper.table, ram.view, base)
      ensures r.Err? ==> !r.error.IsGuest()
      ensures r != Ok(true) ==> && blocks == old(blocks) && ram.view == old(ram.view)
                                && plugged == old(plugged) && generation == old(generation)
      ensures r == Ok(false) ==> mapper.table == old(mapper.table)
      ensures r == Ok(true) ==>
                && Granted(ask, old(blocks), blocks, old(ram.view), ram.view, pins, blockSize)
                && generation == Next32(old(generation)) && (ask.kind == PLUG ==> WithinTarget(0))
      ensures Reliable(mapper.host) && Reliable(allocation) ==> r == Ok(true)
    {
      var plug := ask.kind == PLUG;
      ghost var delta, before, v := Handled(addresses, plug), blocks, ram.view;
      r := Serve(addresses, plug, mapper, ram, base);
      if r == Ok(true) {
        ClearedIsGranted(ask, before, delta, addresses, blocks, v, ram.view, pins, blockSize,
                         control.requestedSizeMib, control.blockSizeMib);
      }
    }

    /** Change the blocks and publish the new size, or change nothing. */
    method Serve(addresses: seq<nat>, plug: bool, mapper: MappingTable, ram: GuestRam, ghost base: map<nat, Region>)
      returns (r: Result<bool, MemoryError>)
      requires Valid() && Accounted() && Agrees(mapper.table, ram.view, base)
      requires Acceptable(addresses, plug)
      modifies this`allocations, this`blocks, this`plugged, this`generation, control`pluggedSizeMib, mapper, ram
      ensures Valid() && mapper.Valid()
      ensures r.Ok? ==> Accounted() && Agrees(mapper.table, ram.view, base)
      ensures r.Err? ==> !r.error.IsGuest()
      ensures r != Ok(true) ==> && blocks == old(blocks) && ram.view == old(ram.view)
                                && plugged == old(plugged) && generation == old(generation)
      ensures r == Ok(false) ==> mapper.table == old(mapper.table)
      ensures r == Ok(true) ==>
                && blocks == Applied(old(blocks), old(Handled(addresses, plug)), plug, SetOf(addresses))
                && ram.view == Edited(old(ram.view), addresses, |addresses|, plug, blockSize)
                && generation == Next32(old(generation))
      ensures Reliable(mapper.host) && Reliable(allocation) && (plug ==> Avoids(addresses, |addresses|, old(blocks.Keys))) ==>
                r == Ok(true)
    {
      r := TryChange(addresses, plug, mapper, ram, base);
      if r == Ok(true) {
        Account();
      }
    }

    /** A change seen from outside: committed, cleanly refused, or fatal. */
    method TryChange(addresses: seq<nat>, plug: bool, mapper: MappingTable, ram: GuestRam, ghost base: map<nat, Region>)
      returns (r: Result<bool, MemoryError>)
      requires Valid() && Acceptable(addresses, plug) && Agrees(mapper.table, ram.view, base)
      modifies this`allocations, this`blocks, mapper, ram
      ensures Valid() && mapper.Valid()
      ensures r.Ok? ==> Agrees(mapper.table, ram.view, base)
      ensures r.Err? ==> !r.error.IsGuest()
      ensures r != Ok(true) ==> blocks == old(blocks) && ram.view == old(ram.view)
      ensures r == Ok(false) ==> mapper.table == old(mapper.table)
      ensures r == Ok(true) ==>
                && blocks == Applied(old(blocks), old(Handled(addresses, plug)), plug, SetOf(addresses))
                && ram.view == Edited(old(ram.view), addresses, |addresses|, plug, blockSize)
      ensures Reliable(mapper.host) && Reliable(allocation) && (plug ==> Avoids(addresses, |addresses|, old(blocks.Keys))) ==>
                r == Ok(true)
    {
      if Reliable(mapper.host) && Reliable(allocation) {
        ReliableSucceeds(mapper.host, mapper.calls, |addresses|);
        ReliableSucceeds(allocation, allocations, |addresses|);
      }
      r := Change(addresses, plug, mapper, ram, base);
      if r == Ok(false) {
        CleanAbortRestores(r, mapper.host, old(mapper.calls), addresses, old(mapper.table),
                           old(Handled(addresses, plug)), plug, mapper.table);
      }
    }

    /** Publish the plugged size and a new configuration generation. */
    method Account()
      requires Geometry()
      modifies this`plugged, this`generation, control`pluggedSizeMib
      ensures Accounted() && generation == Next32(old(generation))
    {
      plugged := |blocks| * blockSize;
      assert plugged == |blocks| * control.blockSizeMib * MIB;
      generation := Next32(generation);
      control.pluggedSizeMib := plugged / MIB;
    }

    lemma HandledMatches(base: map<nat, Region>, addresses: seq<nat>, plug: bool, regions: seq<Region>)
      requires Valid() && Acceptable(addresses, plug) && TableOk(base) && Outside(base, start, capacity)
      requires plug ==> Avoids(addresses, |addresses|, blocks.Keys) &&
                        regions == FreshRegions(addresses, |addresses|, blockSize, allocations)
      requires !plug ==> |regions| == |addresses| && forall i :: 0 <= i < |addresses| ==>
                                                                   addresses[i] in blocks && regions[i] == blocks[addresses[i]]
      ensures Matching(regions, addresses, Handled(addresses, plug))
      ensures Feasible(base + blocks, Handled(addresses, plug), plug)
    {
      var delta := Handled(addresses, plug);
      GridTable(base, blocks, start, capacity, blockSize);
      if plug {
        AvoidsIsDisjoint(addresses, |addresses|, blocks.Keys);
        PlugFeasible(base, blocks, delta, start, capacity, blockSize);
        forall i | 0 <= i < |addresses| ensures addresses[i] in delta && delta[addresses[i]] == regions[i] {
          DeltaAt(blocks, addresses, |addresses|, blockSize, allocations, i);
        }
      } else {
        forall i | 0 <= i < |addresses| ensures addresses[i] in delta {
          FirstNHas(addresses, |addresses|, addresses[i]);
        }
      }
    }
  }

  /** Replace the block table entries one address at a time. */
  method Commit(blocks: map<nat, Region>, regions: seq<Region>, plug: bool, addresses: seq<nat>,
                ghost delta: map<nat, Region>)
    returns (after: map<nat, Region>)
    requires Matching(regions, addresses, delta)
    requires plug ==> blocks.Keys !! delta.Keys
    ensures after == Applied(blocks, delta, plug, SetOf(addresses))
  {
    after := blocks;
    var i := 0;
    assert after == Applied(blocks, delta, plug, {});
    while i < |addresses|
      invariant i <= |addresses|
      invariant after == Applied(blocks, delta, plug, FirstN(addresses, i))
    {
      after := if plug then after[addresses[i] := regions[i]] else after - {addresses[i]};
      i := i + 1;
    }
  }

  /** Committing keeps mapping table, block table and view equal. */
  lemma CommitAgrees(base: map<nat, Region>, blocks: map<nat, Region>, delta: map<nat, Region>, addresses: seq<nat>,
                     plug: bool, v: View, start: nat, capacity: nat, size: nat)
    requires 0 < size && TableOk(base) && Outside(base, start, capacity) && base.Keys !! blocks.Keys
    requires Blocks(blocks, size) && Blocks(delta, size) && delta.Keys == SetOf(addresses)
    requires v.regions == Lengths(base + blocks) && (!plug ==> delta.Keys <= blocks.Keys)
    ensures var after := Applied(blocks, delta, plug, SetOf(addresses));
            && Applied(base + blocks, delta, plug, SetOf(addresses)) == base + after
            && Edited(v, addresses, |addresses|, plug, size).regions == Lengths(base + after)
            && Blocks(after, size) && after.Keys == if plug then blocks.Keys + delta.Keys else blocks.Keys - delta.Keys
  {
    var s := SetOf(addresses);
    if plug {
      assert Applied(blocks, delta, plug, s) == blocks + delta;
      assert Applied(base + blocks, delta, plug, s) == base + (blocks + delta);
      LengthsGrow(base, blocks, delta, size);
    } else {
      LengthsShrink(base, blocks, s);
    }
  }

  lemma LengthsShrink(base: map<nat, Region>, blocks: map<nat, Region>, s: set<nat>)
    requires s !! base.Keys
    ensures base + blocks - s == base + (blocks - s)
    ensures Lengths(base + (blocks - s)) == Lengths(base + blocks) - s
  {
  }

  predicate NoOverlap(v: View, start: nat, len: nat) {
    forall r :: r in v.regions ==> r + v.regions[r] <= start || start + len <= r
  }

  /** `a` keeps a block's distance from every other member of `s`. */
  ghost predicate ClearOf(s: set<nat>, a: nat, size: nat) {
    forall b :: b in s && b != a ==> b + size <= a || a + size <= b
  }

  lemma GridClear(s: set<nat>, start: nat, capacity: nat, size: nat, a: nat)
    requires 0 < size && AllOnGrid(s, start, capacity, size) && OnGrid(start, capacity, size, a)
    ensures ClearOf(s, a, size) && start <= a && a + size <= start + capacity
  {
    forall b | b in s && b != a ensures b + size <= a || a + size <= b {
      assert OnGrid(start, capacity, size, b);
      if b < a {
        MultiplesApart(b, a, size);
      } else {
        MultiplesApart(a, b, size);
      }
    }
  }

  /** A block that is not plugged meets nothing in the view; one that is, does. */
  lemma FreeInView(v: View, base: map<nat, Region>, blocks: map<nat, Region>,
                   start: nat, capacity: nat, size: nat, a: nat)
    requires Blocks(blocks, size) && Outside(base, start, capacity) && v.regions == Lengths(base + blocks)
    requires 0 < size && ClearOf(blocks.Keys, a, size) && start <= a && a + size <= start + capacity
    ensures NoOverlap(v, a, size) <==> a !in blocks
  {
    if a in blocks {
      assert a in v.regions && v.regions[a] == size;
    } else {
      forall r | r in v.regions ensures r + v.regions[r] <= a || a + size <= r {
        assert r in blocks || r in base;
      }
    }
  }

  lemma LengthsGrow(base: map<nat, Region>, blocks: map<nat, Region>, more: map<nat, Region>, size: nat)
    requires forall a :: a in more ==> more[a].len == size
    ensures Lengths(base + (blocks + more)) == Lengths(base + blocks) + Uniform(more.Keys, size)
  {
  }

  /** Distinct grid addresses, and a view of base RAM and grid blocks. */
  ghost predicate Plottable(addresses: seq<nat>, v: View, size: nat, base: map<nat, Region>, blocks: map<nat, Region>,
                            start: nat, capacity: nat) {
    && 0 < size && Blocks(blocks, size) && AllOnGrid(blocks.Keys, start, capacity, size)
    && Distinct(addresses) && AllOnGrid(SetOf(addresses), start, capacity, size)
    && Outside(base, start, capacity) && v.regions == Lengths(base + blocks)
  }

  /** With the first i addresses inserted, the next fits exactly when it is new. */
  lemma PartlyPlugged(base: map<nat, Region>, blocks: map<nat, Region>, start: nat, capacity: nat, size: nat,
                      addresses: seq<nat>, v: View, i: nat)
    requires Plottable(addresses, v, size, base, blocks, start, capacity) && i < |addresses|
    ensures NoOverlap(Edited(v, addresses, i, true, size), addresses[i], size) <==> addresses[i] !in blocks
  {
    var a := addresses[i];
    var more := Delta(blocks, addresses, i, true, size, 0);
    NextIsNew(addresses, i);
    FirstNGrows(addresses, i, |addresses|);
    LengthsGrow(base, blocks, more, size);
    GridClear(blocks.Keys + SetOf(addresses), start, capacity, size, a);
    FreeInView(Edited(v, addresses, i, true, size), base, blocks + more, start, capacity, size, a);
  }

  /** With the first i addresses inserted, the i-th fits exactly when it is not plugged. */
  ghost predicate FitsIfNew(v: View, addresses: seq<nat>, i: nat, size: nat, plugged: set<nat>)
    requires i < |addresses|
  {
    NoOverlap(Edited(v, addresses, i, true, size), addresses[i], size) <==> addresses[i] !in plugged
  }

  ghost predicate AllFitIfNew(v: View, addresses: seq<nat>, size: nat, plugged: set<nat>) {
    forall i {:trigger FitsIfNew(v, addresses, i, size, plugged)} ::
      0 <= i < |addresses| ==> FitsIfNew(v, addresses, i, size, plugged)
  }

  lemma GridFits(base: map<nat, Region>, blocks: map<nat, Region>, start: nat, capacity: nat, size: nat,
                 addresses: seq<nat>, v: View)
    requires Plottable(addresses, v, size, base, blocks, start, capacity)
    ensures AllFitIfNew(v, addresses, size, blocks.Keys)
  {
    forall i | 0 <= i < |addresses| ensures FitsIfNew(v, addresses, i, size, blocks.Keys) {
      PartlyPlugged(base, blocks, start, capacity, size, addresses, v, i);
    }
  }

  lemma NoPlugAfterFailure(allocation: nat -> bool, id: nat, addresses: seq<nat>, plugged: set<nat>, i: nat)
    requires i < |addresses| && (!allocation(id + i) || addresses[i] in plugged)
    ensures !(Avoids(addresses, |addresses|, plugged) && AllSucceed(allocation, id, |addresses|))
  {
    if allocation(id + i) {
      if Avoids(addresses, |addresses|, plugged) {
        AvoidsAt(addresses, |addresses|, plugged, i);
      }
    } else {
      OneFailureSpoils(allocation, id, |addresses|, i);
    }
  }

  /** Allocate a region for each address and insert it into a copy of the view;
      `used` counts the allocations. */
  method BuildPlug(allocation: nat -> bool, id: nat, addresses: seq<nat>, v: View, size: nat, ghost plugged: set<nat>)
    returns (error: Option<MemoryError>, next: View, used: nat)
    requires AllFitIfNew(v, addresses, size, plugged)
    ensures error == None <==> Avoids(addresses, |addresses|, plugged) && AllSucceed(allocation, id, |addresses|)
    ensures error.Some? ==> error.value == MemoryError.Allocation || error.value == Regions
    ensures error == None ==> next == Edited(v, addresses, |addresses|, true, size)
  {
    next, used, error := v, 0, None;
    while used < |addresses|
      invariant used <= |addresses| && error == None
      invariant next == Edited(v, addresses, used, true, size)
      invariant Avoids(addresses, used, plugged) && AllSucceed(allocation, id, used)
    {
      var i := used;
      assert FitsIfNew(v, addresses, i, size, plugged);
      used := used + 1;
      if !allocation(id + i) || !NoOverlap(next, addresses[i], size) {
        NoPlugAfterFailure(allocation, id, addresses, plugged, i);
        return Some(if allocation(id + i) then Regions else MemoryError.Allocation), next, used;
      }
      OneMoreSucceeds(allocation, id, i);
      next := next.Insert(addresses[i], size);
    }
  }

  /** The device's own regions, removed one by one from a copy of the view. */
  method BuildUnplug(blocks: map<nat, Region>, addresses: seq<nat>, v: View, ghost size: nat)
    returns (regions: seq<Region>, next: View)
    requires SetOf(addresses) <= blocks.Keys && Distinct(addresses) && SetOf(addresses) <= v.regions.Keys
    ensures |regions| == |addresses|
    ensures forall i :: 0 <= i < |addresses| ==> addresses[i] in blocks && regions[i] == blocks[addresses[i]]
    ensures next == Edited(v, addresses, |addresses|, false, size)
  {
    regions, next := [], v;
    var i := 0;
    while i < |addresses|
      invariant i <= |addresses| && |regions| == i
      invariant forall k :: 0 <= k < i ==> addresses[k] in blocks && regions[k] == blocks[addresses[k]]
      invariant next == Edited(v, addresses, i, false, size)
    {
      NextIsNew(addresses, i);
      regions := regions + [blocks[addresses[i]]];
      next := next.Remove(addresses[i]);
      i := i + 1;
    }
  }

  /** A plug of free grid blocks adds disjoint regions to base RAM and blocks. */
  lemma PlugFeasible(base: map<nat, Region>, blocks: map<nat, Region>, delta: map<nat, Region>,
                     start: nat, capacity: nat, size: nat)
    requires 0 < size && start + capacity < ADDRESS_LIMIT && TableOk(base) && Outside(base, start, capacity)
    requires Blocks(blocks, size) && AllOnGrid(blocks.Keys, start, capacity, size)
    requires Blocks(delta, size) && AllOnGrid(delta.Keys, start, capacity, size) && blocks.Keys !! delta.Keys
    ensures Feasible(base + blocks, delta, true)
  {
    GridTable(base, blocks + delta, start, capacity, size);
    assert base + blocks + delta == base + (blocks + delta);
  }
}
