/** The run loop's hot-plug transaction over all devices: scan every live queue,
    isolate devices whose queues are corrupt, and serve the memory device. */
module Runtime {
  import opened Wrappers
  import opened Errors
  import opened GuestMemory
  import opened Mappings
  import opened Transaction
  import opened HotplugMemory
  import opened Virtqueue
  import opened PinScan
  import opened RingStability
  import opened HotplugQueue
  import opened UnplugSafety
  import opened Teardown
  import opened Transport

  /** Devices are owned one by one: none shares its registers or queues. */
  ghost predicate Apart(devices: seq<Mmio>) {
    forall i, j {:trigger ApartAt(devices, i, j)} :: ApartAt(devices, i, j)
  }

  ghost predicate ApartAt(devices: seq<Mmio>, i: int, j: int) {
    0 <= i < j < |devices| ==> devices[i] != devices[j] && devices[i].queues != devices[j].queues
  }

  function QueuesOf(devices: seq<Mmio>): (s: set<Queues>)
    ensures forall i :: 0 <= i < |devices| ==> devices[i].queues in s
  {
    set i | 0 <= i < |devices| :: devices[i].queues
  }

  ghost function Fleet(devices: seq<Mmio>): (f: seq<Registers>)
    reads devices, QueuesOf(devices)
    ensures |f| == |devices| && forall i :: 0 <= i < |devices| ==> f[i] == devices[i].Regs()
  {
    seq(|devices|, i requires 0 <= i < |devices| reads devices, QueuesOf(devices) => devices[i].Regs())
  }

  ghost predicate AllOk(devices: seq<Mmio>)
    reads devices, QueuesOf(devices)
  {
    forall i :: 0 <= i < |devices| ==> Inv(devices[i].Regs(), devices[i].id)
  }

  /** Not isolated, and every queue scans. */
  ghost predicate Live(s: Registers, v: View)
    requires RingsOk(s.rings)
  {
    NEEDS_RESET !in s.status && AllPins(v, s.rings).Some?
  }

  ghost predicate AllLenient(devices: seq<Mmio>) {
    forall i :: 0 <= i < |devices| ==> !devices[i].id.strict
  }

  /** Every queue's scan is among the pins. */
  ghost predicate Pins(s: Registers, v: View, pinned: seq<Range>)
    requires RingsOk(s.rings)
  {
    forall k :: 0 <= k < |s.rings| ==> Scanned(v, s.rings[k], pinned)
  }

  lemma {:induction false} ScanIncludes(v: View, rings: seq<Queue>, k: nat, p: Range)
    requires RingsOk(rings) && AllPins(v, rings).Some? && k < |rings|
    ensures QueuePins(v, rings[k]).Some? && (p in QueuePins(v, rings[k]).value ==> p in AllPins(v, rings).value)
  {
    if k != 0 {
      ScanIncludes(v, rings[1..], k - 1, p);
    }
  }

  lemma ScanPins(s: Registers, v: View, pinned: seq<Range>)
    requires RingsOk(s.rings) && AllPins(v, s.rings).Some?
    requires forall p :: p in AllPins(v, s.rings).value ==> p in pinned
    ensures Pins(s, v, pinned)
  {
    forall k | 0 <= k < |s.rings| ensures Scanned(v, s.rings[k], pinned) {
      ScanIncludes(v, s.rings, k, Range(0, 0));
      forall p | p in QueuePins(v, s.rings[k]).value ensures p in pinned {
        ScanIncludes(v, s.rings, k, p);
      }
    }
  }

  /** A scan leaves a live or already isolated device alone and isolates the rest. */
  ghost predicate AfterScan(s: Registers, t: Registers, v: View)
    requires RingsOk(s.rings)
  {
    t == if NEEDS_RESET in s.status || AllPins(v, s.rings).Some? then s else Isolated(s)
  }

  /** Apart from the memory device, the last, a transaction changes a device only by
      isolating it, and only for its own corrupt queues. */
  ghost predicate Confined(before: seq<Registers>, after: seq<Registers>, v: View) {
    && |after| == |before|
    && forall i :: 0 <= i < |before| - 1 ==> RingsOk(before[i].rings) && AfterScan(before[i], after[i], v)
  }

  /** A scanned device: isolated if corrupt, pinned if live. */
  ghost predicate Surveyed(s: Registers, t: Registers, v: View, pinned: seq<Range>)
    requires RingsOk(s.rings)
  {
    AfterScan(s, t, v) && (Live(s, v) ==> Pins(s, v, pinned))
  }

  lemma SurveyedGrows(s: Registers, t: Registers, v: View, pinned: seq<Range>, more: seq<Range>)
    requires RingsOk(s.rings) && Surveyed(s, t, v, pinned)
    ensures Surveyed(s, t, v, pinned + more)
  {
    if Live(s, v) {
      forall k | 0 <= k < |s.rings| ensures Scanned(v, s.rings[k], pinned + more) {
        assert Scanned(v, s.rings[k], pinned);
      }
    }
  }

  lemma NewlySurveyed(s: Registers, t: Registers, v: View, pinned: seq<Range>, pins: seq<Range>)
    requires RingsOk(s.rings) && AfterScan(s, t, v)
    requires Live(s, v) ==> Some(pins) == AllPins(v, s.rings)
    ensures Surveyed(s, t, v, pinned + pins)
  {
    if Live(s, v) {
      ScanPins(s, v, pinned + pins);
    }
  }

  /** `p` is a pin of a live device. */
  ghost predicate PinOf(s: Registers, v: View, p: Range) {
    RingsOk(s.rings) && Live(s, v) && p in AllPins(v, s.rings).value
  }

  /** Every pin is needed by some live device. */
  ghost predicate NothingElse(fleet: seq<Registers>, v: View, pinned: seq<Range>) {
    forall p :: p in pinned ==> exists i :: 0 <= i < |fleet| && PinOf(fleet[i], v, p)
  }

  lemma StillNothingElse(fleet: seq<Registers>, v: View, pinned: seq<Range>, n: nat, pins: seq<Range>)
    requires NothingElse(fleet, v, pinned) && n < |fleet| && RingsOk(fleet[n].rings)
    requires if Live(fleet[n], v) then Some(pins) == AllPins(v, fleet[n].rings) else pins == []
    ensures NothingElse(fleet, v, pinned + pins)
  {
    forall p | p in pinned + pins ensures exists i :: 0 <= i < |fleet| && PinOf(fleet[i], v, p) {
      if p in pins {
        assert PinOf(fleet[n], v, p);
      }
    }
  }

  /** Scan one device; its queues are corrupt exactly when it ends up isolated. */
  method ScanDevice(device: Mmio, v: View) returns (r: Result<seq<Range>, DeviceError>)
    requires Inv(device.Regs(), device.id)
    modifies device`status, device.queues`interrupt
    ensures Inv(device.Regs(), device.id)
    ensures r.Ok? ==> AfterScan(old(device.Regs()), device.Regs(), v)
    ensures r.Ok? && Live(old(device.Regs()), v) ==> Some(r.value) == AllPins(v, device.queues.rings)
    ensures r.Ok? && !Live(old(device.Regs()), v) ==> r.value == []
    ensures !device.id.strict ==> r.Ok?
    ensures r.Err? ==> r.error.IsGuest() && device.Regs() == old(device.Regs())
  {
    if NEEDS_RESET in device.status {
      return Ok([]);
    }
    var pins := device.queues.Pinned(v);
    var contained := device.Contain(if pins.Ok? then Ok(Unit) else Err(pins.error));
    if contained.Err? {
      return Err(contained.error);
    }
    return Ok(if pins.Ok? then pins.value else []);
  }

  /** Scan each device separately: in lenient mode a corrupt queue isolates only its
      own device, and every live device's queues are pinned. */
  method Scan(devices: seq<Mmio>, v: View) returns (r: Result<seq<Range>, DeviceError>)
    requires Apart(devices) && AllOk(devices)
    modifies devices`status, QueuesOf(devices)`interrupt
    ensures AllOk(devices)
    ensures AllLenient(devices) ==> r.Ok?
    ensures r.Err? ==> r.error.IsGuest()
    ensures r.Ok? ==> AllSurveyed(old(Fleet(devices)), Fleet(devices), v, r.value)
    ensures r.Ok? ==> NothingElse(old(Fleet(devices)), v, r.value)
  {
    var pinned, n := [], 0;
    ghost var before := Fleet(devices);
    while n < |devices|
      invariant n <= |devices| && AllOk(devices)
      invariant forall i :: n <= i < |devices| ==> devices[i].Regs() == before[i]
      invariant forall i :: 0 <= i < n ==> Surveyed(before[i], devices[i].Regs(), v, pinned)
      invariant NothingElse(before, v, pinned)
    {
      ghost var between := Fleet(devices);
      var pins := ScanDevice(devices[n], v);
      forall i | 0 <= i < |devices| && i != n ensures devices[i].Regs() == between[i] {
        assert ApartAt(devices, i, n) && ApartAt(devices, n, i);
      }
      if pins.Err? {
        return Err(pins.error);
      }
      forall i | 0 <= i < n ensures Surveyed(before[i], devices[i].Regs(), v, pinned + pins.value) {
        SurveyedGrows(before[i], between[i], v, pinned, pins.value);
      }
      NewlySurveyed(before[n], devices[n].Regs(), v, pinned, pins.value);
      StillNothingElse(before, v, pinned, n, pins.value);
      pinned := pinned + pins.value;
      n := n + 1;
    }
    return Ok(pinned);
  }

  // ---------------------------------------------------------------------------
  // What the transaction leaves in view

  /** The rings of every ready queue are guest memory. */
  ghost predicate RingsInView(s: Registers, w: View) {
    forall k, p :: 0 <= k < |s.rings| && s.rings[k].ready && p in s.rings[k].RingPins() ==> w.InView(p.start, p.len)
  }

  /** Every ring and every nonempty pending buffer that a ready queue had in the old view
      is in the new one. */
  ghost predicate NeedStays(s: Registers, v: View, w: View) {
    RingsOk(s.rings) && forall k :: 0 <= k < |s.rings| ==> QueueNeedStays(s.rings[k], v, w)
  }

  ghost predicate QueueNeedStays(q: Queue, v: View, w: View)
    requires q.WellFormed()
  {
    forall p {:trigger NeededByQueue(v, q, p)} :: NeededByQueue(v, q, p) ==> w.InView(p.start, p.len)
  }

  /** Every queue still scans and its pending entries hold the chains they held before,
      after `taken` entries were taken from queue 0. */
  ghost predicate WorkKept(s: Registers, t: Registers, v: View, w: View, taken: nat) {
    && RingsOk(s.rings) && RingsOk(t.rings) && |t.rings| == |s.rings|
    && forall k :: 0 <= k < |s.rings| ==> Kept(v, s.rings[k], w, t.rings[k], if k == 0 then taken else 0)
  }

  lemma {:induction false} EachScans(w: View, rings: seq<Queue>)
    requires RingsOk(rings) && forall k :: 0 <= k < |rings| ==> QueuePins(w, rings[k]).Some?
    ensures AllPins(w, rings).Some?
  {
    if rings != [] {
      EachScans(w, rings[1..]);
    }
  }

  lemma KeptStaysLive(s: Registers, t: Registers, v: View, w: View, taken: nat)
    requires WorkKept(s, t, v, w, taken) && NEEDS_RESET !in t.status
    ensures Live(t, w)
  {
    forall k | 0 <= k < |t.rings| ensures QueuePins(w, t.rings[k]).Some? {
      assert Kept(v, s.rings[k], w, t.rings[k], if k == 0 then taken else 0);
    }
    EachScans(w, t.rings);
  }

  /** Queue 0 took some entries; nothing else about the rings changed. */
  ghost predicate Moved(s: Registers, t: Registers, taken: nat) {
    && |t.rings| == |s.rings|
    && forall k :: 0 <= k < |s.rings| ==> Later(s.rings[k], t.rings[k], if k == 0 then taken else 0)
  }

  lemma LiveRingsInView(s: Registers, t: Registers, v: View, w: View, pinned: seq<Range>, taken: nat)
    requires RingsOk(s.rings) && Pins(s, v, pinned) && Stay(v, w, pinned) && Moved(s, t, taken)
    ensures RingsInView(t, w)
  {
    forall k, p | 0 <= k < |t.rings| && t.rings[k].ready && p in t.rings[k].RingPins()
      ensures w.InView(p.start, p.len)
    {
      RingsStay(v, s.rings[k], w, t.rings[k], if k == 0 then taken else 0, pinned, p);
    }
  }

  /** The queues read the same descriptors and available entries in both views. */
  ghost predicate SameRingBytes(s: Registers, v: View, w: View) {
    forall k :: 0 <= k < |s.rings| && s.rings[k].ready ==> SameRings(v, w, s.rings[k])
  }

  lemma LiveWorkKept(s: Registers, t: Registers, v: View, w: View, pinned: seq<Range>, taken: nat)
    requires RingsOk(s.rings) && RingsOk(t.rings) && Pins(s, v, pinned) && Stay(v, w, pinned) && Moved(s, t, taken)
    requires SameRingBytes(s, v, w) && (0 < |s.rings| && s.rings[0].ready ==> taken <= s.rings[0].Pending(v))
    ensures WorkKept(s, t, v, w, taken)
  {
    forall k | 0 <= k < |s.rings| ensures Kept(v, s.rings[k], w, t.rings[k], if k == 0 then taken else 0) {
      PendingKept(v, s.rings[k], w, t.rings[k], if k == 0 then taken else 0, pinned);
    }
  }

  lemma LiveNeedStays(s: Registers, v: View, w: View, pinned: seq<Range>)
    requires RingsOk(s.rings) && Pins(s, v, pinned) && Stay(v, w, pinned)
    ensures NeedStays(s, v, w)
  {
    forall k | 0 <= k < |s.rings| ensures QueueNeedStays(s.rings[k], v, w) {
      forall p {:trigger NeededByQueue(v, s.rings[k], p)} | NeededByQueue(v, s.rings[k], p) ensures w.InView(p.start, p.len) {
        NeededStays(v, w, s.rings[k], pinned, p);
      }
    }
  }

  // ---------------------------------------------------------------------------
  // When responses stay clear of the rings

  ghost predicate RingRange(q: Queue, r: Range) {
    q.ready && (r == Range(q.desc, 16 * q.size) || r == Range(q.avail, 6 + 2 * q.size))
  }

  /** `r` is the descriptor table or available ring of a live device's ready queue. */
  ghost predicate Watched(fleet: seq<Registers>, v: View, r: Range)
    requires forall i :: 0 <= i < |fleet| ==> RingsOk(fleet[i].rings)
  {
    exists i, k :: 0 <= i < |fleet| && 0 <= k < |fleet[i].rings| && Live(fleet[i], v) && RingRange(fleet[i].rings[k], r)
  }

  /** No pending request's response buffer and no used element overlaps `r`. */
  ghost predicate Spares(v: View, q: Queue, r: Range)
    requires q.WellFormed()
  {
    && !UsedRing(q).Meets(r)
    && forall k {:trigger ChainAt(v, q, k)} :: 0 <= k < q.Pending(v) && ChainAt(v, q, k).Some? ==>
                                                 Quiet(ChainAt(v, q, k).value.descriptors, r)
  }

  /** The guest keeps the memory device's responses clear of every live ring. */
  ghost predicate Undisturbed(fleet: seq<Registers>, v: View, q: Queue)
    requires q.WellFormed() && forall i :: 0 <= i < |fleet| ==> RingsOk(fleet[i].rings)
  {
    forall r :: Watched(fleet, v, r) ==> Spares(v, q, r)
  }

  ghost function WatchedPins(fleet: seq<Registers>, v: View, pinned: seq<Range>): set<Range>
    requires forall i :: 0 <= i < |fleet| ==> RingsOk(fleet[i].rings)
  {
    set r | r in pinned && Watched(fleet, v, r)
  }

  lemma RingRangePinned(v: View, q: Queue, pinned: seq<Range>, r: Range)
    requires q.WellFormed() && Scanned(v, q, pinned) && RingRange(q, r)
    ensures r in pinned && v.InView(r.start, r.len)
  {
    assert q.RingPins()[0] == Range(q.desc, 16 * q.size) && q.RingPins()[1] == Range(q.avail, 6 + 2 * q.size);
    assert r in q.RingPins();
    QueuePinsExact(v, q, r);
  }

  ghost predicate FleetPinned(fleet: seq<Registers>, v: View, pinned: seq<Range>)
    requires forall i :: 0 <= i < |fleet| ==> RingsOk(fleet[i].rings)
  {
    forall i :: 0 <= i < |fleet| && Live(fleet[i], v) ==> Pins(fleet[i], v, pinned)
  }

  lemma WatchedArePinned(fleet: seq<Registers>, v: View, pinned: seq<Range>, r: Range)
    requires forall i :: 0 <= i < |fleet| ==> RingsOk(fleet[i].rings)
    requires FleetPinned(fleet, v, pinned) && Watched(fleet, v, r)
    ensures r in pinned && v.InView(r.start, r.len)
  {
    var i, k :| 0 <= i < |fleet| && 0 <= k < |fleet[i].rings| && Live(fleet[i], v) && RingRange(fleet[i].rings[k], r);
    assert Pins(fleet[i], v, pinned);
    RingRangePinned(v, fleet[i].rings[k], pinned, r);
  }

  lemma UndisturbedIsCalm(fleet: seq<Registers>, m: nat, v: View, pinned: seq<Range>)
    requires forall i :: 0 <= i < |fleet| ==> RingsOk(fleet[i].rings)
    requires m < |fleet| && 0 < |fleet[m].rings| && fleet[m].rings[0].ready && Live(fleet[m], v)
    requires FleetPinned(fleet, v, pinned) && Undisturbed(fleet, v, fleet[m].rings[0])
    ensures Calm(v, fleet[m].rings[0], pinned, WatchedPins(fleet, v, pinned))
  {
    var q, watched := fleet[m].rings[0], WatchedPins(fleet, v, pinned);
    assert Pins(fleet[m], v, pinned);
    assert Scanned(v, q, pinned);
    forall r | RingRange(q, r) ensures r in watched {
      assert Watched(fleet, v, r);
      WatchedArePinned(fleet, v, pinned, r);
    }
    assert RingRange(q, Range(q.desc, 16 * q.size)) && RingRange(q, Range(q.avail, 6 + 2 * q.size));
    forall r | r in watched ensures r in pinned && v.InView(r.start, r.len) && Spares(v, q, r) {
      WatchedArePinned(fleet, v, pinned, r);
    }
  }

  lemma UnwrittenRings(fleet: seq<Registers>, i: nat, v: View, w: View, pinned: seq<Range>)
    requires forall j :: 0 <= j < |fleet| ==> RingsOk(fleet[j].rings)
    requires i < |fleet| && Live(fleet[i], v) && FleetPinned(fleet, v, pinned)
    requires Unwritten(v, w, WatchedPins(fleet, v, pinned))
    ensures SameRingBytes(fleet[i], v, w)
  {
    forall k, r | 0 <= k < |fleet[i].rings| && RingRange(fleet[i].rings[k], r) ensures SameBytes(v, w, r) {
      assert Watched(fleet, v, r);
      WatchedArePinned(fleet, v, pinned, r);
    }
    forall k | 0 <= k < |fleet[i].rings| && fleet[i].rings[k].ready ensures SameRings(v, w, fleet[i].rings[k]) {
      var q := fleet[i].rings[k];
      assert RingRange(q, Range(q.desc, 16 * q.size)) && RingRange(q, Range(q.avail, 6 + 2 * q.size));
    }
  }

  // ---------------------------------------------------------------------------
  // The transaction

  ghost predicate FleetOk(fleet: seq<Registers>, m: nat) {
    && (forall i :: 0 <= i < |fleet| ==> RingsOk(fleet[i].rings))
    && m < |fleet| && 0 < |fleet[m].rings| && fleet[m].rings[0].ready
  }

  /** Either the memory device was not served and nothing moved, or its round ran. */
  ghost predicate Served(fleet: seq<Registers>, m: nat, v: View, w: View, q: Queue, taken: nat, pinned: seq<Range>)
    requires FleetOk(fleet, m)
  {
    var start := fleet[m].rings[0];
    || (w == v && taken == 0 && q == start)
    || (Live(fleet[m], v) && Progress(v, start, w, q, taken, pinned, WatchedPins(fleet, v, pinned)))
  }

  /** A device that was live before keeps everything it needed in view. In an undisturbed
      round it is live in the new view too, with the same chains still pending. */
  lemma DeviceSafe(fleet: seq<Registers>, m: nat, i: nat, t: Registers, v: View, w: View, q: Queue, taken: nat,
                   pinned: seq<Range>)
    requires FleetOk(fleet, m) && i < |fleet| && Live(fleet[i], v) && FleetPinned(fleet, v, pinned)
    requires Served(fleet, m, v, w, q, taken, pinned) && RingsOk(t.rings)
    requires t.rings == if i == m then fleet[m].rings[0 := q] else fleet[i].rings
    ensures RingsInView(t, w) && NeedStays(fleet[i], v, w)
    ensures Undisturbed(fleet, v, fleet[m].rings[0]) ==>
              WorkKept(fleet[i], t, v, w, if i == m then taken else 0) && (NEEDS_RESET !in t.status ==> Live(t, w))
  {
    var mine := if i == m then taken else 0;
    assert Pins(fleet[i], v, pinned);
    assert Moved(fleet[i], t, mine);
    LiveRingsInView(fleet[i], t, v, w, pinned, mine);
    LiveNeedStays(fleet[i], v, w, pinned);
    if Undisturbed(fleet, v, fleet[m].rings[0]) {
      if w != v {
        UndisturbedIsCalm(fleet, m, v, pinned);
        UnwrittenRings(fleet, i, v, w, pinned);
      } else if Live(fleet[m], v) {
        UndisturbedIsCalm(fleet, m, v, pinned);
      }
      LiveWorkKept(fleet[i], t, v, w, pinned, mine);
      if NEEDS_RESET !in t.status {
        KeptStaysLive(fleet[i], t, v, w, mine);
      }
    }
  }

  /** Serve the memory device and contain what its guest got wrong. */
  method ServeMemory(device: Mmio, mem: VirtioMem, mapper: MappingTable, ram: GuestRam, pinned: seq<Range>,
                     ghost base: map<nat, Region>, ghost watched: set<Range>)
    returns (r: Result<Unit, DeviceError>, ghost taken: nat)
    requires Inv(device.Regs(), device.id) && 0 < |device.queues.rings|
    requires mem.Valid() && mem.Accounted() && mapper.Valid() && mem.Agrees(mapper.table, ram.view, base)
    modifies device`status, device.queues`rings, device.queues`interrupt
    modifies mem`allocations, mem`blocks, mem`plugged, mem`generation, mem.control`pluggedSizeMib, mapper, ram
    ensures Inv(device.Regs(), device.id) && mem.Valid() && mapper.Valid()
    ensures old(device.status) <= device.status
    ensures r.Ok? || r.error.IsGuest() ==> mem.Accounted() && mem.Agrees(mapper.table, ram.view, base)
    ensures !device.id.strict && Reliable(mapper.host) && Reliable(mem.allocation) ==> r.Ok?
    ensures Reliable(mapper.host) && Reliable(mem.allocation) && r.Err? ==> r.error.IsGuest()
    ensures |device.queues.rings| == |old(device.queues.rings)|
    ensures device.queues.rings == old(device.queues.rings)[0 := device.queues.rings[0]]
    ensures Progress(old(ram.view), old(device.queues.rings[0]), ram.view, device.queues.rings[0], taken, pinned, watched)
    ensures r.Ok? && NEEDS_RESET !in device.status ==>
              RoundDone(old(device.queues.rings[0]), device.queues.rings[0], ram.view, taken)
  {
    var result;
    result, taken := Process(mem, device.queues, mapper, ram, pinned, base, watched);
    assert device.queues.rings == old(device.queues.rings)[0 := device.queues.rings[0]];
    var contained := device.Contain(result);
    r := if contained.Err? then Err(contained.error) else Ok(Unit);
  }

  ghost predicate SafeRings(fleet: seq<Registers>, w: View) {
    forall i :: 0 <= i < |fleet| && NEEDS_RESET !in fleet[i].status ==> RingsInView(fleet[i], w)
  }

  /** On a device that is not isolated now, all that its queues needed before is in view. */
  ghost predicate SafeNeed(before: seq<Registers>, after: seq<Registers>, v: View, w: View) {
    && |after| == |before|
    && forall i :: 0 <= i < |after| && NEEDS_RESET !in after[i].status ==> NeedStays(before[i], v, w)
  }

  /** Such a device still scans, and every entry still pending holds the chain it held
      before; m is the memory device, which took entries. */
  ghost predicate SafeWork(before: seq<Registers>, after: seq<Registers>, m: nat, v: View, w: View, taken: nat) {
    && |after| == |before|
    && forall i :: 0 <= i < |after| && NEEDS_RESET !in after[i].status ==>
                     WorkKept(before[i], after[i], v, w, if i == m then taken else 0) && Live(after[i], w)
  }

  ghost predicate AllSurveyed(fleet: seq<Registers>, scanned: seq<Registers>, v: View, pinned: seq<Range>) {
    && |scanned| == |fleet|
    && forall i :: 0 <= i < |fleet| ==> RingsOk(fleet[i].rings) && Surveyed(fleet[i], scanned[i], v, pinned)
  }

  /** Only the memory device, at m, changed after the scan: its queue 0 and its status. */
  ghost predicate OnlyServed(scanned: seq<Registers>, after: seq<Registers>, m: nat) {
    && |after| == |scanned| && m < |after| && 0 < |scanned[m].rings| == |after[m].rings|
    && (forall i :: 0 <= i < |after| ==> RingsOk(after[i].rings) && (i != m ==> after[i] == scanned[i]))
    && after[m].rings == scanned[m].rings[0 := after[m].rings[0]]
    && scanned[m].status <= after[m].status
  }

  /** An isolated memory device is not served; otherwise its round ran. */
  ghost predicate RoundRan(s: Registers, t: Registers, v: View, w: View, taken: nat, pinned: seq<Range>,
                           watched: set<Range>) {
    && 0 < |s.rings| == |t.rings| && s.rings[0].WellFormed()
    && if NEEDS_RESET in s.status then w == v && taken == 0 && t.rings == s.rings
       else Progress(v, s.rings[0], w, t.rings[0], taken, pinned, watched)
  }

  lemma FleetSafe(fleet: seq<Registers>, scanned: seq<Registers>, after: seq<Registers>, m: nat, v: View, w: View,
                  taken: nat, pinned: seq<Range>)
    requires FleetOk(fleet, m) && AllSurveyed(fleet, scanned, v, pinned) && OnlyServed(scanned, after, m)
    requires RoundRan(scanned[m], after[m], v, w, taken, pinned, WatchedPins(fleet, v, pinned))
    ensures SafeRings(after, w) && SafeNeed(fleet, after, v, w)
    ensures Undisturbed(fleet, v, fleet[m].rings[0]) ==> SafeWork(fleet, after, m, v, w, taken)
    ensures m == |fleet| - 1 ==> Confined(fleet, after, v)
  {
    assert Surveyed(fleet[m], scanned[m], v, pinned);
    assert FleetPinned(fleet, v, pinned) by {
      forall i | 0 <= i < |fleet| && Live(fleet[i], v) ensures Pins(fleet[i], v, pinned) {
        assert Surveyed(fleet[i], scanned[i], v, pinned);
      }
    }
    forall i | 0 <= i < |after| && NEEDS_RESET !in after[i].status
      ensures RingsInView(after[i], w) && NeedStays(fleet[i], v, w)
      ensures Undisturbed(fleet, v, fleet[m].rings[0]) ==>
                WorkKept(fleet[i], after[i], v, w, if i == m then taken else 0) && Live(after[i], w)
    {
      assert Surveyed(fleet[i], scanned[i], v, pinned) && Surveyed(fleet[m], scanned[m], v, pinned);
      DeviceSafe(fleet, m, i, after[i], v, w, after[m].rings[0], taken, pinned);
    }
  }

  /** Unless isolated, the device has had a whole round of service. */
  ghost predicate Finished(s: Registers, t: Registers, w: View, taken: nat) {
    NEEDS_RESET !in t.status ==> s.rings != [] && t.rings != [] && RoundDone(s.rings[0], t.rings[0], w, taken)
  }

  /** Serve the last device, the memory device, unless it is isolated. */
  method ServeLast(devices: seq<Mmio>, mem: VirtioMem, mapper: MappingTable, ram: GuestRam, pinned: seq<Range>,
                   ghost base: map<nat, Region>, ghost watched: set<Range>)
    returns (r: Result<Unit, DeviceError>, ghost taken: nat)
    requires Apart(devices) && AllOk(devices) && 0 < |devices| && 0 < |devices[|devices| - 1].queues.rings|
    requires mem.Valid() && mem.Accounted() && mapper.Valid() && mem.Agrees(mapper.table, ram.view, base)
    modifies devices`status, QueuesOf(devices)`rings, QueuesOf(devices)`interrupt
    modifies mem`allocations, mem`blocks, mem`plugged, mem`generation, mem.control`pluggedSizeMib, mapper, ram
    ensures AllOk(devices) && mem.Valid() && mapper.Valid()
    ensures r.Ok? || r.error.IsGuest() ==> mem.Accounted() && mem.Agrees(mapper.table, ram.view, base)
    ensures !devices[|devices| - 1].id.strict && Reliable(mapper.host) && Reliable(mem.allocation) ==> r.Ok?
    ensures Reliable(mapper.host) && Reliable(mem.allocation) && r.Err? ==> r.error.IsGuest()
    ensures OnlyServed(old(Fleet(devices)), Fleet(devices), |devices| - 1)
    ensures var m := |devices| - 1;
            && RoundRan(old(Fleet(devices))[m], Fleet(devices)[m], old(ram.view), ram.view, taken, pinned, watched)
            && (r.Ok? ==> Finished(old(Fleet(devices))[m], Fleet(devices)[m], ram.view, taken))
  {
    var m := |devices| - 1;
    ghost var scanned := Fleet(devices);
    if NEEDS_RESET in devices[m].status {
      return Ok(Unit), 0;
    }
    r, taken := ServeMemory(devices[m], mem, mapper, ram, pinned, base, watched);
    forall i | 0 <= i < m ensures devices[i].Regs() == scanned[i] && Inv(scanned[i], devices[i].id) {
      assert ApartAt(devices, i, m);
    }
    assert Fleet(devices) == scanned[m := devices[m].Regs()];
  }

  /** With the VM quiescent: scan all devices, then serve the memory device unless it
      is isolated. Afterwards, on every device that is not isolated, each ready queue's
      rings and every nonempty buffer that was pending are still in view; if responses
      were kept clear of live rings, each entry still pending holds its old chain. */
  method Transact(devices: seq<Mmio>, mem: VirtioMem, mapper: MappingTable, ram: GuestRam, ghost base: map<nat, Region>)
    returns (r: Result<Unit, DeviceError>, ghost taken: nat)
    requires Apart(devices) && AllOk(devices) && 0 < |devices|
    requires var queues := devices[|devices| - 1].queues; 0 < |queues.rings| && queues.rings[0].ready
    requires mem.Valid() && mem.Accounted() && mapper.Valid() && mem.Agrees(mapper.table, ram.view, base)
    modifies devices`status, QueuesOf(devices)`rings, QueuesOf(devices)`interrupt
    modifies mem`allocations, mem`blocks, mem`plugged, mem`generation, mem.control`pluggedSizeMib, mapper, ram
    ensures AllOk(devices) && mem.Valid() && mapper.Valid()
    ensures r.Ok? || r.error.IsGuest() ==> mem.Accounted() && mem.Agrees(mapper.table, ram.view, base)
    ensures AllLenient(devices) && Reliable(mapper.host) && Reliable(mem.allocation) ==> r.Ok?
    ensures Reliable(mapper.host) && Reliable(mem.allocation) && r.Err? ==> r.error.IsGuest()
    ensures r.Ok? ==> Confined(old(Fleet(devices)), Fleet(devices), old(ram.view))
    ensures r.Ok? ==> && SafeRings(Fleet(devices), ram.view)
                      && SafeNeed(old(Fleet(devices)), Fleet(devices), old(ram.view), ram.view)
    ensures r.Ok? && old(Undisturbed(Fleet(devices), ram.view, devices[|devices| - 1].queues.rings[0])) ==>
              SafeWork(old(Fleet(devices)), Fleet(devices), |devices| - 1, old(ram.view), ram.view, taken)
    ensures r.Ok? ==> Finished(old(Fleet(devices))[|devices| - 1], Fleet(devices)[|devices| - 1], ram.view, taken)
    ensures r.Ok? ==> var m := |devices| - 1;
                      && old(devices[m].status) <= devices[m].status
                      && |devices[m].queues.rings| == |old(devices[m].queues.rings)|
  {
    ghost var fleet, v := Fleet(devices), ram.view;
    var pinned := Scan(devices, ram.view);
    if pinned.Err? {
      return Err(pinned.error), 0;
    }
    ghost var scanned := Fleet(devices);
    ghost var m := |devices| - 1;
    assert Surveyed(fleet[m], scanned[m], v, pinned.value) && devices[m].queues.rings == fleet[m].rings;
    r, taken := ServeLast(devices, mem, mapper, ram, pinned.value, base, WatchedPins(fleet, v, pinned.value));
    FleetSafe(fleet, scanned, Fleet(devices), m, v, ram.view, taken, pinned.value);
  }

  // ---------------------------------------------------------------------------
  // Between the run loop's pause and resume

  datatype RunError = Device(error: DeviceError) | Platform | SerialPort | UnmappedIo | InvalidAccess {

    /** Not a guest's doing: a fatal error of a device's host side. */
    predicate IsHost() {
      Device? && !error.IsGuest()
    }
  }

  datatype Flow = Continue | Break

  /** Tell the memory device's driver about a new target, and find out whether it has
      pending requests; an unusable request queue isolates the device. */
  method MemoryPending(device: Mmio, mem: VirtioMem, v: View) returns (r: Result<bool, DeviceError>)
    requires Inv(device.Regs(), device.id) && 0 < |device.queues.rings|
    modifies device`status, device.queues`interrupt, mem`requested, mem`generation, mem.control`driverReady
    ensures Inv(device.Regs(), device.id) && mem.control.driverReady == old(device.Active())
    ensures mem.requested == mem.control.requestedSizeMib * MIB
    ensures device.queues.rings == old(device.queues.rings)
    ensures mem.requested != old(mem.requested) ==> 1 in device.queues.interrupt
    ensures r == Ok(true) ==> var q := device.queues.rings[0];
                              old(device.Active()) && q.ready && Usable(v, q) && q.Pending(v) != 0
    ensures old(device.Active()) && device.queues.rings[0].ready && Usable(v, device.queues.rings[0]) ==>
              r == Ok(device.queues.rings[0].Pending(v) != 0)
    ensures old(device.status) <= device.status
    ensures r == Ok(true) ==> device.Regs() == old(device.Regs()).(interrupt := device.queues.interrupt)
    ensures r.Err? ==> r.error.IsGuest()
    ensures !device.id.strict ==> r.Ok?
  {
    var active := device.Active();
    var changed := SyncTarget(mem, active);
    if changed {
      device.queues.interrupt := device.queues.interrupt + {1};
    }
    if !active {
      return Ok(false);
    }
    var available := device.queues.Available(0, v);
    var contained := device.Contain(if available.Ok? then Ok(Unit) else Err(available.error));
    if contained.Err? {
      return Err(contained.error);
    }
    return Ok(available.Ok? && available.value != 0);
  }

  /** The same on the last of the devices, which leaves the others alone. */
  method LastPending(devices: seq<Mmio>, mem: VirtioMem, v: View) returns (r: Result<bool, DeviceError>)
    requires Apart(devices) && AllOk(devices) && 0 < |devices| && 0 < |devices[|devices| - 1].queues.rings|
    modifies devices`status, QueuesOf(devices)`interrupt, mem`requested, mem`generation, mem.control`driverReady
    ensures AllOk(devices) && mem.blocks == old(mem.blocks)
    ensures forall i :: 0 <= i < |devices| ==> devices[i].queues.rings == old(devices[i].queues.rings)
    ensures r == Ok(true) ==> devices[|devices| - 1].queues.rings[0].ready
    ensures r == Ok(true) ==> Roused(old(Fleet(devices)), Fleet(devices))
    ensures LastMoved(old(Fleet(devices)), Fleet(devices))
    ensures r.Err? ==> r.error.IsGuest()
    ensures !devices[|devices| - 1].id.strict ==> r.Ok?
    ensures forall i :: 0 <= i < |devices| - 1 ==> devices[i].Regs() == old(devices[i].Regs())
  {
    var m := |devices| - 1;
    ghost var before := Fleet(devices);
    r := MemoryPending(devices[m], mem, v);
    forall i | 0 <= i < m ensures devices[i].Regs() == before[i] && Inv(before[i], devices[i].id) {
      assert ApartAt(devices, i, m);
    }
  }

  /** Only the last device's interrupts changed. */
  ghost predicate Roused(before: seq<Registers>, after: seq<Registers>) {
    && 0 < |before| == |after|
    && forall i :: 0 <= i < |before| ==>
                     after[i] == before[i].(interrupt := if i == |before| - 1 then after[i].interrupt else before[i].interrupt)
  }

  /** Devices may have become isolated; no queue but the last device's has moved. */
  ghost predicate LastMoved(before: seq<Registers>, after: seq<Registers>) {
    && |before| == |after|
    && forall i :: 0 <= i < |before| ==>
                     && before[i].status <= after[i].status && |after[i].rings| == |before[i].rings|
                     && (i < |before| - 1 ==> after[i].rings == before[i].rings)
  }

  lemma ConfinedLastMoved(before: seq<Registers>, seen: seq<Registers>, after: seq<Registers>, v: View)
    requires Roused(before, seen) && Confined(seen, after, v)
    requires |after[|after| - 1].rings| == |seen[|seen| - 1].rings| && seen[|seen| - 1].status <= after[|after| - 1].status
    ensures LastMoved(before, after)
  {
    forall i | 0 <= i < |before|
      ensures && before[i].status <= after[i].status && |after[i].rings| == |before[i].rings|
              && (i < |before| - 1 ==> after[i].rings == before[i].rings)
    {
      if i < |before| - 1 {
        assert AfterScan(seen[i], after[i], v);
      }
    }
  }

  /** Rings are safe in the same view if only interrupts and isolation changed. */
  lemma SafeUnmoved(before: seq<Registers>, after: seq<Registers>, v: View)
    requires SafeRings(before, v) && LastMoved(before, after)
    requires forall i :: 0 <= i < |before| ==> after[i].rings == before[i].rings
    ensures SafeRings(after, v)
  {
    forall i | 0 <= i < |after| && NEEDS_RESET !in after[i].status ensures RingsInView(after[i], v) {
      assert RingsInView(before[i], v);
    }
  }

  /** What a transaction that began with `seen` has done to the devices. */
  ghost predicate Transacted(seen: seq<Registers>, after: seq<Registers>, v: View, w: View, taken: nat) {
    && Confined(seen, after, v) && SafeRings(after, w) && SafeNeed(seen, after, v, w)
    && (Calmly(seen, v) ==> SafeWork(seen, after, |seen| - 1, v, w, taken))
    && 0 < |seen| && Finished(seen[|seen| - 1], after[|seen| - 1], w, taken)
  }

  /** The guest keeps responses clear of every live ring. */
  ghost predicate Calmly(fleet: seq<Registers>, v: View) {
    && 0 < |fleet| && FleetOk(fleet, |fleet| - 1)
    && Undisturbed(fleet, v, fleet[|fleet| - 1].rings[0])
  }

  /** A transaction as the run loop sees it; `before` is the fleet when the loop came to
      it, which may have raised the memory device's interrupt since. */
  method TransactNow(devices: seq<Mmio>, mem: VirtioMem, mapper: MappingTable, ram: GuestRam,
                     ghost base: map<nat, Region>, ghost before: seq<Registers>)
    returns (r: Result<Unit, DeviceError>, ghost taken: nat)
    requires Apart(devices) && AllOk(devices) && 0 < |devices|
    requires var queues := devices[|devices| - 1].queues; 0 < |queues.rings| && queues.rings[0].ready
    requires mem.Valid() && mem.Accounted() && mapper.Valid() && mem.Agrees(mapper.table, ram.view, base)
    requires Roused(before, Fleet(devices))
    modifies devices`status, QueuesOf(devices)`rings, QueuesOf(devices)`interrupt
    modifies mem`allocations, mem`blocks, mem`plugged, mem`generation, mem.control`pluggedSizeMib, mapper, ram
    ensures AllOk(devices) && mem.Valid() && mapper.Valid()
    ensures r.Ok? || r.error.IsGuest() ==> mem.Accounted() && mem.Agrees(mapper.table, ram.view, base)
    ensures AllLenient(devices) && Reliable(mapper.host) && Reliable(mem.allocation) ==> r.Ok?
    ensures Reliable(mapper.host) && Reliable(mem.allocation) && r.Err? ==> r.error.IsGuest()
    ensures r.Ok? ==> Transacted(old(Fleet(devices)), Fleet(devices), old(ram.view), ram.view, taken)
    ensures r.Ok? ==> LastMoved(before, Fleet(devices)) && SafeRings(Fleet(devices), ram.view)
  {
    ghost var seen, v := Fleet(devices), ram.view;
    r, taken := Transact(devices, mem, mapper, ram, base);
    if r.Ok? {
      ConfinedLastMoved(before, seen, Fleet(devices), v);
    }
  }

  /** One hot-plug opportunity of the run loop. The view changes only in a transaction,
      with the VM paused; Break means the VM was already stopping and nothing was
      attempted. In lenient mode with a host that does not fail, no guest input is an
      error. */
  method ProcessMemory(devices: seq<Mmio>, mem: VirtioMem, mapper: MappingTable, ram: GuestRam,
                       ghost base: map<nat, Region>, pause: Option<bool>, resume: bool)
    returns (r: Result<Flow, RunError>, ghost ran: bool, ghost seen: seq<Registers>, ghost taken: nat)
    requires Apart(devices) && AllOk(devices) && 0 < |devices| && 0 < |devices[|devices| - 1].queues.rings|
    requires mem.Valid() && mem.Accounted() && mapper.Valid() && mem.Agrees(mapper.table, ram.view, base)
    modifies devices`status, QueuesOf(devices)`rings, QueuesOf(devices)`interrupt
    modifies mem`allocations, mem`blocks, mem`plugged, mem`generation, mem`requested
    modifies mem.control`pluggedSizeMib, mem.control`driverReady, mapper, ram
    ensures AllOk(devices) && mem.Valid() && mapper.Valid()
    ensures r.Ok? || !r.error.IsHost() ==> mem.Accounted() && mem.Agrees(mapper.table, ram.view, base)
    ensures !ran ==> && ram.view == old(ram.view) && mem.blocks == old(mem.blocks) && mapper.table == old(mapper.table)
                     && forall i :: 0 <= i < |devices| ==> devices[i].queues.rings == old(devices[i].queues.rings)
    ensures ran ==> pause == Some(false) && Roused(old(Fleet(devices)), seen)
    ensures ran && (r.Ok? || r.error.Platform?) ==> Transacted(seen, Fleet(devices), old(ram.view), ram.view, taken)
    ensures r.Ok? ==> LastMoved(old(Fleet(devices)), Fleet(devices))
    ensures r == Ok(Break) ==> !ran && pause == Some(true)
    ensures r.Ok? && old(SafeRings(Fleet(devices), ram.view)) ==> SafeRings(Fleet(devices), ram.view)
    ensures Reliable(mapper.host) && Reliable(mem.allocation) && r.Err? ==> !r.error.IsHost()
    ensures AllLenient(devices) && Reliable(mapper.host) && Reliable(mem.allocation) && pause.Some? && resume ==> r.Ok?
  {
    ghost var before, v := Fleet(devices), ram.view;
    var pending := LastPending(devices, mem, ram.view);
    assert mem.Accounted() && mem.Agrees(mapper.table, ram.view, base);
    seen, taken, ran := Fleet(devices), 0, false;
    if SafeRings(before, v) {
      SafeUnmoved(before, seen, v);
    }
    if pending.Err? {
      r := Err(Device(pending.error));
    } else if !pending.value {
      r := Ok(Continue);
    } else if pause.None? {
      r := Err(Platform);
    } else if pause.value {
      r := Ok(Break);
    } else {
      var done;
      ran := true;
      done, taken := TransactNow(devices, mem, mapper, ram, base, before);
      r := if done.Err? then Err(Device(done.error)) else if resume then Ok(Continue) else Err(Platform);
    }
  }
}
