/** A whole hot-plug service round never takes memory from under a live queue: what the
    scan found needed stays in view whatever the guest asked for, and if the round leaves
    the rings unwritten, every entry still pending holds the chain that the scan saw. */
module UnplugSafety {
  import opened Wrappers
  import opened Errors
  import opened GuestMemory
  import opened Mappings
  import opened Transaction
  import opened HotplugMemory
  import opened Virtqueue
  import opened PinScan
  import opened RingStability
  import opened HotplugQueue

  const ROUND: nat := 128

  /** Pinned ranges that were in view still are. */
  ghost predicate Stay(v: View, w: View, pinned: seq<Range>) {
    forall i {:trigger pinned[i]} :: 0 <= i < |pinned| && v.InView(pinned[i].start, pinned[i].len) ==>
                                       w.InView(pinned[i].start, pinned[i].len)
  }

  ghost predicate Unwritten(v: View, w: View, watched: set<Range>) {
    forall r :: r in watched ==> SameBytes(v, w, r)
  }

  /** `r` is `q` after taking k entries and completing some. */
  ghost predicate Later(q: Queue, r: Queue, k: nat) {
    r == q.(nextAvail := Ahead(q.nextAvail, k), nextUsed := r.nextUsed)
  }

  /** No response of the pending requests and no used element is written over the
      watched ring memory, all of which is pinned. */
  ghost predicate Calm(v: View, q: Queue, pinned: seq<Range>, watched: set<Range>)
    requires q.WellFormed()
  {
    && q.ready && Scanned(v, q, pinned)
    && Range(q.desc, 16 * q.size) in watched && Range(q.avail, 6 + 2 * q.size) in watched
    && (forall r :: r in watched ==> r in pinned && v.InView(r.start, r.len) && !UsedRing(q).Meets(r))
    && (forall r, k {:trigger r in watched, ChainAt(v, q, k)} ::
          r in watched && 0 <= k < q.Pending(v) && ChainAt(v, q, k).Some? ==>
            Quiet(ChainAt(v, q, k).value.descriptors, r))
  }

  // ---------------------------------------------------------------------------
  // What the round finds at each position

  lemma LaterShifts(v: View, q: Queue, r: Queue, k: nat, i: nat, j: nat)
    requires q.WellFormed() && r.WellFormed() && Later(q, r, k) && j == k + i
    ensures ChainAt(v, r, i) == ChainAt(v, q, j)
  {
    AheadIsModular(q.nextAvail, k);
    WrapSum(q.nextAvail + k, i);
    assert r.Slot(i) == q.Slot(j);
    ChainSameTable(v, q, r, q.Head(v, j));
  }

  lemma LaterPending(v: View, q: Queue, r: Queue, k: nat)
    requires q.WellFormed() && r.WellFormed() && Later(q, r, k) && k <= q.Pending(v)
    ensures r.Pending(v) == q.Pending(v) - k
  {
    AheadIsModular(q.nextAvail, k);
  }

  lemma PinnedStays(v: View, w: View, pinned: seq<Range>, p: Range)
    requires Stay(v, w, pinned) && p in pinned && v.InView(p.start, p.len)
    ensures w.InView(p.start, p.len)
  {
    var i :| 0 <= i < |pinned| && pinned[i] == p;
  }

  /** The scan of a live queue is part of the pins. */
  ghost predicate Scanned(v: View, q: Queue, pinned: seq<Range>)
    requires q.WellFormed()
  {
    QueuePins(v, q).Some? && forall p :: p in QueuePins(v, q).value ==> p in pinned
  }

  /** A nonempty buffer of a scanned pending chain stays in view. */
  lemma BufferStays(v: View, w: View, q: Queue, pinned: seq<Range>, k: nat, p: Range)
    requires q.WellFormed() && q.ready && Scanned(v, q, pinned) && Stay(v, w, pinned)
    requires k < q.Pending(v) && NeededByEntry(v, q, k, p)
    ensures w.InView(p.start, p.len)
  {
    QueuePinsExact(v, q, p);
    var ds := ChainAt(v, q, k).value.descriptors;
    var j :| 0 <= j < |ds| && ds[j].len != 0 && ds[j].Buffer() == p;
    ChainInView(v, q, k, j);
    PinnedStays(v, w, pinned, p);
  }

  /** Scanned chains read back the same as long as the rings are unwritten. */
  lemma ScannedChainStays(v: View, w: View, q: Queue, pinned: seq<Range>, k: nat)
    requires q.WellFormed() && q.ready && Scanned(v, q, pinned) && k < q.Pending(v)
    requires Stay(v, w, pinned) && SameRings(v, w, q)
    ensures ChainAt(v, q, k).Some? && ChainAt(w, q, k) == ChainAt(v, q, k) && q.Pending(w) == q.Pending(v)
  {
    PendingPinsAgree(v, q, 0, q.Pending(v), k);
    var ds := ChainAt(v, q, k).value.descriptors;
    forall i | 0 <= i < |BufferPins(ds)| ensures w.InView(BufferPins(ds)[i].start, BufferPins(ds)[i].len) {
      var p := BufferPins(ds)[i];
      BufferPinsExact(ds, p);
      BufferStays(v, w, q, pinned, k, p);
    }
    HeadStable(v, w, q, k);
    ChainStable(v, w, q, q.Head(v, k));
  }

  /** The rings of a scanned live queue stay in view, whatever the round wrote. */
  lemma RingsStay(v: View, q: Queue, w: View, r: Queue, k: nat, pinned: seq<Range>, p: Range)
    requires q.WellFormed() && Later(q, r, k) && q.ready && Scanned(v, q, pinned) && Stay(v, w, pinned)
    requires p in r.RingPins()
    ensures w.InView(p.start, p.len)
  {
    assert r.RingPins() == q.RingPins();
    QueuePinsExact(v, q, p);
    PinnedStays(v, w, pinned, p);
  }

  /** `r` in `w` is what is left of `q` in `v` after k entries were taken: it still scans,
      and each entry that is pending now holds the very chain it held then. */
  ghost predicate Kept(v: View, q: Queue, w: View, r: Queue, k: nat)
    requires q.WellFormed() && r.WellFormed()
  {
    && r.ready == q.ready && QueuePins(w, r).Some?
    && (q.ready ==>
          && k <= q.Pending(v) && r.Pending(w) == q.Pending(v) - k
          && forall i: nat, n: nat {:trigger SameChain(v, q, n, w, r, i)} :: i < r.Pending(w) && n == k + i ==>
                                                                              SameChain(v, q, n, w, r, i))
  }

  /** The i-th pending entry of `r` holds the chain that was the n-th of `q`. */
  ghost predicate SameChain(v: View, q: Queue, n: nat, w: View, r: Queue, i: nat)
    requires q.WellFormed() && r.WellFormed()
  {
    ChainAt(w, r, i).Some? && ChainAt(w, r, i) == ChainAt(v, q, n)
  }

  lemma {:induction false} PendingScans(v: View, q: Queue, i: nat, n: nat)
    requires q.WellFormed() && i <= n && forall j {:trigger ChainAt(v, q, j)} :: i <= j < n ==> ChainAt(v, q, j).Some?
    ensures PendingPins(v, q, i, n).Some?
    decreases n - i
  {
    if i != n {
      PendingScans(v, q, i + 1, n);
    }
  }

  lemma StillUsable(v: View, q: Queue, w: View, r: Queue, k: nat, pinned: seq<Range>)
    requires q.WellFormed() && r.WellFormed() && Later(q, r, k) && Scanned(v, q, pinned) && Stay(v, w, pinned)
    requires q.ready && SameRings(v, w, q) && k <= q.Pending(v)
    ensures Usable(w, r) && r.Pending(w) == q.Pending(v) - k
  {
    HeadStable(v, w, q, 0);
    LaterPending(w, q, r, k);
    forall p | p in r.RingPins() ensures w.InView(p.start, p.len) {
      RingsStay(v, q, w, r, k, pinned, p);
    }
    assert r.RingPins()[0] == Range(r.desc, 16 * r.size) && r.RingPins()[1] == Range(r.avail, 6 + 2 * r.size)
        && r.RingPins()[2] == Range(r.used, 6 + 8 * r.size);
  }

  lemma EntryKept(v: View, q: Queue, w: View, r: Queue, k: nat, pinned: seq<Range>, i: nat,
                  n: nat)
    requires q.WellFormed() && r.WellFormed() && Later(q, r, k) && Scanned(v, q, pinned) && Stay(v, w, pinned)
    requires q.ready && SameRings(v, w, q) && n == k + i && n < q.Pending(v)
    ensures SameChain(v, q, n, w, r, i)
  {
    LaterShifts(w, q, r, k, i, n);
    ScannedChainStays(v, w, q, pinned, n);
  }

  lemma KeptScans(v: View, q: Queue, w: View, r: Queue, k: nat)
    requires q.WellFormed() && r.WellFormed() && Usable(w, r)
    requires forall i: nat, n: nat {:trigger SameChain(v, q, n, w, r, i)} :: i < r.Pending(w) && n == k + i ==>
                                                                               SameChain(v, q, n, w, r, i)
    ensures QueuePins(w, r).Some?
  {
    forall i {:trigger ChainAt(w, r, i)} | 0 <= i < r.Pending(w) ensures ChainAt(w, r, i).Some? {
      var n: nat := k + i;
      assert SameChain(v, q, n, w, r, i);
    }
    PendingScans(w, r, 0, r.Pending(w));
  }

  /** If a round leaves a scanned queue's rings unwritten, whatever it unplugged, the rest
      of that queue is as it was: every entry still pending holds its chain, in view. */
  lemma PendingKept(v: View, q: Queue, w: View, r: Queue, k: nat, pinned: seq<Range>)
    requires q.WellFormed() && r.WellFormed() && Later(q, r, k) && Scanned(v, q, pinned) && Stay(v, w, pinned)
    requires q.ready ==> SameRings(v, w, q) && k <= q.Pending(v)
    ensures Kept(v, q, w, r, k)
  {
    if q.ready {
      StillUsable(v, q, w, r, k, pinned);
      forall i: nat, n: nat | i < r.Pending(w) && n == k + i ensures SameChain(v, q, n, w, r, i) {
        EntryKept(v, q, w, r, k, pinned, i, n);
      }
      KeptScans(v, q, w, r, k);
    }
  }

  /** Whatever a scanned queue needed before a round is in view after it, also if the
      round wrote to its rings: need is read in the old view. */
  lemma NeededStays(v: View, w: View, q: Queue, pinned: seq<Range>, p: Range)
    requires q.WellFormed() && Scanned(v, q, pinned) && Stay(v, w, pinned) && NeededByQueue(v, q, p)
    ensures w.InView(p.start, p.len)
  {
    if p in q.RingPins() {
      RingsStay(v, q, w, q, 0, pinned, p);
    } else {
      var k :| 0 <= k < q.Pending(v) && NeededByEntry(v, q, k, p);
      BufferStays(v, w, q, pinned, k, p);
    }
  }

  /** In a calm round the k-th take is the k-th chain that the scan saw. */
  lemma CalmTake(v: View, q: Queue, w: View, r: Queue, k: nat, pinned: seq<Range>, watched: set<Range>)
    requires q.WellFormed() && r.WellFormed() && Later(q, r, k) && k <= q.Pending(v)
    requires Calm(v, q, pinned, watched) && Stay(v, w, pinned) && Unwritten(v, w, watched)
    requires r.Pending(w) != 0
    ensures k < q.Pending(v) && ChainAt(v, q, k).Some? && ChainAt(w, r, 0) == ChainAt(v, q, k)
    ensures forall s :: s in watched ==> Quiet(ChainAt(w, r, 0).value.descriptors, s)
  {
    assert SameRings(v, w, q) by {
      assert SameBytes(v, w, Range(q.desc, 16 * q.size)) && SameBytes(v, w, Range(q.avail, 6 + 2 * q.size));
    }
    HeadStable(v, w, q, 0);
    LaterPending(w, q, r, k);
    ScannedChainStays(v, w, q, pinned, k);
    LaterShifts(w, q, r, k, 0, k);
  }

  // ---------------------------------------------------------------------------
  // The round

  /** How far a round that began at (v, q) has come: k entries taken, every pin still in
      view and, if the round is calm, ring memory unwritten. */
  ghost predicate Progress(v: View, q: Queue, w: View, r: Queue, k: nat, pinned: seq<Range>, watched: set<Range>)
    requires q.WellFormed()
  {
    && r.WellFormed() && Later(q, r, k) && Stay(v, w, pinned)
    && (Calm(v, q, pinned, watched) ==> k <= q.Pending(v) && Unwritten(v, w, watched))
  }

  lemma TakeProgress(v: View, q: Queue, w: View, r: Queue, k: nat, pinned: seq<Range>, watched: set<Range>)
    requires q.WellFormed() && Progress(v, q, w, r, k, pinned, watched) && r.Pending(w) != 0
    ensures Progress(v, q, w, r.Advanced(), k + 1, pinned, watched)
    ensures Calm(v, q, pinned, watched) ==> ChainAt(w, r, 0).Some? && forall s :: s in watched ==>
                                               Quiet(ChainAt(w, r, 0).value.descriptors, s)
  {
    if Calm(v, q, pinned, watched) {
      CalmTake(v, q, w, r, k, pinned, watched);
    }
  }

  lemma ServeProgress(v: View, q: Queue, w: View, r: Queue, k: nat, pinned: seq<Range>, watched: set<Range>,
                      after: View, done: Queue, ds: seq<Descriptor>)
    requires q.WellFormed() && Progress(v, q, w, r, k, pinned, watched)
    requires Holds(w, after, pinned, ds, r) && done.WellFormed() && done == r.(nextUsed := done.nextUsed)
    requires Calm(v, q, pinned, watched) ==> forall s :: s in watched ==> Quiet(ds, s)
    ensures Progress(v, q, after, done, k, pinned, watched)
  {
    if Calm(v, q, pinned, watched) {
      forall s | s in watched ensures SameBytes(v, after, s) {
        PinnedStays(v, w, pinned, s);
        var i :| 0 <= i < |pinned| && pinned[i] == s;
        assert UsedRing(r) == UsedRing(q);
        assert SameBytes(w, after, s) && SameBytes(v, w, s);
      }
    }
  }

  /** Only the first queue may differ. */
  ghost predicate SameRest(a: seq<Queue>, b: seq<Queue>) {
    0 < |a| == |b| && forall i :: 0 < i < |a| ==> b[i] == a[i]
  }

  /** Each of the k entries taken since `q` has been completed. */
  ghost predicate AllUsed(q: Queue, r: Queue, k: nat) {
    r.nextUsed == Ahead(q.nextUsed, k)
  }

  /** Everything taken was completed, and the round ended for want of budget or of work. */
  ghost predicate RoundDone(q: Queue, r: Queue, w: View, taken: nat) {
    r.WellFormed() && AllUsed(q, r, taken) && (taken == ROUND || Exhausted(w, r))
  }

  /** Take the next chain, if there is one. */
  method TakeNext(queues: Queues, view: View, pinned: seq<Range>, ghost v: View, ghost q: Queue, ghost k: nat,
                  ghost watched: set<Range>)
    returns (r: Result<Option<Chain>, DeviceError>, ghost taken: nat)
    requires queues.Valid() && 0 < |queues.rings|
    requires q.WellFormed() && Progress(v, q, view, queues.rings[0], k, pinned, watched)
    modifies queues`rings
    ensures queues.Valid() && SameRest(old(queues.rings), queues.rings)
    ensures r.Err? ==> r.error.IsGuest()
    ensures taken <= 1 && (r.Ok? && r.value.Some? ==> taken == 1)
    ensures queues.rings[0].nextUsed == old(queues.rings[0].nextUsed)
    ensures r.Ok? && r.value.None? ==> taken == 0 && Exhausted(view, queues.rings[0])
    ensures Progress(v, q, view, queues.rings[0], k + taken, pinned, watched)
    ensures r.Ok? && r.value.Some? ==>
              && (forall j :: 0 <= j < |r.value.value.descriptors| ==> r.value.value.descriptors[j].Legal(view))
              && (Calm(v, q, pinned, watched) ==> forall s :: s in watched ==> Quiet(r.value.value.descriptors, s))
  {
    ghost var at := queues.rings[0];
    r := queues.Pop(0, view);
    taken := 0;
    if at.ready && Usable(view, at) && at.Pending(view) != 0 {
      taken := 1;
      TakeProgress(v, q, view, at, k, pinned, watched);
      if r.Ok? {
        forall j | 0 <= j < |r.value.value.descriptors| ensures r.value.value.descriptors[j].Legal(view) {
          ChainInView(view, at, 0, j);
        }
      }
    }
  }

  lemma OneMoreUsed(q: Queue, r: Queue, s: Queue, k: nat)
    requires AllUsed(q, r, k) && s.nextUsed == Next16(r.nextUsed)
    ensures AllUsed(q, s, k + 1)
  {
    assert k + 1 - 1 == k;
  }

  /** Serve a chain that was just taken as the k-th of its round. */
  method ServeTaken(device: VirtioMem, chain: Chain, queues: Queues, mapper: MappingTable, ram: GuestRam,
                    pinned: seq<Range>, ghost base: map<nat, Region>, ghost v: View, ghost q: Queue, ghost k: nat,
                    ghost watched: set<Range>)
    returns (r: Result<Unit, DeviceError>)
    requires device.Valid() && device.Accounted() && mapper.Valid() && device.Agrees(mapper.table, ram.view, base)
    requires queues.Valid() && 0 < |queues.rings|
    requires forall j :: 0 <= j < |chain.descriptors| ==> chain.descriptors[j].Legal(ram.view)
    requires q.WellFormed() && Progress(v, q, ram.view, queues.rings[0], k + 1, pinned, watched)
    requires AllUsed(q, queues.rings[0], k)
    requires Calm(v, q, pinned, watched) ==> forall s :: s in watched ==> Quiet(chain.descriptors, s)
    modifies device`allocations, device`blocks, device`plugged, device`generation
    modifies device.control`pluggedSizeMib, mapper, ram, queues`rings, queues`interrupt
    ensures device.Valid() && mapper.Valid() && queues.Valid()
    ensures r.Ok? || r.error.IsGuest() ==> device.Accounted() && device.Agrees(mapper.table, ram.view, base)
    ensures Reliable(mapper.host) && Reliable(device.allocation) && r.Err? ==> r.error.IsGuest()
    ensures SameRest(old(queues.rings), queues.rings)
    ensures r.Ok? ==> AllUsed(q, queues.rings[0], k + 1)
    ensures Progress(v, q, ram.view, queues.rings[0], k + 1, pinned, watched)
  {
    ghost var w, at := ram.view, queues.rings[0];
    r := Service(device, chain, queues, mapper, ram, pinned, base);
    ServeProgress(v, q, w, at, k + 1, pinned, watched, ram.view, queues.rings[0], chain.descriptors);
    if r.Ok? {
      OneMoreUsed(q, at, queues.rings[0], k);
    }
  }

  /** Take and serve one request; false when none is pending. */
  method ServeNext(device: VirtioMem, queues: Queues, mapper: MappingTable, ram: GuestRam, pinned: seq<Range>,
                   ghost base: map<nat, Region>, ghost v: View, ghost q: Queue, ghost k: nat,
                   ghost watched: set<Range>)
    returns (r: Result<bool, DeviceError>, ghost now: nat)
    requires device.Valid() && device.Accounted() && mapper.Valid() && device.Agrees(mapper.table, ram.view, base)
    requires queues.Valid() && 0 < |queues.rings|
    requires q.WellFormed() && Progress(v, q, ram.view, queues.rings[0], k, pinned, watched)
    requires AllUsed(q, queues.rings[0], k)
    modifies device`allocations, device`blocks, device`plugged, device`generation
    modifies device.control`pluggedSizeMib, mapper, ram, queues`rings, queues`interrupt
    ensures device.Valid() && mapper.Valid() && queues.Valid()
    ensures r.Ok? || r.error.IsGuest() ==> device.Accounted() && device.Agrees(mapper.table, ram.view, base)
    ensures Reliable(mapper.host) && Reliable(device.allocation) && r.Err? ==> r.error.IsGuest()
    ensures SameRest(old(queues.rings), queues.rings)
    ensures k <= now <= k + 1 && (r.Ok? ==> r.value == (now == k + 1))
    ensures r.Ok? ==> AllUsed(q, queues.rings[0], now)
    ensures r.Ok? && !r.value ==> Exhausted(ram.view, queues.rings[0])
    ensures Progress(v, q, ram.view, queues.rings[0], now, pinned, watched)
  {
    var chain;
    ghost var taken;
    chain, taken := TakeNext(queues, ram.view, pinned, v, q, k, watched);
    now := k + taken;
    if chain.Err? {
      return Err(chain.error), now;
    }
    if chain.value.None? {
      return Ok(false), now;
    }
    var served := ServeTaken(device, chain.value.value, queues, mapper, ram, pinned, base, v, q, k, watched);
    r := if served.Ok? then Ok(true) else Err(served.error);
  }

  /** Serve up to 128 pending requests. Every pinned range stays in view for every
      pattern of requests and host failures; in a calm round the ring memory is left
      unwritten too, so what remains pending is what the scan saw. */
  method Process(device: VirtioMem, queues: Queues, mapper: MappingTable, ram: GuestRam, pinned: seq<Range>,
                 ghost base: map<nat, Region>, ghost watched: set<Range>)
    returns (r: Result<Unit, DeviceError>, ghost taken: nat)
    requires device.Valid() && device.Accounted() && mapper.Valid() && device.Agrees(mapper.table, ram.view, base)
    requires queues.Valid() && 0 < |queues.rings|
    modifies device`allocations, device`blocks, device`plugged, device`generation
    modifies device.control`pluggedSizeMib, mapper, ram, queues`rings, queues`interrupt
    ensures device.Valid() && mapper.Valid() && queues.Valid()
    ensures r.Ok? || r.error.IsGuest() ==> device.Accounted() && device.Agrees(mapper.table, ram.view, base)
    ensures Reliable(mapper.host) && Reliable(device.allocation) && r.Err? ==> r.error.IsGuest()
    ensures SameRest(old(queues.rings), queues.rings)
    ensures taken <= ROUND
    ensures r.Ok? ==> RoundDone(old(queues.rings[0]), queues.rings[0], ram.view, taken)
    ensures Progress(old(ram.view), old(queues.rings[0]), ram.view, queues.rings[0], taken, pinned, watched)
  {
    ghost var v, q := ram.view, queues.rings[0];
    var n := 0;
    taken := 0;
    while n < ROUND
      invariant taken == n <= ROUND
      invariant device.Valid() && device.Accounted() && mapper.Valid() && device.Agrees(mapper.table, ram.view, base)
      invariant queues.Valid() && SameRest(old(queues.rings), queues.rings)
      invariant AllUsed(q, queues.rings[0], taken)
      invariant Progress(v, q, ram.view, queues.rings[0], taken, pinned, watched)
    {
      var served;
      served, taken := ServeNext(device, queues, mapper, ram, pinned, base, v, q, taken, watched);
      n := n + 1;
      if served.Err? || !served.value {
        return if served.Err? then Err(served.error) else Ok(Unit), taken;
      }
    }
    r := Ok(Unit);
  }
}
