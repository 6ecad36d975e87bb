/** Serving the virtio-mem request queue: what a request keeps for every pinned
    range, and what a whole service round keeps for every queue. */
module HotplugQueue {
  import opened Wrappers
  import opened Errors
  import opened GuestMemory
  import opened Finite
  import opened Mappings
  import opened Transaction
  import opened HotplugMemory
  import opened Virtqueue
  import opened RingStability

  // ---------------------------------------------------------------------------
  // Pinned ranges survive a request

  /** Pinned ranges that were in view still are, with the same bytes. */
  ghost predicate Keeps(v: View, w: View, pins: seq<Range>) {
    forall i {:trigger pins[i]} :: 0 <= i < |pins| && v.InView(pins[i].start, pins[i].len) ==>
                                     w.InView(pins[i].start, pins[i].len) && SameBytes(v, w, pins[i])
  }

  lemma UnplugKeeps(v: View, w: View, gone: set<nat>, pins: seq<Range>, size: nat)
    requires w.regions == v.regions - gone && w.bytes == v.bytes && Untouched(gone, pins, size)
    requires forall a :: a in gone && a in v.regions ==> v.regions[a] == size
    ensures Keeps(v, w, pins)
  {
    forall i | 0 <= i < |pins| && v.InView(pins[i].start, pins[i].len)
      ensures w.InView(pins[i].start, pins[i].len) && SameBytes(v, w, pins[i])
    {
      forall x: nat | pins[i].start <= x < pins[i].start + pins[i].len ensures w.Covers(x) {
        assert v.Covers(x);
        var r :| r in v.regions && r <= x < r + v.regions[r];
        if r in gone {
          assert Range(r, size).Meets(pins[i]);
        }
        assert r in w.regions;
      }
    }
  }

  /** Plugging adds blocks where nothing was, so covered bytes are untouched. */
  lemma PlugKeepsByte(v: View, base: map<nat, Region>, blocks: map<nat, Region>, start: nat, capacity: nat,
                      size: nat, addresses: seq<nat>, x: nat)
    requires Plottable(addresses, v, size, base, blocks, start, capacity)
    requires Avoids(addresses, |addresses|, blocks.Keys) && v.Covers(x)
    ensures var w := Edited(v, addresses, |addresses|, true, size); w.Covers(x) && w.Byte(x) == v.Byte(x)
  {
    var w := Edited(v, addresses, |addresses|, true, size);
    var r :| r in v.regions && r <= x < r + v.regions[r];
    forall i | 0 <= i < |addresses| ensures !(addresses[i] <= x < addresses[i] + size) && addresses[i] != r {
      FirstNHas(addresses, |addresses|, addresses[i]);
      AvoidsAt(addresses, |addresses|, blocks.Keys, i);
      GridClear(blocks.Keys, start, capacity, size, addresses[i]);
      FreeInView(v, base, blocks, start, capacity, size, addresses[i]);
    }
    EditedBytes(v, addresses, |addresses|, true, size, x);
    FirstNHas(addresses, |addresses|, r);
    assert r in w.regions && w.regions[r] == v.regions[r];
  }

  lemma PlugKeeps(v: View, base: map<nat, Region>, blocks: map<nat, Region>, start: nat, capacity: nat,
                  size: nat, addresses: seq<nat>, pins: seq<Range>)
    requires Plottable(addresses, v, size, base, blocks, start, capacity)
    requires Avoids(addresses, |addresses|, blocks.Keys)
    ensures Keeps(v, Edited(v, addresses, |addresses|, true, size), pins)
  {
    var w := Edited(v, addresses, |addresses|, true, size);
    forall i | 0 <= i < |pins| && v.InView(pins[i].start, pins[i].len)
      ensures w.InView(pins[i].start, pins[i].len) && SameBytes(v, w, pins[i])
    {
      forall x: nat | pins[i].start <= x < pins[i].start + pins[i].len
        ensures w.Covers(x) && w.Byte(x) == v.Byte(x)
      {
        assert v.Covers(x);
        PlugKeepsByte(v, base, blocks, start, capacity, size, addresses, x);
      }
    }
  }

  /** A granted request keeps every pinned range: a plug adds blocks where nothing
      was, and an unplug takes only blocks that meet no pin. */
  lemma GrantKeeps(ask: Ask, before: map<nat, Region>, after: map<nat, Region>, v: View, w: View, pins: seq<Range>,
                   base: map<nat, Region>, start: nat, capacity: nat, size: nat)
    requires Granted(ask, before, after, v, w, pins, size) && 0 < size
    requires Blocks(before, size) && AllOnGrid(before.Keys, start, capacity, size) && Outside(base, start, capacity)
    requires v.regions == Lengths(base + before)
    requires ask.kind == PLUG ==> RunInWindow(ask, start, capacity, size)
    ensures Keeps(v, w, pins)
  {
    if ask.kind == PLUG {
      var run := Run(ask.addr, ask.count, size);
      RunOnGrid(ask.addr, ask.count, start, capacity, size);
      AvoidsIsDisjoint(run, ask.count, before.Keys);
      PlugKeeps(v, base, before, start, capacity, size, run, pins);
    } else {
      UnplugKeeps(v, w, before.Keys - after.Keys, pins, size);
    }
  }

  // ---------------------------------------------------------------------------
  // One request chain

  function SumLen(ds: seq<Descriptor>, writable: bool): nat {
    if ds == [] then 0
    else (if ds[0].WriteOnly() == writable then ds[0].len else 0) + SumLen(ds[1..], writable)
  }

  /** The bytes of the device-readable buffers, in order. */
  function Readable(v: View, ds: seq<Descriptor>): (data: seq<byte>)
    ensures |data| == SumLen(ds, false)
  {
    if ds == [] then []
    else (if ds[0].WriteOnly() then [] else v.Read(ds[0].addr, ds[0].len)) + Readable(v, ds[1..])
  }

  /** No device-readable buffer follows a device-writable one. */
  predicate Ordered(ds: seq<Descriptor>) {
    ds == [] || (Ordered(ds[1..]) && (ds[0].WriteOnly() ==> CountReadable(ds[1..]) == 0))
  }

  /** How many buffers are device-readable. */
  function CountReadable(ds: seq<Descriptor>): nat {
    if ds == [] then 0 else (if ds[0].WriteOnly() then 0 else 1) + CountReadable(ds[1..])
  }

  method Sum(ds: seq<Descriptor>, writable: bool) returns (n: nat)
    ensures n == SumLen(ds, writable)
  {
    n := 0;
    var i := 0;
    while i < |ds|
      invariant i <= |ds| && SumLen(ds, writable) == n + SumLen(ds[i..], writable)
    {
      if ds[i].WriteOnly() == writable {
        n := n + ds[i].len;
      }
      i := i + 1;
    }
  }

  lemma ReadableStep(v: View, ds: seq<Descriptor>, i: nat, data: seq<byte>)
    requires i < |ds|
    ensures data + Readable(v, ds[i..]) ==
            data + (if ds[i].WriteOnly() then [] else v.Read(ds[i].addr, ds[i].len)) + Readable(v, ds[i + 1..])
  {
    assert ds[i..][1..] == ds[i + 1..];
  }

  method Gather(v: View, ds: seq<Descriptor>) returns (r: Option<seq<byte>>)
    ensures r.Some? <==> Ordered(ds)
    ensures r.Some? ==> r.value == Readable(v, ds)
  {
    var data, writable, i := [], false, 0;
    while i < |ds|
      invariant i <= |ds|
      invariant Readable(v, ds) == data + Readable(v, ds[i..])
      invariant Ordered(ds) <==> Ordered(ds[i..]) && (writable ==> CountReadable(ds[i..]) == 0)
    {
      ReadableStep(v, ds, i, data);
      assert ds[i..][1..] == ds[i + 1..];
      if ds[i].WriteOnly() {
        assert data + [] == data;
        writable := true;
      } else {
        if writable {
          return None;
        }
        data := data + v.Read(ds[i].addr, ds[i].len);
      }
      i := i + 1;
    }
    return Some(data);
  }

  /** `data` scattered over the device-writable buffers, in order. */
  function Respond(v: View, ds: seq<Descriptor>, data: seq<byte>): (w: View)
    ensures w.regions == v.regions
    decreases |ds|
  {
    if ds == [] || data == [] then v
    else if !ds[0].WriteOnly() then Respond(v, ds[1..], data)
    else
      var n := if ds[0].len < |data| then ds[0].len else |data|;
      Respond(v.Write(ds[0].addr, data[..n]), ds[1..], data[n..])
  }

  /** No device-writable buffer shares a byte with the range. */
  ghost predicate Quiet(ds: seq<Descriptor>, r: Range) {
    forall j :: 0 <= j < |ds| && ds[j].WriteOnly() ==> !ds[j].Buffer().Meets(r)
  }

  lemma {:induction false} RespondQuiet(v: View, ds: seq<Descriptor>, data: seq<byte>, r: Range)
    requires Quiet(ds, r)
    ensures SameBytes(v, Respond(v, ds, data), r)
    decreases |ds|
  {
    if ds != [] && data != [] {
      assert forall j :: 0 <= j < |ds[1..]| ==> ds[1..][j] == ds[j + 1];
      if !ds[0].WriteOnly() {
        RespondQuiet(v, ds[1..], data, r);
      } else {
        var n := if ds[0].len < |data| then ds[0].len else |data|;
        var u := v.Write(ds[0].addr, data[..n]);
        assert !ds[0].Buffer().Meets(r);
        RespondQuiet(u, ds[1..], data[n..], r);
      }
    }
  }

  method Answering(ram: GuestRam, ds: seq<Descriptor>, response: seq<byte>)
    requires forall j :: 0 <= j < |ds| && ds[j].WriteOnly() ==> ram.view.InView(ds[j].addr, ds[j].len)
    modifies ram
    ensures ram.view == Respond(old(ram.view), ds, response)
  {
    var rest, i := response, 0;
    assert ds[0..] == ds;
    while i < |ds| && rest != []
      invariant i <= |ds| && ram.view.regions == old(ram.view).regions
      invariant Respond(old(ram.view), ds, response) == Respond(ram.view, ds[i..], rest)
    {
      assert ds[i..][0] == ds[i] && ds[i..][1..] == ds[i + 1..];
      if ds[i].WriteOnly() {
        var n := if ds[i].len < |rest| then ds[i].len else |rest|;
        ram.view := ram.view.Write(ds[i].addr, rest[..n]);
        rest := rest[n..];
      }
      i := i + 1;
    }
  }

  function UsedRing(q: Queue): Range {
    Range(q.used, 6 + 8 * q.size)
  }

  /** Pinned ranges stay in view, and keep their bytes unless the chain's writable
      buffers or the used ring share bytes with them. */
  ghost predicate Holds(v: View, w: View, pinned: seq<Range>, ds: seq<Descriptor>, q: Queue) {
    forall i {:trigger pinned[i]} :: 0 <= i < |pinned| && v.InView(pinned[i].start, pinned[i].len) ==>
                                       && w.InView(pinned[i].start, pinned[i].len)
                                       && (Quiet(ds, pinned[i]) && !UsedRing(q).Meets(pinned[i]) ==>
                                             SameBytes(v, w, pinned[i]))
  }

  lemma SameRegions(v: View, w: View, addr: nat, len: nat)
    requires v.regions == w.regions && v.InView(addr, len)
    ensures w.InView(addr, len)
  {
    forall a | addr <= a < addr + len ensures w.Covers(a) {
      assert v.Covers(a);
    }
  }

  /** The response is in the chain's buffers, and at most a used element follows it. */
  ghost predicate Delivered(v: View, w: View, ds: seq<Descriptor>, data: seq<byte>, q: Queue, head: nat) {
    var answered := Respond(v, ds, data);
    w == answered || (q.WellFormed() && head < q.size && w == WithUsed(answered, q, head, 10))
  }

  lemma ServiceHolds(v: View, v1: View, w: View, pinned: seq<Range>,
                     ds: seq<Descriptor>, data: seq<byte>, q: Queue, head: nat)
    requires Keeps(v, v1, pinned) && Delivered(v1, w, ds, data, q, head)
    ensures Holds(v, w, pinned, ds, q)
  {
    forall i | 0 <= i < |pinned| && v.InView(pinned[i].start, pinned[i].len)
      ensures w.InView(pinned[i].start, pinned[i].len)
      ensures Quiet(ds, pinned[i]) && !UsedRing(q).Meets(pinned[i]) ==> SameBytes(v, w, pinned[i])
    {
      var p := pinned[i];
      SameRegions(v1, w, p.start, p.len);
      if Quiet(ds, p) && !UsedRing(q).Meets(p) {
        RespondQuiet(v1, ds, data, p);
        forall x: nat | p.Has(x) ensures w.Byte(x) == v.Byte(x) {
          assert Respond(v1, ds, data).Byte(x) == v1.Byte(x) && !UsedRing(q).Has(x);
        }
      }
    }
  }

  /** The chain's own buffers, as pins of its request. */
  function Own(ds: seq<Descriptor>): (pins: seq<Range>)
    ensures |pins| == |ds| && forall j :: 0 <= j < |ds| ==> pins[j] == ds[j].Buffer()
  {
    seq(|ds|, j requires 0 <= j < |ds| => ds[j].Buffer())
  }

  function ResponseBytes(answer: Answer): seq<byte>
    requires answer.code < U16_LIMIT && answer.state < U16_LIMIT
  {
    Le16(answer.code) + [0, 0, 0, 0, 0, 0] + Le16(answer.state)
  }

  /** A request keeps every pinned range in view with its bytes, whatever it answers. */
  method SafeRequest(device: VirtioMem, ask: Ask, mapper: MappingTable, ram: GuestRam, pins: seq<Range>,
                     ghost base: map<nat, Region>)
    returns (r: Result<Answer, MemoryError>)
    requires device.Valid() && device.Accounted() && mapper.Valid() && device.Agrees(mapper.table, ram.view, base)
    modifies device`allocations, device`blocks, device`plugged, device`generation
    modifies device.control`pluggedSizeMib, mapper, ram
    ensures device.Valid() && mapper.Valid() && Keeps(old(ram.view), ram.view, pins)
    ensures r.Ok? ==> device.Accounted() && device.Agrees(mapper.table, ram.view, base)
    ensures r.Ok? ==> r.value.code <= 3 && r.value.state <= 2
    ensures r.Ok? ==> Truthful(ask, r.value, old(device.blocks), device.blocks, old(ram.view), ram.view, pins,
                               device.start, device.capacity, device.blockSize)
    ensures r.Err? ==> !r.error.IsGuest()
    ensures Reliable(mapper.host) && Reliable(device.allocation) ==> r.Ok?
  {
    r := device.Request(ask, mapper, ram, pins, base);
    if Committed(ask, r) {
      GrantKeeps(ask, old(device.blocks), device.blocks, old(ram.view), ram.view, pins, base,
                 device.start, device.capacity, device.blockSize);
    }
  }

  /** The answer is in the chain's buffers and the chain is used. */
  ghost predicate Replied(mid: View, w: View, chain: Chain, answer: Answer, q: Queue, r: Queue) {
    && answer.code <= 3 && answer.state <= 2 && q.WellFormed() && chain.head < q.size
    && w == WithUsed(Respond(mid, chain.descriptors, ResponseBytes(answer)), q, chain.head, 10)
    && r == q.(nextUsed := Next16(q.nextUsed))
  }

  /** Write the response and publish the chain as used. */
  method Deliver(queues: Queues, ram: GuestRam, chain: Chain, response: seq<byte>)
    returns (r: Result<Unit, DeviceError>)
    requires queues.Valid() && 0 < |queues.rings|
    requires forall j :: 0 <= j < |chain.descriptors| ==>
                           ram.view.InView(chain.descriptors[j].addr, chain.descriptors[j].len)
    modifies ram, queues`rings, queues`interrupt
    ensures queues.Valid() && ram.view.regions == old(ram.view).regions
    ensures r.Err? ==> r.error.IsGuest()
    ensures Delivered(old(ram.view), ram.view, chain.descriptors, response, old(queues.rings[0]), chain.head)
    ensures |queues.rings| == |old(queues.rings)|
    ensures queues.rings == old(queues.rings)[0 := old(queues.rings[0]).(nextUsed := queues.rings[0].nextUsed)]
    ensures r.Ok? ==> var q := old(queues.rings[0]);
                      && queues.rings[0].nextUsed == Next16(q.nextUsed) && chain.head < q.size
                      && ram.view == WithUsed(Respond(old(ram.view), chain.descriptors, response), q, chain.head, 10)
  {
    Answering(ram, chain.descriptors, response);
    r := queues.Complete(0, ram, chain.head, 10);
  }

  /** Carry out a request with the chain's own buffers pinned too, so that the response
      always has somewhere to go. */
  method Perform(device: VirtioMem, ask: Ask, chain: Chain, mapper: MappingTable, ram: GuestRam,
                 pinned: seq<Range>, ghost base: map<nat, Region>)
    returns (r: Result<Answer, MemoryError>)
    requires device.Valid() && device.Accounted() && mapper.Valid() && device.Agrees(mapper.table, ram.view, base)
    requires forall j :: 0 <= j < |chain.descriptors| ==> chain.descriptors[j].Legal(ram.view)
    modifies device`allocations, device`blocks, device`plugged, device`generation
    modifies device.control`pluggedSizeMib, mapper, ram
    ensures device.Valid() && mapper.Valid() && Keeps(old(ram.view), ram.view, pinned)
    ensures forall j :: 0 <= j < |chain.descriptors| ==>
                          ram.view.InView(chain.descriptors[j].addr, chain.descriptors[j].len)
    ensures r.Ok? ==> device.Accounted() && device.Agrees(mapper.table, ram.view, base)
    ensures r.Ok? ==> r.value.code <= 3 && r.value.state <= 2
    ensures r.Ok? ==> Truthful(ask, r.value, old(device.blocks), device.blocks, old(ram.view), ram.view,
                               pinned + Own(chain.descriptors), device.start, device.capacity, device.blockSize)
    ensures r.Err? ==> !r.error.IsGuest()
    ensures Reliable(mapper.host) && Reliable(device.allocation) ==> r.Ok?
  {
    var own := Own(chain.descriptors);
    ghost var v := ram.view;
    r := SafeRequest(device, ask, mapper, ram, pinned + own, base);
    OwnBuffersStay(v, ram.view, pinned, own, chain.descriptors);
    KeepsFewer(v, ram.view, pinned, own);
  }

  lemma KeepsFewer(v: View, w: View, pinned: seq<Range>, more: seq<Range>)
    requires Keeps(v, w, pinned + more)
    ensures Keeps(v, w, pinned)
  {
    assert forall i :: 0 <= i < |pinned| ==> (pinned + more)[i] == pinned[i];
  }

  lemma KeepsHolds(v: View, w: View, pinned: seq<Range>, ds: seq<Descriptor>, q: Queue)
    requires Keeps(v, w, pinned)
    ensures Holds(v, w, pinned, ds, q)
  {
  }

  /** Deliver the answer; what the request kept pinned stays so. */
  method SendAnswer(queues: Queues, ram: GuestRam, chain: Chain, answer: Answer,
                    ghost v: View, ghost pinned: seq<Range>)
    returns (r: Result<Unit, DeviceError>)
    requires queues.Valid() && 0 < |queues.rings| && answer.code <= 3 && answer.state <= 2
    requires Keeps(v, ram.view, pinned)
    requires forall j :: 0 <= j < |chain.descriptors| ==>
                           ram.view.InView(chain.descriptors[j].addr, chain.descriptors[j].len)
    modifies ram, queues`rings, queues`interrupt
    ensures queues.Valid() && ram.view.regions == old(ram.view).regions
    ensures r.Err? ==> r.error.IsGuest()
    ensures |queues.rings| == |old(queues.rings)|
    ensures queues.rings == old(queues.rings)[0 := old(queues.rings[0]).(nextUsed := queues.rings[0].nextUsed)]
    ensures Holds(v, ram.view, pinned, chain.descriptors, old(queues.rings[0]))
    ensures r.Ok? ==> Replied(old(ram.view), ram.view, chain, answer, old(queues.rings[0]), queues.rings[0])
  {
    ghost var mid, q := ram.view, queues.rings[0];
    var response := ResponseBytes(answer);
    r := Deliver(queues, ram, chain, response);
    ServiceHolds(v, mid, ram.view, pinned, chain.descriptors, response, q, chain.head);
  }

  /** Carry out a request, then write the answer and complete the chain. */
  method Fulfil(device: VirtioMem, ask: Ask, chain: Chain, queues: Queues, mapper: MappingTable, ram: GuestRam,
                pinned: seq<Range>, ghost base: map<nat, Region>)
    returns (r: Result<Unit, DeviceError>, ghost answer: Answer, ghost mid: View)
    requires device.Valid() && device.Accounted() && mapper.Valid() && device.Agrees(mapper.table, ram.view, base)
    requires queues.Valid() && 0 < |queues.rings|
    requires forall j :: 0 <= j < |chain.descriptors| ==> chain.descriptors[j].Legal(ram.view)
    modifies device`allocations, device`blocks, device`plugged, device`generation
    modifies device.control`pluggedSizeMib, mapper, ram, queues`rings, queues`interrupt
    ensures device.Valid() && mapper.Valid() && queues.Valid()
    ensures r.Ok? || r.error.IsGuest() ==> device.Accounted() && device.Agrees(mapper.table, ram.view, base)
    ensures Reliable(mapper.host) && Reliable(device.allocation) && r.Err? ==> r.error.IsGuest()
    ensures |queues.rings| == |old(queues.rings)|
    ensures queues.rings == old(queues.rings)[0 := old(queues.rings[0]).(nextUsed := queues.rings[0].nextUsed)]
    ensures Holds(old(ram.view), ram.view, pinned, chain.descriptors, old(queues.rings[0]))
    ensures r.Ok? ==>
              && Truthful(ask, answer, old(device.blocks), device.blocks, old(ram.view), mid,
                          pinned + Own(chain.descriptors), device.start, device.capacity, device.blockSize)
              && Replied(mid, ram.view, chain, answer, old(queues.rings[0]), queues.rings[0])
  {
    ghost var v, q := ram.view, queues.rings[0];
    var done := Perform(device, ask, chain, mapper, ram, pinned, base);
    mid := ram.view;
    if done.Err? {
      answer := Answer(0, 0);
      KeepsHolds(v, mid, pinned, chain.descriptors, q);
      r := Err(Memory(done.error));
    } else {
      answer := done.value;
      r := SendAnswer(queues, ram, chain, done.value, v, pinned);
    }
  }

  /** Serve one taken chain: a malformed one is a guest error and changes nothing. */
  method ServeChain(device: VirtioMem, chain: Chain, queues: Queues, mapper: MappingTable, ram: GuestRam,
                    pinned: seq<Range>, ghost base: map<nat, Region>)
    returns (r: Result<Unit, DeviceError>, ghost answer: Answer, ghost mid: View)
    requires device.Valid() && device.Accounted() && mapper.Valid() && device.Agrees(mapper.table, ram.view, base)
    requires queues.Valid() && 0 < |queues.rings|
    requires forall j :: 0 <= j < |chain.descriptors| ==> chain.descriptors[j].Legal(ram.view)
    modifies device`allocations, device`blocks, device`plugged, device`generation
    modifies device.control`pluggedSizeMib, mapper, ram, queues`rings, queues`interrupt
    ensures device.Valid() && mapper.Valid() && queues.Valid()
    ensures r.Ok? || r.error.IsGuest() ==> device.Accounted() && device.Agrees(mapper.table, ram.view, base)
    ensures Reliable(mapper.host) && Reliable(device.allocation) && r.Err? ==> r.error.IsGuest()
    ensures |queues.rings| == |old(queues.rings)|
    ensures queues.rings == old(queues.rings)[0 := old(queues.rings[0]).(nextUsed := queues.rings[0].nextUsed)]
    ensures Holds(old(ram.view), ram.view, pinned, chain.descriptors, old(queues.rings[0]))
    ensures !IsRequest(chain.descriptors) ==>
              r.Err? && ram.view == old(ram.view) && device.blocks == old(device.blocks) && queues.rings == old(queues.rings)
    ensures r.Ok? ==>
              && IsRequest(chain.descriptors)
              && Truthful(Decode(Readable(old(ram.view), chain.descriptors)), answer, old(device.blocks), device.blocks,
                          old(ram.view), mid, pinned + Own(chain.descriptors), device.start, device.capacity,
                          device.blockSize)
              && Replied(mid, ram.view, chain, answer, old(queues.rings[0]), queues.rings[0])
  {
    var ask := Parse(ram.view, chain.descriptors);
    if ask.Err? {
      return Err(Memory(ask.error)), Answer(0, 0), ram.view;
    }
    r, answer, mid := Fulfil(device, ask.value, chain, queues, mapper, ram, pinned, base);
  }

  /** What a whole round needs to know of one served chain. */
  method Service(device: VirtioMem, chain: Chain, queues: Queues, mapper: MappingTable, ram: GuestRam,
                 pinned: seq<Range>, ghost base: map<nat, Region>)
    returns (r: Result<Unit, DeviceError>)
    requires device.Valid() && device.Accounted() && mapper.Valid() && device.Agrees(mapper.table, ram.view, base)
    requires queues.Valid() && 0 < |queues.rings|
    requires forall j :: 0 <= j < |chain.descriptors| ==> chain.descriptors[j].Legal(ram.view)
    modifies device`allocations, device`blocks, device`plugged, device`generation
    modifies device.control`pluggedSizeMib, mapper, ram, queues`rings, queues`interrupt
    ensures device.Valid() && mapper.Valid() && queues.Valid()
    ensures r.Ok? || r.error.IsGuest() ==> device.Accounted() && device.Agrees(mapper.table, ram.view, base)
    ensures Reliable(mapper.host) && Reliable(device.allocation) && r.Err? ==> r.error.IsGuest()
    ensures |queues.rings| == |old(queues.rings)|
    ensures forall i :: 0 < i < |queues.rings| ==> queues.rings[i] == old(queues.rings)[i]
    ensures queues.rings[0] == old(queues.rings[0]).(nextUsed := queues.rings[0].nextUsed)
    ensures r.Ok? ==> queues.rings[0].nextUsed == Next16(old(queues.rings[0].nextUsed))
    ensures Holds(old(ram.view), ram.view, pinned, chain.descriptors, old(queues.rings[0]))
  {
    ghost var answer, mid;
    r, answer, mid := ServeChain(device, chain, queues, mapper, ram, pinned, base);
  }

  lemma OwnBuffersStay(v: View, w: View, pinned: seq<Range>, own: seq<Range>, ds: seq<Descriptor>)
    requires Keeps(v, w, pinned + own) && |own| == |ds|
    requires forall j :: 0 <= j < |ds| ==> own[j] == ds[j].Buffer() && ds[j].Legal(v)
    ensures forall j :: 0 <= j < |ds| ==> w.InView(ds[j].addr, ds[j].len)
  {
    forall j | 0 <= j < |ds| ensures w.InView(ds[j].addr, ds[j].len) {
      assert (pinned + own)[|pinned| + j] == own[j];
    }
  }

  /** A request is 24 readable bytes followed by at least 10 writable ones. */
  ghost predicate IsRequest(ds: seq<Descriptor>) {
    SumLen(ds, false) == 24 && SumLen(ds, true) >= 10 && Ordered(ds)
  }

  method Parse(v: View, ds: seq<Descriptor>) returns (r: Result<Ask, MemoryError>)
    ensures r.Ok? <==> IsRequest(ds)
    ensures r.Ok? ==> r.value == Decode(Readable(v, ds))
    ensures r.Err? ==> r.error.IsGuest()
  {
    var read := Sum(ds, false);
    var write := Sum(ds, true);
    if !(read == 24 && write >= 10) {
      return Err(InvalidVirtioMemRequestBuffers(read, write));
    }
    var req := Gather(v, ds);
    if req.None? {
      return Err(ReadableDescriptorAfterWritableDescriptor);
    }
    return Ok(Decode(req.value));
  }
}
