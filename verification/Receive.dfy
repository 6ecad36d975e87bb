/** virtio-net receive. A chain with enough non-overlapping room takes the packet
    directly; any other goes through a host buffer. Both leave the same guest bytes. */
module Receive {
  import opened Wrappers
  import opened Errors
  import opened GuestMemory
  import opened Finite
  import opened Virtqueue
  import opened Buffers
  import opened DescriptorLists
  import opened Overlap
  import opened Storage
  import opened Net

  /** What the backend has at a receive call. */
  datatype Arrival = Failed | Absent | Packet(bytes: seq<byte>)

  /** The virtio-net header of a received frame: one buffer used. */
  const RX_HEADER: seq<byte> := [0, 0, 0, 0, 0, 0, 0, 0, 0, 0, 1, 0]

  /** Header and packet in the chain's buffers, front to back. */
  function Delivered(v: View, ss: seq<Range>, packet: seq<byte>): View
    requires NET_HEADER + |packet| <= Total(ss)
  {
    Store(v, Addrs(ss)[..NET_HEADER + |packet|], RX_HEADER + packet)
  }

  // ---------------------------------------------------------------------------
  // The direct path refines the copying one

  ghost predicate Disjoint(a: seq<nat>, b: seq<nat>) {
    forall i, j :: 0 <= i < |a| && 0 <= j < |b| ==> a[i] != b[j]
  }

  lemma StoreCommutesAt(v: View, a: seq<nat>, x: seq<byte>, b: seq<nat>, y: seq<byte>, z: nat)
    requires |a| == |x| && |b| == |y| && Distinct(a) && Distinct(b) && Disjoint(a, b)
    ensures SameAt(Store(Store(v, a, x), b, y), Store(Store(v, b, y), a, x), z)
  {
    if z in a {
      var i :| 0 <= i < |a| && a[i] == z;
      assert z !in b;
      StoreLands(v, a, x, i);
      StoreElsewhere(Store(v, a, x), b, y, z);
      StoreLands(Store(v, b, y), a, x, i);
    } else if z in b {
      var j :| 0 <= j < |b| && b[j] == z;
      StoreLands(v, b, y, j);
      StoreElsewhere(Store(v, b, y), a, x, z);
      StoreLands(Store(v, a, x), b, y, j);
    } else {
      StoreElsewhere(v, a, x, z);
      StoreElsewhere(v, b, y, z);
      StoreElsewhere(Store(v, a, x), b, y, z);
      StoreElsewhere(Store(v, b, y), a, x, z);
    }
  }

  lemma StoreCommutes(v: View, a: seq<nat>, x: seq<byte>, b: seq<nat>, y: seq<byte>)
    requires |a| == |x| && |b| == |y| && Distinct(a) && Distinct(b) && Disjoint(a, b)
    ensures Store(Store(v, a, x), b, y) == Store(Store(v, b, y), a, x)
  {
    forall z: nat ensures SameAt(Store(Store(v, a, x), b, y), Store(Store(v, b, y), a, x), z) {
      StoreCommutesAt(v, a, x, b, y, z);
    }
    SameBytesSameView(Store(Store(v, a, x), b, y), Store(Store(v, b, y), a, x));
  }

  lemma DistinctPart(at: seq<nat>, i: nat, j: nat)
    requires Distinct(at) && i <= j <= |at|
    ensures Distinct(at[i..j])
  {
    forall a, b ensures Differ(at[i..j], a, b) {
      assert Differ(at, i + a, i + b);
    }
  }

  /** Packet first and header afterwards, into separate buffers, is the same as header
      and packet in one pass. */
  lemma DirectIsDelivered(v: View, ss: seq<Range>, packet: seq<byte>)
    requires NET_HEADER + |packet| <= Total(ss) && Distinct(Addrs(ss))
    ensures var at := Addrs(ss);
            Store(Store(v, at[NET_HEADER..NET_HEADER + |packet|], packet), at[..NET_HEADER], RX_HEADER) ==
            Delivered(v, ss, packet)
  {
    var at, n := Addrs(ss), NET_HEADER + |packet|;
    var head, tail := at[0..NET_HEADER], at[NET_HEADER..n];
    DistinctPart(at, 0, NET_HEADER);
    DistinctPart(at, NET_HEADER, n);
    forall i, j | 0 <= i < |head| && 0 <= j < |tail| ensures head[i] != tail[j] {
      assert Differ(at, i, NET_HEADER + j);
    }
    StoreCommutes(v, tail, packet, head, RX_HEADER);
    StoreAppend(v, head, tail, RX_HEADER, packet);
    assert at[..n] == head + tail && at[..NET_HEADER] == head;
  }

  lemma ApartDelivery(v: View, ss: seq<Range>, payload: seq<Range>, m: nat, packet: seq<byte>)
    requires |packet| <= m && NET_HEADER + m <= Total(ss) && Addrs(payload) == Addrs(ss)[NET_HEADER..NET_HEADER + m]
    requires forall i, j :: 0 <= i < j < |ss| ==> !ss[i].Meets(ss[j])
    ensures Store(Store(v, Addrs(payload)[..|packet|], packet), Addrs(ss)[..|RX_HEADER|], RX_HEADER) ==
            Delivered(v, ss, packet)
  {
    SeparatedPairs(ss);
    SeparatedDistinct(ss);
    DirectIsDelivered(v, ss, packet);
    assert Addrs(payload)[..|packet|] == Addrs(ss)[NET_HEADER..NET_HEADER + |packet|];
  }

  // ---------------------------------------------------------------------------
  // The receiver

  /** The 16-bit predecessor, which wraps. */
  function Back16(x: nat): nat {
    if x == 0 then U16_LIMIT - 1 else x - 1
  }

  /** A packet the guest may see: a whole Ethernet frame within the backend's maximum. */
  predicate Whole(packet: seq<byte>, capacity: nat) {
    14 <= |packet| && NET_HEADER + |packet| <= capacity
  }

  /** The guest view once a whole packet is in: complete, or untouched if too large. */
  function Filled(v: View, ss: seq<Range>, packet: seq<byte>): View {
    if NET_HEADER + |packet| <= Total(ss) then Delivered(v, ss, packet) else v
  }

  /** The entry that was just taken is available again. */
  function PutBack(q: Queue): (r: Queue)
    ensures q.WellFormed() ==> r.WellFormed()
  {
    q.(nextAvail := Back16(q.nextAvail))
  }

  /** The used length: header and packet, or zero for a chain that is too small. */
  function UsedLength(ss: seq<Range>, packet: seq<byte>, capacity: nat): (n: nat)
    requires Whole(packet, capacity) && capacity < U32_LIMIT
    ensures n < U32_LIMIT
  {
    if NET_HEADER + |packet| <= Total(ss) then NET_HEADER + |packet| else 0
  }

  /** The packet is in the chain's buffers, or dropped, and the chain is used. */
  ghost predicate Completed(v: View, w: View, q: Queue, r: Queue, chain: Chain, packet: seq<byte>, capacity: nat)
    requires Whole(packet, capacity)
  {
    var ss := Slices(chain.descriptors);
    && q.WellFormed() && chain.head < q.size && capacity < U32_LIMIT && AllAre(chain.descriptors, true)
    && r == q.(nextUsed := Next16(q.nextUsed))
    && w == WithUsed(Filled(v, ss, packet), q, chain.head, UsedLength(ss, packet, capacity))
  }

  /** The chain at the old position got the arrived packet. */
  ghost predicate Served(v: View, w: View, q: Queue, r: Queue, arrival: Arrival, capacity: nat)
    requires q.WellFormed()
  {
    && ChainAt(v, q, 0).Some? && arrival.Packet? && Whole(arrival.bytes, capacity)
    && Completed(v, w, q.Advanced(), r, ChainAt(v, q, 0).value, arrival.bytes, capacity)
  }

  /** The backend's receives never fail and deliver whole packets. */
  ghost predicate Delivers(arrivals: nat -> Arrival, capacity: nat) {
    forall n {:trigger arrivals(n)} :: !arrivals(n).Failed? && (arrivals(n).Packet? ==> Whole(arrivals(n).bytes, capacity))
  }

  class Receiver {
    /** The header and largest frame together. */
    const capacity: nat
    const arrivals: nat -> Arrival
    var receives: nat
    /** The host buffer for chains that cannot take a packet directly. */
    var rx: seq<byte>

    constructor (capacity: nat, arrivals: nat -> Arrival)
      requires NET_HEADER <= capacity < U32_LIMIT
      ensures Valid() && this.capacity == capacity && this.arrivals == arrivals
    {
      this.capacity, this.arrivals, receives, rx := capacity, arrivals, 0, seq<byte>(capacity, _ => 0);
    }

    ghost predicate Valid()
      reads this`rx
    {
      |rx| == capacity && NET_HEADER <= capacity < U32_LIMIT
    }

    /** The last receive found no packet. */
    ghost predicate LastAbsent()
      reads this`receives
    {
      0 < receives && arrivals(receives - 1).Absent?
    }

    /** Receive into guest buffers: no packet leaves them alone, and one that does not
        fit is cut off and reported with its full length. */
    method RecvDirect(ram: GuestRam, buffer: seq<Range>) returns (a: Arrival)
      modifies this`receives, ram
      ensures a == arrivals(old(receives)) && receives == old(receives) + 1
      ensures ram.view.regions == old(ram.view.regions)
      ensures ram.view == if a.Packet? && |a.bytes| <= Total(buffer)
                          then Store(old(ram.view), Addrs(buffer)[..|a.bytes|], a.bytes)
                          else if a.Packet? then Store(old(ram.view), Addrs(buffer), a.bytes[..Total(buffer)])
                          else old(ram.view)
    {
      a := arrivals(receives);
      receives := receives + 1;
      if a.Packet? {
        var n := Min(|a.bytes|, Total(buffer));
        assert Addrs(buffer)[..Total(buffer)] == Addrs(buffer) && a.bytes[..|a.bytes|] == a.bytes;
        CopyFrom(ram, buffer, a.bytes[..n]);
      }
    }

    /** Receive into the host buffer. */
    method RecvBuffered() returns (a: Arrival)
      requires Valid()
      modifies this`receives, this`rx
      ensures Valid() && a == arrivals(old(receives)) && receives == old(receives) + 1
      ensures a.Packet? && NET_HEADER + |a.bytes| <= capacity ==> rx[NET_HEADER..NET_HEADER + |a.bytes|] == a.bytes
    {
      a := arrivals(receives);
      receives := receives + 1;
      if a.Packet? {
        var n := Min(|a.bytes|, capacity - NET_HEADER);
        rx := rx[..NET_HEADER] + a.bytes[..n] + rx[NET_HEADER + n..];
      }
    }

    /** Fill a chain's buffers with the next packet. The result does not show which path
        was taken: a whole packet that fits is header and packet front to back. */
    method Fill(ram: GuestRam, ss: seq<Range>) returns (a: Arrival)
      requires Valid()
      modifies this`receives, this`rx, ram
      ensures Valid() && a == arrivals(old(receives)) && receives == old(receives) + 1
      ensures ram.view.regions == old(ram.view.regions)
      ensures !a.Packet? ==> ram.view == old(ram.view)
      ensures a.Packet? && Whole(a.bytes, capacity) ==> ram.view == Filled(old(ram.view), ss, a.bytes)
    {
      var meeting := Overlaps(ss);
      if Total(ss) >= capacity && !meeting {
        a := FillDirect(ram, ss);
      } else {
        a := RecvBuffered();
        if a.Packet? && Whole(a.bytes, capacity) && NET_HEADER + |a.bytes| <= Total(ss) {
          rx := RX_HEADER + rx[NET_HEADER..];
          assert rx[..NET_HEADER + |a.bytes|] == RX_HEADER + a.bytes;
          CopyFrom(ram, ss, rx[..NET_HEADER + |a.bytes|]);
        }
      }
    }

    method FillDirect(ram: GuestRam, ss: seq<Range>) returns (a: Arrival)
      requires Valid() && capacity <= Total(ss)
      requires forall i, j :: 0 <= i < j < |ss| ==> !ss[i].Meets(ss[j])
      modifies this`receives, ram
      ensures a == arrivals(old(receives)) && receives == old(receives) + 1
      ensures ram.view.regions == old(ram.view.regions)
      ensures !a.Packet? ==> ram.view == old(ram.view)
      ensures a.Packet? && Whole(a.bytes, capacity) ==> ram.view == Delivered(old(ram.view), ss, a.bytes)
    {
      var room := capacity - NET_HEADER;
      var payload := Cut(ss, NET_HEADER, room);
      assert |Addrs(payload)| == room;
      a := RecvDirect(ram, payload);
      if a.Packet? && Whole(a.bytes, capacity) {
        ApartDelivery(old(ram.view), ss, payload, room, a.bytes);
        CopyFrom(ram, ss, RX_HEADER);
      }
    }

    /** Serve a taken chain. An absent packet puts the entry back and leaves guest memory
        alone; a packet is delivered, or dropped if the chain is too small, and the
        chain completed with the bytes that were written. */
    method ServeChain(queues: Queues, ram: GuestRam, chain: Chain) returns (r: Result<bool, DeviceError>)
      requires queues.Valid() && |queues.rings| == 2 && Valid()
      modifies this`receives, this`rx, queues`rings, queues`interrupt, ram
      ensures Valid() && queues.Valid() && |queues.rings| == 2 && queues.rings[1] == old(queues.rings[1])
      ensures ram.view.regions == old(ram.view.regions)
      ensures SameSetup(old(queues.rings[0]), queues.rings[0])
      ensures Delivers(arrivals, capacity) && r.Err? ==> r.error.IsGuest()
      ensures r.Ok? && !r.value ==>
                && LastAbsent() && ram.view == old(ram.view)
                && queues.rings == old(queues.rings)[0 := PutBack(old(queues.rings[0]))]
      ensures r.Ok? && r.value ==>
                && arrivals(old(receives)).Packet? && Whole(arrivals(old(receives)).bytes, capacity)
                && Completed(old(ram.view), ram.view, old(queues.rings[0]), queues.rings[0], chain,
                             arrivals(old(receives)).bytes, capacity)
    {
      if !AllAre(chain.descriptors, true) {
        return Err(RxDescriptorMustBeWritable);
      }
      var ss := Slices(chain.descriptors);
      var arrival := Fill(ram, ss);
      if arrival.Failed? {
        return Err(DeviceError.Net);
      }
      if arrival.Absent? {
        queues.rings := queues.rings[0 := PutBack(queues.rings[0])];
        return Ok(false);
      }
      if !Whole(arrival.bytes, capacity) {
        return Err(InvalidBackendRxPacketSize(|arrival.bytes|));
      }
      var done := queues.Complete(0, ram, chain.head, UsedLength(ss, arrival.bytes, capacity));
      r := if done.Err? then Err(done.error) else Ok(true);
    }

    /** Take and serve one chain; false ends the round with ring and memory as they were. */
    method ReceiveOne(queues: Queues, ram: GuestRam) returns (r: Result<bool, DeviceError>)
      requires queues.Valid() && |queues.rings| == 2 && Valid()
      modifies this`receives, this`rx, queues`rings, queues`interrupt, ram
      ensures Valid() && queues.Valid() && |queues.rings| == 2 && queues.rings[1] == old(queues.rings[1])
      ensures ram.view.regions == old(ram.view.regions)
      ensures SameSetup(old(queues.rings[0]), queues.rings[0])
      ensures Delivers(arrivals, capacity) && r.Err? ==> r.error.IsGuest()
      ensures r.Ok? && !r.value ==> queues.rings == old(queues.rings) && ram.view == old(ram.view)
      ensures r.Ok? && !r.value ==> Exhausted(ram.view, queues.rings[0]) || LastAbsent()
      ensures r.Ok? && r.value ==>
                && queues.rings[0].nextAvail == Next16(old(queues.rings[0].nextAvail))
                && queues.rings[0].nextUsed == Next16(old(queues.rings[0].nextUsed))
                && Served(old(ram.view), ram.view, old(queues.rings[0]), queues.rings[0], arrivals(old(receives)), capacity)
    {
      ghost var before, v := queues.rings, ram.view;
      var popped := queues.Pop(0, ram.view);
      if popped.Err? {
        return Err(popped.error);
      }
      if popped.value.None? {
        return Ok(false);
      }
      assert PutBack(before[0].Advanced()) == before[0];
      r := ServeChain(queues, ram, popped.value.value);
      if r.Ok? && !r.value {
        assert queues.rings == before;
      }
    }

    /** What a whole round needs to know of one receive. */
    method ReceiveNext(queues: Queues, ram: GuestRam) returns (r: Result<bool, DeviceError>)
      requires queues.Valid() && |queues.rings| == 2 && Valid()
      modifies this`receives, this`rx, queues`rings, queues`interrupt, ram
      ensures Valid() && queues.Valid() && |queues.rings| == 2 && queues.rings[1] == old(queues.rings[1])
      ensures ram.view.regions == old(ram.view.regions)
      ensures SameSetup(old(queues.rings[0]), queues.rings[0])
      ensures Delivers(arrivals, capacity) && r.Err? ==> r.error.IsGuest()
      ensures r.Ok? && !r.value ==> Exhausted(ram.view, queues.rings[0]) || LastAbsent()
      ensures r.Ok? ==> queues.rings[0].nextAvail == Ahead(old(queues.rings[0].nextAvail), if r.value then 1 else 0)
      ensures r.Ok? ==> queues.rings[0].nextUsed == Ahead(old(queues.rings[0].nextUsed), if r.value then 1 else 0)
    {
      r := ReceiveOne(queues, ram);
    }

    /** Receive within the budget; the transmit ring is not touched, and every chain
        taken was completed. */
    method ReceiveAll(queues: Queues, ram: GuestRam) returns (r: Result<Unit, DeviceError>, ghost packets: nat)
      requires queues.Valid() && |queues.rings| == 2 && Valid()
      modifies this`receives, this`rx, queues`rings, queues`interrupt, ram
      ensures Valid() && queues.Valid() && |queues.rings| == 2 && queues.rings[1] == old(queues.rings[1])
      ensures ram.view.regions == old(ram.view.regions)
      ensures SameSetup(old(queues.rings[0]), queues.rings[0])
      ensures Delivers(arrivals, capacity) && r.Err? ==> r.error.IsGuest()
      ensures packets <= BUDGET
      ensures r.Ok? ==> packets == BUDGET || Exhausted(ram.view, queues.rings[0]) || LastAbsent()
      ensures r.Ok? ==> && queues.rings[0].nextAvail == Ahead(old(queues.rings[0].nextAvail), packets)
                        && queues.rings[0].nextUsed == Ahead(old(queues.rings[0].nextUsed), packets)
    {
      packets := 0;
      var n := 0;
      while n < BUDGET
        invariant packets == n <= BUDGET && Valid() && queues.Valid() && |queues.rings| == 2
        invariant ram.view.regions == old(ram.view.regions)
        invariant queues.rings[1] == old(queues.rings[1]) && SameSetup(old(queues.rings[0]), queues.rings[0])
        invariant queues.rings[0].nextAvail == Ahead(old(queues.rings[0].nextAvail), packets)
        invariant queues.rings[0].nextUsed == Ahead(old(queues.rings[0].nextUsed), packets)
      {
        var more := ReceiveNext(queues, ram);
        if more.Err? {
          return Err(more.error), packets;
        }
        if !more.value {
          return Ok(Unit), packets;
        }
        packets := packets + 1;
        n := n + 1;
      }
      return Ok(Unit), packets;
    }
  }
}
