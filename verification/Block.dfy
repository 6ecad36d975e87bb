/** virtio-blk requests: header and data split at any byte of any descriptor list,
    validation before any backend access, and the status byte. */
module Block {
  import opened Wrappers
  import opened Errors
  import opened GuestMemory
  import opened Finite
  import opened Virtqueue
  import opened Buffers
  import opened DescriptorLists
  import opened Storage

  const HEADER: nat := 16
  const SECTOR: nat := 512
  const F_FLUSH: nat := 9

  const T_IN: nat := 0
  const T_OUT: nat := 1
  const T_FLUSH: nat := 4
  const T_GET_ID: nat := 8

  const S_OK: byte := 0
  const S_IOERR: byte := 1
  const S_UNSUPP: byte := 2

  /** Descriptor k holds bytes of the 16-byte header. */
  predicate HoldsHeader(ds: seq<Descriptor>, k: nat)
    requires k < |ds|
  {
    0 < ds[k].len && Begin(ds, k) < HEADER
  }

  /** Descriptor k holds bytes behind the header. */
  predicate HoldsData(ds: seq<Descriptor>, k: nat)
    requires k < |ds|
  {
    0 < ds[k].len && Begin(ds, k) + ds[k].len > HEADER
  }

  ghost predicate HeaderReadable(ds: seq<Descriptor>) {
    forall k :: 0 <= k < |ds| && HoldsHeader(ds, k) ==> !ds[k].WriteOnly()
  }

  /** Among the first n, every descriptor with data has the given direction. */
  ghost predicate DataUpTo(ds: seq<Descriptor>, n: nat, writable: bool)
    requires n <= |ds|
  {
    forall k :: 0 <= k < n && HoldsData(ds, k) ==> ds[k].WriteOnly() == writable
  }

  ghost predicate DataDirection(ds: seq<Descriptor>, writable: bool) {
    DataUpTo(ds, |ds|, writable)
  }

  function Header(v: View, ds: seq<Descriptor>): (h: seq<byte>)
    requires HEADER <= Total(Slices(ds))
    ensures |h| == HEADER
  {
    Load(v, Addrs(Slices(ds))[..HEADER])
  }

  function Kind(v: View, ds: seq<Descriptor>): nat
    requires HEADER <= Total(Slices(ds))
  {
    FromLe(Header(v, ds)[..4])
  }

  function Sector(v: View, ds: seq<Descriptor>): nat
    requires HEADER <= Total(Slices(ds))
  {
    FromLe(Header(v, ds)[8..])
  }

  /** The payload addresses: everything behind the header. */
  function Payload(ds: seq<Descriptor>): (at: seq<nat>)
    requires HEADER <= Total(Slices(ds))
    ensures |at| == Total(Slices(ds)) - HEADER
  {
    Addrs(Slices(ds))[HEADER..]
  }

  /** A well-formed request with a readable header. */
  ghost predicate Framed(ds: seq<Descriptor>) {
    HEADER <= Total(Slices(ds)) && HeaderReadable(ds)
  }

  /** A read or write that passes validation. */
  ghost predicate Transferable(v: View, ds: seq<Descriptor>, size: nat, readOnly: bool)
    requires HEADER <= Total(Slices(ds))
  {
    var read, total, offset := Kind(v, ds) == T_IN, |Payload(ds)|, Sector(v, ds) * SECTOR;
    && Kind(v, ds) in {T_IN, T_OUT} && DataDirection(ds, read)
    && total % SECTOR == 0 && (read || !readOnly) && (read ==> total + 1 < U32_LIMIT)
    && offset < ADDRESS_LIMIT && offset + total < ADDRESS_LIMIT && offset + total <= size
  }

  /** Split the descriptors at the header: None if a header byte is not readable, else
      the directions of the descriptors with data behind it. */
  method SplitHeader(ds: seq<Descriptor>) returns (r: Option<seq<Descriptor>>)
    ensures r.Some? <==> HeaderReadable(ds)
    ensures r.Some? ==> forall w :: AllAre(r.value, w) <==> DataDirection(ds, w)
  {
    var left: nat, data: seq<Descriptor>, i := HEADER, [], 0;
    while i < |ds|
      invariant i <= |ds| && left == (if Begin(ds, i) < HEADER then HEADER - Begin(ds, i) else 0)
      invariant forall k :: 0 <= k < i && HoldsHeader(ds, k) ==> !ds[k].WriteOnly()
      invariant forall w :: AllAre(data, w) <==> DataUpTo(ds, i, w)
    {
      var n := Min(left, ds[i].len);
      if n != 0 && ds[i].WriteOnly() {
        assert HoldsHeader(ds, i);
        return None;
      }
      left := left - n;
      assert ds[i].len > n <==> HoldsData(ds, i);
      if ds[i].len > n {
        forall w ensures AllAre(data + [ds[i]], w) <==> AllAre(data, w) && ds[i].WriteOnly() == w {
          AllAreAppend(data, ds[i], w);
        }
        data := data + [ds[i]];
      }
      i := i + 1;
    }
    return Some(data);
  }

  lemma AllAreAppend(data: seq<Descriptor>, d: Descriptor, w: bool)
    ensures AllAre(data + [d], w) <==> AllAre(data, w) && d.WriteOnly() == w
  {
    if AllAre(data + [d], w) {
      assert (data + [d])[|data|] == d;
      assert forall j :: 0 <= j < |data| ==> data[j] == (data + [d])[j];
    }
  }

  // ---------------------------------------------------------------------------
  // What a request does

  /** Guest memory and disk image together. */
  datatype Media = Media(guest: View, disk: View)

  function Extent(v: View, ds: seq<Descriptor>): seq<nat>
    requires HEADER <= Total(Slices(ds))
  {
    Count(Sector(v, ds) * SECTOR, |Payload(ds)|)
  }

  /** A read moves the extent to the payload buffers, a write the other way. */
  function Transferred(m: Media, ds: seq<Descriptor>): Media
    requires HEADER <= Total(Slices(ds))
  {
    var at, extent := Payload(ds), Extent(m.guest, ds);
    if Kind(m.guest, ds) == T_IN then m.(guest := Store(m.guest, at, Load(m.disk, extent)))
    else m.(disk := Store(m.disk, extent, Load(m.guest, at)))
  }

  /** The request is one the device carries out. */
  ghost predicate Accepted(v: View, ds: seq<Descriptor>, negotiated: set<nat>, size: nat, readOnly: bool) {
    && Framed(ds)
    && match Kind(v, ds)
       case 0 => Transferable(v, ds, size, readOnly)
       case 1 => Transferable(v, ds, size, readOnly)
       case 4 => Payload(ds) == [] && F_FLUSH in negotiated
       case 8 => |Payload(ds)| >= 20 && DataDirection(ds, true)
       case _ => true
  }

  /** The effect of an accepted request that succeeded, with status byte and used length. */
  ghost predicate Succeeds(m: Media, m': Media, ds: seq<Descriptor>, id: seq<byte>, status: byte, used: nat)
    requires HEADER <= Total(Slices(ds)) && |id| == 20
  {
    match Kind(m.guest, ds)
    case 0 => m' == Transferred(m, ds) && status == S_OK && used == |Payload(ds)| + 1 < U32_LIMIT
    case 1 => m' == Transferred(m, ds) && status == S_OK && used == 1
    case 4 => m' == m && status == S_OK && used == 1
    case 8 => && |Payload(ds)| >= 20 && m' == m.(guest := Store(m.guest, Payload(ds)[..20], id))
              && status == S_OK && used == 21
    case _ => m' == m && status == S_UNSUPP && used == 1
  }

  /** A backend failure of an accepted request stays within its payload and extent. */
  ghost predicate FailsWithin(m: Media, m': Media, ds: seq<Descriptor>)
    requires HEADER <= Total(Slices(ds))
  {
    && Kind(m.guest, ds) in {T_IN, T_OUT, T_FLUSH}
    && Confined(m.guest, m'.guest, Payload(ds)) && Confined(m.disk, m'.disk, Extent(m.guest, ds))
    && (Kind(m.guest, ds) != T_IN ==> m'.guest == m.guest)
    && (Kind(m.guest, ds) != T_OUT ==> m'.disk == m.disk)
  }

  /** The last descriptor is one writable byte of guest memory. */
  ghost predicate StatusOk(v: View, ds: seq<Descriptor>) {
    && ds != []
    && var status := ds[|ds| - 1]; status.WriteOnly() && status.len == 1 && v.InView(status.addr, 1)
  }

  /** What a request comes to: `done` is the state before the status byte `code`. */
  ghost predicate Answered(m: Media, done: Media, ds: seq<Descriptor>, negotiated: set<nat>, size: nat, readOnly: bool,
                           id: seq<byte>, code: byte, used: nat)
    requires |id| == 20
  {
    if !Accepted(m.guest, ds, negotiated, size, readOnly) then done == m && code == S_IOERR && used == 1
    else (FailsWithin(m, done, ds) && code == S_IOERR && used == 1) || Succeeds(m, done, ds, id, code, used)
  }

  class Drive {
    const disk: Disk
    const readOnly: bool
    const id: seq<byte>
    /** Whether the n-th flush works. */
    const flushing: nat -> bool
    var flushes: nat

    constructor (disk: Disk, readOnly: bool, id: seq<byte>, flushing: nat -> bool)
      requires |id| == 20
      ensures this.disk == disk && this.readOnly == readOnly && this.id == id && this.flushing == flushing
    {
      this.disk, this.readOnly, this.id, this.flushing, flushes := disk, readOnly, id, flushing, 0;
    }

    ghost predicate Valid() {
      disk.Valid() && |id| == 20
    }

    /** No backend operation fails. */
    ghost predicate Healthy() {
      (forall n {:trigger disk.works(n)} :: disk.works(n)) && forall n {:trigger flushing(n)} :: flushing(n)
    }

    method Flush() returns (r: Result<Unit, DeviceError>)
      modifies this`flushes
      ensures r.Ok? <==> flushing(old(flushes))
      ensures r.Err? ==> r.error == DeviceError.Storage
      ensures flushes == old(flushes) + 1
    {
      r := if flushing(flushes) then Ok(Unit) else Err(DeviceError.Storage);
      flushes := flushes + 1;
    }

    /** Move the payload, after validation; a write without FLUSH is written through. */
    method MovePayload(ram: GuestRam, ds: seq<Descriptor>, negotiated: set<nat>) returns (r: Result<Unit, DeviceError>)
      requires Valid() && ram != disk.image && HEADER <= Total(Slices(ds))
      requires Transferable(ram.view, ds, disk.size, readOnly)
      modifies ram, disk.image, disk`operations, this`flushes
      ensures r.Ok? ==> Media(ram.view, disk.image.view) == Transferred(old(Media(ram.view, disk.image.view)), ds)
      ensures r.Err? ==> FailsWithin(old(Media(ram.view, disk.image.view)), Media(ram.view, disk.image.view), ds)
      ensures r.Ok? && Kind(old(ram.view), ds) == T_OUT && F_FLUSH !in negotiated ==> flushes == old(flushes) + 1
      ensures Healthy() ==> r.Ok?
    {
      var all := Slices(ds);
      var total := |Payload(ds)|;
      var write := Kind(ram.view, ds) == T_OUT;
      var offset := Sector(ram.view, ds) * SECTOR;
      var buffers := Cut(all, HEADER, total);
      assert Addrs(all)[HEADER..HEADER + total] == Payload(ds);
      assert |Addrs(buffers)| == total;
      var moved := disk.Transfer(offset, buffers, write, ram);
      if moved.Err? {
        return Err(DeviceError.Storage);
      }
      if write && F_FLUSH !in negotiated {
        r := Flush();
        if r.Err? {
          StoreConfined(old(disk.image.view), Count(offset, total), Load(old(ram.view), Payload(ds)));
        }
        return;
      }
      return Ok(Unit);
    }

    /** The checks of a read or write, before any backend access. */
    method CheckTransfer(v: View, ds: seq<Descriptor>, data: seq<Descriptor>) returns (r: Result<Unit, DeviceError>)
      requires HEADER <= Total(Slices(ds)) && Kind(v, ds) in {T_IN, T_OUT}
      requires forall w :: AllAre(data, w) <==> DataDirection(ds, w)
      ensures r.Ok? <==> Transferable(v, ds, disk.size, readOnly)
    {
      var read, total := Kind(v, ds) == T_IN, |Payload(ds)|;
      if !AllAre(data, read) {
        return Err(BlockDescriptorDirectionMismatch);
      }
      if total % SECTOR != 0 {
        return Err(UnalignedBlockRequest);
      }
      if !read && readOnly {
        return Err(WriteToReadOnlyDisk);
      }
      if read && total + 1 >= U32_LIMIT {
        return Err(RequestLengthOverflow);
      }
      var offset := Sector(v, ds) * SECTOR;
      if offset >= ADDRESS_LIMIT {
        return Err(SectorOverflow);
      }
      if offset + total >= ADDRESS_LIMIT || offset + total > disk.size {
        return Err(DeviceError.Storage);
      }
      return Ok(Unit);
    }

    /** Carry out a request: one that fails validation touches nothing, one that is
        accepted has exactly its meaning or fails within its own bytes. */
    method Execute(ram: GuestRam, ds: seq<Descriptor>, negotiated: set<nat>)
      returns (r: Result<(byte, nat), DeviceError>)
      requires Valid() && ram != disk.image
      modifies ram, disk.image, disk`operations, this`flushes
      ensures !old(Accepted(ram.view, ds, negotiated, disk.size, readOnly)) ==>
                r.Err? && ram.view == old(ram.view) && disk.image.view == old(disk.image.view)
      ensures r.Ok? ==> HEADER <= Total(Slices(ds)) && Succeeds(old(Media(ram.view, disk.image.view)),
                                 Media(ram.view, disk.image.view), ds, id, r.value.0, r.value.1)
      ensures r.Err? && old(Accepted(ram.view, ds, negotiated, disk.size, readOnly)) ==>
                FailsWithin(old(Media(ram.view, disk.image.view)), Media(ram.view, disk.image.view), ds)
      ensures Healthy() && old(Accepted(ram.view, ds, negotiated, disk.size, readOnly)) ==> r.Ok?
      ensures ram.view.regions == old(ram.view.regions)
    {
      var length := RequestLength(ds);
      if length < HEADER {
        return Err(InvalidBlockHeaderStatus);
      }
      var data := SplitHeader(ds);
      if data.None? {
        return Err(InvalidBlockHeaderStatus);
      }
      var header := CopyTo(ram.view, Slices(ds), HEADER);
      var kind := FromLe(header[..4]);
      var total := |Payload(ds)|;
      match kind {
        case 0 =>
          var checked := CheckTransfer(ram.view, ds, data.value);
          if checked.Err? {
            return Err(checked.error);
          }
          var moved := MovePayload(ram, ds, negotiated);
          return if moved.Err? then Err(moved.error) else Ok((S_OK, total + 1));
        case 1 =>
          var checked := CheckTransfer(ram.view, ds, data.value);
          if checked.Err? {
            return Err(checked.error);
          }
          var moved := MovePayload(ram, ds, negotiated);
          return if moved.Err? then Err(moved.error) else Ok((S_OK, 1));
        case 4 =>
          if !(total == 0 && F_FLUSH in negotiated) {
            return Err(InvalidFlush);
          }
          var flushed := Flush();
          return if flushed.Err? then Err(flushed.error) else Ok((S_OK, 1));
        case 8 =>
          if !(total >= 20 && AllAre(data.value, true)) {
            return Err(InvalidGetId);
          }
          GiveId(ram, ds);
          return Ok((S_OK, 21));
        case _ =>
          return Ok((S_UNSUPP, 1));
      }
    }

    method GiveId(ram: GuestRam, ds: seq<Descriptor>)
      requires Valid() && HEADER + 20 <= Total(Slices(ds))
      modifies ram
      ensures ram.view == Store(old(ram.view), Payload(ds)[..20], id)
    {
      var total := |Payload(ds)|;
      var buffers := Cut(Slices(ds), HEADER, total);
      assert Addrs(Slices(ds))[HEADER..HEADER + total] == Payload(ds);
      assert |Addrs(buffers)| == total;
      CopyFrom(ram, buffers, id);
    }

    /** Answer one chain. Only an untrustworthy status descriptor is an error; anything
        else ends in the status byte, and a request that fails validation changes
        nothing but that byte. */
    method Request(ram: GuestRam, ds: seq<Descriptor>, negotiated: set<nat>)
      returns (r: Result<nat, DeviceError>, ghost done: Media, ghost code: byte)
      requires Valid() && ram != disk.image
      modifies ram, disk.image, disk`operations, this`flushes
      ensures r.Ok? <==> StatusOk(old(ram.view), ds)
      ensures ram.view.regions == old(ram.view.regions)
      ensures r.Err? ==> r.error.IsGuest() && ram.view == old(ram.view) && disk.image.view == old(disk.image.view)
      ensures r.Ok? ==> && r.value < U32_LIMIT && disk.image.view == done.disk
                        && ram.view == done.guest.Write(ds[|ds| - 1].addr, [code])
      ensures r.Ok? ==> var m, request := old(Media(ram.view, disk.image.view)), ds[..|ds| - 1];
                        && Answered(m, done, request, negotiated, disk.size, readOnly, id, code, r.value)
                        && (Healthy() && Accepted(m.guest, request, negotiated, disk.size, readOnly) ==>
                              HEADER <= Total(Slices(request)) && Succeeds(m, done, request, id, code, r.value))
    {
      done, code := Media(ram.view, disk.image.view), S_IOERR;
      if ds == [] {
        return Err(TruncatedBlockDescriptorChain), done, code;
      }
      var status, request := ds[|ds| - 1], ds[..|ds| - 1];
      if !(status.WriteOnly() && status.len == 1 && ram.view.InView(status.addr, 1)) {
        return Err(InvalidBlockHeaderStatus), done, code;
      }
      var executed := Execute(ram, request, negotiated);
      done := Media(ram.view, disk.image.view);
      var value := if executed.Ok? then executed.value.0 else S_IOERR;
      code := value;
      ram.view := ram.view.Write(status.addr, [value]);
      return Ok(if executed.Ok? then executed.value.1 else 1), done, code;
    }

    /** Serve the requests that were pending at the notification: on success each of them
        was taken and completed, and no others. */
    method Notify(queues: Queues, ram: GuestRam) returns (r: Result<Unit, DeviceError>)
      requires Valid() && ram != disk.image && queues.Valid() && 0 < |queues.rings|
      modifies ram, disk.image, disk`operations, this`flushes, queues`rings, queues`interrupt
      ensures queues.Valid() && OnlyMoved(old(queues.rings), queues.rings)
      ensures ram.view.regions == old(ram.view.regions)
      ensures r.Ok? ==> var q := old(queues.rings[0]);
                        var n := if q.ready then q.Pending(old(ram.view)) else 0;
                        && queues.rings[0].nextAvail == Ahead(q.nextAvail, n)
                        && queues.rings[0].nextUsed == Ahead(q.nextUsed, n)
      ensures r.Err? ==> r.error.IsGuest()
    {
      var count := queues.Available(0, ram.view);
      if count.Err? {
        return Err(count.error);
      }
      var n := 0;
      while n < count.value
        invariant n <= count.value && queues.Valid() && OnlyMoved(old(queues.rings), queues.rings)
        invariant ram.view.regions == old(ram.view.regions)
        invariant queues.rings[0].nextAvail == Ahead(old(queues.rings[0].nextAvail), n)
        invariant queues.rings[0].nextUsed == Ahead(old(queues.rings[0].nextUsed), n)
      {
        r := ServeOne(queues, ram);
        if r.Err? {
          return;
        }
        n := n + 1;
      }
      return Ok(Unit);
    }

    /** Answer a taken chain and complete it with its used length. */
    method ServeChain(queues: Queues, ram: GuestRam, chain: Chain)
      returns (r: Result<Unit, DeviceError>, ghost done: Media, ghost code: byte, ghost used: nat)
      requires Valid() && ram != disk.image && queues.Valid() && 0 < |queues.rings|
      modifies ram, disk.image, disk`operations, this`flushes, queues`rings, queues`interrupt
      ensures queues.Valid() && |queues.rings| == |old(queues.rings)| && ram.view.regions == old(ram.view.regions)
      ensures queues.rings == old(queues.rings)[0 := old(queues.rings[0]).(nextUsed := queues.rings[0].nextUsed)]
      ensures r.Ok? ==> queues.rings[0].nextUsed == Next16(old(queues.rings[0].nextUsed))
      ensures r.Ok? ==> StatusOk(old(ram.view), chain.descriptors) && chain.head < old(queues.rings[0]).size
      ensures r.Ok? ==> var ds := chain.descriptors;
                        && Answered(old(Media(ram.view, disk.image.view)), done, ds[..|ds| - 1], queues.negotiated,
                                    disk.size, readOnly, id, code, used)
                        && disk.image.view == done.disk && used < U32_LIMIT
                        && ram.view == WithUsed(done.guest.Write(ds[|ds| - 1].addr, [code]), old(queues.rings[0]),
                                                chain.head, used)
      ensures r.Err? ==> r.error.IsGuest()
    {
      var length;
      length, done, code := Request(ram, chain.descriptors, queues.negotiated);
      used := 0;
      if length.Err? {
        return Err(length.error), done, code, used;
      }
      used := length.value;
      r := queues.Complete(0, ram, chain.head, length.value);
    }

    /** Take and serve the next request. */
    method ServeOne(queues: Queues, ram: GuestRam) returns (r: Result<Unit, DeviceError>)
      requires Valid() && ram != disk.image && queues.Valid() && 0 < |queues.rings|
      modifies ram, disk.image, disk`operations, this`flushes, queues`rings, queues`interrupt
      ensures queues.Valid() && OnlyMoved(old(queues.rings), queues.rings)
      ensures ram.view.regions == old(ram.view.regions)
      ensures r.Ok? ==> && queues.rings[0].nextAvail == Next16(old(queues.rings[0].nextAvail))
                        && queues.rings[0].nextUsed == Next16(old(queues.rings[0].nextUsed))
      ensures r.Err? ==> r.error.IsGuest()
    {
      var popped := queues.Pop(0, ram.view);
      if popped.Err? {
        return Err(popped.error);
      }
      if popped.value.None? {
        return Err(MissingBlockChain);
      }
      ghost var done, code, used;
      r, done, code, used := ServeChain(queues, ram, popped.value.value);
    }
  }

  lemma CountDistinct(a: nat, n: nat)
    ensures Distinct(Count(a, n))
  {
    forall i, j ensures Differ(Count(a, n), i, j) {
    }
  }

  /** Writing a payload and reading the same sectors back returns it, through any two
      scatter lists and header splits, if the destinations do not overlap each other or
      the status byte. */
  lemma BlockRoundTrip(m: Media, out: seq<Descriptor>, n: Media, back: seq<Descriptor>, status: nat, code: byte)
    requires HEADER <= Total(Slices(out)) && HEADER <= Total(Slices(back))
    requires Kind(m.guest, out) == T_OUT && Kind(n.guest, back) == T_IN
    requires n.disk == Transferred(m, out).disk
    requires Sector(m.guest, out) == Sector(n.guest, back) && |Payload(out)| == |Payload(back)|
    requires Distinct(Payload(back)) && status !in Payload(back)
    ensures Load(Transferred(n, back).guest.Write(status, [code]), Payload(back)) == Load(m.guest, Payload(out))
  {
    var extent := Extent(m.guest, out);
    CountDistinct(Sector(m.guest, out) * SECTOR, |Payload(out)|);
    ThroughDisk(m.guest, m.disk, Payload(out), extent, n.guest, Payload(back), status, code);
  }

  lemma LoadUnstatus(w: View, at: seq<nat>, status: nat, code: byte)
    requires status !in at
    ensures Load(w.Write(status, [code]), at) == Load(w, at)
  {
    forall i | 0 <= i < |at| ensures w.Write(status, [code]).Byte(at[i]) == w.Byte(at[i]) {
      assert at[i] in at;
    }
  }

  lemma ThroughDisk(v: View, disk: View, from: seq<nat>, extent: seq<nat>, u: View, to: seq<nat>, status: nat, code: byte)
    requires |from| == |extent| == |to| && Distinct(extent) && Distinct(to) && status !in to
    ensures var disk' := Store(disk, extent, Load(v, from));
            Load(Store(u, to, Load(disk', extent)).Write(status, [code]), to) == Load(v, from)
  {
    LoadOfStore(disk, extent, Load(v, from));
    LoadOfStore(u, to, Load(v, from));
    LoadUnstatus(Store(u, to, Load(v, from)), to, status, code);
  }
}
