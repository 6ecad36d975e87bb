/** Batched disk transfer. A request is split into vectored operations whose segments
    the image library may move in any order; the result is still that of moving the
    segments one by one. */
module Storage {
  import opened Wrappers
  import opened GuestMemory
  import opened Buffers
  import opened Overlap

  datatype StorageError = OutOfBounds | LengthOverflow | Operation

  // ---------------------------------------------------------------------------
  // One vectored operation, in any order

  /** The position of segment k in the transferred bytes. */
  function Start(ss: seq<Range>, k: nat): nat
    requires k <= |ss|
  {
    if k == 0 then 0 else ss[0].len + Start(ss[1..], k - 1)
  }

  lemma {:induction false} StartFits(ss: seq<Range>, k: nat)
    requires k < |ss|
    ensures Start(ss, k) + ss[k].len <= Total(ss)
  {
    if k != 0 {
      StartFits(ss[1..], k - 1);
    }
  }

  lemma {:induction false} AddrsAt(ss: seq<Range>, k: nat, o: nat)
    requires k < |ss| && o < ss[k].len
    ensures Start(ss, k) + o < |Addrs(ss)| && Addrs(ss)[Start(ss, k) + o] == ss[k].start + o
  {
    if k != 0 {
      AddrsAt(ss[1..], k - 1, o);
    }
  }

  /** The bytes of segment k. */
  function Chunk(ss: seq<Range>, data: seq<byte>, k: nat): (c: seq<byte>)
    requires |data| == Total(ss) && k < |ss|
    ensures |c| == ss[k].len && Start(ss, k) + |c| <= |data|
    ensures forall o :: 0 <= o < |c| ==> c[o] == data[Start(ss, k) + o]
  {
    StartFits(ss, k);
    data[Start(ss, k)..Start(ss, k) + ss[k].len]
  }

  /** The first t moves of the given order. */
  function Moved(v: View, ss: seq<Range>, data: seq<byte>, order: seq<nat>, t: nat): (w: View)
    requires |data| == Total(ss) && t <= |order| && Indices(order, |ss|)
    ensures w.regions == v.regions
  {
    if t == 0 then v
    else Moved(v, ss, data, order, t - 1).Write(ss[order[t - 1]].start, Chunk(ss, data, order[t - 1]))
  }

  predicate Indices(order: seq<nat>, n: nat) {
    forall t :: 0 <= t < |order| ==> order[t] < n
  }

  /** Segment k is among the first t moves. */
  ghost predicate MovedBy(order: seq<nat>, t: nat, k: nat)
    requires t <= |order|
  {
    t != 0 && (order[t - 1] == k || MovedBy(order, t - 1, k))
  }

  /** Every segment is moved at some point. */
  ghost predicate Complete(order: seq<nat>, n: nat) {
    Indices(order, n) && forall k {:trigger MovedBy(order, |order|, k)} :: 0 <= k < n ==> MovedBy(order, |order|, k)
  }

  lemma WriteAt(v: View, r: Range, data: seq<byte>, x: nat)
    requires |data| == r.len
    ensures var w := v.Write(r.start, data);
            && w.Byte(x) == (if r.Has(x) then data[x - r.start] else v.Byte(x))
            && (x in w.bytes <==> r.Has(x) || x in v.bytes)
  {
  }

  lemma {:induction false} MovedElsewhere(v: View, ss: seq<Range>, data: seq<byte>, order: seq<nat>, t: nat, x: nat)
    requires |data| == Total(ss) && t <= |order| && Indices(order, |ss|)
    requires forall s :: 0 <= s < t ==> !ss[order[s]].Has(x)
    ensures var w := Moved(v, ss, data, order, t); w.Byte(x) == v.Byte(x) && (x in w.bytes <==> x in v.bytes)
  {
    if t != 0 {
      MovedElsewhere(v, ss, data, order, t - 1, x);
      var k := order[t - 1];
      WriteAt(Moved(v, ss, data, order, t - 1), ss[k], Chunk(ss, data, k), x);
    }
  }

  /** A byte of a moved segment holds that segment's data, whatever else moved. */
  lemma {:induction false} MovedLands(v: View, ss: seq<Range>, data: seq<byte>, order: seq<nat>, t: nat, k: nat, x: nat)
    requires |data| == Total(ss) && t <= |order| && Indices(order, |ss|) && Separated(ss)
    requires k < |ss| && ss[k].Has(x) && MovedBy(order, t, k)
    ensures x in Moved(v, ss, data, order, t).bytes
    ensures Moved(v, ss, data, order, t).Byte(x) == Chunk(ss, data, k)[x - ss[k].start]
  {
    var last := order[t - 1];
    WriteAt(Moved(v, ss, data, order, t - 1), ss[last], Chunk(ss, data, last), x);
    if last != k {
      OthersMiss(ss, k, last, x);
      MovedLands(v, ss, data, order, t - 1, k, x);
    }
  }

  lemma OthersMiss(ss: seq<Range>, k: nat, j: nat, x: nat)
    requires Separated(ss) && k < |ss| && j < |ss| && j != k && ss[k].Has(x)
    ensures !ss[j].Has(x)
  {
    SeparatedPairs(ss);
    assert !ss[if k < j then k else j].Meets(ss[if k < j then j else k]);
  }

  lemma SameBytesSameView(v: View, w: View)
    requires v.regions == w.regions && forall x: nat :: SameAt(v, w, x)
    ensures v == w
  {
    forall x: nat ensures (x in v.bytes <==> x in w.bytes) && (x in v.bytes ==> v.bytes[x] == w.bytes[x]) {
      assert SameAt(v, w, x);
    }
    assert v.bytes == w.bytes;
  }

  ghost predicate SameAt(v: View, w: View, x: nat) {
    (x in v.bytes <==> x in w.bytes) && v.Byte(x) == w.Byte(x)
  }

  lemma StoredChunk(v: View, ss: seq<Range>, data: seq<byte>, k: nat, x: nat)
    requires |data| == Total(ss) && Separated(ss) && k < |ss| && ss[k].Has(x)
    ensures x in Store(v, Addrs(ss), data).bytes
    ensures Store(v, Addrs(ss), data).Byte(x) == Chunk(ss, data, k)[x - ss[k].start]
  {
    var p: nat := Start(ss, k) + (x - ss[k].start);
    AddrsAt(ss, k, x - ss[k].start);
    assert Addrs(ss)[p] == x;
    SeparatedDistinct(ss);
    StoreLands(v, Addrs(ss), data, p);
  }

  lemma LandsAlike(v: View, ss: seq<Range>, data: seq<byte>, order: seq<nat>, k: nat, x: nat)
    requires |data| == Total(ss) && Complete(order, |ss|) && Separated(ss) && k < |ss| && ss[k].Has(x)
    ensures SameAt(Moved(v, ss, data, order, |order|), Store(v, Addrs(ss), data), x)
  {
    MovedLands(v, ss, data, order, |order|, k, x);
    StoredChunk(v, ss, data, k, x);
  }

  lemma MissesAlike(v: View, ss: seq<Range>, data: seq<byte>, order: seq<nat>, x: nat)
    requires |data| == Total(ss) && Complete(order, |ss|)
    requires forall k :: 0 <= k < |ss| ==> !ss[k].Has(x)
    ensures SameAt(Moved(v, ss, data, order, |order|), Store(v, Addrs(ss), data), x)
  {
    MovedElsewhere(v, ss, data, order, |order|, x);
    if x in Addrs(ss) {
      var p :| 0 <= p < |Addrs(ss)| && Addrs(ss)[p] == x;
      AddrsWithin(ss, p);
    }
    StoreElsewhere(v, Addrs(ss), data, x);
  }

  /** Separated segments may be moved in any order: the result is the ordered store. */
  lemma AnyOrder(v: View, ss: seq<Range>, data: seq<byte>, order: seq<nat>)
    requires |data| == Total(ss) && Complete(order, |ss|) && Separated(ss)
    ensures Moved(v, ss, data, order, |order|) == Store(v, Addrs(ss), data)
  {
    var w, u := Moved(v, ss, data, order, |order|), Store(v, Addrs(ss), data);
    forall x: nat ensures SameAt(w, u, x) {
      if k :| 0 <= k < |ss| && ss[k].Has(x) {
        LandsAlike(v, ss, data, order, k, x);
      } else {
        MissesAlike(v, ss, data, order, x);
      }
    }
    SameBytesSameView(w, u);
  }

  // ---------------------------------------------------------------------------
  // Disk extents

  /** Where consecutive segments lie on the disk. */
  function Extents(ss: seq<Range>, offset: nat): (es: seq<Range>)
    ensures |es| == |ss| && Total(es) == Total(ss)
    decreases |ss|
  {
    if ss == [] then [] else [Range(offset, ss[0].len)] + Extents(ss[1..], offset + ss[0].len)
  }

  lemma {:induction false} ExtentsSeparated(ss: seq<Range>, offset: nat)
    ensures Separated(Extents(ss, offset))
    ensures forall r: Range :: r.start + r.len <= offset ==> MeetsNone(r, Extents(ss, offset))
    decreases |ss|
  {
    if ss != [] {
      var rest := Extents(ss[1..], offset + ss[0].len);
      ExtentsSeparated(ss[1..], offset + ss[0].len);
      assert Extents(ss, offset)[1..] == rest;
      assert MeetsNone(Range(offset, ss[0].len), rest);
    }
  }

  lemma {:induction false} ExtentsAddrs(ss: seq<Range>, offset: nat)
    ensures Addrs(Extents(ss, offset)) == Count(offset, Total(ss))
    decreases |ss|
  {
    if ss != [] {
      ExtentsAddrs(ss[1..], offset + ss[0].len);
      AddrsPush(Range(offset, ss[0].len), Extents(ss[1..], offset + ss[0].len));
      assert Count(offset, Total(ss)) == Count(offset, ss[0].len) + Count(offset + ss[0].len, Total(ss[1..]));
    }
  }

  /** Nothing outside the listed addresses differs. */
  ghost predicate Confined(v: View, w: View, at: seq<nat>) {
    w.regions == v.regions && forall x: nat {:trigger w.Byte(x)} :: x !in at ==> w.Byte(x) == v.Byte(x)
  }

  lemma MovedConfined(v: View, ss: seq<Range>, data: seq<byte>, order: seq<nat>)
    requires |data| == Total(ss) && Indices(order, |ss|)
    ensures Confined(v, Moved(v, ss, data, order, |order|), Addrs(ss))
  {
    forall x: nat | x !in Addrs(ss) ensures Moved(v, ss, data, order, |order|).Byte(x) == v.Byte(x) {
      forall k | 0 <= k < |ss| ensures !ss[k].Has(x) {
        if ss[k].Has(x) {
          SegmentAddrs(ss, k, x);
        }
      }
      MovedElsewhere(v, ss, data, order, |order|, x);
    }
  }

  lemma StoreConfined(v: View, at: seq<nat>, data: seq<byte>)
    requires |at| == |data|
    ensures Confined(v, Store(v, at, data), at)
  {
    forall x: nat | x !in at ensures Store(v, at, data).Byte(x) == v.Byte(x) {
      StoreElsewhere(v, at, data, x);
    }
  }

  // ---------------------------------------------------------------------------
  // The transfer

  method Move(to: GuestRam, ss: seq<Range>, data: seq<byte>, order: seq<nat>)
    requires |data| == Total(ss) && Indices(order, |ss|)
    modifies to
    ensures to.view == Moved(old(to.view), ss, data, order, |order|)
  {
    var t := 0;
    while t < |order|
      invariant t <= |order| && to.view == Moved(old(to.view), ss, data, order, t)
    {
      to.view := to.view.Write(ss[order[t]].start, Chunk(ss, data, order[t]));
      t := t + 1;
    }
  }

  /** The request length, unless it overflows. */
  method Length(data: seq<Range>) returns (r: Option<nat>)
    ensures r == if Total(data) < ADDRESS_LIMIT then Some(Total(data)) else None
  {
    var n, i := 0, 0;
    assert data[0..] == data;
    while i < |data|
      invariant i <= |data| && n < ADDRESS_LIMIT && Total(data) == n + Total(data[i..])
    {
      assert data[i..][1..] == data[i + 1..];
      n := n + data[i].len;
      if n >= ADDRESS_LIMIT {
        return None;
      }
      i := i + 1;
    }
    return Some(n);
  }

  /** The nonempty segments. */
  function NonEmpty(data: seq<Range>): (ss: seq<Range>)
    ensures Addrs(ss) == Addrs(data)
  {
    if data == [] then []
    else if data[0].len == 0 then NonEmpty(data[1..])
    else
      AddrsPush(data[0], NonEmpty(data[1..]));
      [data[0]] + NonEmpty(data[1..])
  }

  class Disk {
    /** The disk bytes by offset; what was never written reads as zero. */
    const image: GuestRam
    const size: nat
    /** The host's limit on segments of one vectored operation. */
    const limit: nat
    /** In which order the n-th operation moves its segments, and whether it works. */
    const order: (nat, nat) -> seq<nat>
    const works: nat -> bool
    var operations: nat

    constructor (image: GuestRam, size: nat, limit: nat, order: (nat, nat) -> seq<nat>, works: nat -> bool)
      ensures this.image == image && this.size == size && this.limit == limit
      ensures this.order == order && this.works == works && operations == 0
    {
      this.image, this.size, this.limit, this.order, this.works, operations := image, size, limit, order, works, 0;
    }

    /** Working operations move every segment; failed ones may have moved some. */
    ghost predicate Valid() {
      && 0 < limit
      && forall n, k {:trigger order(n, k)} :: Indices(order(n, k), k) && (works(n) ==> Complete(order(n, k), k))
    }

    /** One vectored read into separated segments. */
    method ReadBatch(batch: seq<Range>, offset: nat, ram: GuestRam) returns (ok: bool)
      requires Valid() && Separated(batch) && ram != image
      modifies this`operations, ram
      ensures ok == works(old(operations)) && operations == old(operations) + 1
      ensures ok ==> ram.view == Store(old(ram.view), Addrs(batch), Load(image.view, Count(offset, Total(batch))))
      ensures Confined(old(ram.view), ram.view, Addrs(batch))
    {
      var data := Load(image.view, Count(offset, Total(batch)));
      var moves := order(operations, |batch|);
      ok := works(operations);
      operations := operations + 1;
      MovedConfined(ram.view, batch, data, moves);
      if ok {
        AnyOrder(ram.view, batch, data, moves);
      }
      Move(ram, batch, data, moves);
    }

    /** One vectored write; the segments may overlap in guest memory. */
    method WriteBatch(batch: seq<Range>, offset: nat, ram: GuestRam) returns (ok: bool)
      requires Valid() && ram != image
      modifies this`operations, image
      ensures ok == works(old(operations)) && operations == old(operations) + 1
      ensures ok ==> image.view == Store(old(image.view), Count(offset, Total(batch)), Load(ram.view, Addrs(batch)))
      ensures Confined(old(image.view), image.view, Count(offset, Total(batch)))
    {
      var data := Load(ram.view, Addrs(batch));
      var extents := Extents(batch, offset);
      var moves := order(operations, |batch|);
      ok := works(operations);
      operations := operations + 1;
      ExtentsAddrs(batch, offset);
      MovedConfined(image.view, extents, data, moves);
      if ok {
        ExtentsSeparated(batch, offset);
        AnyOrder(image.view, extents, data, moves);
      }
      Move(image, extents, data, moves);
    }

    /** The next operation's segments: at least one, at most the limit, and for a read
        none that meets another. It ends early only for one of those reasons. */
    method Collect(ss: seq<Range>, i: nat, write: bool) returns (j: nat)
      requires Valid() && i < |ss|
      ensures i < j <= |ss| && j - i <= limit
      ensures !write ==> Separated(ss[i..j])
      ensures j == |ss| || j - i == limit || (!write && exists k :: i <= k < j && ss[k].Meets(ss[j]))
    {
      j := i;
      while j < |ss| && j - i < limit
        invariant i <= j <= |ss| && j - i <= limit
        invariant !write ==> forall a, b :: i <= a < b < j ==> !ss[a].Meets(ss[b])
      {
        var clash, k := false, i;
        while k < j
          invariant i <= k <= j
          invariant !clash ==> forall a :: i <= a < k ==> !ss[a].Meets(ss[j])
          invariant clash ==> exists a :: i <= a < j && ss[a].Meets(ss[j])
        {
          if ss[k].Meets(ss[j]) {
            clash := true;
          }
          k := k + 1;
        }
        if !write && clash {
          break;
        }
        j := j + 1;
      }
      SeparatedPairs(ss[i..j]);
      if !write {
        assert forall a, b :: 0 <= a < b < j - i ==> !ss[i..j][a].Meets(ss[i..j][b]);
      }
    }

    /** Transfer between disk and guest. Out of bounds, nothing moves. Whatever order
        the operations move their segments in, a read leaves what reading the segments
        one by one in order would, overlapping destinations included, and a write stores
        their concatenation. A failed operation has touched nothing outside the request. */
    method Transfer(offset: nat, data: seq<Range>, write: bool, ram: GuestRam) returns (r: Result<Unit, StorageError>)
      requires Valid() && ram != image
      modifies this`operations, ram, image
      ensures r.Ok? <==> && offset + Total(data) < ADDRESS_LIMIT && offset + Total(data) <= size
                         && forall n :: old(operations) <= n < operations ==> works(n)
      ensures r.Ok? ==> ram.view == if write then old(ram.view)
                                    else Store(old(ram.view), Addrs(data), Load(old(image.view), Count(offset, Total(data))))
      ensures r.Ok? ==> image.view == if write then Store(old(image.view), Count(offset, Total(data)),
                                                          Load(old(ram.view), Addrs(data)))
                                      else old(image.view)
      ensures r.Err? && r.error != Operation ==> ram.view == old(ram.view) && image.view == old(image.view)
      ensures write ==> ram.view == old(ram.view)
      ensures !write ==> image.view == old(image.view)
      ensures Confined(old(ram.view), ram.view, Addrs(data))
      ensures Confined(old(image.view), image.view, Count(offset, Total(data)))
    {
      var len := Length(data);
      if len.None? {
        return Err(LengthOverflow);
      }
      if offset + len.value >= ADDRESS_LIMIT || offset + len.value > size {
        return Err(OutOfBounds);
      }
      var ss := NonEmpty(data);
      assert ss[..|ss|] == ss && |Addrs(ss)| == Total(data);
      r := Run(offset, ss, write, ram);
    }

    /** The batches of a checked request. */
    method Run(offset: nat, ss: seq<Range>, write: bool, ram: GuestRam) returns (r: Result<Unit, StorageError>)
      requires Valid() && ram != image
      modifies this`operations, ram, image
      ensures r.Err? ==> r.error == Operation
      ensures r.Ok? <==> forall n :: old(operations) <= n < operations ==> works(n)
      ensures r.Ok? ==> Done(offset, ss, |ss|, write, old(ram.view), ram.view, old(image.view), image.view)
      ensures write ==> ram.view == old(ram.view)
      ensures !write ==> image.view == old(image.view)
      ensures Confined(old(ram.view), ram.view, Addrs(ss))
      ensures Confined(old(image.view), image.view, Count(offset, Total(ss)))
    {
      var i, position := 0, offset;
      ghost var v, disk := ram.view, image.view;
      while i < |ss|
        invariant i <= |ss| && position == offset + Total(ss[..i])
        invariant Done(offset, ss, i, write, v, ram.view, disk, image.view)
        invariant forall n :: old(operations) <= n < operations ==> works(n)
        invariant old(operations) <= operations
      {
        var j := Collect(ss, i, write);
        var ok := RunBatch(offset, ss, i, j, position, write, ram, v, disk);
        if !ok {
          return Err(Operation);
        }
        PartsFit(ss, i, j);
        position := position + Total(ss[i..j]);
        i := j;
      }
      DoneConfined(offset, ss, write, v, ram.view, disk, image.view);
      return Ok(Unit);
    }

    /** One batch of a request that is done up to segment i. */
    method RunBatch(ghost offset: nat, ss: seq<Range>, i: nat, j: nat, position: nat, write: bool, ram: GuestRam,
                    ghost v: View, ghost disk: View)
      returns (ok: bool)
      requires Valid() && ram != image && i <= j <= |ss| && (!write ==> Separated(ss[i..j]))
      requires position == offset + Total(ss[..i]) && Done(offset, ss, i, write, v, ram.view, disk, image.view)
      modifies this`operations, ram, image
      ensures ok == works(old(operations)) && operations == old(operations) + 1
      ensures write ==> ram.view == old(ram.view)
      ensures !write ==> image.view == old(image.view)
      ensures ok ==> Done(offset, ss, j, write, v, ram.view, disk, image.view)
      ensures !ok ==> Confined(v, ram.view, Addrs(ss)) && Confined(disk, image.view, Count(offset, Total(ss)))
    {
      ghost var w, image' := ram.view, image.view;
      if write {
        ok := WriteBatch(ss[i..j], position, ram);
      } else {
        ok := ReadBatch(ss[i..j], position, ram);
      }
      if ok {
        DoneMore(offset, ss, i, j, write, v, w, ram.view, disk, image', image.view);
      } else {
        FailedConfined(offset, ss, i, j, write, v, w, ram.view, disk, image', image.view);
      }
    }
  }

  /** The first n segments have been transferred. */
  ghost predicate Done(offset: nat, ss: seq<Range>, n: nat, write: bool, v: View, w: View, disk: View, disk': View)
    requires n <= |ss|
  {
    var part := ss[..n];
    if write then w == v && disk' == Store(disk, Count(offset, Total(part)), Load(v, Addrs(part)))
    else disk' == disk && w == Store(v, Addrs(part), Load(disk, Count(offset, Total(part))))
  }

  lemma CountSplit(a: nat, m: nat, n: nat)
    ensures Count(a, m + n) == Count(a, m) + Count(a + m, n)
  {
  }

  lemma LoadSplit(v: View, at: seq<nat>, more: seq<nat>)
    ensures Load(v, at + more) == Load(v, at) + Load(v, more)
  {
  }

  lemma DoneMore(offset: nat, ss: seq<Range>, i: nat, j: nat, write: bool,
                 v: View, w: View, w': View, disk: View, disk': View, disk'': View)
    requires i <= j <= |ss| && Done(offset, ss, i, write, v, w, disk, disk')
    requires var batch, position := ss[i..j], offset + Total(ss[..i]);
             if write then w' == w && disk'' == Store(disk', Count(position, Total(batch)), Load(w, Addrs(batch)))
             else disk'' == disk' && w' == Store(w, Addrs(batch), Load(disk', Count(position, Total(batch))))
    ensures Done(offset, ss, j, write, v, w', disk, disk'')
  {
    var done, batch := ss[..i], ss[i..j];
    assert ss[..j] == done + batch;
    var from, to := Count(offset, Total(done)), Count(offset + Total(done), Total(batch));
    AppendParts(done, batch, offset);
    if write {
      StoreMore(disk, from, to, v, Addrs(done), Addrs(batch));
    } else {
      StoreMore(v, Addrs(done), Addrs(batch), disk, from, to);
    }
  }

  lemma AppendParts(done: seq<Range>, batch: seq<Range>, offset: nat)
    ensures Addrs(done + batch) == Addrs(done) + Addrs(batch)
    ensures Count(offset, Total(done + batch)) == Count(offset, Total(done)) + Count(offset + Total(done), Total(batch))
  {
    AddrsAppend(done, batch);
    CountSplit(offset, Total(done), Total(batch));
  }

  /** Copying one address list to another, in two parts. */
  lemma StoreMore(v: View, to: seq<nat>, to': seq<nat>, u: View, from: seq<nat>, from': seq<nat>)
    requires |to| == |from| && |to'| == |from'|
    ensures Store(Store(v, to, Load(u, from)), to', Load(u, from')) == Store(v, to + to', Load(u, from + from'))
  {
    LoadSplit(u, from, from');
    StoreAppend(v, to, to', Load(u, from), Load(u, from'));
  }

  lemma DoneConfined(offset: nat, ss: seq<Range>, write: bool, v: View, w: View, disk: View, disk': View)
    requires Done(offset, ss, |ss|, write, v, w, disk, disk')
    ensures Confined(v, w, Addrs(ss)) && Confined(disk, disk', Count(offset, Total(ss)))
  {
    assert ss[..|ss|] == ss;
    StoreConfined(v, Addrs(ss), Load(disk, Count(offset, Total(ss))));
    StoreConfined(disk, Count(offset, Total(ss)), Load(v, Addrs(ss)));
  }

  lemma FailedConfined(offset: nat, ss: seq<Range>, i: nat, j: nat, write: bool,
                       v: View, w: View, w': View, disk: View, disk': View, disk'': View)
    requires i <= j <= |ss| && Done(offset, ss, i, write, v, w, disk, disk')
    requires if write then w' == w && Confined(disk', disk'', Count(offset + Total(ss[..i]), Total(ss[i..j])))
             else disk'' == disk' && Confined(w, w', Addrs(ss[i..j]))
    ensures Confined(v, w', Addrs(ss)) && Confined(disk, disk'', Count(offset, Total(ss)))
  {
    if write {
      FailedWriteConfined(offset, ss, i, j, disk, disk', disk'', Load(v, Addrs(ss[..i])));
    } else {
      FailedReadConfined(ss, i, j, v, w, w', Load(disk, Count(offset, Total(ss[..i]))));
    }
  }

  lemma FailedReadConfined(ss: seq<Range>, i: nat, j: nat, v: View, w: View, w': View, data: seq<byte>)
    requires i <= j <= |ss| && |data| == Total(ss[..i])
    requires w == Store(v, Addrs(ss[..i]), data) && Confined(w, w', Addrs(ss[i..j]))
    ensures Confined(v, w', Addrs(ss))
  {
    StoreConfined(v, Addrs(ss[..i]), data);
    assert ss[..i] == ss[0..i];
    forall x: nat ensures (x in Addrs(ss[..i]) ==> x in Addrs(ss)) && (x in Addrs(ss[i..j]) ==> x in Addrs(ss)) {
      AddrsOfPart(ss, 0, i, x);
      AddrsOfPart(ss, i, j, x);
    }
    ConfinedTwice(v, w, w', Addrs(ss[..i]), Addrs(ss[i..j]), Addrs(ss));
  }

  lemma FailedWriteConfined(offset: nat, ss: seq<Range>, i: nat, j: nat, disk: View, disk': View, disk'': View,
                            data: seq<byte>)
    requires i <= j <= |ss| && |data| == Total(ss[..i])
    requires disk' == Store(disk, Count(offset, Total(ss[..i])), data)
    requires Confined(disk', disk'', Count(offset + Total(ss[..i]), Total(ss[i..j])))
    ensures Confined(disk, disk'', Count(offset, Total(ss)))
  {
    var m, n := Total(ss[..i]), Total(ss[i..j]);
    PartsFit(ss, i, j);
    StoreConfined(disk, Count(offset, m), data);
    CountWithin(offset, offset, m, Total(ss));
    CountWithin(offset, offset + m, n, Total(ss));
    ConfinedTwice(disk, disk', disk'', Count(offset, m), Count(offset + m, n), Count(offset, Total(ss)));
  }

  lemma SegmentAddrs(ss: seq<Range>, k: nat, x: nat)
    requires k < |ss| && ss[k].Has(x)
    ensures x in Addrs(ss)
  {
    var o: nat := x - ss[k].start;
    var p: nat := Start(ss, k) + o;
    AddrsAt(ss, k, o);
    assert Addrs(ss)[p] == x;
  }

  ghost predicate InSegments(ss: seq<Range>, x: nat) {
    exists k :: 0 <= k < |ss| && ss[k].Has(x)
  }

  lemma AddrsAreSegments(ss: seq<Range>, x: nat)
    ensures x in Addrs(ss) <==> InSegments(ss, x)
  {
    if x in Addrs(ss) {
      var p :| 0 <= p < |Addrs(ss)| && Addrs(ss)[p] == x;
      AddrsWithin(ss, p);
    }
    if InSegments(ss, x) {
      var k :| 0 <= k < |ss| && ss[k].Has(x);
      SegmentAddrs(ss, k, x);
    }
  }

  lemma SegmentsOfPart(ss: seq<Range>, i: nat, j: nat, x: nat)
    requires i <= j <= |ss| && InSegments(ss[i..j], x)
    ensures InSegments(ss, x)
  {
    var k :| 0 <= k < |ss[i..j]| && ss[i..j][k].Has(x);
    assert ss[i + k] == ss[i..j][k];
  }

  lemma AddrsOfPart(ss: seq<Range>, i: nat, j: nat, x: nat)
    requires i <= j <= |ss|
    ensures x in Addrs(ss[i..j]) ==> x in Addrs(ss)
  {
    AddrsAreSegments(ss[i..j], x);
    AddrsAreSegments(ss, x);
    if InSegments(ss[i..j], x) {
      SegmentsOfPart(ss, i, j, x);
    }
  }

  lemma PartsFit(ss: seq<Range>, i: nat, j: nat)
    requires i <= j <= |ss|
    ensures Total(ss[..i]) + Total(ss[i..j]) == Total(ss[..j]) <= Total(ss)
  {
    assert ss[..j] == ss[..i] + ss[i..j] && ss == ss[..j] + ss[j..];
    AddrsAppend(ss[..i], ss[i..j]);
    AddrsAppend(ss[..j], ss[j..]);
  }

  lemma CountWithin(a: nat, b: nat, n: nat, total: nat)
    requires a <= b && b + n <= a + total
    ensures forall x :: x in Count(b, n) ==> x in Count(a, total)
  {
    forall x | x in Count(b, n) ensures x in Count(a, total) {
      assert Count(a, total)[x - a] == x;
    }
  }

  lemma ConfinedTwice(v: View, w: View, u: View, a: seq<nat>, b: seq<nat>, c: seq<nat>)
    requires Confined(v, w, a) && Confined(w, u, b)
    requires forall x :: (x in a ==> x in c) && (x in b ==> x in c)
    ensures Confined(v, u, c)
  {
    forall x: nat | x !in c ensures u.Byte(x) == v.Byte(x) {
      assert w.Byte(x) == v.Byte(x);
    }
  }
}
