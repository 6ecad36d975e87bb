/** Split virtqueues: bounded walking of guest-controlled descriptor links, the
    pin scan over pending chains, and used-ring completion. */
module Virtqueue {
  import opened Wrappers
  import opened Errors
  import opened GuestMemory
  import opened Finite

  const MAX_QUEUE: nat := 128

  /** The 16-bit successor, which wraps. */
  function Next16(x: nat): (y: nat)
    ensures x < U16_LIMIT ==> y < U16_LIMIT
  {
    if x + 1 == U16_LIMIT then 0 else x + 1
  }

  /** The ring position k entries on, with wrap-around. */
  ghost function Ahead(n: nat, k: nat): nat {
    if k == 0 then n else Next16(Ahead(n, k - 1))
  }

  lemma {:induction false} AheadIsModular(n: nat, k: nat)
    requires n < U16_LIMIT
    ensures Ahead(n, k) == (n + k) % U16_LIMIT
  {
    if k != 0 {
      AheadIsModular(n, k - 1);
    }
  }

  datatype Descriptor = Descriptor(addr: nat, len: nat, flags: nat, next: nat) {
    predicate HasNext() {
      flags % 2 == 1
    }

    predicate WriteOnly() {
      flags / 2 % 2 == 1
    }

    predicate Indirect() {
      flags / 4 % 2 == 1
    }

    /** Only NEXT and WRITE are negotiated, and the buffer is guest memory. */
    predicate Legal(v: View) {
      flags < 4 && v.InView(addr, len)
    }

    function Buffer(): Range {
      Range(addr, len)
    }
  }

  /** The virtio-queue library's ring state. */
  datatype Queue = Queue(size: nat, ready: bool, desc: nat, avail: nat, used: nat,
                         nextAvail: nat, nextUsed: nat) {

    predicate WellFormed() {
      && size in {1, 2, 4, 8, 16, 32, 64, 128}
      && nextAvail < U16_LIMIT
      && nextUsed < U16_LIMIT
    }

    predicate IsValid(v: View) {
      && ready
      && v.InView(desc, 16 * size)
      && v.InView(avail, 6 + 2 * size)
      && v.InView(used, 6 + 8 * size)
    }

    /** Entries published by the driver and not yet taken, modulo 2^16. */
    function Pending(v: View): (n: nat)
      requires WellFormed()
      ensures n < U16_LIMIT
    {
      var published := v.U16(avail + 2);
      if published >= nextAvail then published - nextAvail else published + U16_LIMIT - nextAvail
    }

    function Slot(i: nat): (slot: nat)
      requires WellFormed()
      ensures slot < size
    {
      (nextAvail + i) % U16_LIMIT % size
    }

    function Head(v: View, i: nat): nat
      requires WellFormed()
    {
      v.U16(avail + 4 + 2 * Slot(i))
    }

    function Advanced(): (q: Queue)
      ensures WellFormed() ==> q.WellFormed()
    {
      this.(nextAvail := Next16(nextAvail))
    }

    function DescriptorAt(v: View, index: nat): Descriptor {
      var a := desc + 16 * index;
      Descriptor(v.Word(a, 8), v.Word(a + 8, 4), v.U16(a + 12), v.U16(a + 14))
    }

    function RingPins(): seq<Range> {
      [Range(desc, 16 * size), Range(avail, 6 + 2 * size), Range(used, 6 + 8 * size)]
    }
  }

  /** Taking and completing chains moves ring positions only. */
  ghost predicate SameSetup(q: Queue, r: Queue) {
    r == q.(nextAvail := r.nextAvail, nextUsed := r.nextUsed) && (q.WellFormed() ==> r.WellFormed())
  }

  ghost predicate OnlyMoved(before: seq<Queue>, after: seq<Queue>) {
    |after| == |before| && forall i :: 0 <= i < |before| ==> SameSetup(before[i], after[i])
  }

  // ---------------------------------------------------------------------------
  // Walking a chain

  /** `path` follows the links from `head` to a descriptor without a successor,
      through in-range indices and legal descriptors. */
  ghost predicate IsPath(v: View, q: Queue, head: nat, path: seq<nat>)
    decreases |path|
  {
    && path != []
    && path[0] == head < q.size
    && q.DescriptorAt(v, head).Legal(v)
    && if q.DescriptorAt(v, head).HasNext()
       then IsPath(v, q, q.DescriptorAt(v, head).next, path[1..])
       else |path| == 1
  }

  /** The links from `head` come to an end. */
  ghost predicate Ends(v: View, q: Queue, head: nat) {
    exists path :: IsPath(v, q, head, path)
  }

  /** Walk at most `fuel` descriptors. */
  function Follow(v: View, q: Queue, index: nat, fuel: nat): Option<seq<nat>>
    decreases fuel
  {
    if fuel == 0 || index >= q.size || !q.DescriptorAt(v, index).Legal(v) then None
    else if !q.DescriptorAt(v, index).HasNext() then Some([index])
    else Prepend([index], Follow(v, q, q.DescriptorAt(v, index).next, fuel - 1))
  }

  function Prepend<T>(xs: seq<T>, rest: Option<seq<T>>): Option<seq<T>> {
    if rest.None? then None else Some(xs + rest.value)
  }

  lemma PrependAssoc<T>(xs: seq<T>, ys: seq<T>, rest: Option<seq<T>>)
    ensures Prepend(xs, Prepend(ys, rest)) == Prepend(xs + ys, rest)
  {
    if rest.Some? {
      assert xs + (ys + rest.value) == xs + ys + rest.value;
    }
  }

  lemma PrependNothing<T>(rest: Option<seq<T>>)
    ensures Prepend([], rest) == rest
  {
    if rest.Some? {
      assert [] + rest.value == rest.value;
    }
  }

  lemma {:induction false} FollowSound(v: View, q: Queue, index: nat, fuel: nat)
    requires Follow(v, q, index, fuel).Some?
    ensures IsPath(v, q, index, Follow(v, q, index, fuel).value)
    ensures |Follow(v, q, index, fuel).value| <= fuel
    decreases fuel
  {
    var d := q.DescriptorAt(v, index);
    if d.HasNext() {
      FollowSound(v, q, d.next, fuel - 1);
      var rest := Follow(v, q, d.next, fuel - 1).value;
      assert ([index] + rest)[1..] == rest;
    }
  }

  lemma {:induction false} FollowComplete(v: View, q: Queue, index: nat, fuel: nat, path: seq<nat>)
    requires IsPath(v, q, index, path) && |path| <= fuel
    ensures Follow(v, q, index, fuel) == Some(path)
    decreases fuel
  {
    var d := q.DescriptorAt(v, index);
    if d.HasNext() {
      FollowComplete(v, q, d.next, fuel - 1, path[1..]);
      assert path == [index] + path[1..];
    } else {
      assert path == [index];
    }
  }

  /** Links are a function of the index, so a path is determined by its head. */
  lemma {:induction false} PathUnique(v: View, q: Queue, head: nat, a: seq<nat>, b: seq<nat>)
    requires IsPath(v, q, head, a) && IsPath(v, q, head, b)
    ensures a == b
    decreases |a|
  {
    var d := q.DescriptorAt(v, head);
    if d.HasNext() {
      PathUnique(v, q, d.next, a[1..], b[1..]);
      assert a == [head] + a[1..] && b == [head] + b[1..];
    }
  }

  lemma {:induction false} PathSuffix(v: View, q: Queue, head: nat, path: seq<nat>, i: nat)
    requires IsPath(v, q, head, path) && i < |path|
    ensures IsPath(v, q, path[i], path[i..])
    ensures path[i] < q.size && q.DescriptorAt(v, path[i]).Legal(v)
    decreases |path|
  {
    if i == 0 {
      assert path[0..] == path;
    } else {
      PathSuffix(v, q, q.DescriptorAt(v, head).next, path[1..], i - 1);
      assert path[1..][i - 1..] == path[i..];
    }
  }

  /** A path that reaches an end revisits nothing: a revisit would have two
      different lengths of tail left. */
  lemma PathDistinct(v: View, q: Queue, head: nat, path: seq<nat>)
    requires IsPath(v, q, head, path)
    ensures Distinct(path)
  {
    forall i, j ensures Differ(path, i, j) {
      if 0 <= i < j < |path| {
        PathSuffix(v, q, head, path, i);
        PathSuffix(v, q, head, path, j);
        assert |path[i..]| != |path[j..]|;
        if path[i] == path[j] {
          PathUnique(v, q, path[i], path[i..], path[j..]);
        }
      }
    }
  }

  /** A chain cannot repeat one of `size` indices, so none is too long to walk. */
  lemma PathFound(v: View, q: Queue, head: nat, path: seq<nat>)
    requires IsPath(v, q, head, path)
    ensures Follow(v, q, head, q.size) == Some(path)
    ensures Distinct(path) && |path| <= q.size
  {
    PathDistinct(v, q, head, path);
    forall i | 0 <= i < |path| ensures path[i] < q.size {
      PathSuffix(v, q, head, path, i);
    }
    Pigeonhole(path, q.size);
    FollowComplete(v, q, head, q.size, path);
  }

  /** The bounded walk accepts exactly the heads whose links reach an end, and
      returns that path without repetition. */
  lemma ChainWalkExact(v: View, q: Queue, head: nat)
    ensures Follow(v, q, head, q.size).Some? <==> Ends(v, q, head)
    ensures Follow(v, q, head, q.size).Some? ==>
              var path := Follow(v, q, head, q.size).value;
              IsPath(v, q, head, path) && Distinct(path) && |path| <= q.size
  {
    if Follow(v, q, head, q.size).Some? {
      FollowSound(v, q, head, q.size);
      PathDistinct(v, q, head, Follow(v, q, head, q.size).value);
    }
    if Ends(v, q, head) {
      var path :| IsPath(v, q, head, path);
      PathFound(v, q, head, path);
    }
  }

  // ---------------------------------------------------------------------------
  // Taking chains

  datatype Chain = Chain(head: nat, descriptors: seq<Descriptor>)

  function Descriptors(v: View, q: Queue, path: seq<nat>): (ds: seq<Descriptor>)
    ensures |ds| == |path|
    ensures forall i :: 0 <= i < |path| ==> ds[i] == q.DescriptorAt(v, path[i])
  {
    seq(|path|, i requires 0 <= i < |path| => q.DescriptorAt(v, path[i]))
  }

  /** The chain that starts at `head`, if its links end. */
  function ChainFrom(v: View, q: Queue, head: nat): Option<Chain> {
    match Follow(v, q, head, q.size)
    case None => None
    case Some(path) => Some(Chain(head, Descriptors(v, q, path)))
  }

  /** The chain published in the i-th pending slot. */
  function ChainAt(v: View, q: Queue, i: nat): Option<Chain>
    requires q.WellFormed()
  {
    ChainFrom(v, q, q.Head(v, i))
  }

  predicate Usable(v: View, q: Queue)
    requires q.WellFormed()
  {
    q.IsValid(v) && q.Pending(v) <= q.size
  }

  /** Nothing is pending: the queue is off, or all published entries were taken. */
  ghost predicate Exhausted(v: View, q: Queue)
    requires q.WellFormed()
  {
    !q.ready || (Usable(v, q) && q.Pending(v) == 0)
  }

  /** Take every pending chain in turn; None if any take fails. */
  function PopAll(v: View, q: Queue): Option<seq<Chain>>
    requires q.WellFormed()
    decreases q.Pending(v)
  {
    if !Usable(v, q) then None
    else if q.Pending(v) == 0 then Some([])
    else if ChainAt(v, q, 0).None? then None
    else Prepend([ChainAt(v, q, 0).value], PopAll(v, q.Advanced()))
  }

  // ---------------------------------------------------------------------------
  // The pin scan

  /** The nonempty buffers of a chain. */
  function BufferPins(ds: seq<Descriptor>): seq<Range> {
    if ds == [] then []
    else (if ds[0].len != 0 then [ds[0].Buffer()] else []) + BufferPins(ds[1..])
  }

  /** Pins of the pending entries i..n. */
  function PendingPins(v: View, q: Queue, i: nat, n: nat): Option<seq<Range>>
    requires q.WellFormed() && i <= n
    decreases n - i
  {
    if i == n then Some([])
    else if ChainAt(v, q, i).None? then None
    else Prepend(BufferPins(ChainAt(v, q, i).value.descriptors), PendingPins(v, q, i + 1, n))
  }

  function QueuePins(v: View, q: Queue): Option<seq<Range>>
    requires q.WellFormed()
  {
    if !q.ready then Some([])
    else if !Usable(v, q) then None
    else Prepend(q.RingPins(), PendingPins(v, q, 0, q.Pending(v)))
  }

  predicate RingsOk(rings: seq<Queue>) {
    forall i :: 0 <= i < |rings| ==> rings[i].WellFormed()
  }

  function AllPins(v: View, rings: seq<Queue>): Option<seq<Range>>
    requires RingsOk(rings)
  {
    if rings == [] then Some([])
    else if QueuePins(v, rings[0]).None? then None
    else Prepend(QueuePins(v, rings[0]).value, AllPins(v, rings[1..]))
  }

  /** The used element for `head`, then the new used index, modulo 2^16. */
  function WithUsed(v: View, q: Queue, head: nat, len: nat): (w: View)
    requires q.WellFormed() && head < q.size && len < U32_LIMIT
    ensures w.regions == v.regions
    ensures forall a: nat {:trigger w.Byte(a)} ::
              !Range(q.used, 6 + 8 * q.size).Has(a) ==> w.Byte(a) == v.Byte(a)
  {
    v.Write(q.used + 4 + 8 * (q.nextUsed % q.size), Le32(head) + Le32(len))
     .Write(q.used + 2, Le16(Next16(q.nextUsed)))
  }

  class Queues {
    var rings: seq<Queue>
    var negotiated: set<nat>
    var interrupt: set<nat>

    ghost predicate Valid()
      reads this
    {
      RingsOk(rings)
    }

    constructor (count: nat)
      ensures Valid() && |rings| == count && negotiated == {} && interrupt == {}
      ensures forall i :: 0 <= i < count ==> !rings[i].ready
    {
      rings := seq(count, _ => Queue(MAX_QUEUE, false, 0, 0, 0, 0, 0));
      negotiated := {};
      interrupt := {};
    }

    /** A disabled queue has nothing available. */
    method Available(index: nat, v: View) returns (r: Result<nat, DeviceError>)
      requires Valid() && index < |rings|
      ensures r.Ok? <==> !rings[index].ready || Usable(v, rings[index])
      ensures r.Ok? ==> r.value == if rings[index].ready then rings[index].Pending(v) else 0
      ensures r.Err? ==> r.error.IsGuest()
    {
      var q := rings[index];
      if !q.ready {
        return Ok(0);
      }
      if !q.IsValid(v) {
        return Err(InvalidVirtqueue);
      }
      var count := q.Pending(v);
      if count > q.size {
        return Err(AvailableRingOverrun(count));
      }
      return Ok(count);
    }

    /** Take the next chain. The entry is consumed before its links are walked,
        so a failed walk has still consumed it; a chain is returned exactly when
        the links from its head come to an end. */
    method Pop(index: nat, v: View) returns (r: Result<Option<Chain>, DeviceError>)
      requires Valid() && index < |rings|
      modifies this`rings
      ensures Valid()
      ensures r.Err? ==> r.error.IsGuest()
      ensures var q := old(rings[index]);
              if !q.ready || (Usable(v, q) && q.Pending(v) == 0) then
                r == Ok(None) && rings == old(rings)
              else if !Usable(v, q) then
                r.Err? && rings == old(rings)
              else
                && rings == old(rings)[index := q.Advanced()]
                && (r.Ok? <==> Ends(v, q, q.Head(v, 0)))
                && (r.Ok? ==> ChainAt(v, q, 0).Some? && r.value == ChainAt(v, q, 0))
    {
      var count := Available(index, v);
      if count.Err? {
        return Err(count.error);
      }
      if count.value == 0 {
        return Ok(None);
      }
      var q := rings[index];
      var head := q.Head(v, 0);
      rings := rings[index := q.Advanced()];
      ChainWalkExact(v, q, head);
      var walked := Walk(v, q, head);
      return if walked.Err? then Err(walked.error) else Ok(Some(walked.value));
    }

    /** Walk raw links, validating every descriptor, for at most `size` steps. */
    static method Walk(v: View, q: Queue, head: nat) returns (r: Result<Chain, DeviceError>)
      ensures r.Ok? <==> Follow(v, q, head, q.size).Some?
      ensures r.Ok? ==> r.value == Chain(head, Descriptors(v, q, Follow(v, q, head, q.size).value))
      ensures r.Err? ==> r.error.IsGuest()
    {
      var at: nat, n: nat, descriptors := head, 0, [];
      ghost var path: seq<nat> := [];
      PrependNothing(Follow(v, q, head, q.size));
      while n < q.size
        invariant n <= q.size
        invariant Follow(v, q, head, q.size) == Prepend(path, Follow(v, q, at, q.size - n))
        invariant descriptors == Descriptors(v, q, path)
      {
        if at >= q.size {
          return Err(DescriptorIndexOutOfRange(at));
        }
        var d := q.DescriptorAt(v, at);
        if d.Indirect() {
          return Err(UnnegotiatedIndirectDescriptor);
        }
        if !d.Legal(v) {
          return Err(InvalidDescriptorFlagsRange);
        }
        descriptors := descriptors + [d];
        assert descriptors == Descriptors(v, q, path + [at]);
        if !d.HasNext() {
          return Ok(Chain(head, descriptors));
        }
        PrependAssoc(path, [at], Follow(v, q, d.next, q.size - n - 1));
        path, at, n := path + [at], d.next, n + 1;
      }
      return Err(CyclicDescriptorChain);
    }

    /** Publish a used element and raise the queue interrupt. */
    method Complete(index: nat, ram: GuestRam, head: nat, len: nat) returns (r: Result<Unit, DeviceError>)
      requires Valid() && index < |rings| && len < U32_LIMIT
      modifies this`rings, this`interrupt, ram
      ensures Valid()
      ensures var q := old(rings[index]);
              r.Ok? <==> head < q.size && old(ram.view).InView(q.used, 6 + 8 * q.size)
      ensures r.Err? ==> r.error.IsGuest()
      ensures r.Err? ==> rings == old(rings) && ram.view == old(ram.view) && interrupt == old(interrupt)
      ensures r.Ok? ==> var q := old(rings[index]);
                        && rings == old(rings)[index := q.(nextUsed := Next16(q.nextUsed))]
                        && ram.view == WithUsed(old(ram.view), q, head, len)
                        && interrupt == old(interrupt) + {0}
    {
      var q := rings[index];
      if head >= q.size {
        return Err(QueueError);
      }
      if !ram.view.InView(q.used, 6 + 8 * q.size) {
        return Err(GuestAccess);
      }
      ram.view := WithUsed(ram.view, q, head, len);
      rings := rings[index := q.(nextUsed := Next16(q.nextUsed))];
      interrupt := interrupt + {0};
      return Ok(Unit);
    }

    /** Every range that pending work of ready queues still needs. */
    method Pinned(v: View) returns (r: Result<seq<Range>, DeviceError>)
      requires Valid()
      ensures r.Ok? <==> AllPins(v, rings).Some?
      ensures r.Ok? ==> Some(r.value) == AllPins(v, rings)
      ensures r.Err? ==> r.error.IsGuest()
    {
      var pins, k := [], 0;
      assert rings[0..] == rings;
      PrependNothing(AllPins(v, rings));
      while k < |rings|
        invariant k <= |rings|
        invariant AllPins(v, rings) == Prepend(pins, AllPins(v, rings[k..]))
      {
        var q := rings[k];
        assert rings[k..][0] == q && rings[k..][1..] == rings[k + 1..];
        if q.ready {
          var more := PinQueue(v, q);
          if more.Err? {
            return Err(more.error);
          }
          PrependAssoc(pins, more.value, AllPins(v, rings[k + 1..]));
          pins := pins + more.value;
        } else {
          PrependAssoc(pins, [], AllPins(v, rings[k + 1..]));
          assert pins + [] == pins;
        }
        k := k + 1;
      }
      assert rings[k..] == [];
      assert pins + [] == pins;
      return Ok(pins);
    }

    static method PinQueue(v: View, q: Queue) returns (r: Result<seq<Range>, DeviceError>)
      requires q.WellFormed() && q.ready
      ensures r.Ok? <==> QueuePins(v, q).Some?
      ensures r.Ok? ==> Some(r.value) == QueuePins(v, q)
      ensures r.Err? ==> r.error.IsGuest()
    {
      if !q.IsValid(v) {
        return Err(InvalidLiveQueue);
      }
      var pins := q.RingPins();
      var available := q.Pending(v);
      if available > q.size {
        return Err(AvailableRingOverrun(available));
      }
      var i := 0;
      while i < available
        invariant i <= available
        invariant QueuePins(v, q) == Prepend(pins, PendingPins(v, q, i, available))
      {
        var more := PinEntry(v, q, i);
        if more.Err? {
          return Err(more.error);
        }
        PrependAssoc(pins, more.value, PendingPins(v, q, i + 1, available));
        pins := pins + more.value;
        i := i + 1;
      }
      assert pins + [] == pins;
      return Ok(pins);
    }

    static method PinEntry(v: View, q: Queue, i: nat) returns (r: Result<seq<Range>, DeviceError>)
      requires q.WellFormed()
      ensures r.Ok? <==> ChainAt(v, q, i).Some?
      ensures r.Ok? ==> r.value == BufferPins(ChainAt(v, q, i).value.descriptors)
      ensures r.Err? ==> r.error.IsGuest()
    {
      r := PinChain(v, q, q.Head(v, i));
    }

    /** The walk of one pending chain, which records buffers as it goes. */
    static method PinChain(v: View, q: Queue, head: nat) returns (r: Result<seq<Range>, DeviceError>)
      ensures r.Ok? <==> Follow(v, q, head, q.size).Some?
      ensures r.Ok? ==> r.value == BufferPins(Descriptors(v, q, Follow(v, q, head, q.size).value))
      ensures r.Err? ==> r.error.IsGuest()
    {
      var at: nat, n: nat, pins := head, 0, [];
      ghost var path: seq<nat> := [];
      PrependNothing(Follow(v, q, head, q.size));
      while n < q.size
        invariant n <= q.size
        invariant Follow(v, q, head, q.size) == Prepend(path, Follow(v, q, at, q.size - n))
        invariant pins == BufferPins(Descriptors(v, q, path))
      {
        if at >= q.size {
          return Err(DescriptorIndexOutOfRange(at));
        }
        var d := q.DescriptorAt(v, at);
        if !d.Legal(v) {
          return Err(InvalidPendingDescriptor);
        }
        PathPinsAppend(v, q, path, at);
        if d.len != 0 {
          pins := pins + [d.Buffer()];
        }
        if !d.HasNext() {
          return Ok(pins);
        }
        PrependAssoc(path, [at], Follow(v, q, d.next, q.size - n - 1));
        path, at, n := path + [at], d.next, n + 1;
      }
      return Err(CyclicPendingDescriptorChain);
    }
  }

  lemma {:induction false} BufferPinsAppend(ds: seq<Descriptor>, d: Descriptor)
    ensures BufferPins(ds + [d]) == BufferPins(ds) + if d.len != 0 then [d.Buffer()] else []
  {
    if ds != [] {
      assert (ds + [d])[1..] == ds[1..] + [d];
      BufferPinsAppend(ds[1..], d);
    } else {
      assert [d][1..] == [];
    }
  }

  lemma PathPinsAppend(v: View, q: Queue, path: seq<nat>, at: nat)
    ensures var d := q.DescriptorAt(v, at);
            BufferPins(Descriptors(v, q, path + [at])) ==
            BufferPins(Descriptors(v, q, path)) + if d.len != 0 then [d.Buffer()] else []
  {
    assert Descriptors(v, q, path + [at]) == Descriptors(v, q, path) + [q.DescriptorAt(v, at)];
    BufferPinsAppend(Descriptors(v, q, path), q.DescriptorAt(v, at));
  }
}
