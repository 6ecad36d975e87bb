/** What a queue reads depends only on its descriptor table and available ring:
    if those bytes are unchanged and the pins stay in view, every pending chain and
    the whole pin scan stay the same. */
module RingStability {
  import opened GuestMemory
  import opened Virtqueue

  ghost predicate SameBytes(v: View, w: View, r: Range) {
    forall x: nat {:trigger w.Byte(x)} :: r.Has(x) ==> w.Byte(x) == v.Byte(x)
  }

  ghost predicate SameRings(v: View, w: View, q: Queue) {
    SameBytes(v, w, Range(q.desc, 16 * q.size)) && SameBytes(v, w, Range(q.avail, 6 + 2 * q.size))
  }

  ghost predicate PinsStay(w: View, pins: seq<Range>) {
    forall i :: 0 <= i < |pins| ==> w.InView(pins[i].start, pins[i].len)
  }

  lemma WordStable(v: View, w: View, a: nat, n: nat, r: Range)
    requires SameBytes(v, w, r) && r.start <= a && a + n <= r.start + r.len
    ensures w.Word(a, n) == v.Word(a, n)
  {
    forall i | 0 <= i < n ensures w.Read(a, n)[i] == v.Read(a, n)[i] {
      assert r.Has(a + i);
    }
    assert w.Read(a, n) == v.Read(a, n);
  }

  lemma HalfStable(v: View, w: View, a: nat, r: Range)
    requires SameBytes(v, w, r) && r.start <= a && a + 2 <= r.start + r.len
    ensures w.U16(a) == v.U16(a)
  {
    assert r.Has(a) && r.Has(a + 1);
  }

  lemma DescriptorStable(v: View, w: View, q: Queue, index: nat)
    requires SameBytes(v, w, Range(q.desc, 16 * q.size)) && index < q.size
    ensures q.DescriptorAt(w, index) == q.DescriptorAt(v, index)
  {
    var a, r := q.desc + 16 * index, Range(q.desc, 16 * q.size);
    WordStable(v, w, a, 8, r);
    WordStable(v, w, a + 8, 4, r);
    HalfStable(v, w, a + 12, r);
    HalfStable(v, w, a + 14, r);
  }

  lemma {:induction false} FollowStable(v: View, w: View, q: Queue, index: nat, fuel: nat)
    requires SameBytes(v, w, Range(q.desc, 16 * q.size)) && Follow(v, q, index, fuel).Some?
    requires forall i :: 0 <= i < |Follow(v, q, index, fuel).value| ==>
                           var d := q.DescriptorAt(v, Follow(v, q, index, fuel).value[i]);
                           w.InView(d.addr, d.len)
    ensures Follow(w, q, index, fuel) == Follow(v, q, index, fuel)
    decreases fuel
  {
    DescriptorStable(v, w, q, index);
    var d := q.DescriptorAt(v, index);
    var path := Follow(v, q, index, fuel).value;
    assert path[0] == index;
    if d.HasNext() {
      var rest := Follow(v, q, d.next, fuel - 1).value;
      assert forall i :: 0 <= i < |rest| ==> rest[i] == path[i + 1];
      FollowStable(v, w, q, d.next, fuel - 1);
    }
  }

  lemma {:induction false} PinnedBuffersStay(w: View, ds: seq<Descriptor>, i: nat)
    requires PinsStay(w, BufferPins(ds)) && i < |ds|
    ensures w.InView(ds[i].addr, ds[i].len)
  {
    var head := if ds[0].len != 0 then [ds[0].Buffer()] else [];
    var rest := BufferPins(ds[1..]);
    assert BufferPins(ds) == head + rest;
    if i == 0 {
      if ds[0].len != 0 {
        assert BufferPins(ds)[0] == ds[0].Buffer();
      }
    } else {
      assert forall k :: 0 <= k < |rest| ==> rest[k] == BufferPins(ds)[|head| + k];
      PinnedBuffersStay(w, ds[1..], i - 1);
    }
  }

  lemma ChainStable(v: View, w: View, q: Queue, head: nat)
    requires SameBytes(v, w, Range(q.desc, 16 * q.size)) && ChainFrom(v, q, head).Some?
    requires PinsStay(w, BufferPins(ChainFrom(v, q, head).value.descriptors))
    ensures ChainFrom(w, q, head) == ChainFrom(v, q, head)
  {
    var path := Follow(v, q, head, q.size).value;
    var ds := Descriptors(v, q, path);
    FollowSound(v, q, head, q.size);
    forall i | 0 <= i < |path| ensures w.InView(q.DescriptorAt(v, path[i]).addr, q.DescriptorAt(v, path[i]).len)
                                    && q.DescriptorAt(w, path[i]) == q.DescriptorAt(v, path[i])
    {
      PinnedBuffersStay(w, ds, i);
      PathSuffix(v, q, head, path, i);
      DescriptorStable(v, w, q, path[i]);
    }
    FollowStable(v, w, q, head, q.size);
    assert Descriptors(w, q, path) == ds;
  }

  lemma HeadStable(v: View, w: View, q: Queue, i: nat)
    requires SameRings(v, w, q) && q.WellFormed()
    ensures q.Head(w, i) == q.Head(v, i) && q.Pending(w) == q.Pending(v)
  {
    var r := Range(q.avail, 6 + 2 * q.size);
    HalfStable(v, w, q.avail + 4 + 2 * q.Slot(i), r);
    HalfStable(v, w, q.avail + 2, r);
  }

  lemma SplitPins(w: View, a: seq<Range>, b: seq<Range>)
    requires PinsStay(w, a + b)
    ensures PinsStay(w, a) && PinsStay(w, b)
  {
    assert forall i :: 0 <= i < |a| ==> a[i] == (a + b)[i];
    assert forall i :: 0 <= i < |b| ==> b[i] == (a + b)[|a| + i];
  }

  lemma {:induction false} PendingStable(v: View, w: View, q: Queue, i: nat, n: nat)
    requires q.WellFormed() && i <= n && SameRings(v, w, q)
    requires PendingPins(v, q, i, n).Some? && PinsStay(w, PendingPins(v, q, i, n).value)
    ensures PendingPins(w, q, i, n) == PendingPins(v, q, i, n)
    decreases n - i
  {
    if i != n {
      var ds := ChainAt(v, q, i).value.descriptors;
      SplitPins(w, BufferPins(ds), PendingPins(v, q, i + 1, n).value);
      HeadStable(v, w, q, i);
      ChainStable(v, w, q, q.Head(v, i));
      PendingStable(v, w, q, i + 1, n);
    }
  }

  /** The scan of a queue repeats on any view that keeps its ring bytes and pins. */
  lemma QueueScanStable(v: View, w: View, q: Queue)
    requires q.WellFormed() && QueuePins(v, q).Some? && PinsStay(w, QueuePins(v, q).value)
    requires q.ready ==> SameRings(v, w, q)
    ensures QueuePins(w, q) == QueuePins(v, q)
  {
    if q.ready {
      var pending := PendingPins(v, q, 0, q.Pending(v)).value;
      SplitPins(w, q.RingPins(), pending);
      assert forall i :: 0 <= i < 3 ==> w.InView(q.RingPins()[i].start, q.RingPins()[i].len);
      assert q.RingPins()[0] == Range(q.desc, 16 * q.size) && q.RingPins()[1] == Range(q.avail, 6 + 2 * q.size)
          && q.RingPins()[2] == Range(q.used, 6 + 8 * q.size);
      HeadStable(v, w, q, 0);
      PendingStable(v, w, q, 0, q.Pending(v));
    }
  }

  lemma {:induction false} ScanStable(v: View, w: View, rings: seq<Queue>)
    requires RingsOk(rings) && AllPins(v, rings).Some? && PinsStay(w, AllPins(v, rings).value)
    requires forall k :: 0 <= k < |rings| && rings[k].ready ==> SameRings(v, w, rings[k])
    ensures AllPins(w, rings) == AllPins(v, rings)
  {
    if rings != [] {
      SplitPins(w, QueuePins(v, rings[0]).value, AllPins(v, rings[1..]).value);
      QueueScanStable(v, w, rings[0]);
      ScanStable(v, w, rings[1..]);
    }
  }
}
