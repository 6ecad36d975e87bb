/** What the pin scan promises: it agrees with taking every pending chain, its
    pins are exactly the ranges live queues need, and all of them are in view. */
module PinScan {
  import opened Wrappers
  import opened GuestMemory
  import opened Finite
  import opened Virtqueue

  // ---------------------------------------------------------------------------
  // Ring positions across the 2^16 wrap

  /** Ring sizes are powers of two, so they divide 2^16 and the wrap keeps slots apart. */
  lemma ApartModuloSize(a: nat, b: nat, k: nat, size: nat)
    requires size in {1, 2, 4, 8, 16, 32, 64, 128} && 0 < k < size
    requires b == a + k || b + U16_LIMIT == a + k
    ensures a % size != b % size
  {
    var m := U16_LIMIT / size;
    assert size * m == U16_LIMIT;
    if a % size == b % size {
      var t := b / size - a / size + if b == a + k then 0 else m;
      assert a == size * (a / size) + a % size && b == size * (b / size) + b % size;
      assert k == size * t;
      MultipleOutside(size, t);
    }
  }

  /** A full ring's worth of entries occupies distinct slots, also across the wrap. */
  lemma SlotsDistinct(q: Queue, i: nat, j: nat)
    requires q.WellFormed() && i < j < i + q.size
    ensures q.Slot(i) != q.Slot(j)
  {
    var a, b := (q.nextAvail + i) % U16_LIMIT, (q.nextAvail + j) % U16_LIMIT;
    assert b == a + (j - i) || b + U16_LIMIT == a + (j - i);
    ApartModuloSize(a, b, j - i, q.size);
  }

  lemma WrapSum(n: nat, i: nat)
    ensures (n % U16_LIMIT + i) % U16_LIMIT == (n + i) % U16_LIMIT
  {
  }

  lemma AdvancedSlot(q: Queue, i: nat)
    requires q.WellFormed()
    ensures q.Advanced().Slot(i) == q.Slot(i + 1)
  {
    WrapSum(q.nextAvail + 1, i);
    assert q.nextAvail + 1 + i == q.nextAvail + (i + 1);
  }

  lemma {:induction false} FollowSameTable(v: View, q: Queue, r: Queue, index: nat, fuel: nat)
    requires q.desc == r.desc && q.size == r.size
    ensures Follow(v, q, index, fuel) == Follow(v, r, index, fuel)
    decreases fuel
  {
    if fuel != 0 {
      FollowSameTable(v, q, r, q.DescriptorAt(v, index).next, fuel - 1);
    }
  }

  /** Chains depend on the descriptor table, not on the ring position. */
  lemma ChainSameTable(v: View, q: Queue, r: Queue, head: nat)
    requires q.desc == r.desc && q.size == r.size
    ensures ChainFrom(v, q, head) == ChainFrom(v, r, head)
  {
    FollowSameTable(v, q, r, head, q.size);
    if Follow(v, q, head, q.size).Some? {
      var path := Follow(v, q, head, q.size).value;
      assert Descriptors(v, q, path) == Descriptors(v, r, path);
    }
  }

  lemma AdvancedShifts(v: View, q: Queue, i: nat)
    requires q.WellFormed()
    ensures ChainAt(v, q.Advanced(), i) == ChainAt(v, q, i + 1)
  {
    AdvancedSlot(q, i);
    ChainSameTable(v, q, q.Advanced(), q.Head(v, i + 1));
  }

  // ---------------------------------------------------------------------------
  // Agreement with popping

  lemma {:induction false} PendingPinsAgree(v: View, q: Queue, i: nat, n: nat, k: nat)
    requires q.WellFormed() && i <= k < n && PendingPins(v, q, i, n).Some?
    ensures ChainAt(v, q, k).Some?
    decreases n - i
  {
    if i != k {
      PendingPinsAgree(v, q, i + 1, n, k);
    }
  }

  /** If every pending entry has a chain, popping until empty yields them in order. */
  lemma {:induction false} PopAllInOrder(v: View, q: Queue)
    requires q.WellFormed() && Usable(v, q)
    requires forall i {:trigger ChainAt(v, q, i)} :: 0 <= i < q.Pending(v) ==> ChainAt(v, q, i).Some?
    ensures PopAll(v, q).Some? && |PopAll(v, q).value| == q.Pending(v)
    ensures forall i {:trigger ChainAt(v, q, i)} :: 0 <= i < q.Pending(v) ==>
                                                      Some(PopAll(v, q).value[i]) == ChainAt(v, q, i)
    decreases q.Pending(v)
  {
    if q.Pending(v) != 0 {
      var next := q.Advanced();
      assert next.Pending(v) == q.Pending(v) - 1;
      forall i {:trigger ChainAt(v, next, i)} | 0 <= i < next.Pending(v)
        ensures ChainAt(v, next, i) == ChainAt(v, q, i + 1) && ChainAt(v, next, i).Some?
      {
        AdvancedShifts(v, q, i);
      }
      PopAllInOrder(v, next);
      var rest := PopAll(v, next).value;
      assert ChainAt(v, q, 0).Some?;
      assert PopAll(v, q).value == [ChainAt(v, q, 0).value] + rest;
      forall i {:trigger ChainAt(v, q, i)} | 0 <= i < q.Pending(v)
        ensures Some(PopAll(v, q).value[i]) == ChainAt(v, q, i)
      {
        if i != 0 {
          assert ChainAt(v, next, i - 1) == ChainAt(v, q, i);
        }
      }
    }
  }

  // ---------------------------------------------------------------------------
  // The pins are exactly what is needed

  ghost predicate InBuffers(ds: seq<Descriptor>, p: Range) {
    exists j :: 0 <= j < |ds| && ds[j].len != 0 && ds[j].Buffer() == p
  }

  ghost predicate NeededByEntry(v: View, q: Queue, i: nat, p: Range)
    requires q.WellFormed()
  {
    ChainAt(v, q, i).Some? && InBuffers(ChainAt(v, q, i).value.descriptors, p)
  }

  ghost predicate NeededByEntries(v: View, q: Queue, i: nat, n: nat, p: Range)
    requires q.WellFormed()
  {
    exists k :: i <= k < n && NeededByEntry(v, q, k, p)
  }

  /** `p` is a ring of a ready queue or a nonempty buffer of one of its pending chains. */
  ghost predicate NeededByQueue(v: View, q: Queue, p: Range)
    requires q.WellFormed()
  {
    q.ready && (p in q.RingPins() || NeededByEntries(v, q, 0, q.Pending(v), p))
  }

  lemma {:induction false} BufferPinsExact(ds: seq<Descriptor>, p: Range)
    ensures p in BufferPins(ds) <==> InBuffers(ds, p)
  {
    if ds != [] {
      BufferPinsExact(ds[1..], p);
      if j :| 0 <= j < |ds| && ds[j].len != 0 && ds[j].Buffer() == p {
        if j > 0 {
          assert ds[1..][j - 1] == ds[j];
        }
      }
      if j :| 0 <= j < |ds[1..]| && ds[1..][j].len != 0 && ds[1..][j].Buffer() == p {
        assert ds[j + 1] == ds[1..][j];
      }
    }
  }

  lemma {:induction false} PendingPinsExact(v: View, q: Queue, i: nat, n: nat, p: Range)
    requires q.WellFormed() && i <= n && PendingPins(v, q, i, n).Some?
    ensures p in PendingPins(v, q, i, n).value <==> NeededByEntries(v, q, i, n, p)
    decreases n - i
  {
    if i != n {
      var ds := ChainAt(v, q, i).value.descriptors;
      BufferPinsExact(ds, p);
      PendingPinsExact(v, q, i + 1, n, p);
      NeededSplits(v, q, i, n, p);
      assert PendingPins(v, q, i, n).value == BufferPins(ds) + PendingPins(v, q, i + 1, n).value;
    }
  }

  lemma NeededSplits(v: View, q: Queue, i: nat, n: nat, p: Range)
    requires q.WellFormed() && i < n
    ensures NeededByEntries(v, q, i, n, p) <==>
            NeededByEntry(v, q, i, p) || NeededByEntries(v, q, i + 1, n, p)
  {
  }

  lemma QueuePinsExact(v: View, q: Queue, p: Range)
    requires q.WellFormed() && QueuePins(v, q).Some?
    ensures p in QueuePins(v, q).value <==> NeededByQueue(v, q, p)
  {
    if q.ready {
      PendingPinsExact(v, q, 0, q.Pending(v), p);
    }
  }

  lemma {:induction false} AllPinsExact(v: View, rings: seq<Queue>, p: Range)
    requires RingsOk(rings) && AllPins(v, rings).Some?
    ensures p in AllPins(v, rings).value <==>
            exists k :: 0 <= k < |rings| && NeededByQueue(v, rings[k], p)
  {
    if rings != [] {
      QueuePinsExact(v, rings[0], p);
      AllPinsExact(v, rings[1..], p);
      if k :| 0 <= k < |rings| && NeededByQueue(v, rings[k], p) {
        if k > 0 {
          assert rings[1..][k - 1] == rings[k];
        }
      }
      if k :| 0 <= k < |rings[1..]| && NeededByQueue(v, rings[1..][k], p) {
        assert rings[k + 1] == rings[1..][k];
      }
    }
  }

  lemma {:induction false} ScanCoversEachQueue(v: View, rings: seq<Queue>, k: nat)
    requires RingsOk(rings) && AllPins(v, rings).Some? && k < |rings|
    ensures QueuePins(v, rings[k]).Some?
  {
    if k != 0 {
      ScanCoversEachQueue(v, rings[1..], k - 1);
    }
  }

  /** A successful scan means that, on unchanged memory, popping every ready queue
      until empty succeeds, takes the scanned chains in order from distinct slots,
      and touches only pinned nonempty buffers. */
  lemma PinScanAgreesWithPopping(v: View, rings: seq<Queue>, k: nat)
    requires RingsOk(rings) && AllPins(v, rings).Some? && k < |rings| && rings[k].ready
    ensures Usable(v, rings[k]) && PopAll(v, rings[k]).Some?
    ensures var chains := PopAll(v, rings[k]).value;
            && |chains| == rings[k].Pending(v)
            && (forall i :: 0 <= i < |chains| ==> ChainAt(v, rings[k], i) == Some(chains[i]))
            && (forall i, j :: 0 <= i < j < |chains| ==> rings[k].Slot(i) != rings[k].Slot(j))
            && (forall i, j :: 0 <= i < |chains| && 0 <= j < |chains[i].descriptors| &&
                               chains[i].descriptors[j].len != 0
                               ==> chains[i].descriptors[j].Buffer() in AllPins(v, rings).value)
  {
    var q := rings[k];
    ScanCoversEachQueue(v, rings, k);
    forall i {:trigger ChainAt(v, q, i)} | 0 <= i < q.Pending(v) ensures ChainAt(v, q, i).Some? {
      PendingPinsAgree(v, q, 0, q.Pending(v), i);
    }
    PopAllInOrder(v, q);
    var chains := PopAll(v, q).value;
    forall i, j | 0 <= i < j < |chains| ensures q.Slot(i) != q.Slot(j) {
      SlotsDistinct(q, i, j);
    }
    forall i, j | 0 <= i < |chains| && 0 <= j < |chains[i].descriptors| && chains[i].descriptors[j].len != 0
      ensures chains[i].descriptors[j].Buffer() in AllPins(v, rings).value
    {
      var p := chains[i].descriptors[j].Buffer();
      assert NeededByEntry(v, q, i, p);
      AllPinsExact(v, rings, p);
    }
  }

  lemma ChainInView(v: View, q: Queue, i: nat, j: nat)
    requires q.WellFormed() && ChainAt(v, q, i).Some? && j < |ChainAt(v, q, i).value.descriptors|
    ensures ChainAt(v, q, i).value.descriptors[j].Legal(v)
  {
    var head := q.Head(v, i);
    FollowSound(v, q, head, q.size);
    PathSuffix(v, q, head, Follow(v, q, head, q.size).value, j);
  }

  /** Every pin lies inside the view it was scanned in. */
  lemma PinsInView(v: View, rings: seq<Queue>, p: Range)
    requires RingsOk(rings) && AllPins(v, rings).Some? && p in AllPins(v, rings).value
    ensures v.InView(p.start, p.len)
  {
    AllPinsExact(v, rings, p);
    var k :| 0 <= k < |rings| && NeededByQueue(v, rings[k], p);
    ScanCoversEachQueue(v, rings, k);
    if p !in rings[k].RingPins() {
      var i :| 0 <= i < rings[k].Pending(v) && NeededByEntry(v, rings[k], i, p);
      var ds := ChainAt(v, rings[k], i).value.descriptors;
      var j :| 0 <= j < |ds| && ds[j].len != 0 && ds[j].Buffer() == p;
      ChainInView(v, rings[k], i, j);
    }
  }
}
