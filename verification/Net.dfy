/** virtio-net: transmit with one deferred frame under backpressure, and receive with a
    direct path into guest buffers that means the same as the copying one. */
module Net {
  import opened Wrappers
  import opened Errors
  import opened GuestMemory
  import opened Virtqueue
  import opened Buffers
  import opened DescriptorLists

  const NET_HEADER: nat := 12
  const BUDGET: nat := 64

  /** A frame taken from the transmit ring: where and when it was taken, and its bytes. */
  datatype Frame = Frame(view: View, queue: Queue, head: nat, payload: seq<byte>) {

    /** The chain at the queue's position, without its virtio-net header. */
    ghost predicate Genuine() {
      && queue.WellFormed() && ChainAt(view, queue, 0).Some?
      && var chain := ChainAt(view, queue, 0).value;
      && NET_HEADER <= Total(Slices(chain.descriptors))
      && head == chain.head && payload == Load(view, Addrs(Slices(chain.descriptors))[NET_HEADER..])
    }
  }

  /** Since the last reset: frames taken from the ring, frames the backend accepted, and
      heads completed. */
  datatype Ledger = Ledger(taken: seq<Frame>, sent: seq<seq<byte>>, completed: seq<nat>) {

    /** Taken frames come from consecutive ring positions. */
    ghost predicate FromRing() {
      && (forall i {:trigger taken[i].Genuine()} :: 0 <= i < |taken| ==> taken[i].Genuine())
      && (forall i, j {:trigger Follows(i, j)} :: Follows(i, j))
    }

    ghost predicate Follows(i: int, j: int) {
      0 <= i && j == i + 1 && j < |taken| ==> taken[j].queue.nextAvail == Next16(taken[i].queue.nextAvail)
    }

    /** Accepted frames are the taken payloads in order, each once, and heads are
        completed in that order. */
    ghost predicate Matched() {
      && |completed| <= |sent| <= |taken|
      && (forall i :: 0 <= i < |sent| ==> sent[i] == taken[i].payload)
      && (forall i :: 0 <= i < |completed| ==> completed[i] == taken[i].head)
    }

    ghost predicate InOrder() {
      FromRing() && Matched()
    }

    /** In order, and everything taken is completed except a deferred frame, whose bytes
        were saved. */
    ghost predicate Settled(pending: Option<nat>, tx: seq<byte>) {
      && InOrder() && |completed| == |sent|
      && |taken| == |completed| + (if pending.Some? then 1 else 0)
      && (pending.Some? ==> var last := taken[|taken| - 1]; pending.value == last.head && tx == last.payload)
    }

    /** The transmit ring stands right behind the last taken frame. */
    ghost predicate Behind(q: Queue) {
      taken != [] ==> q.nextAvail == Next16(taken[|taken| - 1].queue.nextAvail)
    }
  }

  lemma TakeKeepsFromRing(l: Ledger, f: Frame)
    requires l.FromRing() && f.Genuine() && l.Behind(f.queue)
    ensures l.(taken := l.taken + [f]).FromRing()
  {
    var more := l.(taken := l.taken + [f]);
    forall i | 0 <= i < |more.taken| ensures more.taken[i].Genuine() {
      assert i < |l.taken| ==> l.taken[i].Genuine();
    }
    forall i, j ensures more.Follows(i, j) {
      assert l.Follows(i, j);
    }
  }

  lemma TakeKeepsOrder(l: Ledger, f: Frame)
    requires l.InOrder() && f.Genuine() && l.Behind(f.queue)
    ensures l.(taken := l.taken + [f]).InOrder() && l.(taken := l.taken + [f]).Behind(f.queue.Advanced())
  {
    TakeKeepsFromRing(l, f);
  }

  lemma SameTaken(l: Ledger, m: Ledger)
    requires l.FromRing() && m.taken == l.taken
    ensures m.FromRing()
  {
    forall i, j ensures m.Follows(i, j) {
      assert l.Follows(i, j);
    }
  }

  lemma SendKeepsOrder(l: Ledger)
    requires l.InOrder() && |l.sent| < |l.taken|
    ensures l.(sent := l.sent + [l.taken[|l.sent|].payload]).InOrder()
  {
    SameTaken(l, l.(sent := l.sent + [l.taken[|l.sent|].payload]));
  }

  lemma FinishKeepsOrder(l: Ledger)
    requires l.InOrder() && |l.completed| < |l.sent|
    ensures l.(completed := l.completed + [l.taken[|l.completed|].head]).InOrder()
  {
    SameTaken(l, l.(completed := l.completed + [l.taken[|l.completed|].head]));
  }

  ghost predicate Sendable(v: View, ds: seq<Descriptor>, capacity: nat) {
    && (forall k :: 0 <= k < |ds| ==> !ds[k].WriteOnly())
    && NET_HEADER + 14 <= Total(Slices(ds)) <= capacity
    && v.Byte(Addrs(Slices(ds))[0]) == 0 && v.Byte(Addrs(Slices(ds))[1]) == 0
  }

  /** The backend's sends never fail: they are accepted or refused. */
  ghost predicate Dependable(verdicts: nat -> Option<bool>) {
    forall n {:trigger verdicts(n)} :: verdicts(n).Some?
  }

  class Transmitter {
    /** The header and largest frame together. */
    const capacity: nat
    /** The n-th send: accepted, refused for now, or failed. */
    const verdicts: nat -> Option<bool>
    var sends: nat
    var pending: Option<nat>
    var tx: seq<byte>
    ghost var ledger: Ledger

    constructor (capacity: nat, verdicts: nat -> Option<bool>)
      ensures Settled() && ledger == Ledger([], [], [])
    {
      this.capacity, this.verdicts, sends, pending, tx := capacity, verdicts, 0, None, [];
      ledger := Ledger([], [], []);
    }

    /** The last frame offered was refused. */
    ghost predicate Refused()
      reads this`sends
    {
      0 < sends && verdicts(sends - 1) == Some(false)
    }

    ghost predicate Settled()
      reads this`ledger, this`pending, this`tx
    {
      ledger.Settled(pending, tx)
    }

    method Reset()
      modifies this`pending, this`tx, this`ledger
      ensures Settled() && ledger == Ledger([], [], []) && pending == None
    {
      pending, tx := None, [];
      ledger := Ledger([], [], []);
    }

    /** Offer the next unsent frame to the backend. */
    method Send(frame: seq<byte>) returns (r: Result<bool, DeviceError>)
      requires ledger.InOrder() && |ledger.sent| < |ledger.taken| && frame == ledger.taken[|ledger.sent|].payload
      modifies this`sends, this`ledger
      ensures ledger.InOrder() && r.Ok? == verdicts(old(sends)).Some?
      ensures ledger == if r == Ok(true) then old(ledger).(sent := old(ledger).sent + [frame]) else old(ledger)
      ensures r.Ok? && !r.value ==> Refused()
      ensures r.Err? ==> !r.error.IsGuest()
    {
      var verdict := verdicts(sends);
      sends := sends + 1;
      if verdict.None? {
        return Err(DeviceError.Net);
      }
      if verdict.value {
        SendKeepsOrder(ledger);
        ledger := ledger.(sent := ledger.sent + [frame]);
      }
      return Ok(verdict.value);
    }

    /** Complete the first uncompleted head. */
    method Finish(queues: Queues, ram: GuestRam, head: nat) returns (r: Result<Unit, DeviceError>)
      requires queues.Valid() && |queues.rings| == 2
      requires ledger.InOrder() && |ledger.completed| < |ledger.sent| && head == ledger.taken[|ledger.completed|].head
      modifies queues`rings, queues`interrupt, ram, this`ledger
      ensures queues.Valid() && |queues.rings| == 2 && ledger.InOrder()
      ensures ram.view.regions == old(ram.view.regions)
      ensures queues.rings[1] == old(queues.rings[1]).(nextUsed := queues.rings[1].nextUsed)
      ensures queues.rings[0] == old(queues.rings[0])
      ensures ledger == if r.Ok? then old(ledger).(completed := old(ledger).completed + [head]) else old(ledger)
      ensures r.Err? ==> r.error.IsGuest()
    {
      r := queues.Complete(1, ram, head, 0);
      if r.Ok? {
        FinishKeepsOrder(ledger);
        ledger := ledger.(completed := ledger.completed + [head]);
      }
    }

    /** Offer the deferred frame again, from the saved bytes. */
    method Retry(queues: Queues, ram: GuestRam) returns (r: Result<bool, DeviceError>)
      requires queues.Valid() && |queues.rings| == 2 && Settled() && ledger.Behind(queues.rings[1]) && pending.Some?
      modifies this`sends, this`pending, this`ledger, queues`rings, queues`interrupt, ram
      ensures queues.Valid() && |queues.rings| == 2 && queues.rings[0] == old(queues.rings[0]) && ledger.InOrder()
      ensures ram.view.regions == old(ram.view.regions)
      ensures SameSetup(old(queues.rings[1]), queues.rings[1])
      ensures Dependable(verdicts) && r.Err? ==> r.error.IsGuest()
      ensures r.Ok? ==> Settled() && ledger.Behind(queues.rings[1])
      ensures r.Ok? && r.value ==> pending == None && |ledger.completed| == |old(ledger).completed| + 1
      ensures r.Ok? && !r.value ==> pending.Some? && Refused() && ledger == old(ledger)
    {
      var accepted := Send(tx);
      if accepted.Err? || !accepted.value {
        return accepted;
      }
      var head := pending.value;
      pending := None;
      r := Conclude(queues, ram, head);
    }

    /** Check a taken chain: readable, between a header with a minimal frame and the
        capacity, and no offload requested. */
    method Check(v: View, ds: seq<Descriptor>) returns (r: Result<Unit, DeviceError>)
      ensures r.Ok? <==> Sendable(v, ds, capacity)
      ensures r.Err? ==> r.error.IsGuest()
    {
      var i := 0;
      while i < |ds|
        invariant i <= |ds| && forall k :: 0 <= k < i ==> !ds[k].WriteOnly()
      {
        if ds[i].WriteOnly() {
          return Err(TxDescriptorMustBeReadable);
        }
        i := i + 1;
      }
      var total := RequestLength(ds);
      if !(NET_HEADER + 14 <= total <= capacity) {
        return Err(InvalidTxPacketSize(total));
      }
      var header := CopyTo(v, Slices(ds), NET_HEADER);
      if header[0] != 0 || header[1] != 0 {
        return Err(UnnegotiatedTxChecksumGsoOffload);
      }
      return Ok(Unit);
    }

    /** Take the next frame off the ring, if there is one. */
    method PopFrame(queues: Queues, v: View) returns (r: Result<Option<(nat, seq<byte>)>, DeviceError>)
      requires queues.Valid() && |queues.rings| == 2 && ledger.InOrder() && ledger.Behind(queues.rings[1])
      modifies this`ledger, queues`rings
      ensures queues.Valid() && |queues.rings| == 2 && queues.rings[0] == old(queues.rings[0]) && ledger.InOrder()
      ensures SameSetup(old(queues.rings[1]), queues.rings[1])
      ensures Dependable(verdicts) && r.Err? ==> r.error.IsGuest()
      ensures r.Ok? ==> ledger.Behind(queues.rings[1])
      ensures r.Ok? && r.value.Some? ==>
                && |ledger.taken| == |old(ledger).taken| + 1
                && ledger == old(ledger).(taken := old(ledger).taken + [ledger.taken[|old(ledger).taken|]])
                && var last := ledger.taken[|old(ledger).taken|]; r.value.value == (last.head, last.payload)
      ensures r.Err? || r.value.None? ==> ledger == old(ledger)
      ensures r.Ok? && r.value.None? ==> Exhausted(v, queues.rings[1]) && queues.rings == old(queues.rings)
    {
      ghost var q := queues.rings[1];
      var popped := queues.Pop(1, v);
      if popped.Err? {
        return Err(popped.error);
      }
      if popped.value.None? {
        return Ok(None);
      }
      var chain := popped.value.value;
      var bytes := Extract(v, chain.descriptors);
      if bytes.Err? {
        return Err(bytes.error);
      }
      ghost var frame := Frame(v, q, chain.head, bytes.value);
      TakeKeepsOrder(ledger, frame);
      ledger := ledger.(taken := ledger.taken + [frame]);
      return Ok(Some((chain.head, bytes.value)));
    }

    /** The payload bytes of a sendable chain. */
    method Extract(v: View, ds: seq<Descriptor>) returns (r: Result<seq<byte>, DeviceError>)
      ensures r.Ok? <==> Sendable(v, ds, capacity)
      ensures r.Ok? ==> r.value == Load(v, Addrs(Slices(ds))[NET_HEADER..])
      ensures r.Err? ==> r.error.IsGuest()
    {
      var checked := Check(v, ds);
      if checked.Err? {
        return Err(checked.error);
      }
      var all := Slices(ds);
      var payload := Cut(all, NET_HEADER, Total(all) - NET_HEADER);
      var bytes := CopyTo(v, payload, Total(payload));
      SamePayload(v, all, payload, bytes);
      return Ok(bytes);
    }

    /** Take the next chain and offer its payload; a refused frame is saved for later. */
    method TakeFrame(queues: Queues, ram: GuestRam) returns (r: Result<bool, DeviceError>)
      requires queues.Valid() && |queues.rings| == 2 && Settled() && ledger.Behind(queues.rings[1]) && pending.None?
      modifies this, queues`rings, queues`interrupt, ram
      ensures queues.Valid() && |queues.rings| == 2 && queues.rings[0] == old(queues.rings[0]) && ledger.InOrder()
      ensures ram.view.regions == old(ram.view.regions)
      ensures SameSetup(old(queues.rings[1]), queues.rings[1])
      ensures Dependable(verdicts) && r.Err? ==> r.error.IsGuest()
      ensures r.Ok? ==> Settled() && ledger.Behind(queues.rings[1])
      ensures r.Ok? && r.value ==> pending == None && |ledger.completed| == |old(ledger).completed| + 1
      ensures r.Ok? && !r.value ==> if pending.Some? then Refused() else Exhausted(ram.view, queues.rings[1])
    {
      var popped := PopFrame(queues, ram.view);
      if popped.Err? {
        return Err(popped.error);
      }
      if popped.value.None? {
        return Ok(false);
      }
      var (head, bytes) := popped.value.value;
      r := Offer(queues, ram, head, bytes);
    }

    /** Offer a frame that was just taken: complete it, or save it if refused. */
    method Offer(queues: Queues, ram: GuestRam, head: nat, bytes: seq<byte>) returns (r: Result<bool, DeviceError>)
      requires queues.Valid() && |queues.rings| == 2 && ledger.InOrder() && ledger.Behind(queues.rings[1])
      requires pending.None? && |ledger.completed| == |ledger.sent| == |ledger.taken| - 1
      requires var last := ledger.taken[|ledger.taken| - 1]; head == last.head && bytes == last.payload
      modifies this, queues`rings, queues`interrupt, ram
      ensures queues.Valid() && |queues.rings| == 2 && queues.rings[0] == old(queues.rings[0]) && ledger.InOrder()
      ensures ram.view.regions == old(ram.view.regions)
      ensures SameSetup(old(queues.rings[1]), queues.rings[1])
      ensures Dependable(verdicts) && r.Err? ==> r.error.IsGuest()
      ensures r.Ok? ==> Settled() && ledger.Behind(queues.rings[1])
      ensures r.Ok? && r.value ==> pending == None && |ledger.completed| == |old(ledger).completed| + 1
      ensures r.Ok? && !r.value ==> pending.Some? && Refused()
    {
      var accepted := Send(bytes);
      if accepted.Err? {
        return Err(accepted.error);
      }
      if !accepted.value {
        tx, pending := bytes, Some(head);
        return Ok(false);
      }
      r := Conclude(queues, ram, head);
    }

    /** Complete the last taken frame, which the backend has accepted. */
    method Conclude(queues: Queues, ram: GuestRam, head: nat) returns (r: Result<bool, DeviceError>)
      requires queues.Valid() && |queues.rings| == 2 && ledger.InOrder() && ledger.Behind(queues.rings[1])
      requires pending.None? && |ledger.completed| + 1 == |ledger.sent| == |ledger.taken|
      requires head == ledger.taken[|ledger.completed|].head
      modifies this`ledger, queues`rings, queues`interrupt, ram
      ensures queues.Valid() && |queues.rings| == 2 && queues.rings[0] == old(queues.rings[0]) && ledger.InOrder()
      ensures ram.view.regions == old(ram.view.regions)
      ensures SameSetup(old(queues.rings[1]), queues.rings[1])
      ensures r.Err? ==> r.error.IsGuest()
      ensures r.Ok? ==> r.value && Settled() && ledger.Behind(queues.rings[1])
      ensures r.Ok? ==> |ledger.completed| == |old(ledger).completed| + 1
    {
      var finished := Finish(queues, ram, head);
      r := if finished.Err? then Err(finished.error) else Ok(true);
    }

    /** Transmit within the budget. On success everything taken from the ring has been
        sent and completed in order, exactly once, but for at most one deferred frame. */
    method Transmit(queues: Queues, ram: GuestRam) returns (r: Result<Unit, DeviceError>)
      requires queues.Valid() && |queues.rings| == 2 && Settled() && ledger.Behind(queues.rings[1])
      modifies this, queues`rings, queues`interrupt, ram
      ensures queues.Valid() && |queues.rings| == 2 && queues.rings[0] == old(queues.rings[0]) && ledger.InOrder()
      ensures ram.view.regions == old(ram.view.regions)
      ensures SameSetup(old(queues.rings[1]), queues.rings[1])
      ensures Dependable(verdicts) && r.Err? ==> r.error.IsGuest()
      ensures r.Ok? ==> Settled() && ledger.Behind(queues.rings[1])
      ensures !old(queues.rings[1]).ready ==> ledger == old(ledger) && pending == old(pending)
      ensures r.Ok? && old(queues.rings[1]).ready ==>
                || |ledger.completed| == |old(ledger).completed| + BUDGET
                || (if pending.Some? then Refused() else Exhausted(ram.view, queues.rings[1]))
    {
      if !queues.rings[1].ready {
        return Ok(Unit);
      }
      var n := 0;
      while n < BUDGET
        invariant n <= BUDGET && queues.Valid() && |queues.rings| == 2 && queues.rings[0] == old(queues.rings[0])
        invariant ram.view.regions == old(ram.view.regions)
        invariant SameSetup(old(queues.rings[1]), queues.rings[1])
        invariant |ledger.completed| == |old(ledger).completed| + n
        invariant Settled() && ledger.Behind(queues.rings[1])
      {
        var more;
        if pending.Some? {
          more := Retry(queues, ram);
        } else {
          more := TakeFrame(queues, ram);
        }
        if more.Err? {
          return Err(more.error);
        }
        if !more.value {
          return Ok(Unit);
        }
        n := n + 1;
      }
      return Ok(Unit);
    }
  }

  lemma SamePayload(v: View, all: seq<Range>, payload: seq<Range>, bytes: seq<byte>)
    requires NET_HEADER <= Total(all) && Addrs(payload) == Addrs(all)[NET_HEADER..NET_HEADER + (Total(all) - NET_HEADER)]
    requires bytes == Load(v, Addrs(payload)[..Total(payload)])
    ensures bytes == Load(v, Addrs(all)[NET_HEADER..])
  {
    assert Addrs(payload)[..Total(payload)] == Addrs(payload);
    assert Addrs(all)[NET_HEADER..NET_HEADER + (Total(all) - NET_HEADER)] == Addrs(all)[NET_HEADER..];
  }
}
