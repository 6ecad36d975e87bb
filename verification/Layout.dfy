/** Machine layout validation: accepted windows are nonempty, representable and pairwise
    disjoint in their address space, so an access decodes to at most one device. */
module Layout {
  import opened Wrappers
  import opened GuestMemory
  import opened Finite

  const PORTS: nat := 0x1_0000

  datatype Space = Mmio | Port

  datatype Window = Window(space: Space, address: nat, size: nat) {

    function End(): nat {
      address + size
    }

    predicate Has(s: Space, a: nat) {
      s == space && address <= a < address + size
    }

    /** Nonempty and within its address space. */
    predicate Fits() {
      0 < size && End() < ADDRESS_LIMIT && (space == Port ==> End() <= PORTS)
    }

    predicate Clashes(other: Window) {
      space == other.space && address < other.End() && other.address < End()
    }
  }

  datatype Hotplug = Hotplug(capacity: nat, alignment: nat)

  datatype Machine = Machine(ram: seq<Range>, uart: Window, virtio: seq<Window>, hotplug: Option<Range>)

  datatype Needs = Needs(vcpus: nat, memoryMib: nat, devices: nat, hotplug: Option<Hotplug>)

  function RamWindows(ram: seq<Range>): (ws: seq<Window>)
    ensures |ws| == |ram| && forall i :: 0 <= i < |ram| ==> ws[i] == Window(Mmio, ram[i].start, ram[i].len)
  {
    seq(|ram|, i requires 0 <= i < |ram| => Window(Mmio, ram[i].start, ram[i].len))
  }

  function HotplugWindows(hotplug: Option<Range>): seq<Window> {
    if hotplug.None? then [] else [Window(Mmio, hotplug.value.start, hotplug.value.len)]
  }

  /** All windows of a machine, in the order they are checked. */
  function Windows(m: Machine): seq<Window> {
    RamWindows(m.ram) + [m.uart] + m.virtio + HotplugWindows(m.hotplug)
  }

  function TotalRam(ram: seq<Range>): nat {
    if ram == [] then 0 else TotalRam(ram[..|ram| - 1]) + ram[|ram| - 1].len
  }

  ghost predicate ApartAt(ws: seq<Window>, i: int, j: int) {
    0 <= i < j < |ws| ==> !ws[j].Clashes(ws[i])
  }

  /** Every window fits and no two clash. */
  ghost predicate Disjoint(ws: seq<Window>) {
    && (forall i :: 0 <= i < |ws| ==> ws[i].Fits())
    && (forall i, j {:trigger ApartAt(ws, i, j)} :: ApartAt(ws, i, j))
  }

  /** Zero is the only multiple of zero. */
  predicate MultipleOf(a: nat, n: nat) {
    if n == 0 then a == 0 else IsMultipleOf(a, n)
  }

  predicate HotplugOk(hotplug: Option<Range>, needs: Option<Hotplug>) {
    match (hotplug, needs)
    case (Some(r), Some(n)) => r.len == n.capacity && MultipleOf(r.start, n.alignment)
    case (None, None) => true
    case _ => false
  }

  /** What a layout must be. */
  ghost predicate Acceptable(m: Machine, needs: Needs) {
    && 0 < needs.vcpus && m.ram != [] && |m.virtio| == needs.devices && 8 <= m.uart.size
    && TotalRam(m.ram) == needs.memoryMib * MIB < ADDRESS_LIMIT
    && (forall i :: 0 <= i < |m.virtio| ==> m.virtio[i].space == Mmio && 0x200 <= m.virtio[i].size)
    && HotplugOk(m.hotplug, needs.hotplug)
    && Disjoint(Windows(m))
  }

  // ---------------------------------------------------------------------------
  // Validation

  /** Add a window to those accepted so far. */
  method Add(ws: seq<Window>, w: Window) returns (r: Option<seq<Window>>)
    requires Disjoint(ws)
    ensures r.Some? <==> Disjoint(ws + [w])
    ensures r.Some? ==> r.value == ws + [w]
  {
    AddDecides(ws, w);
    if !w.Fits() {
      return None;
    }
    var i := 0;
    while i < |ws|
      invariant i <= |ws| && forall k :: 0 <= k < i ==> !w.Clashes(ws[k])
    {
      if w.Clashes(ws[i]) {
        return None;
      }
      i := i + 1;
    }
    return Some(ws + [w]);
  }

  lemma AddDecides(ws: seq<Window>, w: Window)
    requires Disjoint(ws)
    ensures Disjoint(ws + [w]) <==> w.Fits() && forall k :: 0 <= k < |ws| ==> !w.Clashes(ws[k])
  {
    var more := ws + [w];
    if Disjoint(more) {
      assert more[|ws|].Fits();
      forall k | 0 <= k < |ws| ensures !w.Clashes(ws[k]) {
        assert ApartAt(more, k, |ws|);
      }
    }
    if w.Fits() && forall k :: 0 <= k < |ws| ==> !w.Clashes(ws[k]) {
      forall i, j ensures ApartAt(more, i, j) {
        assert ApartAt(ws, i, j);
      }
    }
  }

  lemma DisjointPrefix(ws: seq<Window>, more: seq<Window>)
    requires Disjoint(ws + more)
    ensures Disjoint(ws)
  {
    forall i | 0 <= i < |ws| ensures ws[i].Fits() {
      assert (ws + more)[i].Fits();
    }
    forall i, j ensures ApartAt(ws, i, j) {
      assert ApartAt(ws + more, i, j);
    }
  }

  /** Add a list of windows one by one. */
  method AddAll(ws: seq<Window>, more: seq<Window>) returns (r: Option<seq<Window>>)
    requires Disjoint(ws)
    ensures r.Some? <==> Disjoint(ws + more)
    ensures r.Some? ==> r.value == ws + more
  {
    var done, i := ws, 0;
    assert ws + more[..0] == ws;
    while i < |more|
      invariant i <= |more| && done == ws + more[..i] && Disjoint(done)
    {
      var next := Add(done, more[i]);
      assert done + [more[i]] == ws + more[..i + 1];
      if next.None? {
        if Disjoint(ws + more) {
          assert ws + more == (ws + more[..i + 1]) + more[i + 1..];
          DisjointPrefix(ws + more[..i + 1], more[i + 1..]);
        }
        return None;
      }
      done, i := next.value, i + 1;
    }
    assert more[..i] == more;
    return Some(done);
  }

  /** Sum base RAM, unless it overflows. */
  method SumRam(ram: seq<Range>) returns (total: Option<nat>)
    ensures total.Some? ==> total.value == TotalRam(ram)
    ensures total.None? ==> ADDRESS_LIMIT <= TotalRam(ram)
  {
    var n, i := 0, 0;
    while i < |ram|
      invariant i <= |ram| && n == TotalRam(ram[..i]) && n < ADDRESS_LIMIT
    {
      assert ram[..i + 1][..i] == ram[..i];
      n := n + ram[i].len;
      if n >= ADDRESS_LIMIT {
        TotalGrows(ram, i + 1);
        return None;
      }
      i := i + 1;
    }
    assert ram[..i] == ram;
    return Some(n);
  }

  lemma {:induction false} TotalGrows(ram: seq<Range>, n: nat)
    requires n <= |ram|
    ensures TotalRam(ram[..n]) <= TotalRam(ram)
    decreases |ram| - n
  {
    if n < |ram| {
      TotalGrows(ram, n + 1);
      assert ram[..n + 1][..n] == ram[..n];
    } else {
      assert ram[..n] == ram;
    }
  }

  method AllVirtioMmio(virtio: seq<Window>) returns (ok: bool)
    ensures ok <==> forall i :: 0 <= i < |virtio| ==> virtio[i].space == Mmio && 0x200 <= virtio[i].size
  {
    var i := 0;
    while i < |virtio|
      invariant i <= |virtio| && forall k :: 0 <= k < i ==> virtio[k].space == Mmio && 0x200 <= virtio[k].size
    {
      if virtio[i].space != Mmio || virtio[i].size < 0x200 {
        return false;
      }
      i := i + 1;
    }
    return true;
  }

  /** A layout passes exactly if it is acceptable. */
  method Validate(m: Machine, needs: Needs) returns (ok: bool)
    ensures ok <==> Acceptable(m, needs)
  {
    if needs.vcpus == 0 || m.ram == [] || |m.virtio| != needs.devices || m.uart.size < 8 {
      return false;
    }
    PrefixesDisjoint(m);
    var total := SumRam(m.ram);
    var ram := AddAll([], RamWindows(m.ram));
    assert [] + RamWindows(m.ram) == RamWindows(m.ram);
    if total.None? || ram.None? {
      return false;
    }
    if needs.memoryMib * MIB >= ADDRESS_LIMIT || total.value != needs.memoryMib * MIB {
      return false;
    }
    var uart := Add(ram.value, m.uart);
    if uart.None? {
      return false;
    }
    var mmio := AllVirtioMmio(m.virtio);
    var virtio := AddAll(uart.value, m.virtio);
    if !mmio || virtio.None? || !HotplugOk(m.hotplug, needs.hotplug) {
      return false;
    }
    var all := AddAll(virtio.value, HotplugWindows(m.hotplug));
    return all.Some?;
  }

  lemma PrefixesDisjoint(m: Machine)
    ensures Disjoint(Windows(m)) ==>
              && Disjoint(RamWindows(m.ram)) && Disjoint(RamWindows(m.ram) + [m.uart])
              && Disjoint(RamWindows(m.ram) + [m.uart] + m.virtio)
  {
    if Disjoint(Windows(m)) {
      DisjointPrefix(RamWindows(m.ram) + [m.uart] + m.virtio, HotplugWindows(m.hotplug));
      DisjointPrefix(RamWindows(m.ram) + [m.uart], m.virtio);
      DisjointPrefix(RamWindows(m.ram), [m.uart]);
    }
  }

  // ---------------------------------------------------------------------------
  // What an accepted layout gives

  /** No address is in two windows of a space. */
  lemma AtMostOneWindow(m: Machine, needs: Needs, i: nat, j: nat, space: Space, a: nat)
    requires Acceptable(m, needs) && i < |Windows(m)| && j < |Windows(m)|
    requires Windows(m)[i].Has(space, a) && Windows(m)[j].Has(space, a)
    ensures i == j
  {
    assert ApartAt(Windows(m), i, j) && ApartAt(Windows(m), j, i);
  }

  lemma VirtioAt(m: Machine, k: nat)
    requires k < |m.virtio|
    ensures |m.ram| + 1 + k < |Windows(m)| && Windows(m)[|m.ram| + 1 + k] == m.virtio[k]
    ensures |m.ram| < |Windows(m)| && Windows(m)[|m.ram|] == m.uart
  {
  }

  datatype Target = Uart | Slot(k: nat) | Unmapped

  /** Find the device an access starts in: the only one, if there is one. */
  method Decode(m: Machine, needs: Needs, space: Space, a: nat) returns (t: Target)
    requires Acceptable(m, needs)
    ensures t == Uart <==> m.uart.Has(space, a)
    ensures t.Slot? ==> t.k < |m.virtio|
    ensures forall k :: 0 <= k < |m.virtio| ==> (m.virtio[k].Has(space, a) <==> t == Slot(k))
    ensures t == Unmapped <==> !m.uart.Has(space, a) && forall k :: 0 <= k < |m.virtio| ==> !m.virtio[k].Has(space, a)
  {
    if m.uart.Has(space, a) {
      forall k | 0 <= k < |m.virtio| ensures !m.virtio[k].Has(space, a) {
        VirtioAt(m, k);
        if m.virtio[k].Has(space, a) {
          AtMostOneWindow(m, needs, |m.ram|, |m.ram| + 1 + k, space, a);
        }
      }
      return Uart;
    }
    var k := 0;
    while k < |m.virtio|
      invariant k <= |m.virtio| && forall j :: 0 <= j < k ==> !m.virtio[j].Has(space, a)
    {
      if m.virtio[k].Has(space, a) {
        forall j | 0 <= j < |m.virtio| && m.virtio[j].Has(space, a) ensures j == k {
          VirtioAt(m, k);
          VirtioAt(m, j);
          AtMostOneWindow(m, needs, |m.ram| + 1 + j, |m.ram| + 1 + k, space, a);
        }
        return Slot(k);
      }
      k := k + 1;
    }
    return Unmapped;
  }

  /** Base RAM lies outside the hot-plug window, so no block can meet it. */
  lemma RamOutsideHotplug(m: Machine, needs: Needs, i: nat)
    requires Acceptable(m, needs) && i < |m.ram| && m.hotplug.Some?
    ensures var r, h := m.ram[i], m.hotplug.value;
            r.start + r.len <= h.start || h.start + h.len <= r.start
  {
    var ws := Windows(m);
    var last := |ws| - 1;
    assert ws[i] == RamWindows(m.ram)[i];
    assert ws[last] == HotplugWindows(m.hotplug)[0];
    assert ApartAt(ws, i, last);
  }

  /** Base RAM regions are pairwise disjoint. */
  lemma RamApart(m: Machine, needs: Needs, i: nat, j: nat)
    requires Acceptable(m, needs) && i < j < |m.ram|
    ensures m.ram[i].start + m.ram[i].len <= m.ram[j].start || m.ram[j].start + m.ram[j].len <= m.ram[i].start
  {
    var ws := Windows(m);
    assert ws[i] == RamWindows(m.ram)[i] && ws[j] == RamWindows(m.ram)[j];
    assert ApartAt(ws, i, j);
  }
}
