/** Unmapping at the end of a VM: every region is attempted, whatever failed before,
    and the first error is the one reported. */
module Teardown {
  import opened Wrappers
  import opened Errors
  import opened GuestMemory
  import opened Finite
  import opened Mappings
  import opened Transaction
  import opened HotplugMemory

  /** The mapping table, the hypervisor calls made and the number of failures. */
  datatype State = State(table: map<nat, Region>, calls: nat, failures: nat)

  function Attempt(s: State, region: Region, host: nat -> bool): State {
    if region.start !in s.table || s.table[region.start] != region then s.(failures := s.failures + 1)
    else if host(s.calls) then State(s.table - {region.start}, s.calls + 1, s.failures)
    else State(s.table, s.calls + 1, s.failures + 1)
  }

  /** The first n regions attempted in order. */
  function AttemptAll(s: State, regions: seq<Region>, n: nat, host: nat -> bool): State
    requires n <= |regions|
  {
    if n == 0 then s else Attempt(AttemptAll(s, regions, n - 1, host), regions[n - 1], host)
  }

  /** The region is in the table, as it is. */
  ghost predicate Holds(t: map<nat, Region>, region: Region) {
    region.start in t && t[region.start] == region
  }

  /** How many of the first n are in the table; only these cost a hypervisor call. */
  ghost function Held(t: map<nat, Region>, regions: seq<Region>, n: nat): nat
    requires n <= |regions|
  {
    if n == 0 then 0 else Held(t, regions, n - 1) + if Holds(t, regions[n - 1]) then 1 else 0
  }

  /** Region k was mapped, and its own hypervisor call succeeded. */
  ghost predicate Freed(t: map<nat, Region>, regions: seq<Region>, host: nat -> bool, from: nat, k: nat)
    requires k < |regions|
  {
    Holds(t, regions[k]) && host(from + Held(t, regions, k))
  }

  /** The addresses of the regions among the first n that were freed. */
  ghost function Released(t: map<nat, Region>, regions: seq<Region>, n: nat, host: nat -> bool, from: nat): set<nat>
    requires n <= |regions|
  {
    if n == 0 then {}
    else Released(t, regions, n - 1, host, from) +
         if Freed(t, regions, host, from, n - 1) then {regions[n - 1].start} else {}
  }

  /** All of the first n were freed. */
  ghost predicate AllFreed(t: map<nat, Region>, regions: seq<Region>, n: nat, host: nat -> bool, from: nat)
    requires n <= |regions|
  {
    n == 0 || (AllFreed(t, regions, n - 1, host, from) && Freed(t, regions, host, from, n - 1))
  }

  lemma {:induction false} ReleasedHas(t: map<nat, Region>, regions: seq<Region>, n: nat, host: nat -> bool, from: nat,
                                       a: nat)
    requires n <= |regions|
    ensures a in Released(t, regions, n, host, from) <==>
            exists k :: 0 <= k < n && regions[k].start == a && Freed(t, regions, host, from, k)
  {
    if n != 0 {
      ReleasedHas(t, regions, n - 1, host, from, a);
    }
  }

  lemma {:induction false} AllFreedHas(t: map<nat, Region>, regions: seq<Region>, n: nat, host: nat -> bool, from: nat)
    requires n <= |regions|
    ensures AllFreed(t, regions, n, host, from) <==> forall k :: 0 <= k < n ==> Freed(t, regions, host, from, k)
  {
    if n != 0 {
      AllFreedHas(t, regions, n - 1, host, from);
    }
  }

  ghost predicate Different(regions: seq<Region>) {
    forall i, j :: 0 <= i < j < |regions| ==> regions[i] != regions[j]
  }

  ghost predicate Mapped(table: map<nat, Region>, regions: seq<Region>) {
    && (forall i :: 0 <= i < |regions| ==> regions[i].start in table && table[regions[i].start] == regions[i])
    && (forall i, j :: 0 <= i < j < |regions| ==> regions[i].start != regions[j].start)
  }

  /** What is still in the table when its turn comes. */
  lemma NotYetReleased(t: map<nat, Region>, regions: seq<Region>, n: nat, host: nat -> bool, from: nat)
    requires n < |regions| && Different(regions) && Holds(t, regions[n])
    ensures regions[n].start !in Released(t, regions, n, host, from)
  {
    ReleasedHas(t, regions, n, host, from, regions[n].start);
  }

  /** Exactly those regions are gone that were mapped and whose own call succeeded,
      whatever the table: also one that a failed rollback has left. */
  lemma {:induction false} TeardownExact(s: State, regions: seq<Region>, n: nat, host: nat -> bool)
    requires n <= |regions| && Different(regions)
    ensures var u := AttemptAll(s, regions, n, host);
            && u.table == s.table - Released(s.table, regions, n, host, s.calls)
            && u.calls == s.calls + Held(s.table, regions, n)
            && s.failures <= u.failures
            && (u.failures == s.failures <==> AllFreed(s.table, regions, n, host, s.calls))
  {
    if n != 0 {
      TeardownExact(s, regions, n - 1, host);
      if Holds(s.table, regions[n - 1]) {
        NotYetReleased(s.table, regions, n - 1, host, s.calls);
      }
    }
  }

  /** A mapped region is gone exactly if its own call succeeded: one failure keeps no
      other region mapped. */
  lemma TeardownAt(t: map<nat, Region>, regions: seq<Region>, host: nat -> bool, from: nat, k: nat)
    requires k < |regions| && Different(regions) && Holds(t, regions[k])
    ensures regions[k].start in t - Released(t, regions, |regions|, host, from) <==>
            !host(from + Held(t, regions, k))
  {
    ReleasedHas(t, regions, |regions|, host, from, regions[k].start);
  }

  /** A host that never fails ends with every region released. */
  lemma TeardownComplete(s: State, regions: seq<Region>, host: nat -> bool)
    requires Mapped(s.table, regions) && Reliable(host)
    ensures AttemptAll(s, regions, |regions|, host).failures == s.failures
    ensures forall i :: 0 <= i < |regions| ==> regions[i].start !in AttemptAll(s, regions, |regions|, host).table
  {
    TeardownExact(s, regions, |regions|, host);
    AllFreedHas(s.table, regions, |regions|, host, s.calls);
    forall i | 0 <= i < |regions| ensures regions[i].start !in AttemptAll(s, regions, |regions|, host).table {
      TeardownAt(s.table, regions, host, s.calls, i);
    }
  }

  /** Attempting two lists is attempting their concatenation. */
  lemma {:induction false} AttemptBoth(s: State, a: seq<Region>, b: seq<Region>, n: nat, host: nat -> bool)
    requires n <= |b|
    ensures AttemptAll(s, a + b, |a| + n, host) == AttemptAll(AttemptAll(s, a, |a|, host), b, n, host)
  {
    if n != 0 {
      AttemptBoth(s, a, b, n - 1, host);
      assert (a + b)[|a| + n - 1] == b[n - 1];
    } else {
      AttemptPrefix(s, a, b, |a|, host);
    }
  }

  lemma {:induction false} AttemptPrefix(s: State, a: seq<Region>, b: seq<Region>, n: nat, host: nat -> bool)
    requires n <= |a|
    ensures AttemptAll(s, a + b, n, host) == AttemptAll(s, a, n, host)
  {
    if n != 0 {
      AttemptPrefix(s, a, b, n - 1, host);
      assert (a + b)[n - 1] == a[n - 1];
    }
  }

  /** Attempt every region; the result is the first error. */
  method UnmapAll(mapper: MappingTable, regions: seq<Region>) returns (r: Result<Unit, MemoryError>)
    requires mapper.Valid()
    modifies mapper
    ensures mapper.Valid()
    ensures var end := AttemptAll(State(old(mapper.table), old(mapper.calls), 0), regions, |regions|, mapper.host);
            mapper.table == end.table && mapper.calls == end.calls && (r.Ok? <==> end.failures == 0)
    ensures r.Err? ==> r.error == Mapping
  {
    r := Ok(Unit);
    ghost var s := State(mapper.table, mapper.calls, 0);
    ghost var failures := 0;
    var i := 0;
    while i < |regions|
      invariant i <= |regions| && mapper.Valid()
      invariant State(mapper.table, mapper.calls, failures) == AttemptAll(s, regions, i, mapper.host)
      invariant r.Ok? <==> failures == 0
      invariant r.Err? ==> r.error == Mapping
    {
      var unmapped := mapper.Unmap(regions[i]);
      if unmapped.Err? {
        failures := failures + 1;
        if r.Ok? {
          r := unmapped;
        }
      }
      i := i + 1;
    }
  }

  /** The regions of a table in address order. */
  method Regions(t: map<nat, Region>) returns (regions: seq<Region>)
    requires forall a :: a in t ==> t[a].start == a
    ensures Mapped(t, regions) && forall a :: a in t ==> exists i :: 0 <= i < |regions| && regions[i] == t[a]
  {
    var keys := Keys(t);
    forall i | 0 <= i < |keys| ensures keys[i] in t {
      FirstNHas(keys, |keys|, keys[i]);
    }
    regions := seq(|keys|, i requires 0 <= i < |keys| => t[keys[i]]);
    forall i, j | 0 <= i < j < |regions| ensures regions[i].start != regions[j].start {
      assert Differ(keys, i, j);
    }
    forall a | a in t ensures exists i :: 0 <= i < |regions| && regions[i] == t[a] {
      FirstNHas(keys, |keys|, a);
      var i :| 0 <= i < |keys| && keys[i] == a;
      assert regions[i] == t[a];
    }
  }

  /** Stop the device: no further target is accepted and every block is unmapped. With
      agreeing tables a reliable host leaves exactly base RAM mapped. */
  method Stop(device: VirtioMem, mapper: MappingTable, ghost base: map<nat, Region>)
    returns (r: Result<Unit, MemoryError>, ghost order: seq<Region>)
    requires device.Valid() && mapper.Valid()
    modifies device.control`lifecycle, device.control`driverReady, mapper
    ensures mapper.Valid() && device.control.lifecycle == Lifecycle.Stopped && !device.control.driverReady
    ensures Mapped(device.blocks, order) && forall a :: a in device.blocks ==> device.blocks[a] in order
    ensures var end := AttemptAll(State(old(mapper.table), old(mapper.calls), 0), order, |order|, mapper.host);
            mapper.table == end.table && mapper.calls == end.calls && (r.Ok? <==> end.failures == 0)
    ensures r.Err? ==> r.error == Mapping
    ensures old(mapper.table) == base + device.blocks && base.Keys !! device.blocks.Keys ==>
              && (forall a :: a in base ==> a in mapper.table && mapper.table[a] == base[a])
              && (Reliable(mapper.host) ==> r.Ok? && mapper.table == base)
  {
    device.control.lifecycle := Lifecycle.Stopped;
    device.control.driverReady := false;
    var regions := Regions(device.blocks);
    ghost var t, calls := mapper.table, mapper.calls;
    order := regions;
    r := UnmapAll(mapper, regions);
    if t == base + device.blocks && base.Keys !! device.blocks.Keys {
      StopExact(base, device.blocks, regions, State(t, calls, 0), mapper.host);
    }
  }

  lemma StopExact(base: map<nat, Region>, blocks: map<nat, Region>, regions: seq<Region>, s: State,
                  host: nat -> bool)
    requires s.table == base + blocks && base.Keys !! blocks.Keys && Mapped(blocks, regions)
    requires forall a :: a in blocks ==> exists i :: 0 <= i < |regions| && regions[i] == blocks[a]
    requires forall a :: a in blocks ==> blocks[a].start == a
    ensures var end := AttemptAll(s, regions, |regions|, host);
            && (forall a :: a in base ==> a in end.table && end.table[a] == base[a])
            && (Reliable(host) ==> end.failures == s.failures && end.table == base)
  {
    var end := AttemptAll(s, regions, |regions|, host);
    TeardownExact(s, regions, |regions|, host);
    forall a | a in base ensures a in end.table {
      ReleasedHas(s.table, regions, |regions|, host, s.calls, a);
    }
    if Reliable(host) {
      TeardownComplete(s, regions, host);
      forall a | a in blocks ensures a !in end.table {
        var i :| 0 <= i < |regions| && regions[i] == blocks[a];
      }
      assert end.table == base;
    }
  }

  /** Publish driver readiness and pick up a new target, which is a configuration
      change for the guest exactly when it differs from the last one. */
  method SyncTarget(device: VirtioMem, ready: bool) returns (changed: bool)
    modifies device`requested, device`generation, device.control`driverReady
    ensures device.control.driverReady == ready
    ensures device.requested == device.control.requestedSizeMib * MIB
    ensures changed <==> device.requested != old(device.requested)
    ensures device.generation == if changed then Next32(old(device.generation)) else old(device.generation)
  {
    device.control.driverReady := ready;
    var requested := device.control.requestedSizeMib * MIB;
    if requested == device.requested {
      return false;
    }
    device.requested := requested;
    device.generation := Next32(device.generation);
    return true;
  }
}
