/** Start-up mapping of base RAM and the cleanup that undoes it from wherever start-up
    or the run loop ended, with the order in which errors are reported. */
module Shutdown {
  import opened Wrappers
  import opened Errors
  import opened GuestMemory
  import opened Mappings
  import opened Transaction
  import opened Finite
  import opened HotplugMemory
  import opened Teardown

  /** The first n regions as a mapping table. */
  ghost function TableOf(regions: seq<Region>, n: nat): map<nat, Region>
    requires n <= |regions|
  {
    if n == 0 then map[] else TableOf(regions, n - 1)[regions[n - 1].start := regions[n - 1]]
  }

  /** Nonempty, representable and pairwise disjoint, as an accepted layout gives them. */
  ghost predicate LaidOut(regions: seq<Region>) {
    && (forall i :: 0 <= i < |regions| ==> 0 < regions[i].len && regions[i].start + regions[i].len < ADDRESS_LIMIT)
    && (forall i, j :: 0 <= i < j < |regions| ==>
                         || regions[i].start + regions[i].len <= regions[j].start
                         || regions[j].start + regions[j].len <= regions[i].start)
  }

  lemma {:induction false} TableOfHas(regions: seq<Region>, n: nat, a: nat)
    requires n <= |regions| && LaidOut(regions)
    ensures a in TableOf(regions, n) <==> exists i :: 0 <= i < n && regions[i].start == a
    ensures forall i :: 0 <= i < n && regions[i].start == a ==> TableOf(regions, n)[a] == regions[i]
  {
    if n != 0 {
      TableOfHas(regions, n - 1, a);
    }
  }

  lemma NextRegionFits(regions: seq<Region>, n: nat)
    requires n < |regions| && LaidOut(regions)
    ensures !OverlapsAny(TableOf(regions, n), regions[n])
  {
    forall a | a in TableOf(regions, n)
      ensures var e := TableOf(regions, n)[a]; a >= regions[n].start + regions[n].len || a + e.len <= regions[n].start
    {
      TableOfHas(regions, n, a);
    }
  }

  /** Map base RAM region by region, looking for a stop request before each: whatever
      ends it early, exactly the first `mapped` regions are mapped. */
  method MapBase(mapper: MappingTable, regions: seq<Region>, stopping: nat -> bool)
    returns (mapped: nat, r: Result<bool, MemoryError>)
    requires mapper.Valid() && mapper.table == map[] && LaidOut(regions)
    modifies mapper
    ensures mapper.Valid() && mapped <= |regions| && mapper.table == TableOf(regions, mapped)
    ensures r == Ok(true) ==> mapped == |regions|
    ensures r == Ok(false) ==> mapped < |regions| && stopping(mapped)
    ensures r.Err? ==> mapped < |regions| && !mapper.host(old(mapper.calls) + mapped)
  {
    mapped := 0;
    while mapped < |regions|
      invariant mapped <= |regions| && mapper.Valid() && mapper.table == TableOf(regions, mapped)
      invariant mapper.calls == old(mapper.calls) + mapped
    {
      if stopping(mapped) {
        return mapped, Ok(false);
      }
      NextRegionFits(regions, mapped);
      var done := mapper.Map(regions[mapped]);
      if done.Err? {
        return mapped, Err(done.error);
      }
      mapped := mapped + 1;
    }
    return mapped, Ok(true);
  }

  // ---------------------------------------------------------------------------
  // Cleanup

  datatype CleanupError = Flush(error: DeviceError) | Unmap(refused: MemoryError)

  /** The first error of a list of results. */
  function FirstError<E>(results: seq<Result<Unit, E>>): Result<Unit, E> {
    if results == [] then Ok(Unit)
    else if results[0].Err? then results[0]
    else FirstError(results[1..])
  }

  lemma {:induction false} FirstErrorIsEarliest<E>(results: seq<Result<Unit, E>>)
    ensures FirstError(results).Ok? <==> forall i :: 0 <= i < |results| ==> results[i].Ok?
    ensures FirstError(results).Err? ==>
              exists i :: 0 <= i < |results| && results[i] == FirstError(results) &&
                          forall j :: 0 <= j < i ==> results[j].Ok?
  {
    if results != [] && results[0].Ok? {
      FirstErrorIsEarliest(results[1..]);
      assert forall i :: 0 <= i < |results[1..]| ==> results[1..][i] == results[i + 1];
      if FirstError(results[1..]).Err? {
        var i :| 0 <= i < |results[1..]| && results[1..][i] == FirstError(results[1..]) &&
          forall j :: 0 <= j < i ==> results[1..][j].Ok?;
        assert results[i + 1] == FirstError(results);
        forall j | 0 <= j < i + 1 ensures results[j].Ok? {
          if j != 0 {
            assert results[1..][j - 1] == results[j];
          }
        }
      }
    }
  }

  /** What mapping work is left: base RAM so far mapped, and the plugged blocks. */
  ghost predicate Outstanding(table: map<nat, Region>, base: seq<Region>, mapped: nat, blocks: map<nat, Region>)
    requires mapped <= |base|
  {
    table == TableOf(base, mapped) + blocks && TableOf(base, mapped).Keys !! blocks.Keys
  }

  ghost function BlocksOf(mem: Option<VirtioMem>): map<nat, Region>
    reads if mem.Some? then {mem.value} else {}
  {
    if mem.None? then map[] else mem.value.blocks
  }

  ghost function ControlOf(mem: Option<VirtioMem>): set<MemoryControl> {
    if mem.None? then {} else {mem.value.control}
  }

  /** Every block is listed once. */
  ghost predicate Lists(order: seq<Region>, blocks: map<nat, Region>) {
    Mapped(blocks, order) && forall a :: a in blocks ==> blocks[a] in order
  }

  /** Flush the devices in order; the result is the first error. */
  method FlushAll(flushes: seq<Result<Unit, DeviceError>>) returns (r: Result<Unit, DeviceError>)
    ensures r == FirstError(flushes)
  {
    r := Ok(Unit);
    var i := 0;
    while i < |flushes|
      invariant i <= |flushes|
      invariant FirstError(flushes) == if r.Err? then r else FirstError(flushes[i..])
    {
      if flushes[i].Err? && r.Ok? {
        r := flushes[i];
      }
      i := i + 1;
    }
    assert r.Ok? ==> r.value.Unit?;
  }

  /** Unmap every block, if there is a memory device, then the base RAM that was mapped.
      All of it is attempted whatever fails, and whatever the table is: one region's
      failure keeps no other mapped. */
  method UnmapEverything(mem: Option<VirtioMem>, mapper: MappingTable, base: seq<Region>, mapped: nat)
    returns (r: Result<Unit, MemoryError>, ghost order: seq<Region>)
    requires mapper.Valid() && (mem.Some? ==> mem.value.Valid()) && LaidOut(base) && mapped <= |base|
    requires forall i :: 0 <= i < mapped ==> base[i].start !in BlocksOf(mem)
    modifies mapper, ControlOf(mem)`lifecycle, ControlOf(mem)`driverReady
    ensures mapper.Valid() && (mem.Some? ==> mem.value.control.lifecycle == Lifecycle.Stopped)
    ensures Lists(order, BlocksOf(mem)) && Different(order + base[..mapped])
    ensures var all, t, calls := order + base[..mapped], old(mapper.table), old(mapper.calls);
            && mapper.table == t - Released(t, all, |all|, mapper.host, calls)
            && (r.Ok? <==> AllFreed(t, all, |all|, mapper.host, calls))
  {
    ghost var t, calls := mapper.table, mapper.calls;
    r, order := Ok(Unit), [];
    if mem.Some? {
      r, order := Stop(mem.value, mapper, map[]);
    }
    var unmapped := UnmapAll(mapper, base[..mapped]);
    if unmapped.Err? && r.Ok? {
      r := unmapped;
    }
    assert r.Ok? ==> r.value.Unit?;
    AllDifferent(order, BlocksOf(mem), base, mapped);
    BothExact(t, calls, order, base[..mapped], mapper.host);
  }

  /** Unmapping one list and then another is unmapping their concatenation. */
  lemma BothExact(t: map<nat, Region>, calls: nat, order: seq<Region>, rest: seq<Region>, host: nat -> bool)
    requires Different(order + rest)
    ensures var first := AttemptAll(State(t, calls, 0), order, |order|, host);
            var second := AttemptAll(State(first.table, first.calls, 0), rest, |rest|, host);
            var all := order + rest;
            && second.table == t - Released(t, all, |all|, host, calls)
            && (first.failures == 0 && second.failures == 0 <==> AllFreed(t, all, |all|, host, calls))
  {
    var first := AttemptAll(State(t, calls, 0), order, |order|, host);
    AttemptBoth(State(t, calls, 0), order, rest, |rest|, host);
    FailuresAdd(State(first.table, first.calls, 0), rest, |rest|, host, first.failures);
    TeardownExact(State(t, calls, 0), order + rest, |order + rest|, host);
  }

  lemma AllDifferent(order: seq<Region>, blocks: map<nat, Region>, base: seq<Region>, mapped: nat)
    requires Lists(order, blocks) && LaidOut(base) && mapped <= |base|
    requires forall i :: 0 <= i < mapped ==> base[i].start !in blocks
    ensures Different(order + base[..mapped])
  {
    var all := order + base[..mapped];
    forall i, j | 0 <= i < j < |all| ensures all[i] != all[j] {
      if j >= |order| {
        assert all[j] == base[j - |order|];
        if i >= |order| {
          assert all[i] == base[i - |order|];
        }
      }
    }
  }

  /** A region that was mapped stays exactly if its own call failed; the calls are counted
      over the regions that are mapped at all. */
  ghost predicate EachByItsOwnCall(t: map<nat, Region>, u: map<nat, Region>, all: seq<Region>, host: nat -> bool,
                                   from: nat)
  {
    forall k {:trigger OwnCall(t, u, all, host, from, k)} :: 0 <= k < |all| && Holds(t, all[k]) ==>
                                                               OwnCall(t, u, all, host, from, k)
  }

  ghost predicate OwnCall(t: map<nat, Region>, u: map<nat, Region>, all: seq<Region>, host: nat -> bool, from: nat,
                          k: nat)
    requires k < |all|
  {
    all[k].start in u <==> !host(from + Held(t, all, k))
  }

  lemma ReleasedByOwnCalls(t: map<nat, Region>, all: seq<Region>, host: nat -> bool, from: nat)
    requires Different(all)
    ensures EachByItsOwnCall(t, t - Released(t, all, |all|, host, from), all, host, from)
  {
    forall k | 0 <= k < |all| && Holds(t, all[k])
      ensures OwnCall(t, t - Released(t, all, |all|, host, from), all, host, from, k)
    {
      TeardownAt(t, all, host, from, k);
    }
  }

  /** Flush every device, unmap every block, then unmap the base RAM that was mapped.
      Every step runs whatever failed before, also after a failed rollback, and the
      first error in that order is kept. A reliable host whose table was in step is left
      with nothing mapped. */
  method Cleanup(flushes: seq<Result<Unit, DeviceError>>, mem: Option<VirtioMem>, mapper: MappingTable,
                 base: seq<Region>, mapped: nat)
    returns (r: Result<Unit, CleanupError>, ghost order: seq<Region>)
    requires mapper.Valid() && (mem.Some? ==> mem.value.Valid()) && LaidOut(base) && mapped <= |base|
    requires forall i :: 0 <= i < mapped ==> base[i].start !in BlocksOf(mem)
    modifies mapper, ControlOf(mem)`lifecycle, ControlOf(mem)`driverReady
    ensures mapper.Valid() && (mem.Some? ==> mem.value.control.lifecycle == Lifecycle.Stopped)
    ensures Lists(order, BlocksOf(mem)) && Different(order + base[..mapped])
    ensures var all, t, calls := order + base[..mapped], old(mapper.table), old(mapper.calls);
            && mapper.table == t - Released(t, all, |all|, mapper.host, calls)
            && EachByItsOwnCall(t, mapper.table, all, mapper.host, calls)
            && (r.Ok? <==> FirstError(flushes).Ok? && AllFreed(t, all, |all|, mapper.host, calls))
    ensures r.Err? && r.error.Flush? <==> FirstError(flushes).Err?
    ensures r.Err? && r.error.Flush? ==> Err(r.error.error) == FirstError(flushes)
    ensures Reliable(mapper.host) && old(Outstanding(mapper.table, base, mapped, BlocksOf(mem))) ==>
              mapper.table == map[] && (r.Ok? <==> FirstError(flushes).Ok?)
  {
    ghost var t, calls := mapper.table, mapper.calls;
    var flushed := FlushAll(flushes);
    var unmapped;
    unmapped, order := UnmapEverything(mem, mapper, base, mapped);
    ReleasedByOwnCalls(t, order + base[..mapped], mapper.host, calls);
    r := if flushed.Err? then Err(Flush(flushed.error))
         else if unmapped.Err? then Err(Unmap(unmapped.error)) else Ok(Unit);
    if Reliable(mapper.host) && Outstanding(t, base, mapped, BlocksOf(mem)) {
      OutstandingReleased(t, order, BlocksOf(mem), base, mapped, mapper.host, calls);
    }
  }

  /** Failures before a list of attempts only add to its own. */
  lemma {:induction false} FailuresAdd(s: State, regions: seq<Region>, n: nat, host: nat -> bool, more: nat)
    requires n <= |regions| && s.failures == 0
    ensures var a, b := AttemptAll(s, regions, n, host), AttemptAll(s.(failures := more), regions, n, host);
            b == a.(failures := a.failures + more)
  {
    if n != 0 {
      FailuresAdd(s, regions, n - 1, host, more);
    }
  }

  /** The list of attempts covers a table that is in step. */
  lemma OutstandingListed(t: map<nat, Region>, order: seq<Region>, blocks: map<nat, Region>, base: seq<Region>,
                          mapped: nat)
    requires Lists(order, blocks) && LaidOut(base) && mapped <= |base| && Outstanding(t, base, mapped, blocks)
    requires forall a :: a in blocks ==> blocks[a].start == a
    ensures var all := order + base[..mapped];
            && (forall k :: 0 <= k < |all| ==> Holds(t, all[k]))
            && (forall a :: a in t ==> exists k :: 0 <= k < |all| && all[k].start == a)
  {
    var all := order + base[..mapped];
    forall k | 0 <= k < |all| ensures Holds(t, all[k]) {
      if k >= |order| {
        assert all[k] == base[k - |order|];
        TableOfHas(base, mapped, all[k].start);
      }
    }
    forall a | a in t ensures exists k :: 0 <= k < |all| && all[k].start == a {
      if a in blocks {
        var k :| 0 <= k < |order| && order[k] == blocks[a];
        assert all[k].start == a;
      } else {
        TableOfHas(base, mapped, a);
        var i :| 0 <= i < mapped && base[i].start == a;
        assert all[|order| + i].start == a;
      }
    }
  }

  /** If every attempt's own call succeeds, a table in step ends empty. */
  lemma OutstandingReleased(t: map<nat, Region>, order: seq<Region>, blocks: map<nat, Region>, base: seq<Region>,
                            mapped: nat, host: nat -> bool, from: nat)
    requires Lists(order, blocks) && LaidOut(base) && mapped <= |base| && Outstanding(t, base, mapped, blocks)
    requires forall a :: a in blocks ==> blocks[a].start == a
    requires Different(order + base[..mapped]) && Reliable(host)
    ensures var all := order + base[..mapped];
            t - Released(t, all, |all|, host, from) == map[] && AllFreed(t, all, |all|, host, from)
  {
    var all := order + base[..mapped];
    OutstandingListed(t, order, blocks, base, mapped);
    AllFreedHas(t, all, |all|, host, from);
    forall a | a in t ensures a in Released(t, all, |all|, host, from) {
      ReleasedHas(t, all, |all|, host, from, a);
    }
  }

  /** The attempts are exactly the entries of the table. */
  ghost predicate ListsTable(t: map<nat, Region>, all: seq<Region>) {
    && (forall k :: 0 <= k < |all| ==> Holds(t, all[k]))
    && (forall a :: a in t ==> exists k :: 0 <= k < |all| && all[k].start == a)
  }

  /** In a table that holds all of them, the k-th region has the k-th call. */
  lemma {:induction false} HeldInStep(t: map<nat, Region>, all: seq<Region>, k: nat)
    requires k <= |all| && forall i :: 0 <= i < k ==> Holds(t, all[i])
    ensures Held(t, all, k) == k
  {
    if k != 0 {
      HeldInStep(t, all, k - 1);
    }
  }

  /** In a table that is in step, region k stays exactly if call k of the cleanup failed. */
  lemma InStepByNumber(t: map<nat, Region>, u: map<nat, Region>, all: seq<Region>, host: nat -> bool, from: nat, k: nat)
    requires ListsTable(t, all) && EachByItsOwnCall(t, u, all, host, from) && k < |all|
    ensures all[k].start in u <==> !host(from + k)
  {
    HeldInStep(t, all, k);
    assert Holds(t, all[k]) && OwnCall(t, u, all, host, from, k);
  }

  /** After a failed plug whose undo was stuck, a cleanup whose calls succeed leaves exactly
      the stuck regions mapped: the device knows nothing of them. */
  lemma StuckPlugRemains(t: map<nat, Region>, delta: map<nat, Region>, stuck: set<nat>, all: seq<Region>,
                         host: nat -> bool, from: nat)
    requires ListsTable(t, all) && Different(all) && delta.Keys !! t.Keys && forall c :: from <= c ==> host(c)
    ensures var after := Applied(t, delta, true, stuck);
            && after - Released(after, all, |all|, host, from) == (map a | a in delta && a in stuck :: delta[a])
            && AllFreed(after, all, |all|, host, from)
  {
    var after := Applied(t, delta, true, stuck);
    assert forall k :: 0 <= k < |all| ==> Holds(t, all[k]) && Holds(after, all[k]);
    AllFreedHas(after, all, |all|, host, from);
    forall a | a in after ensures a in Released(after, all, |all|, host, from) <==> a in t {
      ReleasedHas(after, all, |all|, host, from, a);
    }
  }

  /** After a failed unplug it leaves nothing mapped, and reports the blocks that it found
      missing. */
  lemma StuckUnplugIsMissing(t: map<nat, Region>, delta: map<nat, Region>, stuck: set<nat>, all: seq<Region>,
                             host: nat -> bool, from: nat)
    requires ListsTable(t, all) && Different(all) && stuck <= t.Keys && forall c :: from <= c ==> host(c)
    ensures var after := Applied(t, delta, false, stuck);
            && after - Released(after, all, |all|, host, from) == map[]
            && (AllFreed(after, all, |all|, host, from) <==> stuck == {})
  {
    var after := Applied(t, delta, false, stuck);
    AllFreedHas(after, all, |all|, host, from);
    forall a | a in after ensures a in Released(after, all, |all|, host, from) {
      ReleasedHas(after, all, |all|, host, from, a);
      var k :| 0 <= k < |all| && all[k].start == a;
      assert Holds(t, all[k]) && Holds(after, all[k]);
    }
    if a :| a in stuck {
      var k :| 0 <= k < |all| && all[k].start == a;
      assert Holds(t, all[k]) && !Freed(after, all, host, from, k);
    }
    forall k | 0 <= k < |all| && stuck == {} ensures Freed(after, all, host, from, k) {
      assert after == t && Holds(t, all[k]);
    }
  }

  /** What a cleanup whose calls all succeed leaves after a failed rollback. */
  lemma CleanupAfterFailedRollback(r: Result<bool, MemoryError>, host: nat -> bool, from: nat, addresses: seq<nat>,
                                   t: map<nat, Region>, delta: map<nat, Region>, plug: bool, after: map<nat, Region>,
                                   all: seq<Region>, calls: nat)
    requires Aborted(r, host, from, addresses, t, delta, plug, after) && r.Err?
    requires if plug then delta.Keys !! t.Keys else SetOf(addresses) <= t.Keys
    requires ListsTable(t, all) && Different(all) && forall c :: calls <= c ==> host(c)
    ensures exists done {:trigger Stuck(addresses, host, from, done, 0)} ::
              && 0 <= done < |addresses|
              && var stuck := Stuck(addresses, host, from, done, 0);
                 && stuck != {}
                 && after - Released(after, all, |all|, host, calls) ==
                    (if plug then map a | a in delta && a in stuck :: delta[a] else map[])
                 && (AllFreed(after, all, |all|, host, calls) <==> plug)
  {
    var done :| 0 <= done < |addresses| && after == Applied(t, delta, plug, Stuck(addresses, host, from, done, 0)) &&
      FirstUndo(host, from, done, 0).Some?;
    FirstUndoIsFirst(addresses, host, from, done, 0);
    var stuck := Stuck(addresses, host, from, done, 0);
    if plug {
      StuckPlugRemains(t, delta, stuck, all, host, calls);
    } else {
      forall a | a in stuck ensures a in t {
        StuckHas(addresses, host, from, done, 0, a);
        FirstNHas(addresses, |addresses|, a);
      }
      StuckUnplugIsMissing(t, delta, stuck, all, host, calls);
    }
  }

  /** The run result: the run loop's error, else the vCPU fault, else the cleanup error. */
  function Outcome<E>(result: Result<Unit, E>, fault: Result<Unit, E>, cleanup: Result<Unit, E>): (r: Result<Unit, E>)
    ensures r.Ok? <==> result.Ok? && fault.Ok? && cleanup.Ok?
    ensures result.Err? ==> r == result
    ensures result.Ok? && fault.Err? ==> r == fault
    ensures result.Ok? && fault.Ok? && cleanup.Err? ==> r == cleanup
  {
    var all := [result, fault, cleanup];
    assert all[1..] == [fault, cleanup] && all[1..][1..] == [cleanup] && all[1..][1..][1..] == [];
    assert FirstError(all[1..][1..]).Ok? <==> cleanup.Ok?;
    assert FirstError(all[1..]) == if fault.Err? then fault else FirstError(all[1..][1..]);
    FirstError(all)
  }
}
