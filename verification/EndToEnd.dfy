/** Where the pieces meet: an accepted layout gives the address facts that hot-plug
    relies on, and a failed vCPU worker makes the whole run fail. */
module EndToEnd {
  import opened Wrappers
  import opened GuestMemory
  import opened Mappings
  import opened HotplugMemory
  import opened Shutdown
  import L = Layout
  import C = Cpus
  import P = CpuProtocol

  /** The regions are the layout's base RAM. */
  ghost predicate BaseOf(m: L.Machine, regions: seq<Region>) {
    |regions| == |m.ram| && forall i :: 0 <= i < |regions| ==>
                                          regions[i].start == m.ram[i].start && regions[i].len == m.ram[i].len
  }

  lemma {:induction false} LayoutIsLaidOut(m: L.Machine, needs: L.Needs, regions: seq<Region>)
    requires L.Acceptable(m, needs) && BaseOf(m, regions)
    ensures LaidOut(regions)
  {
    forall i | 0 <= i < |regions| ensures 0 < regions[i].len && regions[i].start + regions[i].len < ADDRESS_LIMIT {
      assert L.Windows(m)[i] == L.RamWindows(m.ram)[i];
      assert L.Windows(m)[i].Fits();
    }
    forall i, j | 0 <= i < j < |regions|
      ensures || regions[i].start + regions[i].len <= regions[j].start
              || regions[j].start + regions[j].len <= regions[i].start
    {
      L.RamApart(m, needs, i, j);
    }
  }

  lemma {:induction false} LaidOutTable(regions: seq<Region>, n: nat)
    requires LaidOut(regions) && n <= |regions|
    ensures TableOk(TableOf(regions, n))
  {
    if n != 0 {
      LaidOutTable(regions, n - 1);
      NextRegionFits(regions, n - 1);
      InsertKeepsTable(TableOf(regions, n - 1), regions[n - 1]);
    }
  }

  /** Mapped base RAM is a well-formed table outside the hot-plug window: what every
      hot-plug transaction takes for granted. */
  lemma {:induction false} LayoutSuitsHotplug(m: L.Machine, needs: L.Needs, regions: seq<Region>)
    requires L.Acceptable(m, needs) && BaseOf(m, regions) && m.hotplug.Some?
    ensures var base := TableOf(regions, |regions|);
            TableOk(base) && Outside(base, m.hotplug.value.start, m.hotplug.value.len)
  {
    LayoutIsLaidOut(m, needs, regions);
    LaidOutTable(regions, |regions|);
    var base := TableOf(regions, |regions|);
    forall a | a in base
      ensures a + base[a].len <= m.hotplug.value.start || m.hotplug.value.start + m.hotplug.value.len <= a
    {
      TableOfHas(regions, |regions|, a);
      var i :| 0 <= i < |regions| && regions[i].start == a;
      L.RamOutsideHotplug(m, needs, i);
    }
  }

  /** In every run that comes to its end, a failed vCPU worker makes `run` return an error,
      whatever cleanup comes to: its fault was polled, and is the run loop's result, or
      drained, and is the stop's. No worker is blamed that has not failed. */
  lemma WorkerFailureFailsRun(n: nat, es: seq<C.Step>, k: nat, cleanup: Result<Unit, C.Cause>)
    requires k <= |es| && C.After(C.Initial(n), es, k).vmm == C.Done
    requires cleanup.Err? ==> cleanup.error.Other?
    ensures var s := C.After(C.Initial(n), es, k);
            var r := Outcome(s.result, s.fault, cleanup);
            && (s.erred != {} ==> r.Err?)
            && (s.erred != {} && s.result.Ok? ==> r == s.fault && r.error.Worker?)
            && (r.Err? && r.error.Worker? ==> r.error.cpu in s.erred)
  {
    P.NoFaultLost(n, es, k);
    P.ResultInEveryRun(n, es, k);
  }
}
