/** One map or unmap transaction over a list of regions: forward in request order,
    and on a failed call backward in reverse order, for any pattern of host failures. */
module Transaction {
  import opened Wrappers
  import opened Errors
  import opened GuestMemory
  import opened Finite
  import opened Mappings

  // ---------------------------------------------------------------------------
  // The three views of memory

  function Lengths(t: map<nat, Region>): map<nat, nat> {
    map a | a in t :: t[a].len
  }

  /** The regions a transaction handles among the first n addresses: fresh
      allocations numbered from `id` for a plug, the device's blocks for an unplug. */
  function Delta(blocks: map<nat, Region>, addresses: seq<nat>, n: nat, plug: bool, size: nat, id: nat): (d: map<nat, Region>)
    requires n <= |addresses| && (plug || FirstN(addresses, n) <= blocks.Keys)
    ensures d.Keys == FirstN(addresses, n)
    ensures !plug ==> forall a :: a in d ==> d[a] == blocks[a]
    ensures plug ==> forall a :: a in d ==> d[a].start == a && d[a].len == size
  {
    if n == 0 then map[]
    else
      var a := addresses[n - 1];
      Delta(blocks, addresses, n - 1, plug, size, id)[a := if plug then Region(a, size, id + n - 1) else blocks[a]]
  }

  /** The regions of a plug, in request order. */
  function FreshRegions(addresses: seq<nat>, n: nat, size: nat, id: nat): (rs: seq<Region>)
    requires n <= |addresses|
    ensures |rs| == n
    ensures forall i :: 0 <= i < n ==> rs[i] == Region(addresses[i], size, id + i)
  {
    if n == 0 then []
    else FreshRegions(addresses, n - 1, size, id) + [Region(addresses[n - 1], size, id + n - 1)]
  }

  lemma {:induction false} DeltaAt(blocks: map<nat, Region>, addresses: seq<nat>, n: nat, size: nat, id: nat, i: nat)
    requires Distinct(addresses) && i < n <= |addresses|
    ensures addresses[i] in Delta(blocks, addresses, n, true, size, id)
    ensures Delta(blocks, addresses, n, true, size, id)[addresses[i]] == Region(addresses[i], size, id + i)
  {
    if i < n - 1 {
      DeltaAt(blocks, addresses, n - 1, size, id, i);
      assert Differ(addresses, i, n - 1);
    }
  }

  /** `t` after the transaction's edit has been applied at `keys` only. */
  function Applied(t: map<nat, Region>, delta: map<nat, Region>, plug: bool, keys: set<nat>): map<nat, Region> {
    if plug then t + (map a | a in delta && a in keys :: delta[a]) else t - keys
  }

  function Uniform(s: set<nat>, size: nat): map<nat, nat> {
    map a | a in s :: size
  }

  /** The view after plugging or unplugging the first n addresses one by one. */
  function Edited(v: View, addresses: seq<nat>, n: nat, plug: bool, size: nat): (w: View)
    requires n <= |addresses|
    ensures w.regions == if plug then v.regions + Uniform(FirstN(addresses, n), size)
                         else v.regions - FirstN(addresses, n)
    ensures !plug ==> w.bytes == v.bytes
  {
    if n == 0 then v
    else
      var w := Edited(v, addresses, n - 1, plug, size);
      if plug then w.Insert(addresses[n - 1], size)
      else View(w.regions - {addresses[n - 1]}, w.bytes)
  }

  /** Plugged blocks read as zero; every other byte keeps its value. */
  lemma {:induction false} EditedBytes(v: View, addresses: seq<nat>, n: nat, plug: bool, size: nat, x: nat)
    requires n <= |addresses|
    ensures Edited(v, addresses, n, plug, size).Byte(x) ==
            if plug && exists i :: 0 <= i < n && addresses[i] <= x < addresses[i] + size then 0 else v.Byte(x)
  {
    if n != 0 {
      EditedBytes(v, addresses, n - 1, plug, size, x);
    }
  }

  // ---------------------------------------------------------------------------
  // Host outcomes of one transaction

  /** The n calls numbered from `from` all succeed. */
  ghost predicate AllSucceed(host: nat -> bool, from: nat, n: nat) {
    n == 0 || (AllSucceed(host, from, n - 1) && host(from + n - 1))
  }

  lemma OneMoreSucceeds(host: nat -> bool, from: nat, n: nat)
    requires AllSucceed(host, from, n) && host(from + n)
    ensures AllSucceed(host, from, n + 1)
  {
    assert from + (n + 1) - 1 == from + n;
  }

  lemma {:induction false} OneFailureSpoils(host: nat -> bool, from: nat, n: nat, i: nat)
    requires i < n && !host(from + i)
    ensures !AllSucceed(host, from, n)
    decreases n
  {
    if i < n - 1 {
      OneFailureSpoils(host, from, n - 1, i);
    }
  }

  ghost predicate Reliable(host: nat -> bool) {
    forall n {:trigger host(n)} :: host(n)
  }

  lemma {:induction false} ReliableSucceeds(host: nat -> bool, from: nat, n: nat)
    requires Reliable(host)
    ensures AllSucceed(host, from, n)
  {
    if n != 0 {
      ReliableSucceeds(host, from, n - 1);
    }
  }

  /** The call that undoes the k-th of `done` steps when the first call was number
      `from`: undo runs in reverse order after the failed call. */
  function UndoCall(from: nat, done: nat, k: nat): nat
    requires k < done
  {
    from + done + 1 + (done - 1 - k)
  }

  /** The addresses numbered j..done whose undo step failed. */
  ghost function Stuck(addresses: seq<nat>, host: nat -> bool, from: nat, done: nat, j: nat): set<nat>
    requires j <= done <= |addresses|
    decreases done - j
  {
    if j == done then {}
    else Stuck(addresses, host, from, done, j + 1) +
         if host(UndoCall(from, done, j)) then {} else {addresses[j]}
  }

  lemma {:induction false} StuckHas(addresses: seq<nat>, host: nat -> bool, from: nat, done: nat, j: nat, x: nat)
    requires j <= done <= |addresses|
    ensures x in Stuck(addresses, host, from, done, j) <==>
            exists k :: j <= k < done && addresses[k] == x && !host(UndoCall(from, done, k))
    decreases done - j
  {
    if j != done {
      StuckHas(addresses, host, from, done, j + 1, x);
    }
  }

  /** The first undo call that failed, of those for steps j..done. */
  function FirstUndo(host: nat -> bool, from: nat, done: nat, j: nat): Option<nat>
    requires j <= done
    decreases done - j
  {
    if j == done then None
    else
      var before := FirstUndo(host, from, done, j + 1);
      if before.Some? then before
      else if host(UndoCall(from, done, j)) then None else Some(UndoCall(from, done, j))
  }

  /** It is reported exactly if something is stuck, and no undo call before it failed. */
  lemma {:induction false} FirstUndoIsFirst(addresses: seq<nat>, host: nat -> bool, from: nat, done: nat, j: nat)
    requires j <= done <= |addresses|
    ensures FirstUndo(host, from, done, j).None? <==> Stuck(addresses, host, from, done, j) == {}
    ensures FirstUndo(host, from, done, j).Some? ==>
              exists k :: && j <= k < done && FirstUndo(host, from, done, j) == Some(UndoCall(from, done, k))
                          && !host(UndoCall(from, done, k))
                          && forall l :: k < l < done ==> host(UndoCall(from, done, l))
    ensures FirstUndo(host, from, done, j).None? ==> forall l :: j <= l < done ==> host(UndoCall(from, done, l))
    decreases done - j
  {
    if j != done {
      FirstUndoIsFirst(addresses, host, from, done, j + 1);
      if FirstUndo(host, from, done, j + 1).None? && !host(UndoCall(from, done, j)) {
        assert FirstUndo(host, from, done, j) == Some(UndoCall(from, done, j));
      }
    }
  }

  /** Every entry of `t` is an entry of `full`. */
  ghost predicate Within(t: map<nat, Region>, full: map<nat, Region>) {
    forall a :: a in t ==> a in full && t[a] == full[a]
  }

  lemma FreeToMap(t: map<nat, Region>, full: map<nat, Region>, a: nat)
    requires TableOk(full) && Within(t, full) && a in full && a !in t
    ensures TableOk(t) && !OverlapsAny(t, full[a])
    ensures full[a].start == a && 0 < full[a].len && a + full[a].len < ADDRESS_LIMIT
  {
    SubtableOk(t, full);
    assert EntryOk(full, a);
    forall b | b in t ensures b + t[b].len <= a || a + full[a].len <= b {
      assert b in full && t[b] == full[b];
      assert Separate(full, a, b) && Separate(full, b, a);
    }
  }

  /** A transaction the mapping table can carry out: a plug adds disjoint regions,
      an unplug removes regions that are mapped. */
  ghost predicate Feasible(t: map<nat, Region>, delta: map<nat, Region>, plug: bool) {
    if plug then t.Keys !! delta.Keys && TableOk(t + delta)
    else TableOk(t) && Within(delta, t)
  }

  lemma AppliedWithin(t: map<nat, Region>, delta: map<nat, Region>, plug: bool, keys: set<nat>)
    requires Feasible(t, delta, plug)
    ensures Within(Applied(t, delta, plug, keys), if plug then t + delta else t)
  {
  }

  lemma AppliedMore(t: map<nat, Region>, delta: map<nat, Region>, plug: bool, keys: set<nat>, a: nat)
    requires Feasible(t, delta, plug) && a in delta && a !in keys
    ensures Applied(t, delta, plug, keys + {a}) ==
            if plug then Applied(t, delta, plug, keys)[a := delta[a]] else Applied(t, delta, plug, keys) - {a}
  {
    var m := Applied(t, delta, plug, keys + {a});
    var n := if plug then Applied(t, delta, plug, keys)[a := delta[a]] else Applied(t, delta, plug, keys) - {a};
    assert m.Keys == n.Keys;
  }

  lemma AppliedLess(t: map<nat, Region>, delta: map<nat, Region>, plug: bool, keys: set<nat>, a: nat)
    requires Feasible(t, delta, plug) && a in delta && a in keys
    ensures Applied(t, delta, plug, keys - {a}) ==
            if plug then Applied(t, delta, plug, keys) - {a} else Applied(t, delta, plug, keys)[a := delta[a]]
  {
    var m := Applied(t, delta, plug, keys - {a});
    var n := if plug then Applied(t, delta, plug, keys) - {a} else Applied(t, delta, plug, keys)[a := delta[a]];
    assert m.Keys == n.Keys;
  }

  /** `regions` lists the transaction's regions in address order of the request. */
  ghost predicate Matching(regions: seq<Region>, addresses: seq<nat>, delta: map<nat, Region>) {
    && |regions| == |addresses| && Distinct(addresses)
    && forall i :: 0 <= i < |regions| ==>
                     && regions[i].start == addresses[i]
                     && addresses[i] in delta && delta[addresses[i]] == regions[i]
  }

  /** One forward step of the transaction: map for a plug, unmap for an unplug. */
  method Do(mapper: MappingTable, region: Region, plug: bool,
            ghost t: map<nat, Region>, ghost delta: map<nat, Region>, ghost keys: set<nat>)
    returns (ok: bool)
    requires mapper.Valid() && Feasible(t, delta, plug) && mapper.table == Applied(t, delta, plug, keys)
    requires region.start in delta && delta[region.start] == region && region.start !in keys
    modifies mapper
    ensures mapper.Valid() && mapper.calls == old(mapper.calls) + 1
    ensures ok == mapper.host(old(mapper.calls))
    ensures mapper.table == Applied(t, delta, plug, if ok then keys + {region.start} else keys)
  {
    AppliedWithin(t, delta, plug, keys);
    AppliedMore(t, delta, plug, keys, region.start);
    var result;
    if plug {
      FreeToMap(mapper.table, t + delta, region.start);
      result := mapper.Map(region);
    } else {
      result := mapper.Unmap(region);
    }
    ok := result.Ok?;
  }

  /** One backward step: the opposite call on a region already handled. */
  method Undo(mapper: MappingTable, region: Region, plug: bool,
              ghost t: map<nat, Region>, ghost delta: map<nat, Region>, ghost keys: set<nat>)
    returns (ok: bool)
    requires mapper.Valid() && Feasible(t, delta, plug) && mapper.table == Applied(t, delta, plug, keys)
    requires region.start in delta && delta[region.start] == region && region.start in keys
    modifies mapper
    ensures mapper.Valid() && mapper.calls == old(mapper.calls) + 1
    ensures ok == mapper.host(old(mapper.calls))
    ensures mapper.table == Applied(t, delta, plug, if ok then keys - {region.start} else keys)
  {
    AppliedWithin(t, delta, plug, keys);
    AppliedLess(t, delta, plug, keys, region.start);
    var result;
    if plug {
      result := mapper.Unmap(region);
    } else {
      FreeToMap(mapper.table, t, region.start);
      result := mapper.Map(region);
    }
    ok := result.Ok?;
  }

  /** Carry out the transaction's calls in order until one fails; `done` counts
      the calls that succeeded. */
  method Forward(mapper: MappingTable, regions: seq<Region>, plug: bool,
                 ghost addresses: seq<nat>, ghost delta: map<nat, Region>)
    returns (done: nat)
    requires mapper.Valid() && Feasible(mapper.table, delta, plug) && Matching(regions, addresses, delta)
    modifies mapper
    ensures mapper.Valid() && done <= |regions|
    ensures AllSucceed(mapper.host, old(mapper.calls), done)
    ensures done < |regions| ==> !mapper.host(old(mapper.calls) + done)
    ensures mapper.calls == old(mapper.calls) + if done < |regions| then done + 1 else done
    ensures mapper.table == Applied(old(mapper.table), delta, plug, FirstN(addresses, done))
  {
    done := 0;
    ghost var t := mapper.table;
    assert mapper.table == Applied(t, delta, plug, {});
    while done < |regions|
      invariant done <= |regions| && mapper.Valid()
      invariant mapper.calls == old(mapper.calls) + done && AllSucceed(mapper.host, old(mapper.calls), done)
      invariant mapper.table == Applied(t, delta, plug, FirstN(addresses, done))
    {
      NextIsNew(addresses, done);
      var ok := Do(mapper, regions[done], plug, t, delta, FirstN(addresses, done));
      if !ok {
        return;
      }
      done := done + 1;
    }
  }

  /** Undo the first `done` steps in reverse order. Every step is attempted; what
      stays applied is exactly where an undo call failed. */
  method Rollback(mapper: MappingTable, regions: seq<Region>, plug: bool, done: nat, ghost from: nat,
                  ghost addresses: seq<nat>, ghost t: map<nat, Region>, ghost delta: map<nat, Region>)
    returns (first: Option<nat>)
    requires mapper.Valid() && Feasible(t, delta, plug) && Matching(regions, addresses, delta)
    requires done <= |regions| && mapper.calls == from + done + 1
    requires mapper.table == Applied(t, delta, plug, FirstN(addresses, done))
    modifies mapper
    ensures mapper.Valid()
    ensures mapper.table == Applied(t, delta, plug, Stuck(addresses, mapper.host, from, done, 0))
    ensures first == FirstUndo(mapper.host, from, done, 0)
  {
    var j: nat := done;
    first := None;
    ghost var rest, stuck := FirstN(addresses, done), {};
    assert stuck == Stuck(addresses, mapper.host, from, done, done);
    assert rest + stuck == rest;
    while j > 0
      invariant j <= done && mapper.Valid() && mapper.calls == from + done + 1 + (done - j)
      invariant rest == FirstN(addresses, j) && stuck == Stuck(addresses, mapper.host, from, done, j)
      invariant mapper.table == Applied(t, delta, plug, rest + stuck)
      invariant first == FirstUndo(mapper.host, from, done, j)
    {
      ghost var a := addresses[j - 1];
      NotStuckYet(addresses, mapper.host, from, done, j - 1);
      var call := mapper.calls;
      var ok := Undo(mapper, regions[j - 1], plug, t, delta, rest + stuck);
      if ok {
        assert rest + stuck - {a} == rest - {a} + stuck;
      } else {
        assert rest + stuck == rest - {a} + (stuck + {a});
        stuck := stuck + {a};
        first := if first.None? then Some(call) else first;
      }
      rest := rest - {a};
      j := j - 1;
    }
    assert rest + stuck == stuck;
  }

  /** The address whose undo comes next is applied, and not among the stuck ones. */
  lemma NotStuckYet(addresses: seq<nat>, host: nat -> bool, from: nat, done: nat, j: nat)
    requires Distinct(addresses) && j < done <= |addresses|
    ensures addresses[j] !in FirstN(addresses, j)
    ensures addresses[j] !in Stuck(addresses, host, from, done, j + 1)
  {
    NextIsNew(addresses, j);
    StuckHas(addresses, host, from, done, j + 1, addresses[j]);
    forall k | j < k < done ensures addresses[k] != addresses[j] {
      assert Differ(addresses, j, k);
    }
  }

  /** The calls stopped at the first failure and every earlier step was undone in
      reverse order; the table differs from `t` exactly where an undo call failed,
      and only then is the outcome fatal; the error names the call that failed and the
      first undo call that did. */
  ghost predicate Aborted(r: Result<bool, MemoryError>, host: nat -> bool, from: nat, addresses: seq<nat>,
                          t: map<nat, Region>, delta: map<nat, Region>, plug: bool, after: map<nat, Region>) {
    exists done {:trigger Stuck(addresses, host, from, done, 0)} ::
      && 0 <= done < |addresses|
      && AllSucceed(host, from, done) && !host(from + done)
      && after == Applied(t, delta, plug, Stuck(addresses, host, from, done, 0))
      && r == match FirstUndo(host, from, done, 0)
              case None => Ok(false)
              case Some(undo) => Err(RollbackFailed(from + done, undo))
  }

  /** An abort without a failed undo call restores the table. */
  lemma CleanAbortRestores(r: Result<bool, MemoryError>, host: nat -> bool, from: nat, addresses: seq<nat>,
                           t: map<nat, Region>, delta: map<nat, Region>, plug: bool, after: map<nat, Region>)
    requires Aborted(r, host, from, addresses, t, delta, plug, after) && r.Ok?
    ensures after == t && !r.value
  {
    var done :| 0 <= done < |addresses| && after == Applied(t, delta, plug, Stuck(addresses, host, from, done, 0)) &&
      FirstUndo(host, from, done, 0).None?;
    FirstUndoIsFirst(addresses, host, from, done, 0);
    assert Applied(t, delta, plug, {}) == t;
  }

  method Execute(mapper: MappingTable, regions: seq<Region>, plug: bool,
                 ghost addresses: seq<nat>, ghost delta: map<nat, Region>)
    returns (r: Result<bool, MemoryError>)
    requires mapper.Valid() && Feasible(mapper.table, delta, plug) && Matching(regions, addresses, delta)
    modifies mapper
    ensures mapper.Valid()
    ensures if AllSucceed(mapper.host, old(mapper.calls), |addresses|)
            then r == Ok(true) && mapper.table == Applied(old(mapper.table), delta, plug, SetOf(addresses))
            else Aborted(r, mapper.host, old(mapper.calls), addresses, old(mapper.table), delta, plug, mapper.table)
  {
    ghost var t, from := mapper.table, mapper.calls;
    var done := Forward(mapper, regions, plug, addresses, delta);
    if done == |regions| {
      return Ok(true);
    }
    OneFailureSpoils(mapper.host, from, |addresses|, done);
    var failed := mapper.calls - 1;
    var undo := Rollback(mapper, regions, plug, done, from, addresses, t, delta);
    r := match undo case None => Ok(false) case Some(first) => Err(RollbackFailed(failed, first));
  }
}
