/** The hypervisor mapping table. It owns every mapped allocation and rejects
    overlapping maps by looking only at the last entry below the new end. */
module Mappings {
  import opened Wrappers
  import opened Errors
  import opened GuestMemory

  /** A guest region and the host allocation that backs it. */
  datatype Region = Region(start: nat, len: nat, alloc: nat)

  ghost predicate EntryOk(t: map<nat, Region>, a: nat) {
    a in t ==> t[a].start == a && 0 < t[a].len && a + t[a].len < ADDRESS_LIMIT
  }

  ghost predicate Separate(t: map<nat, Region>, a: nat, b: nat) {
    a in t && b in t && a < b ==> a + t[a].len <= b
  }

  /** Nonempty, representable, pairwise disjoint entries keyed by their start. */
  ghost predicate TableOk(t: map<nat, Region>) {
    && (forall a {:trigger EntryOk(t, a)} :: EntryOk(t, a))
    && (forall a, b {:trigger Separate(t, a, b)} :: Separate(t, a, b))
  }

  /** Some entry shares a byte with the region. */
  ghost predicate OverlapsAny(t: map<nat, Region>, region: Region) {
    exists a :: a in t && a < region.start + region.len && a + t[a].len > region.start
  }

  lemma {:induction false} MaximumExists(s: set<nat>)
    requires s != {}
    ensures exists m :: m in s && forall x :: x in s ==> x <= m
  {
    var x :| x in s;
    if s != {x} {
      MaximumExists(s - {x});
      var m :| m in s - {x} && forall y :: y in s - {x} ==> y <= m;
      assert forall y :: y in s ==> y == x || y in s - {x};
      if x <= m {
        assert forall y :: y in s ==> y <= m;
      } else {
        assert forall y :: y in s ==> y <= x;
      }
    }
  }

  function Maximum(s: set<nat>): (m: nat)
    requires s != {}
    ensures m in s && forall x :: x in s ==> x <= m
  {
    MaximumExists(s);
    var m :| m in s && forall x :: x in s ==> x <= m;
    m
  }

  function Below(t: map<nat, Region>, end: nat): set<nat> {
    set a | a in t && a < end
  }

  /** The last key below `end`. */
  function LastBelow(t: map<nat, Region>, end: nat): Option<nat> {
    if Below(t, end) == {} then None else Some(Maximum(Below(t, end)))
  }

  predicate LastBelowOverlaps(t: map<nat, Region>, region: Region) {
    var last := LastBelow(t, region.start + region.len);
    last.Some? && last.value + t[last.value].len > region.start
  }

  /** Entries are disjoint, so testing the last one below the end tests them all. */
  lemma PredecessorTestIsComplete(t: map<nat, Region>, region: Region)
    requires TableOk(t)
    ensures LastBelowOverlaps(t, region) <==> OverlapsAny(t, region)
  {
    var end := region.start + region.len;
    if OverlapsAny(t, region) {
      var a :| a in t && a < end && a + t[a].len > region.start;
      assert a in Below(t, end);
      var last := LastBelow(t, end).value;
      assert a <= last;
      assert EntryOk(t, last) && Separate(t, a, last);
    }
  }

  lemma InsertKeepsTable(t: map<nat, Region>, region: Region)
    requires TableOk(t) && 0 < region.len && region.start + region.len < ADDRESS_LIMIT
    requires !OverlapsAny(t, region)
    ensures TableOk(t[region.start := region])
  {
    var u := t[region.start := region];
    assert forall a :: a in t ==> a + t[a].len <= region.start || region.start + region.len <= a;
    forall a ensures EntryOk(u, a) {
      assert EntryOk(t, a);
    }
    forall a, b ensures Separate(u, a, b) {
      assert Separate(t, a, b);
    }
  }

  lemma SubtableOk(t: map<nat, Region>, full: map<nat, Region>)
    requires TableOk(full) && forall a :: a in t ==> a in full && t[a] == full[a]
    ensures TableOk(t)
  {
    forall a ensures EntryOk(t, a) {
      assert EntryOk(full, a);
    }
    forall a, b ensures Separate(t, a, b) {
      assert Separate(full, a, b);
    }
  }

  class MappingTable {
    var table: map<nat, Region>
    /** Whether the n-th hypervisor call succeeds: an arbitrary pattern of failures. */
    const host: nat -> bool
    var calls: nat

    ghost predicate Valid()
      reads this
    {
      TableOk(table)
    }

    constructor (host: nat -> bool)
      ensures Valid() && table == map[] && calls == 0 && this.host == host
    {
      table, calls := map[], 0;
      this.host := host;
    }

    /** Maps a region exactly when it fits, meets no entry and the host agrees. */
    method Map(region: Region) returns (r: Result<Unit, MemoryError>)
      requires Valid() && 0 < region.len
      modifies this
      ensures Valid()
      ensures r.Ok? <==> && region.start + region.len < ADDRESS_LIMIT
                         && !OverlapsAny(old(table), region)
                         && host(old(calls))
      ensures table == if r.Ok? then old(table)[region.start := region] else old(table)
      ensures calls == old(calls) +
                       if region.start + region.len < ADDRESS_LIMIT && !OverlapsAny(old(table), region)
                       then 1 else 0
      ensures r.Err? ==> r.error == Mapping
    {
      if region.start + region.len >= ADDRESS_LIMIT {
        return Err(Mapping);
      }
      PredecessorTestIsComplete(table, region);
      var last := LastBelow(table, region.start + region.len);
      if last.Some? && last.value + table[last.value].len > region.start {
        return Err(Mapping);
      }
      var ok := host(calls);
      calls := calls + 1;
      if !ok {
        return Err(Mapping);
      }
      InsertKeepsTable(table, region);
      table := table[region.start := region];
      return Ok(Unit);
    }

    /** Releases an entry exactly when address, length and allocation match and
        the host agrees; otherwise the table keeps the allocation. */
    method Unmap(region: Region) returns (r: Result<Unit, MemoryError>)
      requires Valid()
      modifies this
      ensures Valid()
      ensures r.Ok? <==> && region.start in old(table)
                         && old(table)[region.start] == region
                         && host(old(calls))
      ensures table == if r.Ok? then old(table) - {region.start} else old(table)
      ensures calls == old(calls) +
                       if region.start in old(table) && old(table)[region.start] == region then 1 else 0
      ensures r.Err? ==> r.error == Mapping
    {
      assert EntryOk(table, region.start);
      if region.start !in table || table[region.start].len != region.len {
        return Err(Mapping);
      }
      if table[region.start].alloc != region.alloc {
        return Err(Mapping);
      }
      var ok := host(calls);
      calls := calls + 1;
      if !ok {
        return Err(Mapping);
      }
      SubtableOk(table - {region.start}, table);
      table := table - {region.start};
      return Ok(Unit);
    }
  }
}
