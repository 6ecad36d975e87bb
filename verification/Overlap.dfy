/** The overlap test of a slice list: sort by start and end, then compare neighbours. */
module Overlap {
  import opened GuestMemory
  import opened Finite
  import opened Buffers

  predicate MeetsNone(r: Range, ss: seq<Range>) {
    ss == [] || (!r.Meets(ss[0]) && MeetsNone(r, ss[1..]))
  }

  /** No two members meet. */
  predicate Separated(ss: seq<Range>) {
    ss == [] || (MeetsNone(ss[0], ss[1..]) && Separated(ss[1..]))
  }

  lemma {:induction false} MeetsNoneAll(r: Range, ss: seq<Range>)
    ensures MeetsNone(r, ss) <==> forall i :: 0 <= i < |ss| ==> !r.Meets(ss[i])
  {
    if ss != [] {
      MeetsNoneAll(r, ss[1..]);
      assert forall i :: 0 < i < |ss| ==> ss[i] == ss[1..][i - 1];
    }
  }

  lemma {:induction false} SeparatedPairs(ss: seq<Range>)
    ensures Separated(ss) <==> forall i, j :: 0 <= i < j < |ss| ==> !ss[i].Meets(ss[j])
  {
    if ss != [] {
      MeetsNoneAll(ss[0], ss[1..]);
      SeparatedPairs(ss[1..]);
      assert forall i :: 0 < i < |ss| ==> ss[i] == ss[1..][i - 1];
    }
  }

  // ---------------------------------------------------------------------------
  // Sorting keeps what meets

  /** Order by start, then by end. */
  predicate Before(a: Range, b: Range) {
    a.start < b.start || (a.start == b.start && a.len <= b.len)
  }

  predicate Sorted(ss: seq<Range>) {
    |ss| < 2 || (Before(ss[0], ss[1]) && Sorted(ss[1..]))
  }

  function Insert(r: Range, ss: seq<Range>): (t: seq<Range>)
    ensures |t| == |ss| + 1 && (t[0] == r || (ss != [] && t[0] == ss[0]))
  {
    if ss == [] || Before(r, ss[0]) then [r] + ss else [ss[0]] + Insert(r, ss[1..])
  }

  function Sort(ss: seq<Range>): seq<Range> {
    if ss == [] then [] else Insert(ss[0], Sort(ss[1..]))
  }

  lemma {:induction false} InsertSorted(r: Range, ss: seq<Range>)
    requires Sorted(ss)
    ensures Sorted(Insert(r, ss))
  {
    if ss == [] || Before(r, ss[0]) {
      assert ([r] + ss)[1..] == ss;
    } else {
      InsertSorted(r, ss[1..]);
      assert ([ss[0]] + Insert(r, ss[1..]))[1..] == Insert(r, ss[1..]);
    }
  }

  lemma {:induction false} InsertNone(x: Range, r: Range, ss: seq<Range>)
    ensures MeetsNone(x, Insert(r, ss)) <==> !x.Meets(r) && MeetsNone(x, ss)
  {
    if ss == [] || Before(r, ss[0]) {
      assert ([r] + ss)[1..] == ss;
    } else {
      InsertNone(x, r, ss[1..]);
      assert ([ss[0]] + Insert(r, ss[1..]))[1..] == Insert(r, ss[1..]);
    }
  }

  lemma {:induction false} InsertSeparated(r: Range, ss: seq<Range>)
    ensures Separated(Insert(r, ss)) <==> MeetsNone(r, ss) && Separated(ss)
  {
    if ss == [] || Before(r, ss[0]) {
      assert ([r] + ss)[1..] == ss;
    } else {
      InsertSeparated(r, ss[1..]);
      InsertNone(ss[0], r, ss[1..]);
      assert ([ss[0]] + Insert(r, ss[1..]))[1..] == Insert(r, ss[1..]);
    }
  }

  lemma {:induction false} SortNone(x: Range, ss: seq<Range>)
    ensures MeetsNone(x, Sort(ss)) <==> MeetsNone(x, ss)
  {
    if ss != [] {
      SortNone(x, ss[1..]);
      InsertNone(x, ss[0], Sort(ss[1..]));
    }
  }

  lemma {:induction false} SortKeeps(ss: seq<Range>)
    ensures Sorted(Sort(ss)) && (Separated(Sort(ss)) <==> Separated(ss))
  {
    if ss != [] {
      SortKeeps(ss[1..]);
      InsertSorted(ss[0], Sort(ss[1..]));
      InsertSeparated(ss[0], Sort(ss[1..]));
      SortNone(ss[0], ss[1..]);
    }
  }

  // ---------------------------------------------------------------------------
  // Neighbours are enough

  predicate NeighboursApart(ss: seq<Range>) {
    |ss| < 2 || (ss[0].start + ss[0].len <= ss[1].start && NeighboursApart(ss[1..]))
  }

  lemma {:induction false} ApartFromRest(r: Range, ss: seq<Range>)
    requires Sorted(ss) && NeighboursApart(ss) && (ss != [] ==> r.start + r.len <= ss[0].start)
    ensures MeetsNone(r, ss)
  {
    if ss != [] {
      ApartFromRest(r, ss[1..]);
    }
  }

  /** In a sorted list, comparing each slice with the next finds every pair that meets. */
  lemma {:induction false} NeighboursDecide(ss: seq<Range>)
    requires Sorted(ss)
    ensures NeighboursApart(ss) <==> Separated(ss)
  {
    if |ss| >= 2 {
      NeighboursDecide(ss[1..]);
      if NeighboursApart(ss) {
        ApartFromRest(ss[0], ss[1..]);
      }
    }
  }

  /** Whether any two slices meet. */
  method Overlaps(ss: seq<Range>) returns (found: bool)
    ensures found <==> exists i, j :: 0 <= i < j < |ss| && ss[i].Meets(ss[j])
  {
    var ranges := SortRanges(ss);
    SortKeeps(ss);
    NeighboursDecide(ranges);
    SeparatedPairs(ss);
    var i := 0;
    found := false;
    assert ranges[0..] == ranges;
    while i + 1 < |ranges| && !found
      invariant i <= |ranges|
      invariant NeighboursApart(ranges) <==> !found && NeighboursApart(ranges[i..])
    {
      assert ranges[i..][1..] == ranges[i + 1..] && ranges[i..][1] == ranges[i + 1];
      if ranges[i].start + ranges[i].len > ranges[i + 1].start {
        found := true;
      }
      i := i + 1;
    }
  }

  method SortRanges(ss: seq<Range>) returns (t: seq<Range>)
    ensures t == Sort(ss)
  {
    t := [];
    var i := |ss|;
    while i > 0
      invariant 0 <= i <= |ss| && t == Sort(ss[i..])
    {
      i := i - 1;
      assert ss[i..][1..] == ss[i + 1..];
      t := Insert(ss[i], t);
    }
    assert ss[0..] == ss;
  }

  // ---------------------------------------------------------------------------
  // Separated slices have distinct addresses

  lemma {:induction false} AddrsWithin(ss: seq<Range>, p: nat)
    requires p < |Addrs(ss)|
    ensures exists i :: 0 <= i < |ss| && ss[i].Has(Addrs(ss)[p])
  {
    if p < ss[0].len {
      assert ss[0].Has(Addrs(ss)[p]);
    } else {
      AddrsWithin(ss[1..], p - ss[0].len);
      var i :| 0 <= i < |ss[1..]| && ss[1..][i].Has(Addrs(ss[1..])[p - ss[0].len]);
      assert ss[i + 1].Has(Addrs(ss)[p]);
    }
  }

  lemma {:induction false} SeparatedDistinct(ss: seq<Range>)
    requires Separated(ss)
    ensures Distinct(Addrs(ss))
  {
    if ss != [] {
      SeparatedDistinct(ss[1..]);
      MeetsNoneAll(ss[0], ss[1..]);
      var first, rest := Count(ss[0].start, ss[0].len), Addrs(ss[1..]);
      forall i, j | 0 <= i < |first| && 0 <= j < |rest| ensures first[i] != rest[j] {
        AddrsWithin(ss[1..], j);
        var k :| 0 <= k < |ss[1..]| && ss[1..][k].Has(rest[j]);
        assert !ss[0].Meets(ss[1..][k]);
      }
      forall i, j ensures Differ(first + rest, i, j) {
        assert Differ(rest, i - |first|, j - |first|);
      }
    }
  }
}
