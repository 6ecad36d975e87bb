/** Scatter/gather over guest memory. A list of slices means the list of its byte
    addresses in order; loading and storing are defined byte by byte on those. */
module Buffers {
  import opened GuestMemory
  import opened Finite

  function Total(ss: seq<Range>): nat {
    if ss == [] then 0 else ss[0].len + Total(ss[1..])
  }

  /** The n addresses from `a` on. */
  function Count(a: nat, n: nat): (at: seq<nat>)
    ensures |at| == n && forall i :: 0 <= i < n ==> at[i] == a + i
  {
    seq(n, i requires 0 <= i < n => a + i)
  }

  /** The byte addresses of a slice list. */
  function Addrs(ss: seq<Range>): (at: seq<nat>)
    ensures |at| == Total(ss)
  {
    if ss == [] then [] else Count(ss[0].start, ss[0].len) + Addrs(ss[1..])
  }

  function Load(v: View, at: seq<nat>): (data: seq<byte>)
    ensures |data| == |at| && forall i :: 0 <= i < |at| ==> data[i] == v.Byte(at[i])
  {
    seq<byte>(|at|, i requires 0 <= i < |at| => v.Byte(at[i]))
  }

  /** Store the bytes one after the other; a repeated address keeps the last. */
  function Store(v: View, at: seq<nat>, data: seq<byte>): (w: View)
    requires |at| == |data|
    ensures w.regions == v.regions
    decreases |at|
  {
    if at == [] then v else Store(v.Write(at[0], data[..1]), at[1..], data[1..])
  }

  // ---------------------------------------------------------------------------
  // Laws of loading and storing

  lemma WriteNothing(v: View, a: nat)
    ensures v.Write(a, []) == v
  {
    assert v.Write(a, []).bytes == v.bytes;
  }

  lemma SpanSplit(a: nat, n: nat, k: nat, x: int)
    requires k <= n
    ensures x in Span(a, n) <==> x in Span(a, k) || x in Span(a + k, n - k)
  {
  }

  lemma WriteSplit(v: View, a: nat, data: seq<byte>, k: nat)
    requires k <= |data|
    ensures v.Write(a, data[..k]).Write(a + k, data[k..]) == v.Write(a, data)
  {
    var low, w, u := v.Write(a, data[..k]), v.Write(a, data[..k]).Write(a + k, data[k..]), v.Write(a, data);
    forall x ensures x in w.bytes <==> x in u.bytes {
      SpanSplit(a, |data|, k, x);
    }
    forall x | x in u.bytes ensures w.bytes[x] == u.bytes[x] {
      SpanSplit(a, |data|, k, x);
      assert w.Byte(x) == u.Byte(x);
    }
  }

  lemma CountTail(a: nat, n: nat)
    requires n != 0
    ensures Count(a, n)[0] == a && Count(a, n)[1..] == Count(a + 1, n - 1)
  {
  }

  /** Writing a run at once is storing it byte by byte. */
  lemma {:induction false} WriteIsStore(v: View, a: nat, data: seq<byte>)
    ensures v.Write(a, data) == Store(v, Count(a, |data|), data)
    decreases |data|
  {
    if data == [] {
      WriteNothing(v, a);
    } else {
      WriteSplit(v, a, data, 1);
      WriteIsStore(v.Write(a, data[..1]), a + 1, data[1..]);
      CountTail(a, |data|);
    }
  }

  lemma {:induction false} StoreAppend(v: View, at: seq<nat>, bs: seq<nat>, data: seq<byte>, more: seq<byte>)
    requires |at| == |data| && |bs| == |more|
    ensures Store(v, at + bs, data + more) == Store(Store(v, at, data), bs, more)
    decreases |at|
  {
    if at == [] {
      assert at + bs == bs && data + more == more;
    } else {
      assert (at + bs)[1..] == at[1..] + bs && (data + more)[1..] == data[1..] + more;
      assert (data + more)[..1] == data[..1];
      StoreAppend(v.Write(at[0], data[..1]), at[1..], bs, data[1..], more);
    }
  }

  lemma {:induction false} StoreElsewhere(v: View, at: seq<nat>, data: seq<byte>, x: nat)
    requires |at| == |data| && x !in at
    ensures Store(v, at, data).Byte(x) == v.Byte(x)
    ensures x in Store(v, at, data).bytes <==> x in v.bytes
    decreases |at|
  {
    if at != [] {
      StoreElsewhere(v.Write(at[0], data[..1]), at[1..], data[1..], x);
    }
  }

  /** Bytes stored at distinct addresses are all there afterwards. */
  lemma {:induction false} StoreLands(v: View, at: seq<nat>, data: seq<byte>, i: nat)
    requires |at| == |data| && Distinct(at) && i < |at|
    ensures at[i] in Store(v, at, data).bytes && Store(v, at, data).Byte(at[i]) == data[i]
    decreases |at|
  {
    var w := v.Write(at[0], data[..1]);
    if i == 0 {
      forall j | 0 <= j < |at[1..]| ensures at[1..][j] != at[0] {
        assert Differ(at, 0, j + 1);
      }
      StoreElsewhere(w, at[1..], data[1..], at[0]);
    } else {
      forall j, k ensures Differ(at[1..], j, k) {
        assert Differ(at, j + 1, k + 1);
      }
      StoreLands(w, at[1..], data[1..], i - 1);
    }
  }

  /** Reading back what was stored at distinct addresses. */
  lemma LoadOfStore(v: View, at: seq<nat>, data: seq<byte>)
    requires |at| == |data| && Distinct(at)
    ensures Load(Store(v, at, data), at) == data
  {
    forall i | 0 <= i < |at| ensures Load(Store(v, at, data), at)[i] == data[i] {
      StoreLands(v, at, data, i);
    }
  }

  lemma {:induction false} AddrsAppend(ss: seq<Range>, ts: seq<Range>)
    ensures Addrs(ss + ts) == Addrs(ss) + Addrs(ts) && Total(ss + ts) == Total(ss) + Total(ts)
  {
    if ss == [] {
      assert ss + ts == ts;
    } else {
      assert (ss + ts)[1..] == ss[1..] + ts;
      AddrsAppend(ss[1..], ts);
    }
  }

  // ---------------------------------------------------------------------------
  // The buffer operations

  lemma TailTotal(ss: seq<Range>, i: nat)
    requires i < |ss|
    ensures Total(ss[i..]) == ss[i].len + Total(ss[i + 1..])
    ensures Addrs(ss[i..]) == Count(ss[i].start, ss[i].len) + Addrs(ss[i + 1..])
  {
    assert ss[i..][1..] == ss[i + 1..];
  }

  function Min(a: nat, b: nat): nat {
    if a < b then a else b
  }

  /** The part of a slice list from byte `skip` on, `len` bytes long. */
  function Part(ss: seq<Range>, skip: nat, len: nat): seq<Range> {
    if ss == [] || len == 0 then []
    else if ss[0].len <= skip then Part(ss[1..], skip - ss[0].len, len)
    else
      var n := Min(ss[0].len - skip, len);
      [Range(ss[0].start + skip, n)] + Part(ss[1..], 0, len - n)
  }

  /** A part means exactly that part of the address list. */
  lemma {:induction false} PartIsSlice(ss: seq<Range>, skip: nat, len: nat)
    requires skip + len <= Total(ss)
    ensures Addrs(Part(ss, skip, len)) == Addrs(ss)[skip..skip + len]
  {
    if ss != [] && len != 0 {
      var rest := Addrs(ss[1..]);
      if ss[0].len <= skip {
        PartIsSlice(ss[1..], skip - ss[0].len, len);
        SkipRun(ss[0], rest, skip, len);
      } else {
        var n := Min(ss[0].len - skip, len);
        PartIsSlice(ss[1..], 0, len - n);
        AddrsPush(Range(ss[0].start + skip, n), Part(ss[1..], 0, len - n));
        TakeRun(ss[0], rest, skip, len, n);
      }
    }
  }

  lemma SkipRun(s: Range, rest: seq<nat>, skip: nat, len: nat)
    requires s.len <= skip && skip + len <= s.len + |rest|
    ensures (Count(s.start, s.len) + rest)[skip..skip + len] == rest[skip - s.len..skip - s.len + len]
  {
  }

  lemma TakeRun(s: Range, rest: seq<nat>, skip: nat, len: nat, n: nat)
    requires skip < s.len && skip + len <= s.len + |rest| && n == Min(s.len - skip, len)
    ensures len - n <= |rest|
    ensures (Count(s.start, s.len) + rest)[skip..skip + len] == Count(s.start + skip, n) + rest[0..len - n]
  {
  }

  lemma AddrsPush(r: Range, ss: seq<Range>)
    ensures Addrs([r] + ss) == Count(r.start, r.len) + Addrs(ss)
  {
    assert ([r] + ss)[1..] == ss;
  }

  method Cut(ss: seq<Range>, skip: nat, len: nat) returns (part: seq<Range>)
    requires skip + len <= Total(ss)
    ensures part == Part(ss, skip, len) && Addrs(part) == Addrs(ss)[skip..skip + len]
  {
    PartIsSlice(ss, skip, len);
    var skipping: nat, left: nat, i := skip, len, 0;
    part := [];
    assert ss[0..] == ss;
    while i < |ss| && left != 0
      invariant i <= |ss|
      invariant Part(ss, skip, len) == part + Part(ss[i..], skipping, left)
    {
      var offset := Min(skipping, ss[i].len);
      var n := Min(ss[i].len - offset, left);
      ghost var done := part;
      if n > 0 {
        part := part + [Range(ss[i].start + offset, n)];
      }
      PartStep(ss, i, skipping, left, offset, n, done, part);
      skipping, left, i := skipping - offset, left - n, i + 1;
    }
  }

  lemma PartStep(ss: seq<Range>, i: nat, skip: nat, len: nat, offset: nat, n: nat, done: seq<Range>, done': seq<Range>)
    requires i < |ss| && len != 0 && offset == Min(skip, ss[i].len) && n == Min(ss[i].len - offset, len)
    requires done' == if n > 0 then done + [Range(ss[i].start + offset, n)] else done
    ensures done + Part(ss[i..], skip, len) == done' + Part(ss[i + 1..], skip - offset, len - n)
  {
    var here := ss[i..];
    assert here[0] == ss[i] && here[1..] == ss[i + 1..];
    if n > 0 {
      Assoc(done, [Range(ss[i].start + offset, n)], Part(ss[i + 1..], 0, len - n));
    }
  }

  lemma Assoc<T>(a: seq<T>, b: seq<T>, c: seq<T>)
    ensures a + (b + c) == a + b + c
  {
  }

  /** Copy the first n bytes out of the slices. */
  method CopyTo(v: View, ss: seq<Range>, n: nat) returns (data: seq<byte>)
    requires n <= Total(ss)
    ensures data == Load(v, Addrs(ss)[..n])
  {
    data := [];
    var i: nat, left: nat := 0, n;
    assert ss[0..] == ss;
    while i < |ss| && left != 0
      invariant i <= |ss| && left <= Total(ss[i..])
      invariant Load(v, Addrs(ss)[..n]) == data + Load(v, Addrs(ss[i..])[..left])
    {
      TailTotal(ss, i);
      var m := Min(ss[i].len, left);
      LoadStep(v, ss[i], Addrs(ss[i + 1..]), left, m, left - m, data);
      data := data + v.Read(ss[i].start, m);
      i, left := i + 1, left - m;
    }
    assert left == 0;
  }

  lemma LoadStep(v: View, s: Range, rest: seq<nat>, n: nat, m: nat, n': nat, done: seq<byte>)
    requires n <= s.len + |rest| && m == Min(s.len, n) && n' == n - m
    ensures n' <= |rest|
    ensures done + Load(v, (Count(s.start, s.len) + rest)[..n]) == done + v.Read(s.start, m) + Load(v, rest[..n'])
  {
    assert Load(v, (Count(s.start, s.len) + rest)[..n]) == v.Read(s.start, m) + Load(v, rest[..n']);
    Assoc(done, v.Read(s.start, m), Load(v, rest[..n']));
  }

  /** Copy bytes into the slices, front to back. */
  method CopyFrom(ram: GuestRam, ss: seq<Range>, data: seq<byte>)
    requires |data| <= Total(ss)
    modifies ram
    ensures ram.view == Store(old(ram.view), Addrs(ss)[..|data|], data)
  {
    var left, i := data, 0;
    assert ss[0..] == ss;
    while i < |ss| && left != []
      invariant i <= |ss| && |left| <= |data| && |left| <= Total(ss[i..])
      invariant Store(old(ram.view), Addrs(ss)[..|data|], data) == Store(ram.view, Addrs(ss[i..])[..|left|], left)
    {
      TailTotal(ss, i);
      var n := Min(ss[i].len, |left|);
      StoreStep(ram.view, ss[i], Addrs(ss[i + 1..]), left, n);
      ram.view := ram.view.Write(ss[i].start, left[..n]);
      left, i := left[n..], i + 1;
    }
  }

  lemma StoreStep(v: View, s: Range, rest: seq<nat>, data: seq<byte>, n: nat)
    requires |data| <= s.len + |rest| && n == Min(s.len, |data|)
    ensures |data[n..]| <= |rest|
    ensures Store(v, (Count(s.start, s.len) + rest)[..|data|], data) ==
            Store(v.Write(s.start, data[..n]), rest[..|data[n..]|], data[n..])
  {
    var low, high := data[..n], data[n..];
    var to := rest[..|high|];
    assert (Count(s.start, s.len) + rest)[..|data|] == Count(s.start, n) + to && data == low + high;
    StoreAppend(v, Count(s.start, n), to, low, high);
    WriteIsStore(v, s.start, low);
  }
}
