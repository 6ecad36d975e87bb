/** Descriptor lists as buffers: their slices, lengths and directions. */
module DescriptorLists {
  import opened GuestMemory
  import opened Virtqueue
  import opened Buffers

  /** The descriptors' buffers. */
  function Slices(ds: seq<Descriptor>): (ss: seq<Range>)
    ensures |ss| == |ds| && forall i :: 0 <= i < |ds| ==> ss[i] == ds[i].Buffer()
  {
    seq(|ds|, i requires 0 <= i < |ds| => ds[i].Buffer())
  }

  /** The first byte of descriptor k within the request. */
  function Begin(ds: seq<Descriptor>, k: nat): nat
    requires k <= |ds|
  {
    if k == 0 then 0 else Begin(ds, k - 1) + ds[k - 1].len
  }

  predicate AllAre(data: seq<Descriptor>, writable: bool) {
    forall j :: 0 <= j < |data| ==> data[j].WriteOnly() == writable
  }

  lemma {:induction false} BeginIsTotal(ds: seq<Descriptor>, k: nat)
    requires k <= |ds|
    ensures Begin(ds, k) == Total(Slices(ds)[..k])
  {
    if k != 0 {
      BeginIsTotal(ds, k - 1);
      assert Slices(ds)[..k] == Slices(ds)[..k - 1] + [ds[k - 1].Buffer()];
      AddrsAppend(Slices(ds)[..k - 1], [ds[k - 1].Buffer()]);
      AddrsPush(ds[k - 1].Buffer(), []);
    }
  }

  method RequestLength(ds: seq<Descriptor>) returns (n: nat)
    ensures n == Total(Slices(ds))
  {
    n := 0;
    var i := 0;
    while i < |ds|
      invariant i <= |ds| && n == Begin(ds, i)
    {
      n := n + ds[i].len;
      i := i + 1;
    }
    BeginIsTotal(ds, |ds|);
    assert Slices(ds)[..|ds|] == Slices(ds);
  }
}
