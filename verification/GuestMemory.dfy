/** The guest DMA view: a finite map of disjoint regions and the bytes they hold.
    Guest addresses are 64-bit; a range is in view when every byte of it is covered. */
module GuestMemory {
  type byte = b: int | 0 <= b < 256

  const ADDRESS_LIMIT: nat := 0x1_0000_0000_0000_0000
  const U32_LIMIT: nat := 0x1_0000_0000
  const U16_LIMIT: nat := 0x1_0000
  const MIB: nat := 0x10_0000

  /** A run of guest addresses: a pin, a slice or a disk segment. */
  datatype Range = Range(start: nat, len: nat) {
    predicate Has(a: int) {
      start <= a < start + len
    }

    /** Neither ends before the other begins: nonempty ranges meet exactly when they share a
        byte, and an empty one meets any range that it lies strictly inside. */
    predicate Meets(other: Range) {
      start < other.start + other.len && other.start < start + len
    }
  }

  datatype View = View(regions: map<nat, nat>, bytes: map<nat, byte>) {

    predicate Covers(a: int) {
      exists r :: r in regions && r <= a < r + regions[r]
    }

    predicate InView(addr: nat, len: nat) {
      forall a :: addr <= a < addr + len ==> Covers(a)
    }

    function Byte(a: nat): byte {
      if a in bytes then bytes[a] else 0
    }

    function U16(a: nat): (w: nat)
      ensures w < U16_LIMIT
    {
      Byte(a) + 256 * Byte(a + 1)
    }

    function Read(a: nat, n: nat): (data: seq<byte>)
      ensures |data| == n
      ensures forall i :: 0 <= i < n ==> data[i] == Byte(a + i)
    {
      seq<byte>(n, i requires 0 <= i < n => Byte(a + i))
    }

    /** Little-endian value of `n` bytes. */
    function Word(a: nat, n: nat): nat {
      FromLe(Read(a, n))
    }

    function Write(a: nat, data: seq<byte>): (v: View)
      ensures v.regions == regions
      ensures forall x: nat {:trigger v.Byte(x)} ::
                v.Byte(x) == if a <= x < a + |data| then data[x - a] else Byte(x)
    {
      View(regions, bytes + (map x | x in Span(a, |data|) :: data[x - a]))
    }

    /** A fresh region reads as zero. */
    function Insert(start: nat, len: nat): (v: View)
      ensures v.regions == regions[start := len]
      ensures forall x: nat {:trigger v.Byte(x)} ::
                v.Byte(x) == if start <= x < start + len then 0 else Byte(x)
    {
      View(regions[start := len], map x | x in bytes && !(start <= x < start + len) :: bytes[x])
    }

    function Remove(start: nat): (v: View)
      requires start in regions
      ensures v.regions == regions - {start}
      ensures v.bytes == bytes
    {
      View(regions - {start}, bytes)
    }
  }

  /** Guest memory as the devices hold it; the view is replaced in place. */
  class GuestRam {
    var view: View

    constructor (v: View)
      ensures view == v
    {
      view := v;
    }
  }

  function Span(a: nat, n: nat): set<nat> {
    set x: nat | a <= x < a + n && Range(a, n).Has(x)
  }

  function Le16(x: nat): (s: seq<byte>)
    requires x < U16_LIMIT
    ensures |s| == 2
  {
    [x % 256, x / 256]
  }

  function Le32(x: nat): (s: seq<byte>)
    requires x < U32_LIMIT
    ensures |s| == 4
  {
    Le16(x % 0x1_0000) + Le16(x / 0x1_0000)
  }

  /** Little-endian value of a byte string. */
  function FromLe(s: seq<byte>): (n: nat) {
    if s == [] then 0 else s[0] + 256 * FromLe(s[1..])
  }
}
