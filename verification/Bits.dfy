/** Register words as sets of bit positions, and back. */
module Bits {

  /** The positions of the one bits of `n`, counted from `from`. */
  function BitsOf(n: nat, from: nat): (s: set<nat>)
    ensures forall b :: b in s ==> from <= b
    ensures n == 0 <==> s == {}
    decreases n
  {
    if n == 0 then {} else (if n % 2 == 1 then {from} else {}) + BitsOf(n / 2, from + 1)
  }

  /** The number whose one bits are the positions of `s` in from..from+width. */
  function Number(s: set<nat>, from: nat, width: nat): nat
    decreases width
  {
    if width == 0 then 0 else (if from in s then 1 else 0) + 2 * Number(s, from + 1, width - 1)
  }

  function PowerOf2(k: nat): nat {
    if k == 0 then 1 else 2 * PowerOf2(k - 1)
  }

  lemma {:induction false} NumberIgnores(s: set<nat>, from: nat, width: nat, b: nat)
    requires b < from
    ensures Number(s + {b}, from, width) == Number(s, from, width)
    decreases width
  {
    if width != 0 {
      NumberIgnores(s, from + 1, width - 1, b);
    }
  }

  /** A word is determined by its bits: nothing is lost by working on positions. */
  lemma {:induction false} NumberOfBits(n: nat, from: nat, width: nat)
    requires n < PowerOf2(width)
    ensures Number(BitsOf(n, from), from, width) == n
    decreases width
  {
    if n != 0 {
      var rest := BitsOf(n / 2, from + 1);
      NumberOfBits(n / 2, from + 1, width - 1);
      if n % 2 == 1 {
        assert BitsOf(n, from) == rest + {from};
        NumberIgnores(rest, from + 1, width - 1, from);
      } else {
        assert BitsOf(n, from) == rest;
      }
    } else {
      NumberOfNothing(from, width);
    }
  }

  lemma {:induction false} NumberOfNothing(from: nat, width: nat)
    ensures Number({}, from, width) == 0
    decreases width
  {
    if width != 0 {
      NumberOfNothing(from + 1, width - 1);
    }
  }
}
