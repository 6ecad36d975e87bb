/** Counting and divisibility facts about finite sets of naturals. */
module Finite {
  import opened GuestMemory

  ghost predicate Differ(s: seq<nat>, i: int, j: int) {
    0 <= i < j < |s| ==> s[i] != s[j]
  }

  ghost predicate Distinct(s: seq<nat>) {
    forall i, j {:trigger Differ(s, i, j)} :: Differ(s, i, j)
  }

  /** The first n elements as a set. */
  function FirstN(s: seq<nat>, n: nat): set<nat>
    requires n <= |s|
  {
    if n == 0 then {} else FirstN(s, n - 1) + {s[n - 1]}
  }

  function SetOf(s: seq<nat>): set<nat> {
    FirstN(s, |s|)
  }

  lemma {:induction false} FirstNHas(s: seq<nat>, n: nat, x: nat)
    requires n <= |s|
    ensures x in FirstN(s, n) <==> exists k :: 0 <= k < n && s[k] == x
  {
    if n != 0 {
      FirstNHas(s, n - 1, x);
    }
  }

  /** None of the first n elements is in `t`. */
  ghost predicate Avoids(s: seq<nat>, n: nat, t: set<nat>)
    requires n <= |s|
  {
    n == 0 || (Avoids(s, n - 1, t) && s[n - 1] !in t)
  }

  lemma {:induction false} AvoidsAt(s: seq<nat>, n: nat, t: set<nat>, i: nat)
    requires i < n <= |s| && Avoids(s, n, t)
    ensures s[i] !in t
  {
    if i < n - 1 {
      AvoidsAt(s, n - 1, t, i);
    }
  }

  lemma {:induction false} AvoidsIsDisjoint(s: seq<nat>, n: nat, t: set<nat>)
    requires n <= |s|
    ensures Avoids(s, n, t) <==> FirstN(s, n) !! t
  {
    if n != 0 {
      AvoidsIsDisjoint(s, n - 1, t);
    }
  }

  lemma {:induction false} FirstNGrows(s: seq<nat>, m: nat, n: nat)
    requires m <= n <= |s|
    ensures FirstN(s, m) <= FirstN(s, n)
  {
    if m != n {
      FirstNGrows(s, m, n - 1);
    }
  }

  lemma NextIsNew(s: seq<nat>, n: nat)
    requires Distinct(s) && n < |s|
    ensures s[n] !in FirstN(s, n) && s[n] in SetOf(s)
  {
    FirstNHas(s, n, s[n]);
    FirstNHas(s, |s|, s[n]);
    forall k | 0 <= k < n ensures s[k] != s[n] {
      assert Differ(s, k, n);
    }
  }

  lemma {:induction false} FirstNSize(s: seq<nat>, n: nat)
    requires Distinct(s) && n <= |s|
    ensures |FirstN(s, n)| == n
  {
    if n != 0 {
      FirstNSize(s, n - 1);
      NextIsNew(s, n - 1);
    }
  }

  lemma Pigeonhole(s: seq<nat>, n: nat)
    requires Distinct(s) && forall i :: 0 <= i < |s| ==> s[i] < n
    ensures |s| <= n
  {
    SpanSize(n);
    FirstNSize(s, |s|);
    forall x | x in SetOf(s) ensures x in Span(0, n) {
      FirstNHas(s, |s|, x);
    }
    SubsetSize(SetOf(s), Span(0, n));
  }

  lemma {:induction false} SpanSize(n: nat)
    ensures |Span(0, n)| == n
  {
    if n != 0 {
      SpanSize(n - 1);
      assert Span(0, n) == Span(0, n - 1) + {n - 1};
    }
  }

  lemma {:induction false} SubsetSize(a: set<nat>, b: set<nat>)
    requires a <= b
    ensures |a| <= |b|
  {
    if a != {} {
      var x :| x in a;
      SubsetSize(a - {x}, b - {x});
    }
  }

  /** No multiple of n lies strictly between 0 and n. */
  lemma MultipleOutside(n: nat, t: int)
    requires 0 < n
    ensures !(0 < n * t < n)
  {
    if t <= 0 {
      assert n * t <= 0;
    } else {
      assert n * t == n + n * (t - 1);
      assert n * (t - 1) >= 0;
    }
  }

  /** Rust's is_multiple_of, by repeated subtraction. */
  predicate IsMultipleOf(x: nat, n: nat)
    requires 0 < n
  {
    x == 0 || (n <= x && IsMultipleOf(x - n, n))
  }

  lemma {:induction false} IsMultipleOfMeaning(x: nat, n: nat)
    requires 0 < n
    ensures IsMultipleOf(x, n) <==> x % n == 0
  {
    if x < n {
      assert x / n == 0;
    } else {
      IsMultipleOfMeaning(x - n, n);
      var y := x - n;
      assert x == n * (y / n + 1) + y % n;
      assert n * (x / n - (y / n + 1)) == y % n - x % n;
      MultipleOutside(n, x / n - (y / n + 1));
      MultipleOutside(n, y / n + 1 - x / n);
    }
  }

  lemma {:induction false} MultiplesAdd(x: nat, y: nat, n: nat)
    requires 0 < n && IsMultipleOf(x, n) && IsMultipleOf(y, n)
    ensures IsMultipleOf(x + y, n)
  {
    if x != 0 {
      MultiplesAdd(x - n, y, n);
      assert x + y - n == x - n + y;
    }
  }

  lemma {:induction false} MultiplesTransitive(x: nat, big: nat, small: nat)
    requires 0 < small && 0 < big && IsMultipleOf(x, big) && IsMultipleOf(big, small)
    ensures IsMultipleOf(x, small)
  {
    if x != 0 {
      MultiplesTransitive(x - big, big, small);
      MultiplesAdd(x - big, big, small);
    }
  }

  lemma {:induction false} ProductIsMultiple(k: nat, n: nat)
    requires 0 < n
    ensures IsMultipleOf(k * n, n)
  {
    if k != 0 {
      ProductIsMultiple(k - 1, n);
      assert k * n == (k - 1) * n + n;
    }
  }

  /** Distinct multiples are at least a step apart. */
  lemma {:induction false} MultiplesApart(a: nat, b: nat, n: nat)
    requires 0 < n && IsMultipleOf(a, n) && IsMultipleOf(b, n) && a < b
    ensures a + n <= b
  {
    if a != 0 {
      MultiplesApart(a - n, b - n, n);
    }
  }
}
