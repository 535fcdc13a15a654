/** Division with remainder, and the size of intervals. */
module Arith {
  lemma NonZeroMultiple(n: nat, d: int)
    ensures d >= 1 ==> n * d >= n
    ensures d <= -1 ==> n * d + n <= 0
  {
    if d <= -1 {
      assert n * d == -(n * -d);
    }
  }

  lemma Remainder(q: int, n: nat, x: nat)
    requires x < n
    ensures (n * q + x) % n == x
  {
    var v := n * q + x;
    assert v == n * (v / n) + v % n;
    var d := q - v / n;
    assert n * d == v % n - x;
    NonZeroMultiple(n, d);
  }

  lemma NotCongruent(a: nat, b: nat, n: nat)
    requires a < b < a + n
    ensures a % n != b % n
  {
    if a % n == b % n {
      assert b - a == n * (b / n - a / n);
      NonZeroMultiple(n, b / n - a / n);
    }
  }

  lemma ModShift(x: int, n: nat)
    requires n > 0
    ensures (x + n) % n == x % n
  {
    assert x + n == n * (x / n + 1) + x % n;
    Remainder(x / n + 1, n, x % n);
  }

  // ---------- Intervals ----------

  ghost function Interval(lo: nat, size: nat): set<nat> {
    if size == 0 then {} else Interval(lo, size - 1) + {lo + size - 1}
  }

  lemma {:induction false} IntervalSpec(lo: nat, size: nat)
    ensures |Interval(lo, size)| == size
    ensures forall n: nat :: n in Interval(lo, size) <==> lo <= n < lo + size
  {
    if size > 0 {
      IntervalSpec(lo, size - 1);
    }
  }

  /** A set of numbers from an interval is smaller exactly if it misses one of them. */
  lemma SmallerMissesOne(s: set<nat>, lo: nat, size: nat)
    requires forall v <- s :: lo <= v < lo + size
    ensures |s| <= size
    ensures |s| < size <==> exists v: nat :: lo <= v < lo + size && v !in s
  {
    IntervalSpec(lo, size);
    var all := Interval(lo, size);
    assert s <= all;
    assert |all - s| == |all| - |s|;
    if |s| < size {
      var v :| v in all - s;
    } else {
      assert all - s == {};
      forall v: nat | lo <= v < lo + size ensures v in s {
        assert v in all && v !in all - s;
      }
    }
  }
}
