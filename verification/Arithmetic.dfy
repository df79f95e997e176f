/** Powers of two and the few facts about division with a symbolic divisor that the models need. */
module Arithmetic {

  function Pow2(k: nat): (p: nat)
    ensures p > 0
  {
    if k == 0 then 1 else 2 * Pow2(k - 1)
  }

  ghost predicate IsPow2(n: nat) {
    exists k :: n == Pow2(k)
  }

  lemma Doubling(n: nat)
    requires IsPow2(n)
    ensures IsPow2(2 * n)
  {
    var k: nat :| n == Pow2(k);
    assert Pow2(k + 1) == 2 * n;
  }

  lemma MulGap(d: nat, a: int, b: int)
    requires a < b
    ensures d * a + d <= d * b
  {
    assert d * b == d * a + d * (b - a);
    assert d * (b - a) == d + d * (b - a - 1);
  }

  lemma DivModUnique(x: int, d: nat, q: int, r: int)
    requires 0 <= r < d && x == d * q + r
    ensures x / d == q && x % d == r
  {
    var q' := x / d;
    var r' := x % d;
    assert x == d * q' + r';
    if q < q' {
      MulGap(d, q, q');
    } else if q' < q {
      MulGap(d, q', q);
    }
  }

  lemma DivTwice(x: nat, a: nat, d: nat)
    requires a > 0 && d > 0
    ensures a * d > 0 && (x / a) / d == x / (a * d)
  {
    var y := x / a;
    var q, r := y / d, y % d;
    var low := x - a * y;
    assert y == d * q + r;
    MulGap(a, r, d);
    assert (a * d) * q == a * (d * q);
    assert a * y == a * (d * q) + a * r;
    DivModUnique(x, a * d, q, a * r + low);
  }

  /** Two different indices less than one capacity apart never share a slot. */
  lemma SlotsDiffer(i: int, j: int, cap: nat)
    requires i < j < i + cap
    ensures i % cap != j % cap
  {
    var qi, qj := i / cap, j / cap;
    assert i == cap * qi + i % cap;
    assert j == cap * qj + j % cap;
    if qi < qj {
      MulGap(cap, qi, qj);
    } else if qj < qi {
      MulGap(cap, qj, qi);
    }
  }

  lemma HalveModulo(x: nat, h: nat)
    requires h > 0
    ensures x % 2 + 2 * ((x / 2) % h) == x % (2 * h)
  {
    var q, r := (x / 2) / h, (x / 2) % h;
    assert x / 2 == h * q + r;
    assert (2 * h) * q == 2 * (h * q);
    DivModUnique(x, 2 * h, q, 2 * r + x % 2);
  }
}
