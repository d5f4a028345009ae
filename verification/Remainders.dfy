/** Facts about remainders, for ring positions and interval ticks. */
module Remainders {
  lemma MultipleOutside(n: int, d: int)
    requires n > 0
    ensures !(0 < n * d < n)
  {
    if d >= 1 {
      assert n * d == n + n * (d - 1);
    } else {
      assert n * d == -(n * -d);
    }
  }

  /** Two numbers less than n apart have different remainders. */
  lemma DifferentRemainders(p: int, q: int, n: int)
    requires n > 0 && p < q < p + n
    ensures p % n != q % n
  {
    var a, b := p / n, q / n;
    assert p == n * a + p % n && q == n * b + q % n;
    assert n * b - n * a == n * (b - a);
    MultipleOutside(n, b - a);
  }

  lemma SameRemainder(p: int, q: int, n: int)
    requires n > 0 && p < q && p % n == q % n
    ensures q >= p + n
  {
    if q < p + n {
      DifferentRemainders(p, q, n);
      assert false;
    }
  }

  lemma ShiftedRemainder(b: int, k: int, n: int)
    requires n > 0
    ensures (b + n * k) % n == b % n
  {
    var x := b + n * k;
    var d := x / n - b / n - k;
    assert x % n - b % n == -(n * d) by {
      assert n * d == n * (x / n) - n * (b / n) - n * k;
    }
    MultipleOutside(n, d);
    MultipleOutside(n, -d);
    assert n * -d == -(n * d);
  }
}
