/** Facts about Euclidean division and multiplication that the counting proofs rely on. */
module Arithmetic {

  lemma {:induction false} DivModShift(a: int, n: int)
    requires n >= 1
    ensures (a + n) / n == a / n + 1 && (a + n) % n == a % n
  {
    var q, r := a / n, a % n;
    assert a == q * n + r && 0 <= r < n;
    assert a + n == (q + 1) * n + r;
    DivModUnique(a + n, n, q + 1, r);
  }

  /** Euclidean division is determined by its quotient-remainder decomposition. */
  lemma {:induction false} DivModUnique(x: int, n: int, q: int, r: int)
    requires n >= 1 && 0 <= r < n && x == q * n + r
    ensures x / n == q && x % n == r
  {
    var q', r' := x / n, x % n;
    assert x == q' * n + r' && 0 <= r' < n;
    if q > q' {
      MulSub(q, q', n);
      MulAtLeast(q - q', n);
    } else if q < q' {
      MulSub(q', q, n);
      MulAtLeast(q' - q, n);
    }
  }

  lemma {:induction false} MulSub(a: int, b: int, n: int)
    ensures a * n - b * n == (a - b) * n
  {
  }

  lemma {:induction false} MulAtLeast(d: int, n: int)
    requires d >= 1 && n >= 1
    ensures d * n >= n
    decreases d
  {
    if d > 1 {
      MulAtLeast(d - 1, n);
      assert d * n == (d - 1) * n + n;
    }
  }

  /** Multiplication distributes over a sum. */
  lemma {:induction false} Distribute(x: int, y: int, a: int)
    ensures (x + y) * a == x * a + y * a
  {
  }
}
