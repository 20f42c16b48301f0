/** Facts about products, quotients and remainders that the solver needs spelled out. */
module Arith {

  lemma MulPos(a: int, b: int)
    requires 0 < a && 0 < b
    ensures 0 < a * b
  {
  }

  lemma MulMono(a: int, b: int, m: int)
    requires a <= b && 0 <= m
    ensures a * m <= b * m
  {
  }

  /** Quotient and remainder are the only way to split `x` over base `m`. */
  lemma DivUnique(x: int, m: int, q: int, r: int)
    requires 0 < m && 0 <= r < m && x == q * m + r
    ensures x / m == q && x % m == r
  {
    var q' := x / m;
    var r' := x % m;
    assert x == q' * m + r';
    assert (q - q') * m == r' - r;
    if q > q' { MulMono(1, q - q', m); }
    if q < q' { MulMono(q - q', -1, m); }
  }

  lemma DivBelow(x: int, n: int, m: int)
    requires 0 < m && 0 <= x < n * m
    ensures 0 <= x / m < n
  {
    assert x == (x / m) * m + x % m;
    if x / m >= n { MulMono(n, x / m, m); }
    if x / m < 0 { MulMono(x / m, -1, m); }
  }

  /** A digit `lo` below `m` and a digit `hi` below `n` pack into a number below `n * m`. */
  lemma Pack(hi: int, lo: int, n: int, m: int)
    requires 0 <= hi < n && 0 <= lo < m
    ensures 0 <= hi * m + lo < n * m
    ensures (hi * m + lo) / m == hi && (hi * m + lo) % m == lo
  {
    MulMono(hi + 1, n, m);
    MulMono(0, hi, m);
    DivUnique(hi * m + lo, m, hi, lo);
  }

  lemma Assoc(a: int, b: int, c: int)
    ensures a * (b * c) == a * b * c && a * (b * c) == a * (c * b)
  {
  }

  lemma Small(x: int, m: int)
    requires 0 <= x < m
    ensures x / m == 0 && x % m == x
  {
    DivUnique(x, m, 0, x);
  }

  lemma DivAdd(q: int, x: int, m: int)
    requires 0 < m
    ensures (q * m + x) / m == q + x / m
  {
    assert q * m + x == (q + x / m) * m + x % m;
    DivUnique(q * m + x, m, q + x / m, x % m);
  }

  lemma ModAdd(q: int, x: int, m: int)
    requires 0 < m
    ensures (q * m + x) % m == x % m
  {
    assert q * m + x == (q + x / m) * m + x % m;
    DivUnique(q * m + x, m, q + x / m, x % m);
  }

  lemma Split(x: int, m: int)
    requires 0 < m
    ensures x == (x / m) * m + x % m && 0 <= x % m < m
  {
  }

  lemma QuotNonNeg(x: nat, m: int)
    requires 0 < m
    ensures 0 <= x / m
  {
    Split(x, m);
    if x / m < 0 { MulMono(x / m, -1, m); }
  }

  /** One more count carries into the quotient exactly when the remainder wraps. */
  lemma CountStep(k: int, n: int)
    requires 0 < n
    ensures (k % n + 1) % n == (k + 1) % n
    ensures (k + 1) / n == k / n + if (k + 1) % n == 0 then 1 else 0
  {
    Split(k, n);
    if k % n + 1 == n {
      DivUnique(k + 1, n, k / n + 1, 0);
      DivUnique(n, n, 1, 0);
    } else {
      DivUnique(k + 1, n, k / n, k % n + 1);
      Small(k % n + 1, n);
    }
  }
}
