/** Quotients and remainders by a variable divisor, and Go's truncating division. */
module Division {
  /** Go's `/`: truncation toward zero. */
  function TruncDiv(a: int, b: int): int
    requires b > 0
  {
    if a >= 0 then a / b else -((-a) / b)
  }

  /** The quotient by `n` grows by one exactly at the multiples of `n`. */
  lemma DivStep(x: int, n: nat)
    requires n > 0
    ensures (x + 1) / n == x / n + if (x + 1) % n == 0 then 1 else 0
  {
    var q, r := x / n, x % n;
    assert x == q * n + r;
    if r == n - 1 {
      assert x + 1 == (q + 1) * n;
      DivUnique(x + 1, n, q + 1, 0);
    } else {
      DivUnique(x + 1, n, q, r + 1);
    }
  }

  lemma MultipleAtLeast(d: int, n: int)
    requires n > 0
    ensures d >= 1 ==> d * n >= n
    ensures d <= -1 ==> d * n <= -n
  {
    if d >= 1 { assert (d - 1) * n >= 0; }
    if d <= -1 { assert (-d - 1) * n >= 0; }
  }

  lemma DivUnique(x: int, n: nat, q: int, r: nat)
    requires n > 0 && r < n && x == q * n + r
    ensures x / n == q && x % n == r
  {
    var q', r' := x / n, x % n;
    assert q' * n + r' == q * n + r;
    assert (q - q') * n == q * n - q' * n;
    MultipleAtLeast(q - q', n);
  }

  lemma ModShiftBy(x: int, n: nat, w: nat)
    requires n > 0 && w < n
    ensures (x - w) % n == 0 <==> x % n == w
  {
    var q, r := x / n, x % n;
    assert x == q * n + r;
    if r >= w { DivUnique(x - w, n, q, r - w); }
    else { DivUnique(x - w, n, q - 1, r - w + n); }
  }

  /** Adding `m` moves the quotient by floor(m/n) or ceil(m/n). */
  lemma DivSum(x: int, m: nat, n: nat)
    requires n > 0
    ensures m / n <= (x + m) / n - x / n <= (m + n - 1) / n
    ensures m % n == 0 ==> (x + m) / n - x / n == m / n
  {
    var q, r := x / n, x % n;
    var a, b := m / n, m % n;
    assert (q + a) * n == q * n + a * n;
    assert (q + a + 1) * n == q * n + a * n + n;
    if r + b < n {
      DivUnique(x + m, n, q + a, r + b);
    } else {
      DivUnique(x + m, n, q + a + 1, r + b - n);
    }
    CeilDiv(m, n);
  }

  lemma CeilDiv(m: nat, n: nat)
    requires n > 0
    ensures (m + n - 1) / n == m / n + if m % n == 0 then 0 else 1
  {
    var a, b := m / n, m % n;
    assert (a + 1) * n == a * n + n;
    if b == 0 {
      DivUnique(m + n - 1, n, a, n - 1);
    } else {
      DivUnique(m + n - 1, n, a + 1, b - 1);
    }
  }

  lemma ConsecutiveMultiples(x: nat, n: nat)
    requires n > 1
    ensures x % n != 0 || (x + 1) % n != 0
  {
    if x % n == 0 {
      DivUnique(x + 1, n, x / n, 1);
    }
  }
}
