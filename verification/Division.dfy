/** Uniqueness of quotient and remainder, which the solver does not find for a variable divisor. */
module Division {
  lemma AtLeast(k: int, n: int)
    requires 0 < k && 0 <= n
    ensures k * n >= n
  {
    assert (k - 1) * n >= 0;
    assert k * n == (k - 1) * n + n;
  }

  lemma DigitsUnique(a: int, x: int, b: int, y: int, n: int)
    requires 0 <= x < n && 0 <= y < n && a * n + x == b * n + y
    ensures a == b && x == y
  {
    if a > b {
      AtLeast(a - b, n);
    } else if a < b {
      AtLeast(b - a, n);
    }
  }

  lemma Residue(a: int, q: int, r: int, n: int)
    requires 0 <= r < n && a == q * n + r
    ensures a % n == r
  {
    DigitsUnique(a / n, a % n, q, r, n);
  }

  lemma ModNext(k: nat, m: nat)
    requires 0 < m
    ensures (k + 1) % m == if k % m == m - 1 then 0 else k % m + 1
  {
    var q, r := k / m, k % m;
    assert k == q * m + r;
    if r == m - 1 {
      assert k + 1 == (q + 1) * m + 0;
      Residue(k + 1, q + 1, 0, m);
    } else {
      assert k + 1 == q * m + (r + 1);
      Residue(k + 1, q, r + 1, m);
    }
  }

  lemma ModDiffer(a: nat, d: nat, m: nat)
    requires 0 < d < m
    ensures a % m != (a + d) % m
  {
    var q, r := a / m, a % m;
    assert a == q * m + r;
    if r + d < m {
      Residue(a + d, q, r + d, m);
    } else {
      assert a + d == (q + 1) * m + (r + d - m);
      Residue(a + d, q + 1, r + d - m, m);
    }
  }
}
