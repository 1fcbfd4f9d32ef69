/** Small facts about integer multiplication and division used by the index arithmetic. */
module Arith {
  lemma MulLe(a: int, b: int, n: int)
    requires a <= b && n >= 0
    ensures a * n <= b * n
  {
    assert b * n - a * n == (b - a) * n;
  }

  lemma MulLeWhen(a: int, b: int, n: int)
    requires n >= 0
    ensures a <= b ==> a * n <= b * n
  {
    if a <= b {
      MulLe(a, b, n);
    }
  }

  lemma MulSucc(q: int, w: int)
    ensures (q + 1) * w == q * w + w
  {
  }

  /** q*w + p, the row-major index of (q, p), lies below h*w. */
  lemma RowMajorBound(h: nat, w: nat, q: nat, p: nat)
    requires q < h && p < w
    ensures q * w + p < h * w
  {
    MulLe(q + 1, h, w);
    MulSucc(q, w);
  }

  lemma RowMajor3(n: int, k: int, j: int, i: int)
    ensures (k * n + j) * n + i == k * (n * n) + (j * n + i)
  {
  }

  /** A multiple of n strictly between -n and n is zero. */
  lemma MulSign(d: int, n: int)
    requires n > 0
    ensures d >= 1 ==> d * n >= n
    ensures d <= -1 ==> d * n <= -n
  {
    if d >= 1 {
      MulLe(1, d, n);
    } else if d <= -1 {
      MulLe(d, -1, n);
    }
  }

  /** (k*n + j) / n == k and (k*n + j) % n == j when j < n. */
  lemma DivModRowMajor(n: nat, k: int, j: nat)
    requires j < n
    ensures (k * n + j) / n == k && (k * n + j) % n == j
  {
    var a := k * n + j;
    var q, r := a / n, a % n;
    assert q * n + r == k * n + j;
    assert (q - k) * n == j - r;
    MulSign(q - k, n);
  }

  /** Below n*n, the quotient by n is below n. */
  lemma DivBound(row: nat, n: nat)
    requires row < n * n
    ensures n > 0 && row / n < n
  {
    assert n != 0;
    assert (row / n) * n <= row;
    MulLeWhen(n, row / n, n);
  }
}
