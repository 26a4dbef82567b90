/** Facts about integer division and multiplication that the buffer index
    arithmetic of the canvas manager needs. */
module Arith {

  lemma MulMonoLe(a: int, b: int, d: int)
    requires d >= 0 && a <= b
    ensures a * d <= b * d
  {
    assert (b - a) * d >= 0;
  }

  /** `a / d == q` exactly when `a` lies in the `q`-th run of `d` numbers. */
  lemma DivRange(a: int, d: int, q: int)
    requires d > 0
    ensures a / d == q <==> q * d <= a < q * d + d
  {
    var r := a / d;
    assert a == r * d + a % d;
    if q * d <= a < q * d + d {
      if r < q {
        MulMonoLe(r + 1, q, d);
      } else if r > q {
        MulMonoLe(q + 1, r, d);
      }
    }
  }

  /** Below `n` runs of `d`, the quotient is below `n`. */
  lemma DivBelow(a: int, d: int, n: int)
    requires d > 0 && 0 <= a < n * d
    ensures 0 <= a / d < n
  {
    var r := a / d;
    assert a == r * d + a % d;
    if r >= n {
      MulMonoLe(n, r, d);
    }
  }

  /** Quotient and remainder of `q * d + k` for `0 <= k < d`. */
  lemma DivModOf(q: int, d: int, k: int)
    requires d > 0 && 0 <= k < d
    ensures (q * d + k) / d == q
    ensures (q * d + k) % d == k
  {
    DivRange(q * d + k, d, q);
  }

  /** A non-negative `n` below `w * h` splits into a column below `w` and a
      row below `h`. */
  lemma SplitIndex(n: int, w: int, h: int)
    requires w > 0 && 0 <= n < w * h
    ensures 0 <= n % w < w && 0 <= n / w < h
    ensures n == (n / w) * w + n % w
  {
    DivBelow(n, w, h);
  }

  /** `row * w + col` is below `w * h` for a cell of a `w` by `h` grid. */
  lemma JoinIndex(col: int, row: int, w: int, h: int)
    requires 0 <= col < w && 0 <= row < h
    ensures 0 <= row * w + col < w * h
  {
    MulMonoLe(row, h - 1, w);
    MulMonoLe(0, row, w);
  }
}
