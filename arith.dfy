/** Integer division facts used by the record and chunk arithmetic. */
module Arith {

  /** The quotient and remainder of `x` by `d` are the unique `q`, `r` with `x == d * q + r`, `0 <= r < d`. */
  lemma DivModUnique(x: int, d: int, q: int, r: int)
    requires d > 0 && 0 <= r < d && x == d * q + r
    ensures x / d == q && x % d == r
  {
    var q', r' := x / d, x % d;
    assert x == d * q' + r';
    if q' > q {
      assert d * (q' - q) == r - r';
      MulAtLeast(q' - q, d);
    } else if q' < q {
      assert d * (q - q') == r' - r;
      MulAtLeast(q - q', d);
    }
  }

  lemma MulAtLeast(k: int, d: int)
    requires k >= 1 && d > 0
    ensures d * k >= d
  {
  }

  /** Removing one divisor's worth from `x` lowers the quotient by one and keeps the remainder. */
  lemma DivSub(x: int, d: int)
    requires d > 0 && x >= d
    ensures (x - d) / d == x / d - 1 && (x - d) % d == x % d
  {
    DivModUnique(x - d, d, x / d - 1, x % d);
  }

  /** Adding a multiple of `d` shifts the quotient and keeps the remainder. */
  lemma DivAddMultiple(x: int, d: int, n: nat)
    requires d > 0 && x >= 0
    ensures (x + d * n) / d == x / d + n && (x + d * n) % d == x % d
  {
    DivModUnique(x + d * n, d, x / d + n, x % d);
  }

  /** Adding `k` pieces of `d * c` keeps the remainder by `d`. */
  lemma ModAddPieces(x: int, d: int, c: nat, k: nat)
    requires d > 0 && x >= 0
    ensures (x + k * (d * c)) % d == x % d
  {
    assert k * (d * c) == d * (k * c);
    DivAddMultiple(x, d, k * c);
  }

  /** Slot `k` of `x` cut into pieces of `d`, for `k` below the quotient, lies inside `[0, x)`. */
  lemma QuotientBound(x: int, d: int, k: int)
    requires d > 0 && 0 <= k < x / d
    ensures 0 <= k * d && k * d + d == (k + 1) * d <= x
  {
    MulAtLeast(x / d - k, d);
    assert d * (x / d - k) == d * (x / d) - d * k;
  }

  lemma MulMonotone(x: int, y: int, d: int)
    requires x <= y && d >= 0
    ensures x * d <= y * d
  {
  }

  /** While `idx` whole slots of `size` lie below `len == rows * size`, slot `idx` is one of the `rows` and fits. */
  lemma NextSlot(len: int, size: int, rows: int, idx: int)
    requires size > 0 && len == rows * size && 0 <= idx && idx * size < len
    ensures idx < rows && idx * size + size <= len && idx * size + size == (idx + 1) * size
  {
    if idx >= rows {
      assert false by { MulMonotone(rows, idx, size); }
    }
    MulMonotone(idx + 1, rows, size);
  }

  /** Once `idx <= rows` slots reach `len == rows * size`, all `rows` slots have been taken. */
  lemma AllSlots(len: int, size: int, rows: int, idx: int)
    requires size > 0 && len == rows * size && 0 <= idx <= rows && idx * size >= len
    ensures idx == rows
  {
    if idx < rows {
      assert false by { MulMonotone(idx + 1, rows, size); }
    }
  }
}
