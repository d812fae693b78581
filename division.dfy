/**
 * Euclidean division by a positive divisor, taken apart: for 0 <= r < n,
 * k * n + r divides by n to k with remainder r.  The block arithmetic of the
 * cover and the index arithmetic of the mashup selector both rest on these.
 */
module Division {

  lemma DivBlock(k: int, n: int, r: int)
    requires n > 0 && 0 <= r < n
    ensures (k * n + r) / n == k
  {
    var q := (k * n + r) / n;
    var m := (k * n + r) % n;
    assert q * n + m == k * n + r;
    assert (q - k) * n == r - m;
    MulBounds(q - k, n);
  }

  lemma ModBlock(k: int, n: int, r: int)
    requires n > 0 && 0 <= r < n
    ensures (k * n + r) % n == r
  {
    var q := (k * n + r) / n;
    var m := (k * n + r) % n;
    assert q * n + m == k * n + r;
    assert (q - k) * n == r - m;
    MulBounds(q - k, n);
  }

  /** A multiple of n strictly between -n and n is 0. */
  lemma MulBounds(d: int, n: int)
    requires n > 0 && -n < d * n < n
    ensures d == 0
  {
  }
}
