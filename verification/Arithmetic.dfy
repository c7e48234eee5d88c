/** Whole-number facts the other modules share. */
module Arithmetic {
  function Max(a: int, b: int): int {
    if a < b then b else a
  }

  function Min(a: int, b: int): int {
    if a < b then a else b
  }

  lemma MultipleAtLeast(k: int, n: int)
    requires k >= 1 && n > 0
    ensures k * n >= n
  {
    assert k * n == n + (k - 1) * n;
  }

  /** Division with remainder has one answer. */
  lemma RemainderIs(a: int, q: int, r: int, n: int)
    requires n > 0 && a == q * n + r && 0 <= r < n
    ensures a % n == r
  {
    var q', r' := a / n, a % n;
    assert (q' - q) * n == r - r';
    assert (q - q') * n == r' - r;
    if q' > q { MultipleAtLeast(q' - q, n); }
    if q' < q { MultipleAtLeast(q - q', n); }
  }
}
