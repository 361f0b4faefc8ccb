/** Facts about Euclidean division and remainder by a positive divisor, used to
    relate the round-robin vehicle labels `i % n + 1` of consecutive trips. */
module Arith {

  /** Quotient and remainder are determined by any decomposition `a == q * n + r`
      with `0 <= r < n`. */
  lemma DivModUnique(a: int, n: int, q: int, r: int)
    requires n > 0 && 0 <= r < n && a == q * n + r
    ensures a / n == q && a % n == r
  {
    var q', r' := a / n, a % n;
    assert a == q' * n + r';
    assert (q - q') * n == r' - r;
    if q > q' {
      MulAtLeast(q - q', n);
      assert false;
    } else if q < q' {
      MulAtLeast(q' - q, n);
      assert false;
    }
  }

  /** A positive multiple of `n` is at least `n`. */
  lemma MulAtLeast(k: int, n: int)
    requires k >= 1 && n > 0
    ensures k * n >= n
  {
    assert k * n == (k - 1) * n + n;
    assert (k - 1) * n >= 0;
  }

  /** Stepping back from an index that is not a multiple of `n` keeps the
      quotient and lowers the remainder by one. */
  lemma PredSameBlock(i: nat, n: nat)
    requires n > 0 && i % n != 0
    ensures i >= 1
    ensures (i - 1) / n == i / n
    ensures (i - 1) % n == i % n - 1
  {
    DivModUnique(i - 1, n, i / n, i % n - 1);
  }

  /** Stepping back a whole block from a multiple of `n` lowers the quotient
      by one and keeps the remainder zero. */
  lemma PredBlock(i: nat, n: nat)
    requires n > 0 && i % n == 0 && i >= n
    ensures (i - n) / n == i / n - 1
    ensures (i - n) % n == 0
  {
    DivModUnique(i - n, n, i / n - 1, 0);
  }

  /** The number of indices `j < i` with `j % n == v`, for a residue `v < n`. */
  function ResidueCount(i: nat, n: nat, v: nat): (c: nat)
    requires v < n
  {
    (i + n - 1 - v) / n
  }

  /** Counting index `i` raises the count of its own residue class by one and
      leaves every other class unchanged; before `i` is counted, its class
      already holds `i / n` indices. */
  lemma ResidueCountStep(i: nat, n: nat, v: nat)
    requires v < n
    ensures ResidueCount(i + 1, n, v) == ResidueCount(i, n, v) + (if i % n == v then 1 else 0)
    ensures i % n == v ==> ResidueCount(i, n, v) == i / n
  {
    var q, r := i / n, i % n;
    assert i == q * n + r;
    if r > v {
      DivModUnique(i + n - 1 - v, n, q + 1, r - 1 - v);
      DivModUnique(i + n - v, n, q + 1, r - v);
    } else if r == v {
      DivModUnique(i + n - 1 - v, n, q, n - 1);
      DivModUnique(i + n - v, n, q + 1, 0);
    } else {
      DivModUnique(i + n - 1 - v, n, q, n + r - 1 - v);
      DivModUnique(i + n - v, n, q, n + r - v);
    }
  }

  /** One more copy of `r`. */
  lemma MulSucc(c: int, r: int)
    ensures (c + 1) * r == c * r + r
  {
  }
}
