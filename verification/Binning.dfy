/** The n equal bins of the unit interval: half open except the last. */
module Binning {
  import opened RealArithmetic

  /** The test both calibration codes apply to a score for bin i of n. */
  predicate InBin(x: real, i: int, n: int)
    requires n > 0
  {
    && i as real / n as real <= x <= (i + 1) as real / n as real
    && (i == n - 1 || x < (i + 1) as real / n as real)
  }

  /** The bin a score falls in. */
  function BinIndex(x: real, n: int): (i: int)
    requires n > 0 && 0.0 <= x <= 1.0
    ensures 0 <= i < n
  {
    if x == 1.0 then n - 1
    else
      ScaledBelow(x, n);
      (x * n as real).Floor
  }

  lemma ScaledBelow(x: real, n: int)
    requires n > 0 && 0.0 <= x < 1.0
    ensures 0.0 <= x * n as real < n as real
  {
    assert (1.0 - x) * n as real > 0.0;
  }

  lemma Edge(x: real, i: int, n: int)
    requires n > 0
    ensures i as real / n as real <= x <==> i as real <= x * n as real
    ensures x < i as real / n as real <==> x * n as real < i as real
    ensures x <= i as real / n as real <==> x * n as real <= i as real
  {
    ClearDenominator(i as real, x, n as real);
  }

  /** The bins partition the unit interval: every score in it lies in exactly one bin, and
      every other score in none. */
  lemma BinsPartition(x: real, i: int, n: int)
    requires 0 <= i < n
    ensures InBin(x, i, n) <==> 0.0 <= x <= 1.0 && i == BinIndex(x, n)
  {
    Edge(x, i, n);
    Edge(x, i + 1, n);
    Edge(x, 0, n);
    Edge(x, n, n);
    assert n as real / n as real == 1.0 && 0 as real / n as real == 0.0;
  }
}
