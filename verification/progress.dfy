/** The progress indicator shown around each pipeline step: a percentage of the
steps completed and a 50-cell bar.  The Go code computes both in floating point
and truncates; for the ten-step pipeline, `i / 10 * 100` is exact in binary64
for every `i` in 0..10 and `50 * p / 100` is exact for every multiple of ten,
so integer division gives the same numbers.
 */
module Progress {

  const BarWidth: nat := 50

  /** Percentage of the steps completed once `done` of `total` are done. */
  function Percent(done: nat, total: nat): (p: nat)
    requires 0 < total && done <= total
    ensures p <= 100
    ensures done == 0 ==> p == 0
    ensures done == total ==> p == 100
  {
    MultiplyMonotone(done, total, 100);
    DivideBounded(done * 100, total, 100);
    DivideExact(100, total);
    done * 100 / total
  }

  lemma MultiplyMonotone(a: int, b: int, d: nat)
    ensures a <= b ==> a * d <= b * d
  {
  }

  lemma DivideBounded(x: nat, d: nat, bound: nat)
    requires 0 < d && x <= d * bound
    ensures x / d <= bound
  {
    var q := x / d;
    assert q * d <= x;
    MultiplyMonotone(bound + 1, q, d);
  }

  lemma DivideExact(k: nat, d: nat)
    requires 0 < d
    ensures (k * d) / d == k
  {
    var q := (k * d) / d;
    assert q * d <= k * d < (q + 1) * d;
    MultiplyMonotone(k + 1, q, d);
    MultiplyMonotone(q + 1, k, d);
  }

  lemma DivideMonotone(x: nat, y: nat, d: nat)
    requires 0 < d && x <= y
    ensures x / d <= y / d
  {
    var qx, qy := x / d, y / d;
    assert qx * d <= x;
    assert y < (qy + 1) * d;
    MultiplyMonotone(qy + 1, qx, d);
  }

  /** More steps done never shows less progress. */
  lemma PercentMonotone(a: nat, b: nat, total: nat)
    requires 0 < total && a <= b <= total
    ensures Percent(a, total) <= Percent(b, total)
  {
    DivideMonotone(a * 100, b * 100, total);
  }

  /** The bar: cells filled and cells left empty. */
  datatype Bar = Bar(filled: nat, empty: nat)

  function ProgressBar(p: nat): (b: Bar)
    requires p <= 100
    ensures b.filled + b.empty == BarWidth
    ensures p == 0 ==> b.filled == 0
    ensures p == 100 ==> b.empty == 0
  {
    DivideBounded(BarWidth * p, 100, BarWidth);
    var filled := BarWidth * p / 100;
    Bar(filled, BarWidth - filled)
  }

  /** More progress never fills fewer cells. */
  lemma BarMonotone(p: nat, q: nat)
    requires p <= q <= 100
    ensures ProgressBar(p).filled <= ProgressBar(q).filled
  {
    DivideMonotone(BarWidth * p, BarWidth * q, 100);
  }
}
