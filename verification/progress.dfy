/**
  Progress percentages as the dashboard shows them: `Math.round(k / n * 100)` for `k` of
  `n` units done, computed exactly as floor(100k/n + 1/2) = (200k + n) div 2n.
 */
module Progress {

  function Percent(k: nat, n: nat): nat
    requires n > 0
  {
    (200 * k + n) / (2 * n)
  }

  lemma MulMonotone(a: int, b: int, c: int)
    requires a <= b && c >= 0
    ensures a * c <= b * c
  {
    assert b * c - a * c == (b - a) * c;
  }

  /** Pins an integer quotient down by the interval the dividend lies in. */
  lemma QuotientIs(x: int, d: int, q: int)
    requires d > 0 && q * d <= x < q * d + d
    ensures x / d == q
  {
    var r := x / d;
    assert x == d * r + x % d;
    if r > q {
      MulMonotone(q + 1, r, d);
      assert false;
    } else if r < q {
      MulMonotone(r + 1, q, d);
      assert false;
    }
  }

  lemma PercentOfNone(n: nat)
    requires n > 0
    ensures Percent(0, n) == 0
  {
    QuotientIs(n, 2 * n, 0);
  }

  lemma PercentOfAll(n: nat)
    requires n > 0
    ensures Percent(n, n) == 100
  {
    QuotientIs(200 * n + n, 2 * n, 100);
  }

  lemma PercentMonotone(j: nat, k: nat, n: nat)
    requires n > 0 && j <= k
    ensures Percent(j, n) <= Percent(k, n)
  {
    var d := 2 * n;
    var x, y := 200 * j + n, 200 * k + n;
    var p, q := x / d, y / d;
    assert x == d * p + x % d;
    assert y == d * q + y % d;
    if p > q {
      MulMonotone(q + 1, p, d);
      assert false;
    }
  }

  /** Every percentage of a count within `0..n` lies in `0..100`. */
  lemma PercentInRange(k: nat, n: nat)
    requires 0 < n && k <= n
    ensures 0 <= Percent(k, n) <= 100
  {
    PercentMonotone(k, n, n);
    PercentOfAll(n);
  }

  /** Before the last unit the rounded percentage is below 100 exactly when 200(n-k) > n. */
  lemma PercentBelowFull(k: nat, n: nat)
    requires k < n
    ensures Percent(k, n) < 100 <==> 200 * (n - k) > n
  {
    var d := 2 * n;
    var x := 200 * k + n;
    var q := x / d;
    assert x == d * q + x % d;
    if 200 * (n - k) > n {
      if q >= 100 {
        MulMonotone(100, q, d);
        assert false;
      }
    } else {
      if q < 100 {
        MulMonotone(q + 1, 100, d);
        assert false;
      }
    }
  }

  /** With 200 units the step before the last already rounds to 100. */
  lemma RoundsToFullBeforeLastStep()
    ensures Percent(199, 200) == 100
  {
    QuotientIs(200 * 199 + 200, 400, 100);
  }
}
