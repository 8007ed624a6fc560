/** Dollar amounts on the wire: exact conversions, and ones rounded up. */
module Costs {
  import opened Names

  /** Five dollars, in millionths. */
  const CAP: int := 5_000_000

  function Floor(x: real): int { x.Floor }

  function Ceiling(x: real): int { -Floor(-x) }

  /** The observers' conversion: the amount must be a whole number of
      millionths of a dollar, not negative, and within the cap. */
  function ExactMicros(usd: real): Option<int> {
    var m := usd * 1000000.0;
    if m == Floor(m) as real && 0.0 <= m && Floor(m) <= CAP then Some(Floor(m)) else None
  }

  /** The estimate: rounded up, then held against the cap. */
  function EstimateMicros(usd: real): Option<int> {
    var m := Ceiling(usd * 1000000.0);
    if 0.0 <= usd && m <= CAP then Some(m) else None
  }

  /** The result worker's conversion: rounded up, with no cap of its own. */
  function RoundedMicros(usd: real): Option<int> {
    if 0.0 <= usd then Some(Ceiling(usd * 1000000.0)) else None
  }

  lemma CeilingBounds(x: real)
    ensures x <= Ceiling(x) as real < x + 1.0
  {
  }

  lemma CeilingLeast(x: real, n: int)
    ensures x <= n as real <==> Ceiling(x) <= n
  {
    CeilingBounds(x);
    if x <= n as real { assert (-x).Floor >= -n; }
  }

  /** The least integer not below an amount. */
  predicate LeastNotBelow(n: int, x: real) { x <= n as real < x + 1.0 }

  lemma RoundedIsLeast(usd: real)
    ensures RoundedMicros(usd).Some? <==> 0.0 <= usd
    ensures RoundedMicros(usd).Some? ==> LeastNotBelow(RoundedMicros(usd).value, usd * 1000000.0)
  {
    CeilingBounds(usd * 1000000.0);
  }

  /** The observers' amount is the very one, the estimate the least integer not
      below it, and both stay within five dollars. */
  lemma MicrosExactly(usd: real, n: int)
    ensures ExactMicros(usd) == Some(n) <==> n as real == usd * 1000000.0 && 0 <= n <= 5_000_000
    ensures EstimateMicros(usd) == Some(n) <==> LeastNotBelow(n, usd * 1000000.0) && 0 <= n <= 5_000_000 && 0.0 <= usd
    ensures RoundedMicros(usd) == Some(n) <==> LeastNotBelow(n, usd * 1000000.0) && 0.0 <= usd
  {
    hide Floor, Ceiling, LeastNotBelow;
    var x := usd * 1000000.0;
    assert 0.0 <= usd <==> 0.0 <= x;
    FloorIs(x, n);
    CeilingIs(x, n);
  }

  lemma FloorIs(x: real, n: int)
    ensures x == Floor(x) as real && Floor(x) == n <==> x == n as real
  {
  }

  lemma CeilingIs(x: real, n: int)
    ensures Ceiling(x) == n <==> LeastNotBelow(n, x)
    ensures 0.0 <= x && Ceiling(x) == n ==> 0 <= n
  {
    CeilingBounds(x);
    CeilingLeast(x, n);
    CeilingLeast(x, n - 1);
  }

  lemma WithinCeiling(actual: real, estimate: real, ceiling: int)
    requires ExactMicros(actual).Some? && EstimateMicros(estimate).Some?
    ensures ExactMicros(actual).value + EstimateMicros(estimate).value <= ceiling <==>
            actual + estimate <= ceiling as real / 1000000.0
  {
    var a, e := actual * 1000000.0, estimate * 1000000.0;
    CeilingLeast(e, ceiling - Floor(a));
    assert a + e <= ceiling as real <==> actual + estimate <= ceiling as real / 1000000.0;
  }

  /** The observer's test on rounded amounts is the test on the true amounts:
      it passes exactly when the true sum is within both ceilings. */
  lemma AdmittedCostIsWithinCeilings(actual: real, estimate: real, cap: int, configured: int)
    requires ExactMicros(actual).Some? && EstimateMicros(estimate).Some?
    ensures var total := ExactMicros(actual).value + EstimateMicros(estimate).value;
      && (total <= cap && total <= configured <==>
          actual + estimate <= cap as real / 1000000.0 && actual + estimate <= configured as real / 1000000.0)
  {
    WithinCeiling(actual, estimate, cap);
    WithinCeiling(actual, estimate, configured);
  }

  /** Rounding each part up is conservative: a sum of rounded amounts within an
      integral ceiling bounds the true sum, and overshoots by less than two. */
  lemma RoundedSumIsConservative(a: real, b: real, ceiling: int)
    requires RoundedMicros(a).Some? && RoundedMicros(b).Some?
    ensures RoundedMicros(a).value + RoundedMicros(b).value <= ceiling ==>
              a + b <= ceiling as real / 1000000.0
    ensures a + b <= (ceiling - 2) as real / 1000000.0 ==>
              RoundedMicros(a).value + RoundedMicros(b).value <= ceiling
  {
    CeilingBounds(a * 1000000.0);
    CeilingBounds(b * 1000000.0);
  }
}
