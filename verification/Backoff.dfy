/** The delay before the next dial, in nanoseconds held by an int64. */
module Backoff {

  const MILLISECOND: int := 1_000_000
  const SECOND: int := 1_000_000_000
  const HOUR: int := 3600 * SECOND

  /** The largest failure count for which the delay does not overflow. */
  const MAX_FAILURES: int := 184_467_440_737

  function Wrap64(x: int): int {
    (x + 0x8000_0000_0000_0000) % 0x1_0000_0000_0000_0000 - 0x8000_0000_0000_0000
  }

  /** Whole seconds, dropping the fraction towards zero; below one second nothing is dropped. */
  function FloorToSecond(d: int): int {
    var sec := if d >= 0 then d / SECOND else -(-d / SECOND);
    if sec == 0 then d else sec * SECOND
  }

  function GetBackOff(failure: int): int {
    if failure < 10 then 0
    else if failure < 20 then FloorToSecond(Wrap64(10 * MILLISECOND * failure))
    else FloorToSecond(Wrap64(50 * MILLISECOND * failure))
  }

  lemma NoOverflow(x: int)
    requires -0x8000_0000_0000_0000 <= x < 0x8000_0000_0000_0000
    ensures Wrap64(x) == x
  {
  }

  lemma FloorProperties(d: int)
    requires d >= 0
    ensures 0 <= FloorToSecond(d) <= d
    ensures d >= SECOND ==> FloorToSecond(d) == d / SECOND * SECOND && FloorToSecond(d) >= SECOND
    ensures d < SECOND ==> FloorToSecond(d) == d
  {
  }

  lemma FloorMonotone(d: int, e: int)
    requires 0 <= d <= e
    ensures FloorToSecond(d) <= FloorToSecond(e)
  {
    FloorProperties(d);
    FloorProperties(e);
    if d >= SECOND {
      assert d / SECOND <= e / SECOND;
    }
  }

  /** Never negative, never more than 50ms for each failure, whole seconds from one second on. */
  lemma BackOffBounds(failure: int)
    requires failure <= MAX_FAILURES
    ensures 0 <= GetBackOff(failure)
    ensures failure >= 0 ==> GetBackOff(failure) <= 50 * MILLISECOND * failure
    ensures GetBackOff(failure) >= SECOND ==> GetBackOff(failure) % SECOND == 0
  {
    if failure >= 20 {
      var d := 50 * MILLISECOND * failure;
      NoOverflow(d);
      FloorProperties(d);
      if d >= SECOND {
        assert (d / SECOND * SECOND) % SECOND == 0;
      }
    } else if failure >= 10 {
      NoOverflow(10 * MILLISECOND * failure);
      FloorProperties(10 * MILLISECOND * failure);
    }
  }

  /** No delay for fewer than ten failures, 10ms for each of fewer than twenty, and from then on one
      second for every full twenty. */
  lemma BackOffValues(failure: int)
    requires failure <= MAX_FAILURES
    ensures failure < 10 ==> GetBackOff(failure) == 0
    ensures 10 <= failure < 20 ==> GetBackOff(failure) == failure * SECOND / 100
    ensures 20 <= failure ==> GetBackOff(failure) == failure / 20 * SECOND
  {
    if failure >= 20 {
      NoOverflow(50 * MILLISECOND * failure);
      FloorProperties(50 * MILLISECOND * failure);
    } else if failure >= 10 {
      NoOverflow(10 * MILLISECOND * failure);
      FloorProperties(10 * MILLISECOND * failure);
    }
  }

  /** More failures never mean a shorter delay, across both thresholds. */
  lemma BackOffMonotone(f: int, g: int)
    requires f <= g <= MAX_FAILURES
    ensures GetBackOff(f) <= GetBackOff(g)
  {
    BackOffBounds(g);
    if f >= 10 {
      var d := if f < 20 then 10 * MILLISECOND * f else 50 * MILLISECOND * f;
      var e := if g < 20 then 10 * MILLISECOND * g else 50 * MILLISECOND * g;
      NoOverflow(d);
      NoOverflow(e);
      FloorMonotone(d, e);
    }
  }

  ghost predicate MonotoneUpTo(n: int) {
    forall f, g :: f <= g <= n ==> GetBackOff(f) <= GetBackOff(g)
  }

  /** The delay is monotone exactly up to the failure count at which the product overflows. */
  lemma MonotoneIffNoOverflow(n: int)
    ensures MonotoneUpTo(n) <==> n <= MAX_FAILURES
  {
    if n <= MAX_FAILURES {
      forall f, g | f <= g <= n
        ensures GetBackOff(f) <= GetBackOff(g)
      {
        BackOffMonotone(f, g);
      }
    } else {
      BackOffBounds(MAX_FAILURES);
      assert Wrap64(50 * MILLISECOND * (MAX_FAILURES + 1)) < -SECOND;
      assert GetBackOff(MAX_FAILURES + 1) < 0;
      assert !(GetBackOff(MAX_FAILURES) <= GetBackOff(MAX_FAILURES + 1));
    }
  }
}
