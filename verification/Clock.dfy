/** Wall-clock instants are whole numbers of nanoseconds; ages are compared in whole seconds. */
module Clock {

  const TICKS_PER_SECOND: int := 1_000_000_000

  /** Whole seconds of a duration, cut toward zero. */
  function WholeSeconds(d: int): int
  {
    if d >= 0 then d / TICKS_PER_SECOND else -(-d / TICKS_PER_SECOND)
  }

  /** A duration falls short of `n` whole seconds while it is less than so many ticks; below zero, where seconds
      are cut toward zero too, a second more has to be missing. */
  lemma WholeSecondsExactly(d: int, n: int)
    ensures WholeSeconds(d) < n <==> d < n * 1_000_000_000 && (n <= 0 ==> d <= (n - 1) * 1_000_000_000)
  {
  }

  /** More than `n` whole seconds, for a limit that is not negative. */
  lemma MoreSecondsExactly(d: int, n: nat)
    ensures WholeSeconds(d) > n <==> d >= (n + 1) * 1_000_000_000
  {
    WholeSecondsExactly(d, n + 1);
  }

  lemma WholeSecondsOrder(a: int, b: int)
    requires a <= b
    ensures WholeSeconds(a) <= WholeSeconds(b)
  {
  }
}
