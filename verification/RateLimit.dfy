/** The token-bucket rate limiter (src/ratelimit.rs).

    Time is a whole number of ticks and a window is a positive number of ticks, so that the refill
    is the exact quotient the source approximates in floating point, cut to a whole number.
 */
module RateLimit {
  import opened Arithmetic

  datatype Config = Config(max: nat, window: nat) {
    ghost predicate Valid() { max >= 1 && window >= 1 }

    /** Whole tokens earned by `elapsed` ticks; a negative difference of instants saturates to zero. */
    function Refill(elapsed: int): (r: nat)
      requires Valid()
    {
      var ticks := if elapsed < 0 then 0 else elapsed;
      assert max * ticks >= 0;
      DivisionBounds(max * ticks, window);
      max * ticks / window
    }

    lemma RefillBounds(elapsed: nat)
      requires Valid()
      ensures Refill(elapsed) * window <= max * elapsed < Refill(elapsed) * window + window
      ensures Refill(elapsed) > 0 ==> max * elapsed < 2 * (Refill(elapsed) * window)
    {
      var r := Refill(elapsed);
      DivisionBounds(max * elapsed, window);
      assert (r + 1) * window == r * window + window;
      if r > 0 {
        MulOrder(1, r, window);
      }
    }
  }

  datatype Bucket = Bucket(tokens: nat, lastRefill: int)

  // ---------------------------------------------------------------- one bucket

  /** A bucket after the refill that opens a check at `now`; the remainder of the division is dropped
      when something is refilled and the elapsed time is kept when nothing is. */
  function Refilled(c: Config, b: Bucket, now: int): Bucket
    requires c.Valid()
  {
    var refill := c.Refill(now - b.lastRefill);
    if refill > 0 then Bucket(Min(b.tokens + refill, c.max), now) else b
  }

  function Min(a: nat, b: nat): nat { if a <= b then a else b }

  predicate Admits(c: Config, b: Bucket, now: int)
    requires c.Valid()
  {
    Refilled(c, b, now).tokens > 0
  }

  function Checked(c: Config, b: Bucket, now: int): Bucket
    requires c.Valid()
  {
    var r := Refilled(c, b, now);
    if r.tokens > 0 then r.(tokens := r.tokens - 1) else r
  }

  // ---------------------------------------------------------------- runs of one bucket

  /** No check precedes `start` or the check before it. */
  ghost predicate Schedule(start: int, times: seq<int>)
    decreases times
  {
    times == [] || (start <= times[0] && Schedule(times[0], times[1..]))
  }

  function After(c: Config, b: Bucket, times: seq<int>): Bucket
    requires c.Valid()
    decreases times
  {
    if times == [] then b else After(c, Checked(c, b, times[0]), times[1..])
  }

  function Decisions(c: Config, b: Bucket, times: seq<int>): (d: seq<bool>)
    requires c.Valid()
    ensures |d| == |times|
    decreases times
  {
    if times == [] then [] else [Admits(c, b, times[0])] + Decisions(c, Checked(c, b, times[0]), times[1..])
  }

  function Admitted(d: seq<bool>): nat
  {
    if d == [] then 0 else (if d[0] then 1 else 0) + Admitted(d[1..])
  }

  function Last(start: int, times: seq<int>): int
  {
    if times == [] then start else times[|times| - 1]
  }

  /** The bucket a key's first check creates: full, and stamped with that check's instant. */
  function Fresh(c: Config, now: int): Bucket { Bucket(c.max, now) }

  // ---------------------------------------------------------------- what a check leaves behind

  /** At least one token short of full, with less than one token's worth of time not yet credited. */
  ghost predicate Settled(c: Config, b: Bucket, now: int)
  {
    b.tokens < c.max && b.lastRefill <= now && c.max * (now - b.lastRefill) < c.window
  }

  lemma CheckSettles(c: Config, b: Bucket, now: int)
    requires c.Valid() && b.tokens <= c.max && b.lastRefill <= now
    ensures Settled(c, Checked(c, b, now), now)
  {
    c.RefillBounds(now - b.lastRefill);
    assert now - now == 0 && c.max * 0 == 0;
  }

  lemma {:induction false} StaysSettled(c: Config, b: Bucket, now: int, times: seq<int>)
    requires c.Valid() && Settled(c, b, now) && Schedule(now, times)
    ensures Settled(c, After(c, b, times), Last(now, times))
    decreases times
  {
    if times != [] {
      CheckSettles(c, b, times[0]);
      StaysSettled(c, Checked(c, b, times[0]), times[0], times[1..]);
    }
  }

  lemma {:induction false} RunSplits(c: Config, b: Bucket, xs: seq<int>, ys: seq<int>)
    requires c.Valid()
    ensures After(c, b, xs + ys) == After(c, After(c, b, xs), ys)
    ensures Decisions(c, b, xs + ys) == Decisions(c, b, xs) + Decisions(c, After(c, b, xs), ys)
    decreases xs
  {
    if xs == [] {
      assert xs + ys == ys;
    } else {
      RunSplits(c, Checked(c, b, xs[0]), xs[1..], ys);
      assert (xs + ys)[1..] == xs[1..] + ys;
    }
  }

  lemma {:induction false} ScheduleSplits(start: int, xs: seq<int>, ys: seq<int>)
    requires Schedule(start, xs + ys)
    ensures Schedule(start, xs) && Schedule(Last(start, xs), ys)
    ensures start <= Last(start, xs)
    decreases xs
  {
    if xs == [] {
      assert xs + ys == ys;
    } else {
      assert (xs + ys)[1..] == xs[1..] + ys;
      ScheduleSplits(xs[0], xs[1..], ys);
    }
  }

  // ---------------------------------------------------------------- rate bounds

  /** What a bucket can still admit by `end`, in units of 1/window of a token. */
  function Potential(c: Config, b: Bucket, end: int): int
  {
    b.tokens * c.window + c.max * (end - b.lastRefill)
  }

  /** The cost of the admissions, in the same units. */
  function Cost(c: Config, d: seq<bool>): nat
  {
    if d == [] then 0 else (if d[0] then c.window else 0) + Cost(c, d[1..])
  }

  lemma {:induction false} CostIsAdmitted(c: Config, d: seq<bool>)
    ensures Cost(c, d) == Admitted(d) * c.window
  {
    if d != [] {
      CostIsAdmitted(c, d[1..]);
      var rest := Admitted(d[1..]);
      assert (1 + rest) * c.window == c.window + rest * c.window;
    }
  }

  lemma AdmittedStep(c: Config, b: Bucket, times: seq<int>)
    requires c.Valid() && times != []
    ensures Admitted(Decisions(c, b, times)) ==
      (if Admits(c, b, times[0]) then 1 else 0) + Admitted(Decisions(c, Checked(c, b, times[0]), times[1..]))
  {
    var rest := Decisions(c, Checked(c, b, times[0]), times[1..]);
    assert ([Admits(c, b, times[0])] + rest)[1..] == rest;
  }

  lemma RefillPotential(c: Config, b: Bucket, now: int, end: int)
    requires c.Valid() && b.lastRefill <= now <= end
    ensures Potential(c, Refilled(c, b, now), end) <= Potential(c, b, end)
  {
    var refill, r := c.Refill(now - b.lastRefill), Refilled(c, b, now);
    c.RefillBounds(now - b.lastRefill);
    if refill > 0 {
      CreditedPotential(c.window, c.max, b.tokens, refill, r.tokens, now - b.lastRefill, end - now);
    }
  }

  lemma CreditedPotential(window: nat, max: nat, tokens: nat, refill: nat, filled: nat, elapsed: nat, later: nat)
    requires refill * window <= max * elapsed && filled <= tokens + refill
    ensures filled * window + max * later <= tokens * window + max * (elapsed + later)
  {
    MulOrder(filled, tokens + refill, window);
    assert (tokens + refill) * window == tokens * window + refill * window;
    assert max * (elapsed + later) == max * elapsed + max * later;
  }

  /** A check pays for what it admits out of the potential. */
  lemma CheckPotential(c: Config, b: Bucket, now: int, end: int)
    requires c.Valid() && b.lastRefill <= now <= end
    ensures (if Admits(c, b, now) then c.window else 0) + Potential(c, Checked(c, b, now), end)
         == Potential(c, Refilled(c, b, now), end) <= Potential(c, b, end)
  {
    RefillPotential(c, b, now, end);
    var r := Refilled(c, b, now);
    assert (r.tokens - 1) * c.window == r.tokens * c.window - c.window;
  }

  /** Admissions are paid for by the tokens at hand and by the time since they were last refilled. */
  lemma {:induction false} PotentialBound(c: Config, b: Bucket, times: seq<int>, end: int)
    requires c.Valid() && Schedule(b.lastRefill, times) && Last(b.lastRefill, times) <= end
    ensures Cost(c, Decisions(c, b, times)) <= Potential(c, b, end)
    decreases times
  {
    if times == [] {
      assert c.max * (end - b.lastRefill) >= 0;
    } else {
      var t, next := times[0], Checked(c, b, times[0]);
      ScheduleWidens(next.lastRefill, t, times[1..]);
      ScheduleReaches(t, times[1..]);
      PotentialBound(c, next, times[1..], end);
      CheckPotential(c, b, t, end);
      assert Decisions(c, b, times)[1..] == Decisions(c, next, times[1..]);
    }
  }

  lemma {:induction false} ScheduleReaches(start: int, times: seq<int>)
    requires Schedule(start, times)
    ensures start <= Last(start, times)
    decreases times
  {
    if times != [] {
      ScheduleReaches(times[0], times[1..]);
    }
  }

  lemma ScheduleWidens(earlier: int, start: int, times: seq<int>)
    requires earlier <= start && Schedule(start, times)
    ensures Schedule(earlier, times)
  {
  }

  /** Over any stretch of checks, from the i-th to the j-th, the admissions stay below one full bucket
      plus the tokens earned between those two checks. */
  lemma SlidingWindowBound(c: Config, times: seq<int>, i: nat, j: nat)
    requires c.Valid() && i <= j < |times| && Schedule(times[0], times)
    ensures var d := Decisions(c, Fresh(c, times[0]), times);
      Admitted(d[i..j + 1]) * c.window <= c.max * (c.window + times[j] - times[i])
  {
    var start := times[0];
    var b := After(c, Fresh(c, start), times[..i]);
    StretchDecisions(c, Fresh(c, start), times, i, j);
    StretchSchedule(start, times, i, j);
    if i > 0 {
      SettledAfter(c, start, times[..i]);
    }
    StretchBound(c, b, times[i..j + 1], times[i], times[j]);
  }

  lemma StretchSchedule(start: int, times: seq<int>, i: nat, j: nat)
    requires i <= j < |times| && Schedule(start, times)
    ensures Schedule(start, times[..i]) && Last(start, times[..i]) <= times[i]
    ensures Schedule(times[i], times[i..j + 1]) && Last(times[i], times[i..j + 1]) == times[j]
  {
    hide Schedule;
    var early, stretch, late := times[..i], times[i..j + 1], times[j + 1..];
    assert times == early + (stretch + late) && stretch[|stretch| - 1] == times[j] && stretch[0] == times[i];
    MiddleSchedule(start, early, stretch, late);
  }

  lemma MiddleSchedule(start: int, early: seq<int>, stretch: seq<int>, late: seq<int>)
    requires stretch != [] && Schedule(start, early + (stretch + late))
    ensures Schedule(start, early) && Last(start, early) <= stretch[0]
    ensures Schedule(stretch[0], stretch)
  {
    hide Schedule;
    ScheduleSplits(start, early, stretch + late);
    ScheduleSplits(Last(start, early), stretch, late);
    ScheduleStarts(Last(start, early), stretch);
  }

  lemma ScheduleStarts(start: int, times: seq<int>)
    requires times != [] && Schedule(start, times)
    ensures start <= times[0] && Schedule(times[0], times)
  {
  }

  lemma StretchDecisions(c: Config, b: Bucket, times: seq<int>, i: nat, j: nat)
    requires c.Valid() && i <= j < |times|
    ensures Decisions(c, b, times)[i..j + 1] == Decisions(c, After(c, b, times[..i]), times[i..j + 1])
  {
    var before, middle, rest := times[..i], times[i..j + 1], times[j + 1..];
    assert times == before + (middle + rest);
    RunSplits(c, b, before, middle + rest);
    RunSplits(c, After(c, b, before), middle, rest);
  }

  lemma SettledAfter(c: Config, start: int, times: seq<int>)
    requires c.Valid() && times != [] && times[0] == start && Schedule(start, times)
    ensures Settled(c, After(c, Fresh(c, start), times), Last(start, times))
  {
    CheckSettles(c, Fresh(c, start), start);
    StaysSettled(c, Checked(c, Fresh(c, start), start), start, times[1..]);
  }

  lemma StretchBound(c: Config, b: Bucket, times: seq<int>, first: int, end: int)
    requires c.Valid() && times != [] && times[0] == first && Last(first, times) == end
    requires Schedule(first, times) && b.lastRefill <= first
    requires b == Fresh(c, first) || b.tokens < c.max
    ensures Admitted(Decisions(c, b, times)) * c.window <= c.max * (c.window + end - first)
  {
    // The run is the same when its opening refill is done beforehand.
    var r := Refilled(c, b, first);
    RefillFirst(c, b, times);
    ScheduleWidens(r.lastRefill, first, times);
    assert Last(r.lastRefill, times) == end;
    ScheduleReaches(first, times);
    PotentialBound(c, r, times, end);
    RefilledPotential(c, b, first, end);
    CostIsAdmitted(c, Decisions(c, r, times));
  }

  lemma RefillFirst(c: Config, b: Bucket, times: seq<int>)
    requires c.Valid() && times != []
    ensures Decisions(c, b, times) == Decisions(c, Refilled(c, b, times[0]), times)
  {
    RefillTwice(c, b, times[0]);
    assert Checked(c, b, times[0]) == Checked(c, Refilled(c, b, times[0]), times[0]);
  }

  lemma RefillTwice(c: Config, b: Bucket, now: int)
    requires c.Valid()
    ensures Refilled(c, Refilled(c, b, now), now) == Refilled(c, b, now)
  {
    assert now - now == 0 && c.max * 0 == 0;
    assert c.Refill(0) == 0;
  }

  lemma RefilledPotential(c: Config, b: Bucket, now: int, end: int)
    requires c.Valid() && b.lastRefill <= now <= end
    requires b == Fresh(c, now) || b.tokens < c.max
    ensures Potential(c, Refilled(c, b, now), end) <= c.max * (c.window + end - now)
  {
    var r := Refilled(c, b, now);
    assert c.max * (c.window + end - now) == c.max * c.window + c.max * (end - now);
    if r.lastRefill == now {
      MulOrder(r.tokens, c.max, c.window);
    } else {
      c.RefillBounds(now - b.lastRefill);
      MulOrder(r.tokens + 1, c.max, c.window);
      assert (r.tokens + 1) * c.window == r.tokens * c.window + c.window;
      assert c.max * (end - r.lastRefill) == c.max * (end - now) + c.max * (now - r.lastRefill);
    }
  }

  // ---------------------------------------------------------------- the ideal bucket

  /** A continuously refilled bucket of capacity `max`, its level held in units of 1/window of a token,
      can pay one token for every admission in `d`. */
  ghost predicate IdealPays(c: Config, level: int, last: int, times: seq<int>, d: seq<bool>)
    requires |times| == |d|
    decreases times
  {
    times == [] ||
    var filled := IdealFill(c, level, times[0] - last);
    if d[0] then filled >= c.window && IdealPays(c, filled - c.window, times[0], times[1..], d[1..])
    else IdealPays(c, filled, times[0], times[1..], d[1..])
  }

  function IdealFill(c: Config, level: int, elapsed: int): int
  {
    var filled := level + c.max * elapsed;
    if filled <= c.max * c.window then filled else c.max * c.window
  }

  /** Every schedule of checks is admitted by the ideal bucket too. */
  lemma SimulatedByIdeal(c: Config, times: seq<int>)
    requires c.Valid() && times != [] && Schedule(times[0], times)
    ensures IdealPays(c, c.max * c.window, times[0], times, Decisions(c, Fresh(c, times[0]), times))
  {
    var start, b := times[0], Fresh(c, times[0]);
    assert start - start == 0 && c.max * 0 == 0;
    assert IdealFill(c, c.max * c.window, 0) == c.max * c.window;
    var next := Checked(c, b, start);
    CheckSettles(c, b, start);
    CheckPotential(c, b, start, start);
    RefillTwice(c, b, start);
    IdealStep(c, c.max * c.window - c.window, next, start, times[1..]);
  }

  lemma {:induction false} IdealStep(c: Config, level: int, b: Bucket, now: int, times: seq<int>)
    requires c.Valid() && Settled(c, b, now) && Schedule(now, times) && level >= Potential(c, b, now)
    ensures IdealPays(c, level, now, times, Decisions(c, b, times))
    decreases times
  {
    if times != [] {
      var t, next, filled := times[0], Checked(c, b, times[0]), IdealFill(c, level, times[0] - now);
      IdealCheck(c, level, b, now, t);
      CheckSettles(c, b, t);
      var d := Decisions(c, b, times);
      assert d[1..] == Decisions(c, next, times[1..]);
      IdealStep(c, if d[0] then filled - c.window else filled, next, t, times[1..]);
    }
  }

  lemma IdealCheck(c: Config, level: int, b: Bucket, now: int, t: int)
    requires c.Valid() && Settled(c, b, now) && now <= t && level >= Potential(c, b, now)
    ensures var filled, next := IdealFill(c, level, t - now), Checked(c, b, t);
      if Admits(c, b, t) then filled >= c.window && filled - c.window >= Potential(c, next, t)
      else filled >= Potential(c, next, t)
  {
    PotentialGrows(c, b, now, t);
    CheckPotential(c, b, t, t);
    RefilledPotential(c, b, t, t);
    CheckSettles(c, b, t);
    PotentialNonNegative(c, Checked(c, b, t), t);
  }

  lemma PotentialGrows(c: Config, b: Bucket, now: int, t: int)
    ensures Potential(c, b, t) == Potential(c, b, now) + c.max * (t - now)
  {
    assert c.max * (t - b.lastRefill) == c.max * (t - now) + c.max * (now - b.lastRefill);
  }

  lemma PotentialNonNegative(c: Config, b: Bucket, end: int)
    requires b.lastRefill <= end
    ensures Potential(c, b, end) >= 0
  {
  }

  // ---------------------------------------------------------------- the bound is met

  function Burst(n: nat, at: int): seq<int>
  {
    if n == 0 then [] else [at] + Burst(n - 1, at)
  }

  /** A client that sends `max` requests at the start of each of `rounds` successive windows. */
  function Bursts(c: Config, start: int, rounds: nat): seq<int>
    decreases rounds
  {
    if rounds == 0 then [] else Burst(c.max, start) + Bursts(c, start + c.window, rounds - 1)
  }

  /** Such a client is always admitted: the sliding-window bound cannot be lowered. */
  lemma {:induction false} BurstsAdmitted(c: Config, b: Bucket, start: int, rounds: nat)
    requires c.Valid() && Refilled(c, b, start) == Fresh(c, start)
    ensures Admitted(Decisions(c, b, Bursts(c, start, rounds))) == c.max * rounds
    decreases rounds
  {
    if rounds > 0 {
      var burst, later := Burst(c.max, start), Bursts(c, start + c.window, rounds - 1);
      BurstDrains(c, b, start, c.max);
      var empty := After(c, b, burst);
      assert empty == Bucket(0, start);
      WindowRefills(c, start);
      BurstsAdmitted(c, empty, start + c.window, rounds - 1);
      RunSplits(c, b, burst, later);
      AdmittedSplits(Decisions(c, b, burst), Decisions(c, empty, later));
      assert c.max * rounds == c.max + c.max * (rounds - 1);
    }
  }

  lemma WindowRefills(c: Config, start: int)
    requires c.Valid()
    ensures Refilled(c, Bucket(0, start), start + c.window) == Fresh(c, start + c.window)
  {
    assert (c.max + 1) * c.window == c.max * c.window + c.window;
    QuotientIs(c.max * c.window, c.window, c.max);
  }

  lemma {:induction false} BurstDrains(c: Config, b: Bucket, now: int, n: nat)
    requires c.Valid() && Refilled(c, b, now).lastRefill == now && n <= Refilled(c, b, now).tokens
    ensures n > 0 ==> After(c, b, Burst(n, now)) == Bucket(Refilled(c, b, now).tokens - n, now)
    ensures Admitted(Decisions(c, b, Burst(n, now))) == n
    decreases n
  {
    if n > 0 {
      var next := Checked(c, b, now);
      assert Burst(n, now)[1..] == Burst(n - 1, now);
      RefillTwice(c, next, now);
      RefillTwice(c, b, now);
      BurstDrains(c, next, now, n - 1);
      AdmittedStep(c, b, Burst(n, now));
    }
  }

  lemma {:induction false} AdmittedSplits(xs: seq<bool>, ys: seq<bool>)
    ensures Admitted(xs + ys) == Admitted(xs) + Admitted(ys)
  {
    if xs == [] {
      assert xs + ys == ys;
    } else {
      AdmittedSplits(xs[1..], ys);
      assert (xs + ys)[1..] == xs[1..] + ys;
    }
  }

  // ---------------------------------------------------------------- no starvation

  /** A key whose checks are all denied has been denied for less than one token's worth of time,
      however often it polls. */
  lemma {:induction false} NoStarvation(c: Config, b: Bucket, times: seq<int>)
    requires c.Valid() && times != [] && Schedule(b.lastRefill, times)
    requires Admitted(Decisions(c, b, times)) == 0
    ensures c.max * (Last(times[0], times) - times[0]) < c.window
    ensures c.max * (Last(times[0], times) - b.lastRefill) < c.window && After(c, b, times) == b
    decreases times
  {
    var t, end := times[0], Last(times[0], times);
    DeniedKeepsBucket(c, b, t);
    AdmittedStep(c, b, times);
    ScheduleWidens(b.lastRefill, t, times[1..]);
    ScheduleReaches(t, times[1..]);
    assert end == Last(t, times[1..]);
    if |times| > 1 {
      NoStarvation(c, b, times[1..]);
    }
    ScaledOrder(c, end - t, end - b.lastRefill);
  }

  lemma DeniedKeepsBucket(c: Config, b: Bucket, now: int)
    requires c.Valid() && b.lastRefill <= now
    ensures !Admits(c, b, now) ==> Checked(c, b, now) == b && c.max * (now - b.lastRefill) < c.window
  {
    c.RefillBounds(now - b.lastRefill);
  }

  lemma ScaledOrder(c: Config, x: int, y: int)
    requires x <= y
    ensures c.max * x <= c.max * y
  {
    MulOrder(x, y, c.max);
  }

  // ---------------------------------------------------------------- the discarded remainders

  /** Tokens the refills of a run put into the bucket. */
  function Credited(c: Config, b: Bucket, times: seq<int>): nat
    requires c.Valid()
    decreases times
  {
    if times == [] then 0
    else c.Refill(times[0] - b.lastRefill) + Credited(c, Checked(c, b, times[0]), times[1..])
  }

  /** No refill of the run is cut at the bucket's capacity. */
  ghost predicate Uncapped(c: Config, b: Bucket, times: seq<int>)
    requires c.Valid()
    decreases times
  {
    times == [] ||
    (b.tokens + c.Refill(times[0] - b.lastRefill) <= c.max && Uncapped(c, Checked(c, b, times[0]), times[1..]))
  }

  /** Rounding down costs less than half of the configured rate: the tokens credited are worth more than
      half of the time the refills cover, and each is either admitted or still in the bucket. */
  lemma {:induction false} HalfRate(c: Config, b: Bucket, times: seq<int>)
    requires c.Valid() && Schedule(b.lastRefill, times) && Uncapped(c, b, times)
    ensures var end, credited := After(c, b, times), Credited(c, b, times);
      && Admitted(Decisions(c, b, times)) + end.tokens == b.tokens + credited
      && (if credited == 0 then end.lastRefill == b.lastRefill
          else 2 * (credited * c.window) > c.max * (end.lastRefill - b.lastRefill))
    decreases times
  {
    if times != [] {
      var t, next := times[0], Checked(c, b, times[0]);
      ScheduleWidens(next.lastRefill, t, times[1..]);
      HalfRate(c, next, times[1..]);
      AdmittedStep(c, b, times);
      var refill, later := c.Refill(t - b.lastRefill), Credited(c, next, times[1..]);
      if refill > 0 {
        c.RefillBounds(t - b.lastRefill);
        Covers(c, refill, later, t - b.lastRefill, After(c, next, times[1..]).lastRefill - t);
      }
    }
  }

  lemma Covers(c: Config, refill: nat, later: nat, elapsed: int, covered: int)
    requires 2 * (refill * c.window) > c.max * elapsed
    requires if later == 0 then covered == 0 else 2 * (later * c.window) > c.max * covered
    ensures 2 * ((refill + later) * c.window) > c.max * (elapsed + covered)
  {
    assert (refill + later) * c.window == refill * c.window + later * c.window;
    assert c.max * (elapsed + covered) == c.max * elapsed + c.max * covered;
  }

  // ---------------------------------------------------------------- the limiter

  type Buckets = map<string, Bucket>

  function BucketOf(c: Config, m: Buckets, key: string, now: int): Bucket
  {
    if key in m then m[key] else Fresh(c, now)
  }

  class RateLimiter {
    const config: Config
    var buckets: Buckets

    ghost predicate Valid() reads this { config.Valid() }

    constructor (maxRequests: nat, windowTicks: nat)
      ensures Valid() && buckets == map[]
      ensures config.max == (if maxRequests == 0 then 1 else maxRequests)
      ensures config.window == (if windowTicks == 0 then 1 else windowTicks)
    {
      config := Config(if maxRequests == 0 then 1 else maxRequests, if windowTicks == 0 then 1 else windowTicks);
      buckets := map[];
    }

    method Check(key: string, now: int) returns (admitted: bool)
      requires Valid()
      modifies this`buckets
      ensures admitted == Admits(config, BucketOf(config, old(buckets), key, now), now)
      ensures buckets == old(buckets)[key := Checked(config, BucketOf(config, old(buckets), key, now), now)]
      // The first check of a key finds a full bucket.
      ensures key !in old(buckets) ==> admitted && buckets == old(buckets)[key := Bucket(config.max - 1, now)]
      ensures key in old(buckets) ==>
        && buckets == old(buckets)[key := buckets[key]]
        && Serves(config, old(buckets)[key], now, admitted, buckets[key])
    {
      var entry := if key in buckets then buckets[key] else Bucket(config.max, now);
      var refill := config.Refill(now - entry.lastRefill);
      ghost var was := entry;
      RefillIs(config, now - was.lastRefill);
      if refill > 0 {
        entry := Bucket(Min(entry.tokens + refill, config.max), now);
      }
      if entry.tokens > 0 {
        entry := entry.(tokens := entry.tokens - 1);
        admitted := true;
      } else {
        admitted := false;
      }
      buckets := buckets[key := entry];
      assert Served(config, was, now, refill, admitted, entry);
    }
  }

  /** So many whole tokens are earned in that time; none if it runs backwards. */
  ghost predicate RefillOf(c: Config, elapsed: int, refill: nat)
  {
    if elapsed <= 0 then refill == 0
    else refill * c.window <= c.max * elapsed < (refill + 1) * c.window
  }

  /** What a check makes of a bucket, in so many words. */
  ghost predicate Serves(c: Config, was: Bucket, now: int, admitted: bool, b: Bucket)
  {
    exists refill: nat :: RefillOf(c, now - was.lastRefill, refill) && Served(c, was, now, refill, admitted, b)
  }

  ghost predicate Served(c: Config, was: Bucket, now: int, refill: nat, admitted: bool, b: Bucket)
  {
    var tokens := if refill > 0 && was.tokens + refill > c.max then c.max else was.tokens + refill;
    && (admitted <==> tokens > 0)
    && b.tokens == (if admitted then tokens - 1 else tokens)
    && b.lastRefill == if refill > 0 then now else was.lastRefill
  }

  lemma RefillIs(c: Config, elapsed: int)
    requires c.Valid()
    ensures RefillOf(c, elapsed, c.Refill(elapsed))
  {
    if elapsed >= 0 {
      c.RefillBounds(elapsed);
      assert (c.Refill(elapsed) + 1) * c.window == c.Refill(elapsed) * c.window + c.window;
    }
    if elapsed <= 0 {
      assert c.max * 0 == 0;
    }
  }

  // ---------------------------------------------------------------- many keys

  datatype Request = Request(key: string, at: int)

  /** The decisions taken on one key's requests in an interleaved run. */
  function DecisionsFor(c: Config, m: Buckets, run: seq<Request>, key: string): seq<bool>
    requires c.Valid()
    decreases run
  {
    if run == [] then [] else
      var b := BucketOf(c, m, run[0].key, run[0].at);
      var rest := DecisionsFor(c, m[run[0].key := Checked(c, b, run[0].at)], run[1..], key);
      if run[0].key == key then [Admits(c, b, run[0].at)] + rest else rest
  }

  function TimesOf(run: seq<Request>, key: string): seq<int>
  {
    if run == [] then [] else (if run[0].key == key then [run[0].at] else []) + TimesOf(run[1..], key)
  }

  /** Keys are isolated: a key is decided as if it had the limiter to itself. */
  lemma {:induction false} KeysIsolated(c: Config, m: Buckets, run: seq<Request>, key: string)
    requires c.Valid()
    ensures var times := TimesOf(run, key);
      times != [] ==> DecisionsFor(c, m, run, key) == Decisions(c, BucketOf(c, m, key, times[0]), times)
    ensures TimesOf(run, key) == [] ==> DecisionsFor(c, m, run, key) == []
    decreases run
  {
    if run != [] {
      var r := run[0];
      var m' := m[r.key := Checked(c, BucketOf(c, m, r.key, r.at), r.at)];
      KeysIsolated(c, m', run[1..], key);
      var times, later := TimesOf(run, key), TimesOf(run[1..], key);
      if r.key == key {
        assert times[1..] == later;
        if later != [] {
          assert BucketOf(c, m', key, later[0]) == m'[key];
        }
      } else if times != [] {
        assert times == later && BucketOf(c, m', key, times[0]) == BucketOf(c, m, key, times[0]);
      }
    }
  }

  /** So a key that was never seen starts with a full bucket, however many others came before. */
  lemma FreshKey(c: Config, run: seq<Request>, key: string)
    requires c.Valid() && TimesOf(run, key) != []
    ensures var times := TimesOf(run, key);
      && DecisionsFor(c, map[], run, key) == Decisions(c, Bucket(c.max, times[0]), times)
      && DecisionsFor(c, map[], run, key)[0]
  {
    KeysIsolated(c, map[], run, key);
    var start := TimesOf(run, key)[0];
    RefillIs(c, start - start);
  }

  /** No request comes before the one before it. */
  ghost predicate Timed(start: int, run: seq<Request>)
    decreases run
  {
    run == [] || (start <= run[0].at && Timed(run[0].at, run[1..]))
  }

  lemma {:induction false} TimesScheduled(start: int, run: seq<Request>, key: string)
    requires Timed(start, run)
    ensures Schedule(start, TimesOf(run, key))
    decreases run
  {
    if run != [] {
      TimesScheduled(run[0].at, run[1..], key);
      var later := TimesOf(run[1..], key);
      if run[0].key == key {
        assert ([run[0].at] + later)[1..] == later;
      } else {
        assert [] + later == later;
        ScheduleWidens(start, run[0].at, later);
      }
    }
  }

  /** The limiter as a whole: over every run of requests from a new limiter, whatever the interleaving of keys,
      every stretch of one key's requests obeys the bound. */
  lemma LimiterBound(c: Config, start: int, run: seq<Request>, key: string, i: nat, j: nat)
    requires c.Valid() && Timed(start, run) && i <= j < |TimesOf(run, key)|
    ensures var d, times := DecisionsFor(c, map[], run, key), TimesOf(run, key);
      |d| == |times| && Admitted(d[i..j + 1]) * c.window <= c.max * (c.window + times[j] - times[i])
  {
    FreshKey(c, run, key);
    TimesScheduled(start, run, key);
    ScheduleStarts(start, TimesOf(run, key));
    SlidingWindowBound(c, TimesOf(run, key), i, j);
  }
}
