/** What the router learns about endpoints (src/quantum/state.rs), over the real numbers. The functions of
    the mathematics library are whatever satisfies the two laws the program relies on. */
module QuantumState {
  import opened Arithmetic
  import opened Clock
  import opened Distribution

  datatype Libm = Libm(
    sqrt: real -> real,
    cos: real -> real,
    sin: real -> real,
    atan2: (real, real) -> real,
    pi: real)
  {
    ghost predicate Sound()
    {
      && (forall x :: x >= 0.0 ==> sqrt(x) >= 0.0 && sqrt(x) * sqrt(x) == x)
      && (forall x :: cos(x) * cos(x) + sin(x) * sin(x) == 1.0)
    }

    /** The angle of a point, with its distance, gives back the point. */
    ghost predicate Polarizes()
    {
      forall x, y :: var r, angle := sqrt(x * x + y * y), atan2(y, x); r * cos(angle) == x && r * sin(angle) == y
    }
  }

  datatype Amplitude = Amplitude(re: real, im: real) {
    function Probability(): (p: real)
      ensures p >= 0.0
    {
      SquareSign(re);
      SquareSign(im);
      re * re + im * im
    }
  }

  lemma SquareSign(x: real)
    ensures x * x >= 0.0
    ensures x != 0.0 ==> x * x > 0.0
  {
    if x < 0.0 {
      SquarePositive(-x);
      assert -x * -x == x * x;
    } else if x > 0.0 {
      SquarePositive(x);
    }
  }

  lemma SquarePositive(x: real)
    requires x > 0.0
    ensures x * x > 0.0
  {
  }

  datatype EndpointState = EndpointState(amplitude: Amplitude, pulls: nat, totalReward: real, lastUpdated: int)

  type States = map<string, EndpointState>

  function Unseen(now: int): EndpointState { EndpointState(Amplitude(1.0, 0.0), 0, 0.0, now) }

  function StateOf(states: States, endpoint: string, now: int): EndpointState
  {
    if endpoint in states then states[endpoint] else Unseen(now)
  }

  function Clamp(x: real, low: real, high: real): real { if x < low then low else if x > high then high else x }

  // ---------------------------------------------------------------- one update

  /** The magnitude follows the average reward. */
  function Magnitude(l: Libm, average: real): real { Clamp(l.sqrt(average), 0.0, 1.0) }

  /** The phase turns a little with every reward. */
  function Turned(l: Libm, a: Amplitude, reward: real): real
  {
    l.atan2(a.im, a.re) + (reward - 0.5) * l.pi * 0.1
  }

  function Polar(l: Libm, magnitude: real, phase: real): Amplitude
  {
    Amplitude(magnitude * l.cos(phase), magnitude * l.sin(phase))
  }

  /** An endpoint after one more reward. */
  function Rotated(l: Libm, e: EndpointState, reward: real, now: int): EndpointState
  {
    var pulls, total := e.pulls + 1, e.totalReward + reward;
    EndpointState(Polar(l, Magnitude(l, total / pulls as real), Turned(l, e.amplitude, reward)), pulls, total, now)
  }

  function InverseRoot(l: Libm, x: real): (r: real)
    requires l.Sound() && x > 0.0
    ensures r > 0.0 && r * r * x == 1.0
  {
    var root := l.sqrt(x);
    RootPositive(root, x);
    1.0 / root
  }

  /** The magnitude every one of `n` endpoints decays toward. */
  function Uniform(l: Libm, n: nat): (u: real)
    requires l.Sound() && n > 0
    ensures u > 0.0 && u * u * n as real == 1.0
  {
    InverseRoot(l, n as real)
  }

  lemma RootPositive(root: real, x: real)
    requires root >= 0.0 && root * root == x && x > 0.0
    ensures root > 0.0 && 1.0 / root > 0.0 && 1.0 / root * (1.0 / root) * x == 1.0
  {
    var inverse := 1.0 / root;
    assert inverse * root == 1.0;
    assert inverse * inverse * (root * root) == (inverse * root) * (inverse * root);
  }

  function Decayed(a: Amplitude, uniform: real, rate: real): Amplitude
  {
    Amplitude(a.re * (1.0 - rate) + uniform * rate, a.im * (1.0 - rate))
  }

  function Decohered(l: Libm, states: States, rate: real): States
    requires l.Sound()
  {
    if |states| == 0 then states
    else
      var uniform := Uniform(l, |states|);
      map k | k in states :: states[k].(amplitude := Decayed(states[k].amplitude, uniform, rate))
  }

  function Updated(l: Libm, states: States, endpoint: string, reward: real, rate: real, now: int): States
    requires l.Sound()
  {
    Decohered(l, states[endpoint := Rotated(l, StateOf(states, endpoint, now), reward, now)], rate)
  }

  /** A rotation in so many words: one pull more and its reward; the magnitude becomes the root of the average
      reward, cut to the unit interval, and the phase turns by a tenth of pi for every unit the reward is above
      one half. */
  lemma RotatedExactly(l: Libm, e: EndpointState, reward: real, now: int)
    ensures var root := l.sqrt((e.totalReward + reward) / (e.pulls + 1) as real);
      var magnitude := if root < 0.0 then 0.0 else if root > 1.0 then 1.0 else root;
      var phase := l.atan2(e.amplitude.im, e.amplitude.re) + (reward - 0.5) * l.pi * 0.1;
      Rotated(l, e, reward, now) ==
        EndpointState(Amplitude(magnitude * l.cos(phase), magnitude * l.sin(phase)),
          e.pulls + 1, e.totalReward + reward, now)
  {
    var r := Rotated(l, e, reward, now);
    var avg := (e.totalReward + reward) / (e.pulls + 1) as real;
    assert r.amplitude == Polar(l, Magnitude(l, avg), Turned(l, e.amplitude, reward));
    var phase := l.atan2(e.amplitude.im, e.amplitude.re) + (reward - 0.5) * l.pi * 0.1;
    assert Turned(l, e.amplitude, reward) == phase;
    assert r.amplitude.re == Magnitude(l, avg) * l.cos(phase);
  }

  /** And an update: the endpoint, which starts at full amplitude if it is new, is rotated; then every endpoint
      moves by the rate toward the uniform magnitude. */
  lemma UpdatedExactly(l: Libm, states: States, endpoint: string, reward: real, rate: real, now: int, k: string)
    requires l.Sound() && (k in states || k == endpoint)
    ensures var e := if endpoint in states then states[endpoint] else EndpointState(Amplitude(1.0, 0.0), 0, 0.0, now);
      var turned := if k == endpoint then Rotated(l, e, reward, now) else states[k];
      var states' := Updated(l, states, endpoint, reward, rate, now);
      && states'.Keys == states.Keys + {endpoint} && |states'| > 0
      && states'[k] == turned.(amplitude := Decayed(turned.amplitude, Uniform(l, |states'|), rate))
  {
    hide Uniform, Amplitude.Probability, Decohered, Rotated, Decayed;
    var turned := states[endpoint := Rotated(l, StateOf(states, endpoint, now), reward, now)];
    assert endpoint in turned && turned.Keys == states.Keys + {endpoint};
    DecoheredIs(l, turned, rate);
    SameSize(turned, Updated(l, states, endpoint, reward, rate, now));
  }

  // ---------------------------------------------------------------- the unit disk

  ghost predicate Healthy(e: EndpointState)
  {
    0.0 <= e.totalReward <= e.pulls as real && e.amplitude.Probability() <= 1.0
  }

  ghost predicate AllHealthy(states: States) { forall k :: k in states ==> Healthy(states[k]) }

  /** A rotation leaves the probability at exactly the average reward. */
  lemma RotatedProbability(l: Libm, e: EndpointState, reward: real, now: int)
    requires l.Sound() && Healthy(e) && 0.0 <= reward <= 1.0
    ensures var r := Rotated(l, e, reward, now);
      Healthy(r) && r.amplitude.Probability() == r.totalReward / r.pulls as real
  {
    var pulls, total := (e.pulls + 1) as real, e.totalReward + reward;
    var average := total / pulls;
    Average(total, pulls);
    var root := l.sqrt(average);
    RootSmall(root, average);
    var phase := Turned(l, e.amplitude, reward);
    OnCircle(root, l.cos(phase), l.sin(phase));
  }

  /** A reward of one half does not turn the amplitude: it stays on the line it was on. */
  lemma HalfRewardKeepsPhase(l: Libm, e: EndpointState, now: int)
    requires l.Polarizes()
    ensures var a, b := e.amplitude, Rotated(l, e, 0.5, now).amplitude; b.re * a.im == b.im * a.re
  {
    var a, b := e.amplitude, Rotated(l, e, 0.5, now).amplitude;
    var angle, r := l.atan2(a.im, a.re), l.sqrt(a.re * a.re + a.im * a.im);
    assert Turned(l, a, 0.5) == angle + 0.0 * l.pi * 0.1 == angle;
    assert r * l.cos(angle) == a.re && r * l.sin(angle) == a.im;
    Parallel(Magnitude(l, (e.totalReward + 0.5) / (e.pulls + 1) as real), r, l.cos(angle), l.sin(angle));
  }

  lemma Parallel(m: real, r: real, c: real, s: real)
    ensures m * c * (r * s) == m * s * (r * c)
  {
  }

  lemma Average(total: real, pulls: real)
    requires 0.0 <= total <= pulls && pulls > 0.0
    ensures 0.0 <= total / pulls <= 1.0
  {
  }

  lemma RootSmall(root: real, x: real)
    requires root >= 0.0 && root * root == x && x <= 1.0
    ensures root <= 1.0
  {
    if root > 1.0 {
      SquareGrows(root);
    }
  }

  lemma SquareGrows(x: real)
    requires x > 1.0
    ensures x * x > x
  {
  }

  lemma OnCircle(m: real, c: real, s: real)
    requires c * c + s * s == 1.0
    ensures m * c * (m * c) + m * s * (m * s) == m * m
  {
    assert m * c * (m * c) == m * m * (c * c) && m * s * (m * s) == m * m * (s * s);
    assert m * m * (c * c) + m * m * (s * s) == m * m * (c * c + s * s);
  }

  /** Decoherence moves the probability no further than the mixture of it and the uniform one. */
  lemma DecayConvex(a: Amplitude, u: real, rate: real)
    requires 0.0 <= rate <= 1.0
    ensures Decayed(a, u, rate).Probability() <= (1.0 - rate) * a.Probability() + rate * (u * u)
  {
    var q := 1.0 - rate;
    Mixture(a.re, u, rate);
    Shrunk(a.im, rate);
    var re, im := a.re * q + u * rate, a.im * q;
    AddUp(re * re, im * im, q, a.re * a.re, a.im * a.im, rate * (u * u));
  }

  lemma AddUp(x: real, y: real, q: real, a: real, b: real, c: real)
    requires x <= q * a + c && y <= q * b
    ensures x + y <= q * (a + b) + c
  {
    assert q * (a + b) == q * a + q * b;
  }

  lemma Shrunk(x: real, rate: real)
    requires 0.0 <= rate <= 1.0
    ensures x * (1.0 - rate) * (x * (1.0 - rate)) <= (1.0 - rate) * (x * x)
  {
    Mixture(x, 0.0, rate);
    assert 0.0 * rate == 0.0 && rate * (0.0 * 0.0) == 0.0;
  }

  lemma Mixture(x: real, u: real, rate: real)
    requires 0.0 <= rate <= 1.0
    ensures (x * (1.0 - rate) + u * rate) * (x * (1.0 - rate) + u * rate) <= (1.0 - rate) * (x * x) + rate * (u * u)
  {
    var q, d := 1.0 - rate, x - u;
    var y := x * q + u * rate;
    assert y == u + d * q;
    assert q * (x * x) + rate * (u * u) - y * y == rate * q * (d * d) by {
      assert x == u + d;
      assert x * x == u * u + 2.0 * u * d + d * d;
      assert y * y == u * u + 2.0 * u * d * q + d * q * (d * q);
      assert q * (x * x) == q * (u * u) + 2.0 * u * d * q + q * (d * d);
    }
    assert rate * q >= 0.0 && d * d >= 0.0;
    assert rate * q * (d * d) >= 0.0;
  }

  lemma UniformSmall(l: Libm, n: nat)
    requires l.Sound() && n > 0
    ensures var u := Uniform(l, n); u * u <= 1.0
  {
    var u := Uniform(l, n);
    var uu := u * u;
    SquareSign(u);
    assert uu * n as real == 1.0;
    if uu > 1.0 {
      ProductGrows(uu, n as real);
    }
  }

  lemma ProductGrows(x: real, n: real)
    requires x > 1.0 && n >= 1.0
    ensures x * n > 1.0
  {
  }

  lemma DecayKeepsDisk(a: Amplitude, u: real, rate: real)
    requires 0.0 <= rate <= 1.0 && a.Probability() <= 1.0 && u * u <= 1.0
    ensures Decayed(a, u, rate).Probability() <= 1.0
  {
    hide Amplitude.Probability, Decayed;
    DecayConvex(a, u, rate);
    MixtureSmall(a.Probability(), u * u, rate);
  }

  lemma MixtureSmall(p: real, q: real, rate: real)
    requires 0.0 <= rate <= 1.0 && p <= 1.0 && q <= 1.0
    ensures (1.0 - rate) * p + rate * q <= 1.0
  {
    assert (1.0 - rate) * p <= (1.0 - rate) * 1.0;
    assert rate * q <= rate * 1.0;
  }

  /** Decoherence keeps every amplitude within the unit disk exactly for rates between zero and one. */
  lemma DiskKeptExactly(l: Libm, rate: real)
    requires l.Sound()
    ensures (forall a: Amplitude, n: nat ::
        n > 0 && a.Probability() <= 1.0 ==> Decayed(a, Uniform(l, n), rate).Probability() <= 1.0)
      <==> 0.0 <= rate <= 1.0
  {
    if 0.0 <= rate <= 1.0 {
      forall a: Amplitude, n: nat | n > 0 && a.Probability() <= 1.0
        ensures Decayed(a, Uniform(l, n), rate).Probability() <= 1.0
      {
        UniformSmall(l, n);
        DecayKeepsDisk(a, Uniform(l, n), rate);
      }
    } else {
      var a := Amplitude(-1.0, 0.0);
      UniformOfOne(l);
      var b := Decayed(a, 1.0, rate);
      assert b == Amplitude(2.0 * rate - 1.0, 0.0);
      OutOfDisk(2.0 * rate - 1.0);
      assert b.Probability() == (2.0 * rate - 1.0) * (2.0 * rate - 1.0) > 1.0;
      assert Decayed(a, Uniform(l, 1), rate) == b;
    }
  }

  lemma UniformOfOne(l: Libm)
    requires l.Sound()
    ensures Uniform(l, 1) == 1.0
  {
    var u := Uniform(l, 1);
    assert u * u == 1.0;
    if u > 1.0 {
      SquareGrows(u);
    } else if u < 1.0 {
      SquareShrinks(u);
    }
  }

  lemma SquareShrinks(x: real)
    requires 0.0 < x < 1.0
    ensures x * x < x
  {
  }

  lemma OutOfDisk(x: real)
    requires x < -1.0 || x > 1.0
    ensures x * x > 1.0
  {
    if x > 1.0 {
      SquareGrows(x);
    } else {
      SquareGrows(-x);
      assert -x * -x == x * x;
    }
  }

  // ---------------------------------------------------------------- runs

  datatype Observation = Observation(endpoint: string, reward: real, at: int)

  function RunUpdates(l: Libm, states: States, run: seq<Observation>, rate: real): States
    requires l.Sound()
    decreases run
  {
    if run == [] then states
    else RunUpdates(l, Updated(l, states, run[0].endpoint, run[0].reward, rate, run[0].at), run[1..], rate)
  }

  ghost predicate Rewarding(run: seq<Observation>)
  {
    forall i :: 0 <= i < |run| ==> 0.0 <= run[i].reward <= 1.0
  }

  lemma DecoheredIs(l: Libm, states: States, rate: real)
    requires l.Sound()
    ensures Decohered(l, states, rate).Keys == states.Keys
    ensures |states| > 0 || states == map[]
    ensures forall k :: k in states ==>
      Decohered(l, states, rate)[k] == states[k].(amplitude := Decayed(states[k].amplitude, Uniform(l, |states|), rate))
  {
    if |states| == 0 {
      assert states.Keys == {};
    }
  }

  lemma FullIsHealthy(now: int)
    ensures Healthy(Unseen(now))
  {
  }

  lemma UpdateKeepsHealth(l: Libm, states: States, endpoint: string, reward: real, rate: real, now: int)
    requires l.Sound() && 0.0 <= rate <= 1.0 && 0.0 <= reward <= 1.0 && AllHealthy(states)
    ensures AllHealthy(Updated(l, states, endpoint, reward, rate, now))
  {
    hide Rotated, Decohered, Decayed, Uniform, Amplitude.Probability;
    var e := StateOf(states, endpoint, now);
    FullIsHealthy(now);
    RotatedProbability(l, e, reward, now);
    var turned := states[endpoint := Rotated(l, e, reward, now)];
    DecoheredIs(l, turned, rate);
    forall k | k in turned ensures Healthy(Decohered(l, turned, rate)[k]) {
      assert Healthy(turned[k]);
      UniformSmall(l, |turned|);
      DecayKeepsDisk(turned[k].amplitude, Uniform(l, |turned|), rate);
    }
  }

  /** Over every run of rewards between zero and one, no endpoint earns more than its pulls nor leaves the
      unit disk. */
  lemma {:induction false} UnitDisk(l: Libm, states: States, run: seq<Observation>, rate: real)
    requires l.Sound() && 0.0 <= rate <= 1.0 && Rewarding(run) && AllHealthy(states)
    ensures AllHealthy(RunUpdates(l, states, run, rate))
    decreases run
  {
    hide Updated, AllHealthy;
    if run != [] {
      var o := run[0];
      UpdateKeepsHealth(l, states, o.endpoint, o.reward, rate, o.at);
      UnitDisk(l, Updated(l, states, o.endpoint, o.reward, rate, o.at), run[1..], rate);
    }
  }

  ghost predicate Elsewhere(run: seq<Observation>, states: States, endpoint: string)
  {
    forall i :: 0 <= i < |run| ==> run[i].endpoint != endpoint && run[i].endpoint in states
  }

  lemma UpdatedIs(l: Libm, states: States, endpoint: string, reward: real, rate: real, now: int, k: string)
    requires l.Sound() && endpoint in states && k in states && k != endpoint
    ensures var next := Updated(l, states, endpoint, reward, rate, now);
      && next.Keys == states.Keys && |next| == |states| > 0
      && next[k] == states[k].(amplitude := Decayed(states[k].amplitude, Uniform(l, |states|), rate))
  {
    hide Rotated, Decohered, Decayed;
    var turned := states[endpoint := Rotated(l, StateOf(states, endpoint, now), reward, now)];
    assert turned.Keys == states.Keys;
    SameSize(states, turned);
    DecoheredIs(l, turned, rate);
    SameSize(turned, Decohered(l, turned, rate));
  }

  lemma SameSize(a: States, b: States)
    requires a.Keys == b.Keys
    ensures |a| == |b|
  {
    assert |a| == |a.Keys| && |b| == |b.Keys|;
  }

  /** While only others of a fixed set are rewarded, an endpoint approaches the uniform amplitude
      geometrically; the order in which the others come does not matter. */
  lemma {:induction false} Decoherence(l: Libm, states: States, run: seq<Observation>, rate: real, endpoint: string)
    requires l.Sound() && endpoint in states && Elsewhere(run, states, endpoint)
    ensures var final := RunUpdates(l, states, run, rate);
      && final.Keys == states.Keys && |states| > 0
      && final[endpoint].pulls == states[endpoint].pulls && final[endpoint].totalReward == states[endpoint].totalReward
      && var (a, b, u) := (states[endpoint].amplitude, final[endpoint].amplitude, Uniform(l, |states|));
      && b.re - u == Power(1.0 - rate, |run|) * (a.re - u)
      && b.im == Power(1.0 - rate, |run|) * a.im
    decreases run
  {
    hide Updated, Uniform, Amplitude.Probability;
    if run == [] {
      assert endpoint in states.Keys && |states| > 0;
    } else {
      var o := run[0];
      var next := Updated(l, states, o.endpoint, o.reward, rate, o.at);
      UpdatedIs(l, states, o.endpoint, o.reward, rate, o.at, endpoint);
      Decoherence(l, next, run[1..], rate, endpoint);
      var a, u := states[endpoint].amplitude, Uniform(l, |states|);
      Step(a.re, u, rate, Power(1.0 - rate, |run| - 1));
      Step(a.im, 0.0, rate, Power(1.0 - rate, |run| - 1));
    }
  }

  lemma Step(x: real, u: real, rate: real, p: real)
    ensures p * (x * (1.0 - rate) + u * rate - u) == (1.0 - rate) * p * (x - u)
  {
    assert x * (1.0 - rate) + u * rate - u == (1.0 - rate) * (x - u);
  }

  /** The observations of one endpoint, and their rewards. */
  function Count(run: seq<Observation>, endpoint: string): nat
  {
    if run == [] then 0 else (if run[0].endpoint == endpoint then 1 else 0) + Count(run[1..], endpoint)
  }

  function Earned(run: seq<Observation>, endpoint: string): real
  {
    if run == [] then 0.0 else (if run[0].endpoint == endpoint then run[0].reward else 0.0) + Earned(run[1..], endpoint)
  }

  function Pulls(states: States, endpoint: string): nat { if endpoint in states then states[endpoint].pulls else 0 }

  function Total(states: States, endpoint: string): real
  {
    if endpoint in states then states[endpoint].totalReward else 0.0
  }

  /** No observation is lost or credited to another endpoint. */
  lemma {:induction false} Tally(l: Libm, states: States, run: seq<Observation>, rate: real, endpoint: string)
    requires l.Sound()
    ensures var final := RunUpdates(l, states, run, rate);
      && Pulls(final, endpoint) == Pulls(states, endpoint) + Count(run, endpoint)
      && Total(final, endpoint) == Total(states, endpoint) + Earned(run, endpoint)
    decreases run
  {
    hide Decohered;
    if run != [] {
      var o := run[0];
      DecoheredIs(l, states[o.endpoint := Rotated(l, StateOf(states, o.endpoint, o.at), o.reward, o.at)], rate);
      Tally(l, Updated(l, states, o.endpoint, o.reward, rate, o.at), run[1..], rate, endpoint);
    }
  }

  // ---------------------------------------------------------------- the distribution

  /** Every endpoint once. */
  ghost predicate Enumerates(d: seq<Entry>, states: States)
  {
    && (forall i, j :: 0 <= i < j < |d| ==> d[i].endpoint != d[j].endpoint)
    && (forall i :: 0 <= i < |d| ==> d[i].endpoint in states)
    && (forall k :: k in states ==> exists i :: 0 <= i < |d| && d[i].endpoint == k)
  }

  /** Every endpoint once, with its probability. */
  ghost predicate Lists(d: seq<Entry>, states: States)
  {
    && Enumerates(d, states)
    && forall i :: 0 <= i < |d| ==> d[i].p == Likelihood(states, d[i].endpoint)
  }

  function Likelihood(states: States, endpoint: string): (p: real)
    ensures p >= 0.0
  {
    if endpoint in states then states[endpoint].amplitude.Probability() else 0.0
  }

  /** Weights in proportion to the probabilities. */
  ghost predicate Proportional(d: seq<Entry>, states: States)
  {
    forall i, j :: 0 <= i < |d| && 0 <= j < |d| ==> InProportion(d[i], d[j], states)
  }

  ghost predicate InProportion(x: Entry, y: Entry, states: States)
  {
    x.p * Likelihood(states, y.endpoint) == y.p * Likelihood(states, x.endpoint)
  }

  /** They add up to one unless there is nothing but zeros. */
  ghost predicate Distributes(d: seq<Entry>, states: States)
  {
    && Enumerates(d, states) && NonNegative(d) && Proportional(d, states)
    && if forall k :: k in states ==> Likelihood(states, k) == 0.0 then AllZero(d) else Distribution.Total(d) == 1.0
  }

  /** In proportion to the squared magnitudes of the amplitudes, that is. */
  lemma DistributesExactly(d: seq<Entry>, states: States, i: nat, j: nat)
    requires Distributes(d, states) && i < |d| && j < |d|
    ensures d[i].endpoint in states && d[j].endpoint in states
    ensures var a, b := states[d[i].endpoint].amplitude, states[d[j].endpoint].amplitude;
      d[i].p * (b.re * b.re + b.im * b.im) == d[j].p * (a.re * a.re + a.im * a.im)
  {
    hide Enumerates, Proportional;
    DistributedWithin(d, states, i, j);
  }

  lemma DistributedWithin(d: seq<Entry>, states: States, i: nat, j: nat)
    requires Enumerates(d, states) && Proportional(d, states) && i < |d| && j < |d|
    ensures d[i].endpoint in states && d[j].endpoint in states && InProportion(d[i], d[j], states)
  {
  }

  lemma NormalizedDistributes(d: seq<Entry>, states: States)
    requires Lists(d, states)
    ensures Distributes(Normalized(d), states)
  {
    hide Likelihood, Distribution.Total, Divided, Proportional, Normalized;
    assert NonNegative(d);
    NormalizedIsDistribution(d);
    NormalizedProportional(d, states);
    forall k | k in states ensures exists i :: 0 <= i < |d| && Normalized(d)[i].endpoint == k {
      var i :| 0 <= i < |d| && d[i].endpoint == k;
      assert Normalized(d)[i].endpoint == k;
    }
    if forall k :: k in states ==> Likelihood(states, k) == 0.0 {
      assert AllZero(d);
    } else {
      var k :| k in states && Likelihood(states, k) != 0.0;
      var i :| 0 <= i < |d| && d[i].endpoint == k;
      assert d[i].p != 0.0;
    }
  }

  lemma NormalizedProportional(d: seq<Entry>, states: States)
    requires forall i :: 0 <= i < |d| ==> d[i].p == Likelihood(states, d[i].endpoint)
    ensures Proportional(Normalized(d), states)
  {
    hide Likelihood, Distribution.Total, Divided, InProportion;
    var n, t := Normalized(d), Distribution.Total(d);
    if t > 0.0 {
      DividedIs(d, t);
    }
    forall i, j | 0 <= i < |d| && 0 <= j < |d| ensures InProportion(n[i], n[j], states) {
      ScaledInProportion(d[i], d[j], if t > 0.0 then t else 1.0, states);
    }
  }

  lemma ScaledInProportion(x: Entry, y: Entry, c: real, states: States)
    requires c != 0.0 && x.p == Likelihood(states, x.endpoint) && y.p == Likelihood(states, y.endpoint)
    ensures InProportion(x.(p := x.p / c), y.(p := y.p / c), states)
    ensures InProportion(x, y, states)
  {
    hide Likelihood;
    Cross(x.p, y.p, c);
    Cross(x.p, y.p, 1.0);
  }

  lemma ListsNone(states: States)
    ensures Lists([], states - states.Keys)
  {
  }

  lemma ListsMore(d: seq<Entry>, states: States, todo: set<string>, k: string)
    requires k in todo && todo <= states.Keys && Lists(d, states - todo)
    ensures Lists(d + [Entry(k, Likelihood(states, k))], states - (todo - {k}))
  {
    hide Amplitude.Probability;
    var d', rest := d + [Entry(k, Likelihood(states, k))], states - (todo - {k});
    forall e | e in rest ensures exists i :: 0 <= i < |d'| && d'[i].endpoint == e {
      if e == k {
        assert d'[|d|].endpoint == k;
      } else {
        assert e in states - todo;
        var i :| 0 <= i < |d| && d[i].endpoint == e;
        assert d'[i].endpoint == e;
      }
    }
  }

  lemma Cross(x: real, y: real, c: real)
    requires c != 0.0
    ensures x / c * y == y / c * x
  {
  }

  // ---------------------------------------------------------------- normalizing a slice

  /** The total probability of some amplitudes. */
  function Mass(s: seq<Amplitude>): (m: real)
    ensures m >= 0.0
  {
    if s == [] then 0.0 else s[0].Probability() + Mass(s[1..])
  }

  function Times(a: Amplitude, scale: real): Amplitude { Amplitude(a.re * scale, a.im * scale) }

  function Scaled(s: seq<Amplitude>, scale: real): seq<Amplitude>
  {
    if s == [] then [] else [Times(s[0], scale)] + Scaled(s[1..], scale)
  }

  lemma {:induction false} MassSplits(xs: seq<Amplitude>, ys: seq<Amplitude>)
    ensures Mass(xs + ys) == Mass(xs) + Mass(ys)
  {
    if xs == [] {
      assert xs + ys == ys;
    } else {
      assert (xs + ys)[1..] == xs[1..] + ys;
      MassSplits(xs[1..], ys);
    }
  }

  lemma {:induction false} ScaledIs(s: seq<Amplitude>, scale: real)
    ensures |Scaled(s, scale)| == |s|
    ensures forall i :: 0 <= i < |s| ==> Scaled(s, scale)[i] == Times(s[i], scale)
  {
    hide Times;
    if s != [] {
      ScaledIs(s[1..], scale);
    }
  }

  lemma {:induction false} ScaledMass(s: seq<Amplitude>, scale: real)
    ensures Mass(Scaled(s, scale)) == scale * scale * Mass(s)
  {
    if s == [] {
      assert scale * scale * 0.0 == 0.0;
    } else {
      ScaledMass(s[1..], scale);
      ScaledProbability(s[0], scale);
      Distribute(scale * scale, s[0].Probability(), Mass(s[1..]));
    }
  }

  lemma Distribute(a: real, b: real, c: real)
    ensures a * (b + c) == a * b + a * c
  {
  }

  lemma ScaledProbability(a: Amplitude, scale: real)
    ensures Times(a, scale).Probability() == scale * scale * a.Probability()
  {
    var k := scale * scale;
    assert a.re * scale * (a.re * scale) == k * (a.re * a.re);
    assert a.im * scale * (a.im * scale) == k * (a.im * a.im);
    Distribute(k, a.re * a.re, a.im * a.im);
  }

  method TotalProbability(amplitudes: array<Amplitude>) returns (sum: real)
    ensures sum == Mass(amplitudes[..])
  {
    sum := 0.0;
    for i := 0 to amplitudes.Length
      invariant sum == Mass(amplitudes[..i])
    {
      assert amplitudes[..i + 1] == amplitudes[..i] + [amplitudes[i]];
      MassSplits(amplitudes[..i], [amplitudes[i]]);
      assert Mass([amplitudes[i]]) == amplitudes[i].Probability();
      sum := sum + amplitudes[i].Probability();
    }
    assert amplitudes[..amplitudes.Length] == amplitudes[..];
  }

  /** Normalizing makes the total probability one, unless it was zero. */
  method NormalizeAll(l: Libm, amplitudes: array<Amplitude>)
    requires l.Sound()
    modifies amplitudes
    ensures var was := old(amplitudes[..]);
      if Mass(was) > 0.0
      then (exists scale :: scale > 0.0 && amplitudes[..] == Scaled(was, scale)) && Mass(amplitudes[..]) == 1.0
      else amplitudes[..] == was
  {
    hide Amplitude.Probability, Mass, Scaled, Times;
    ghost var was := amplitudes[..];
    var sum := TotalProbability(amplitudes);
    if sum > 0.0 {
      var scale := InverseRoot(l, sum);
      ScaledIs(was, scale);
      ScaledMass(was, scale);
      for i := 0 to amplitudes.Length
        invariant forall j :: 0 <= j < i ==> amplitudes[j] == Scaled(was, scale)[j]
        invariant forall j :: i <= j < amplitudes.Length ==> amplitudes[j] == was[j]
      {
        amplitudes[i] := Times(amplitudes[i], scale);
      }
      assert amplitudes[..] == Scaled(was, scale);
    }
  }

  // ---------------------------------------------------------------- a conversation

  /** What is known of the endpoints in one conversation; shared by whoever holds it. */
  class ConversationState {
    const conversationId: nat
    const createdAt: int
    var endpointStates: States
    var lastActive: int

    constructor (conversationId: nat, now: int)
      ensures this.conversationId == conversationId && createdAt == now
      ensures endpointStates == map[] && lastActive == now
    {
      this.conversationId := conversationId;
      createdAt := now;
      endpointStates := map[];
      lastActive := now;
    }

    /** A route looks at an endpoint: one that was never seen starts at full amplitude. */
    method GetOrInsert(endpoint: string, now: int) returns (state: EndpointState)
      modifies this`endpointStates
      ensures state == StateOf(old(endpointStates), endpoint, now)
      ensures state == if endpoint in old(endpointStates) then old(endpointStates)[endpoint]
        else EndpointState(Amplitude(1.0, 0.0), 0, 0.0, now)
      ensures endpointStates == old(endpointStates)[endpoint := state]
    {
      if endpoint !in endpointStates {
        endpointStates := endpointStates[endpoint := Unseen(now)];
      }
      state := endpointStates[endpoint];
    }

    method Update(l: Libm, endpoint: string, reward: real, rate: real, now: int)
      requires l.Sound()
      modifies this`endpointStates, this`lastActive
      ensures endpointStates == Updated(l, old(endpointStates), endpoint, reward, rate, now) && lastActive == now
    {
      hide Decohered;
      var entry := if endpoint in endpointStates then endpointStates[endpoint] else Unseen(now);
      entry := entry.(pulls := entry.pulls + 1, totalReward := entry.totalReward + reward, lastUpdated := now);
      var average := entry.totalReward / entry.pulls as real;
      entry := entry.(amplitude := Polar(l, Magnitude(l, average), Turned(l, entry.amplitude, reward)));
      assert entry == Rotated(l, StateOf(endpointStates, endpoint, now), reward, now);
      endpointStates := endpointStates[endpoint := entry];
      lastActive := now;
      ApplyDecoherence(l, rate);
    }

    /** One endpoint after another, in whatever order the table yields them. */
    method ApplyDecoherence(l: Libm, rate: real)
      requires l.Sound()
      modifies this`endpointStates
      ensures endpointStates == Decohered(l, old(endpointStates), rate)
    {
      hide Uniform, Decayed;
      ghost var was := endpointStates;
      var entries := endpointStates.Keys;
      if |entries| == 0 {
        return;
      }
      assert |entries| == |was|;
      var uniform := Uniform(l, |entries|);
      while entries != {}
        invariant entries <= was.Keys == endpointStates.Keys
        invariant forall k :: k in entries ==> endpointStates[k] == was[k]
        invariant forall k :: k in was && k !in entries ==>
          endpointStates[k] == was[k].(amplitude := Decayed(was[k].amplitude, uniform, rate))
        decreases entries
      {
        var k :| k in entries;
        entries := entries - {k};
        var entry := endpointStates[k];
        endpointStates := endpointStates[k := entry.(amplitude := Decayed(entry.amplitude, uniform, rate))];
      }
    }

    method ComputeDistribution() returns (distribution: seq<Entry>)
      ensures Distributes(distribution, endpointStates)
    {
      hide Amplitude.Probability, Distributes, Lists;
      var todo := endpointStates.Keys;
      var d: seq<Entry> := [];
      ListsNone(endpointStates);
      while todo != {}
        invariant todo <= endpointStates.Keys
        invariant Lists(d, endpointStates - todo)
        decreases todo
      {
        var k :| k in todo;
        ListsMore(d, endpointStates, todo, k);
        d := d + [Entry(k, endpointStates[k].amplitude.Probability())];
        todo := todo - {k};
      }
      assert endpointStates - todo == endpointStates;
      NormalizedDistributes(d, endpointStates);
      var a := new Entry[|d|](i requires 0 <= i < |d| => d[i]);
      assert a[..] == d;
      Normalize(a);
      distribution := a[..];
    }
  }

  // ---------------------------------------------------------------- all conversations

  datatype Conversation = Conversation(states: States, lastActive: int)

  type Conversations = map<nat, Conversation>

  function Known(all: Conversations, id: nat, now: int): Conversation
  {
    if id in all then all[id] else Conversation(map[], now)
  }

  /** Conversations idle for more than so many whole seconds are forgotten. */
  function Recent(all: Conversations, maxAge: int, now: int): Conversations
  {
    map id | id in all && WholeSeconds(now - all[id].lastActive) <= maxAge :: all[id]
  }

  lemma RecentExactly(all: Conversations, maxAge: int, now: int)
    requires maxAge >= 0
    ensures forall id :: id in Recent(all, maxAge, now) <==>
      id in all && now - all[id].lastActive < (maxAge + 1) * TICKS_PER_SECOND
  {
    hide WholeSeconds;
    forall id | id in all
      ensures WholeSeconds(now - all[id].lastActive) <= maxAge <==>
        now - all[id].lastActive < (maxAge + 1) * TICKS_PER_SECOND
    {
      MoreSecondsExactly(now - all[id].lastActive, maxAge);
    }
  }

  class QuantumStateManager {
    var conversations: map<nat, ConversationState>

    /** No two conversations share their state. */
    ghost predicate Valid()
      reads this
    {
      forall a, b :: a in conversations && b in conversations && conversations[a] == conversations[b] ==> a == b
    }

    ghost function Repr(): set<object>
      reads this
    {
      set id | id in conversations :: conversations[id]
    }

    ghost function View(): Conversations
      reads this, Repr()
    {
      map id | id in conversations :: Conversation(conversations[id].endpointStates, conversations[id].lastActive)
    }

    /** Whatever is done to one conversation is all there is to see of it. */
    twostate lemma Touched(id: nat)
      requires id in conversations && conversations == old(conversations)
      requires forall k :: k in conversations && k != id ==> unchanged(conversations[k])
      ensures View() == old(View())[id := Conversation(conversations[id].endpointStates, conversations[id].lastActive)]
    {
    }

    constructor ()
      ensures Valid() && View() == map[] && Repr() == {}
    {
      conversations := map[];
    }

    method GetOrCreate(id: nat, now: int) returns (conversation: ConversationState)
      requires Valid()
      modifies this
      ensures Valid() && id in conversations && conversation == conversations[id]
      ensures View() == old(View())[id := Known(old(View()), id, now)]
      ensures fresh(Repr() - old(Repr()))
      ensures conversation.endpointStates == Known(old(View()), id, now).states
      ensures id !in old(conversations) ==> conversation.endpointStates == map[] && conversation.lastActive == now
      ensures id in old(conversations) ==> conversation == old(conversations)[id]
    {
      if id !in conversations {
        var made := new ConversationState(id, now);
        conversations := conversations[id := made];
      }
      conversation := conversations[id];
    }

    method Update(l: Libm, id: nat, endpoint: string, reward: real, rate: real, now: int)
      requires Valid() && l.Sound()
      modifies this, Repr()
      ensures Valid() && fresh(Repr() - old(Repr()))
      ensures View() == old(View())[id :=
        Conversation(Updated(l, Known(old(View()), id, now).states, endpoint, reward, rate, now), now)]
    {
      hide Updated, Known;
      var conversation := GetOrCreate(id, now);
      label created:
      conversation.Update(l, endpoint, reward, rate, now);
      Touched@created(id);
    }

    method PruneOld(maxAge: int, now: int)
      requires Valid()
      modifies this
      ensures Valid() && View() == Recent(old(View()), maxAge, now) && Repr() <= old(Repr())
      ensures maxAge >= 0 ==> forall id :: id in View() <==>
        id in old(View()) && now - old(View())[id].lastActive < (maxAge + 1) * TICKS_PER_SECOND
    {
      hide Recent;
      ghost var was := View();
      ForgetIdle(maxAge, now);
      if maxAge >= 0 {
        RecentExactly(was, maxAge, now);
      }
    }

    method ForgetIdle(maxAge: int, now: int)
      requires Valid()
      modifies this
      ensures Valid() && View() == Recent(old(View()), maxAge, now) && Repr() <= old(Repr())
    {
      var toRemove := set id | id in conversations && WholeSeconds(now - conversations[id].lastActive) > maxAge;
      ghost var was, all := conversations, toRemove;
      while toRemove != {}
        invariant toRemove <= all && conversations == was - (all - toRemove)
        decreases toRemove
      {
        var id :| id in toRemove;
        toRemove := toRemove - {id};
        conversations := conversations - {id};
      }
    }
  }
}
