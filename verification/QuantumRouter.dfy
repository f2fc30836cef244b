/** Probabilistic choice of an endpoint, and learning from what came of it (src/quantum/router.rs). A random
    draw is any draw that has a positive weight. */
module QuantumRouter {
  import opened Clock
  import opened Distribution
  import opened Messages
  import opened Options
  import opened QuantumState
  import Entanglement

  datatype Config = Config(decoherenceRate: real, entanglementWindow: nat)

  const ENTANGLEMENT_STRENGTH: real := 0.2
  const CONVERSATION_AGE: int := 3600

  // ---------------------------------------------------------------- specification

  /** Candidates that were never seen start out like any other unseen endpoint. */
  function Looked(states: States, candidates: seq<string>, now: int): States
  {
    (map c | c in candidates :: Unseen(now)) + states
  }

  /** The weight of a candidate before normalization: an equal share until it is first pulled. */
  function Prior(states: States, candidate: string, n: nat): (p: real)
    requires n > 0
    ensures p >= 0.0
  {
    if Pulls(states, candidate) == 0 then 1.0 / n as real else Likelihood(states, candidate)
  }

  function Priors(states: States, candidates: seq<string>, n: nat): seq<Entry>
    requires n > 0
  {
    if candidates == [] then []
    else [Entry(candidates[0], Prior(states, candidates[0], n))] + Priors(states, candidates[1..], n)
  }

  function Weights(m: Memory, id: nat, candidates: seq<string>, now: int): seq<Entry>
  {
    if candidates == [] then []
    else
      var priors := Priors(Known(m.conversations, id, now).states, candidates, |candidates|);
      Entanglement.Entangled(m.table, id, if id in m.last then Some(m.last[id]) else None, Normalized(priors),
        ENTANGLEMENT_STRENGTH)
  }

  /** One for an immediate success, up to three tenths less for a slow one, zero for a failure. */
  function Reward(success: bool, latencyMs: nat): real
  {
    if success then 1.0 - Least(latencyMs as real / 5000.0, 1.0) * 0.3 else 0.0
  }

  function Least(x: real, y: real): real { if x < y then x else y }

  lemma RewardRange(success: bool, latencyMs: nat, later: nat)
    ensures 0.0 <= Reward(success, latencyMs) <= 1.0
    ensures Reward(true, latencyMs) >= 0.7 && Reward(false, latencyMs) == 0.0
    ensures latencyMs <= later ==> Reward(success, later) <= Reward(success, latencyMs)
    ensures Reward(true, latencyMs) ==
      if latencyMs >= 5000 then 0.7 else 1.0 - 0.3 * (latencyMs as real / 5000.0)
  {
    WholeFive(latencyMs);
    Slower(latencyMs as real, later as real);
  }

  lemma WholeFive(latencyMs: nat)
    ensures latencyMs as real / 5000.0 < 1.0 <==> latencyMs < 5000
  {
  }

  lemma Slower(a: real, b: real)
    ensures a >= 0.0 ==> a / 5000.0 >= 0.0
    ensures a <= b ==> a / 5000.0 <= b / 5000.0
  {
  }

  /** Everything the router remembers. */
  datatype Memory = Memory(conversations: Conversations, table: Entanglement.Table, last: map<nat, string>)

  datatype Action =
    | Route(id: nat, candidates: seq<string>, selected: string, at: int)
    | Observe(id: nat, endpoint: string, success: bool, latencyMs: nat, at: int)
    | Feedback(id: nat, endpoint: string, quality: real, at: int)
    | RecordPair(id: nat, a: string, b: string, reward: real, at: int)
    | Tick(at: int)

  function Learned(l: Libm, c: Config, m: Memory, id: nat, endpoint: string, reward: real, now: int): Memory
    requires l.Sound()
  {
    var states := Updated(l, Known(m.conversations, id, now).states, endpoint, reward, c.decoherenceRate, now);
    m.(conversations := m.conversations[id := Conversation(states, now)])
  }

  function LookedUp(all: Conversations, id: nat, candidates: seq<string>, now: int): Conversations
  {
    var known := Known(all, id, now);
    all[id := known.(states := Looked(known.states, candidates, now))]
  }

  lemma LookedUpIs(all: Conversations, id: nat, candidates: seq<string>, now: int, lastActive: int)
    requires Known(all, id, now).lastActive == lastActive
    ensures LookedUp(all, id, candidates, now) == all[id := Known(all, id, now)][id :=
        Conversation(Looked(Known(all, id, now).states, candidates, now), lastActive)]
  {
    hide Looked, Known;
  }

  /** Last endpoints of conversations that are gone are forgotten. */
  function Remembered(last: map<nat, string>, kept: Conversations): map<nat, string>
  {
    map k | k in last && k in kept :: last[k]
  }

  function Act(l: Libm, c: Config, m: Memory, a: Action): Memory
    requires l.Sound()
  {
    match a
    case Route(id, candidates, selected, now) =>
      m.(conversations := LookedUp(m.conversations, id, candidates, now), last := m.last[id := selected])
    case Observe(id, endpoint, success, latencyMs, now) =>
      Learned(l, c, m, id, endpoint, Reward(success, latencyMs), now)
    case Feedback(id, endpoint, quality, now) =>
      Learned(l, c, m, id, endpoint, Clamp(quality, 0.0, 1.0), now)
    case RecordPair(id, a, b, reward, now) =>
      m.(table := Entanglement.Recorded(m.table, id, a, b, reward, now))
    case Tick(now) =>
      var kept := QuantumState.Recent(m.conversations, CONVERSATION_AGE, now);
      Memory(kept, Entanglement.Recent(m.table, c.entanglementWindow * 2, now), Remembered(m.last, kept))
  }

  // ---------------------------------------------------------------- actions in so many words

  /** An outcome is learned as a reward that starts at one and loses three tenths on the way to five seconds, or
      as nothing; feedback as its quality, cut to the unit interval. Nothing else is touched. */
  lemma LearnsExactly(l: Libm, c: Config, m: Memory, id: nat, endpoint: string, now: int)
    requires l.Sound()
    ensures var states := if id in m.conversations then m.conversations[id].states else map[];
      && (forall success, latencyMs ::
            Act(l, c, m, Observe(id, endpoint, success, latencyMs, now)) ==
              m.(conversations := m.conversations[id := Conversation(
                Updated(l, states, endpoint,
                  if !success then 0.0 else if latencyMs >= 5000 then 0.7
                  else 1.0 - 0.3 * (latencyMs as real / 5000.0), c.decoherenceRate, now), now)]))
      && (forall quality ::
            Act(l, c, m, Feedback(id, endpoint, quality, now)) ==
              m.(conversations := m.conversations[id := Conversation(
                Updated(l, states, endpoint, if quality < 0.0 then 0.0 else if quality > 1.0 then 1.0 else quality,
                  c.decoherenceRate, now), now)]))
  {
    hide Updated, Reward;
    forall success, latencyMs
      ensures Reward(success, latencyMs) == if !success then 0.0 else if latencyMs >= 5000 then 0.7
        else 1.0 - 0.3 * (latencyMs as real / 5000.0)
    {
      RewardRange(success, latencyMs, latencyMs);
    }
  }

  /** A route puts candidates it has not seen into the conversation, at full amplitude, and remembers whom it
      selected. */
  lemma RoutesExactly(l: Libm, c: Config, m: Memory, id: nat, candidates: seq<string>, selected: string, now: int)
    requires l.Sound()
    ensures var m' := Act(l, c, m, Route(id, candidates, selected, now));
      var states := if id in m.conversations then m.conversations[id].states else map[];
      && m'.last == m.last[id := selected] && m'.table == m.table && id in m'.conversations
      && m'.conversations.Keys == m.conversations.Keys + {id}
      && (forall k :: k in m.conversations && k != id ==> m'.conversations[k] == m.conversations[k])
      && m'.conversations[id].lastActive == (if id in m.conversations then m.conversations[id].lastActive else now)
      && var states' := m'.conversations[id].states;
      && states'.Keys == states.Keys + (set e | e in candidates)
      && forall e :: e in states' ==>
           states'[e] == if e in states then states[e] else EndpointState(Amplitude(1.0, 0.0), 0, 0.0, now)
  {
  }

  /** Maintenance forgets conversations after an hour and correlations after twice the configured window. */
  lemma TicksExactly(l: Libm, c: Config, m: Memory, now: int)
    requires l.Sound()
    ensures var m' := Act(l, c, m, Tick(now));
      && (forall id :: id in m'.conversations <==>
            id in m.conversations && now - m.conversations[id].lastActive < 3601 * TICKS_PER_SECOND)
      && (forall id :: id in m'.conversations ==> m'.conversations[id] == m.conversations[id])
      && (forall id :: id in m'.table <==>
            id in m.table && now - m.table[id].lastActive < (2 * c.entanglementWindow + 1) * TICKS_PER_SECOND)
      && (forall id :: id in m'.table ==> m'.table[id] == m.table[id])
      && (forall id :: id in m'.last <==> id in m.last && id in m'.conversations)
      && (forall id :: id in m'.last ==> m'.last[id] == m.last[id])
  {
    hide WholeSeconds;
    QuantumState.RecentExactly(m.conversations, 3600, now);
    Entanglement.RecentExactly(m.table, c.entanglementWindow * 2, now);
  }

  // ---------------------------------------------------------------- every run

  /** No endpoint leaves the unit disk, no correlation its range, and a last endpoint is remembered only for
      conversations that are. */
  ghost predicate Sane(m: Memory)
  {
    && (forall id :: id in m.conversations ==> AllHealthy(m.conversations[id].states))
    && Entanglement.Bounded(m.table)
    && m.last.Keys <= m.conversations.Keys
  }

  /** Pairs are recorded with rewards between zero and one, as outcomes are by themselves. */
  ghost predicate Rewarded(a: Action) { a.RecordPair? ==> 0.0 <= a.reward <= 1.0 }

  lemma ActKeepsSane(l: Libm, c: Config, m: Memory, a: Action)
    requires l.Sound() && 0.0 <= c.decoherenceRate <= 1.0 && Sane(m) && Rewarded(a)
    ensures Sane(Act(l, c, m, a))
  {
    hide Updated, AllHealthy, Entanglement.Bounded, Entanglement.Recorded, Looked, Reward;
    match a {
      case Route(id, candidates, selected, now) =>
        NothingHealthy();
        LookedHealthy(Known(m.conversations, id, now).states, candidates, now);
      case Observe(id, endpoint, success, latencyMs, now) =>
        RewardRange(success, latencyMs, 0);
        NothingHealthy();
        UpdateKeepsHealth(l, Known(m.conversations, id, now).states, endpoint, Reward(success, latencyMs),
          c.decoherenceRate, now);
      case Feedback(id, endpoint, quality, now) =>
        NothingHealthy();
        UpdateKeepsHealth(l, Known(m.conversations, id, now).states, endpoint, Clamp(quality, 0.0, 1.0),
          c.decoherenceRate, now);
      case RecordPair(id, a, b, reward, now) =>
        RecordedBounded(m.table, id, a, b, reward, now);
      case Tick(now) =>
        PrunedBounded(m.table, c.entanglementWindow * 2, now);
    }
  }

  lemma NothingHealthy()
    ensures AllHealthy(map[])
  {
  }

  lemma LookedHealthy(states: States, candidates: seq<string>, now: int)
    requires AllHealthy(states)
    ensures AllHealthy(Looked(states, candidates, now))
  {
    var all := Looked(states, candidates, now);
    forall k | k in all ensures Healthy(all[k]) {
      assert Healthy(Unseen(now));
    }
  }

  lemma RecordedBounded(table: Entanglement.Table, id: nat, a: string, b: string, reward: real, now: int)
    requires Entanglement.Bounded(table) && 0.0 <= reward <= 1.0
    ensures Entanglement.Bounded(Entanglement.Recorded(table, id, a, b, reward, now))
  {
    hide Entanglement.Correlation, Entanglement.Recorded;
    var after := Entanglement.Recorded(table, id, a, b, reward, now);
    forall i, c, d ensures 0.0 <= Entanglement.Correlation(after, i, c, d) <= 1.0 {
      Entanglement.RecordEffect(table, id, a, b, reward, now, i, c, d);
      assert 0.0 <= Entanglement.Correlation(table, i, c, d) <= 1.0;
    }
  }

  lemma PrunedBounded(table: Entanglement.Table, maxAge: int, now: int)
    requires Entanglement.Bounded(table)
    ensures Entanglement.Bounded(Entanglement.Recent(table, maxAge, now))
  {
    hide Entanglement.OrderedKey;
    var kept := Entanglement.Recent(table, maxAge, now);
    forall id, a, b ensures 0.0 <= Entanglement.Correlation(kept, id, a, b) <= 1.0 {
      assert 0.0 <= Entanglement.Correlation(table, id, a, b) <= 1.0;
    }
  }

  function RunActions(l: Libm, c: Config, m: Memory, run: seq<Action>): Memory
    requires l.Sound()
    decreases run
  {
    if run == [] then m else RunActions(l, c, Act(l, c, m, run[0]), run[1..])
  }

  /** With a decoherence rate between zero and one, every run of routes, outcomes, feedback of any quality,
      recorded pairs and maintenance stays sane. */
  lemma {:induction false} AlwaysSane(l: Libm, c: Config, m: Memory, run: seq<Action>)
    requires l.Sound() && 0.0 <= c.decoherenceRate <= 1.0 && Sane(m)
    requires forall i :: 0 <= i < |run| ==> Rewarded(run[i])
    ensures Sane(RunActions(l, c, m, run))
    decreases run
  {
    hide Sane, Act, Rewarded;
    if run != [] {
      assert Rewarded(run[0]);
      ActKeepsSane(l, c, m, run[0]);
      AlwaysSane(l, c, Act(l, c, m, run[0]), run[1..]);
    }
  }

  // ---------------------------------------------------------------- the weights of a route

  lemma {:induction false} PriorsIs(states: States, candidates: seq<string>, n: nat)
    requires n > 0
    ensures |Priors(states, candidates, n)| == |candidates|
    ensures forall i :: 0 <= i < |candidates| ==>
      Priors(states, candidates, n)[i] == Entry(candidates[i], Prior(states, candidates[i], n))
  {
    hide Prior;
    if candidates != [] {
      PriorsIs(states, candidates[1..], n);
    }
  }

  /** The weights of a route are a distribution over the candidates, or nothing but zeros, which takes every
      candidate to have been pulled and to have lost all probability. */
  lemma WeightsDistribute(m: Memory, id: nat, candidates: seq<string>, now: int)
    requires Entanglement.Bounded(m.table) && candidates != []
    ensures var w, states := Weights(m, id, candidates, now), Known(m.conversations, id, now).states;
      && |w| == |candidates| && NonNegative(w)
      && (forall i :: 0 <= i < |w| ==> w[i].endpoint == candidates[i])
      && (forall i :: 0 <= i < |w| ==>
        (w[i].p > 0.0 <==> Pulls(states, candidates[i]) == 0 || Likelihood(states, candidates[i]) > 0.0))
      && (if AllZero(w)
          then forall i :: 0 <= i < |w| ==> Pulls(states, candidates[i]) > 0 && Likelihood(states, candidates[i]) == 0.0
          else Distribution.Total(w) == 1.0)
  {
    hide Entanglement.Entangled, Distribution.Total, Normalized, Likelihood, Pulls, Entanglement.Bounded;
    var states, n := Known(m.conversations, id, now).states, |candidates|;
    var priors := Priors(states, candidates, n);
    PriorsIs(states, candidates, n);
    var previous := if id in m.last then Some(m.last[id]) else None;
    Entanglement.EntangledIsDistribution(m.table, id, previous, priors, ENTANGLEMENT_STRENGTH);
    ShareIsPositive(n);
    var w := Weights(m, id, candidates, now);
    assert w == Entanglement.Entangled(m.table, id, previous, Normalized(priors), ENTANGLEMENT_STRENGTH);
  }

  lemma ShareIsPositive(n: nat)
    requires n > 0
    ensures 1.0 / n as real > 0.0
  {
  }

  /** After an earlier route of the conversation, the weights are its boosted priors, normalized once. */
  lemma WeightsOnce(m: Memory, id: nat, candidates: seq<string>, now: int)
    requires Entanglement.Bounded(m.table) && candidates != [] && id in m.last
    ensures var priors := Priors(Known(m.conversations, id, now).states, candidates, |candidates|);
      Weights(m, id, candidates, now) ==
        Normalized(Boosted(priors, Entanglement.Boost(m.table, id, m.last[id], ENTANGLEMENT_STRENGTH)))
  {
    hide Entanglement.Entangled, Normalized, Boosted, Entanglement.Boost, Prior;
    var priors := Priors(Known(m.conversations, id, now).states, candidates, |candidates|);
    PriorsIs(Known(m.conversations, id, now).states, candidates, |candidates|);
    Entanglement.EntangledOnce(m.table, id, m.last[id], priors, ENTANGLEMENT_STRENGTH);
  }

  /** What a candidate's weight is in proportion to: an equal share until its first pull, its probability then;
      and a fifth more for a full correlation with the endpoint that the conversation used last. */
  function Share(m: Memory, id: nat, candidate: string, n: nat): real
    requires n > 0
  {
    var states := if id in m.conversations then m.conversations[id].states else map[];
    (if candidate !in states || states[candidate].pulls == 0 then 1.0 / n as real
     else states[candidate].amplitude.Probability()) *
    (if id in m.last then 1.0 + Entanglement.Correlation(m.table, id, m.last[id], candidate) * 0.2 else 1.0)
  }

  lemma ShareIs(m: Memory, id: nat, candidate: string, n: nat, now: int)
    requires n > 0
    ensures Share(m, id, candidate, n) == Prior(Known(m.conversations, id, now).states, candidate, n) *
      if id in m.last then 1.0 + Entanglement.Correlation(m.table, id, m.last[id], candidate) * ENTANGLEMENT_STRENGTH
      else 1.0
  {
    hide Amplitude.Probability, Entanglement.Correlation;
  }

  ghost predicate InRatio(x: real, y: real, a: real, b: real) { x * b == y * a }

  /** The weights stand to each other as the candidates' shares. */
  lemma WeightsInProportion(m: Memory, id: nat, candidates: seq<string>, now: int, i: nat, j: nat)
    requires Entanglement.Bounded(m.table) && i < |candidates| && j < |candidates|
    ensures var w, n := Weights(m, id, candidates, now), |candidates|;
      |w| == n && InRatio(w[i].p, w[j].p, Share(m, id, candidates[i], n), Share(m, id, candidates[j], n))
  {
    hide *;
    WeightsShape(m, id, candidates, now);
    var d := Shared(m, id, candidates, now, i, j);
    NormalizedInRatio(d, i, j);
  }

  /** Before its only normalization a weight is the candidate's share. */
  lemma Shared(m: Memory, id: nat, candidates: seq<string>, now: int, i: nat, j: nat) returns (d: seq<Entry>)
    requires Entanglement.Bounded(m.table) && i < |candidates| && j < |candidates|
    ensures Weights(m, id, candidates, now) == Normalized(d) && |d| == |candidates|
    ensures d[i].p == Share(m, id, candidates[i], |candidates|)
    ensures d[j].p == Share(m, id, candidates[j], |candidates|)
  {
    hide Entanglement.Entangled, Entanglement.Bounded, Boosted, Divided, Distribution.Total, Prior, Priors, Weights,
      Entanglement.Correlation, Entanglement.Boost, Known, Share;
    ShareIs(m, id, candidates[i], |candidates|, now);
    ShareIs(m, id, candidates[j], |candidates|, now);
    d := Priors(Known(m.conversations, id, now).states, candidates, |candidates|);
    PriorsIs(Known(m.conversations, id, now).states, candidates, |candidates|);
    if id in m.last {
      var boost := Entanglement.Boost(m.table, id, m.last[id], ENTANGLEMENT_STRENGTH);
      WeightsOnce(m, id, candidates, now);
      BoostedIs(d, boost);
      Entanglement.BoostAt(m.table, id, m.last[id], ENTANGLEMENT_STRENGTH, candidates[i]);
      Entanglement.BoostAt(m.table, id, m.last[id], ENTANGLEMENT_STRENGTH, candidates[j]);
      d := Boosted(d, boost);
    } else {
      NothingEntangled(m, id, candidates, now);
    }
  }

  lemma NothingEntangled(m: Memory, id: nat, candidates: seq<string>, now: int)
    requires candidates != [] && id !in m.last
    ensures Weights(m, id, candidates, now) ==
      Normalized(Priors(Known(m.conversations, id, now).states, candidates, |candidates|))
  {
    hide Priors, Normalized;
  }

  lemma NormalizedInRatio(d: seq<Entry>, i: nat, j: nat)
    requires i < |d| && j < |d|
    ensures |Normalized(d)| == |d| && InRatio(Normalized(d)[i].p, Normalized(d)[j].p, d[i].p, d[j].p)
  {
    hide Distribution.Total, Divided;
    if Distribution.Total(d) > 0.0 {
      DividedIs(d, Distribution.Total(d));
      Cross(d[i].p, d[j].p, Distribution.Total(d));
    } else {
      Cross(d[i].p, d[j].p, 1.0);
    }
  }

  // ---------------------------------------------------------------- the router

  /** Looks every candidate up in a conversation, and weighs it. */
  method Look(conversation: ConversationState, candidates: seq<string>, now: int) returns (distribution: array<Entry>)
    requires candidates != []
    modifies conversation`endpointStates
    ensures conversation.endpointStates == Looked(old(conversation.endpointStates), candidates, now)
    ensures fresh(distribution)
    ensures distribution[..] == Priors(old(conversation.endpointStates), candidates, |candidates|)
  {
    hide Prior, Priors, Looked, Amplitude.Probability;
    ghost var was := conversation.endpointStates;
    LookedNone(was, now);
    PriorsIs(was, candidates, |candidates|);
    distribution := new Entry[|candidates|](_ => Entry("", 0.0));
    assert candidates[..0] == [];
    for i := 0 to |candidates|
      invariant conversation.endpointStates == Looked(was, candidates[..i], now)
      invariant forall j :: 0 <= j < i ==> distribution[j] == Priors(was, candidates, |candidates|)[j]
    {
      var state := conversation.GetOrInsert(candidates[i], now);
      PriorOf(was, candidates[..i], candidates[i], now, |candidates|);
      LookedMore(was, candidates, i, now);
      distribution[i] := Entry(candidates[i],
        if state.pulls == 0 then 1.0 / |candidates| as real else state.amplitude.Probability());
    }
    assert candidates[..|candidates|] == candidates;
    assert distribution[..] == Priors(was, candidates, |candidates|);
  }

  /** Looking at other candidates first does not change a weight. */
  lemma PriorOf(states: States, before: seq<string>, candidate: string, now: int, n: nat)
    requires n > 0
    ensures var state := StateOf(Looked(states, before, now), candidate, now);
      Prior(states, candidate, n) == if state.pulls == 0 then 1.0 / n as real else state.amplitude.Probability()
  {
    hide Amplitude.Probability;
  }

  lemma LookedNone(states: States, now: int)
    ensures Looked(states, [], now) == states
  {
  }

  lemma LookedMore(states: States, candidates: seq<string>, i: nat, now: int)
    requires i < |candidates|
    ensures var looked := Looked(states, candidates[..i], now);
      looked[candidates[i] := StateOf(looked, candidates[i], now)] == Looked(states, candidates[..i + 1], now)
  {
    assert candidates[..i + 1] == candidates[..i] + [candidates[i]];
  }

  class QuantumRouter {
    const l: Libm
    const config: Config
    const state: QuantumStateManager
    const entanglement: Entanglement.EntanglementTable
    var lastEndpoint: map<nat, string>

    ghost predicate Valid()
      reads this, state
    {
      l.Sound() && state.Valid()
    }

    ghost function Repr(): set<object>
      reads this, state
    {
      {this, state, entanglement} + state.Repr()
    }

    ghost function View(): Memory
      reads this, state, entanglement, state.Repr()
    {
      Memory(state.View(), entanglement.correlations, lastEndpoint)
    }

    constructor (l: Libm, config: Config)
      requires l.Sound()
      ensures Valid() && fresh(Repr()) && this.l == l && this.config == config
      ensures View() == Memory(map[], map[], map[])
    {
      this.l := l;
      this.config := config;
      state := new QuantumStateManager();
      entanglement := new Entanglement.EntanglementTable();
      lastEndpoint := map[];
    }

    /** Every candidate is in the conversation from now on. */
    method LookUp(id: nat, candidates: seq<string>, now: int) returns (distribution: array<Entry>)
      requires Valid() && candidates != []
      modifies state, state.Repr()
      ensures Valid() && fresh(Repr() - old(Repr())) && fresh(distribution)
      ensures state.View() == LookedUp(old(state.View()), id, candidates, now)
      ensures distribution[..] == Priors(Known(old(state.View()), id, now).states, candidates, |candidates|)
    {
      hide Priors, Looked, LookedUp, Known;
      ghost var all := state.View();
      var conversation := state.GetOrCreate(id, now);
      assert state.View()[id] == Known(all, id, now);
      label created:
      distribution := Look(conversation, candidates, now);
      state.Touched@created(id);
      LookedUpIs(all, id, candidates, now, conversation.lastActive);
    }

    /** The weights of the candidates. */
    method Weigh(id: nat, candidates: seq<string>, now: int) returns (distribution: array<Entry>)
      requires Valid() && candidates != []
      modifies state, state.Repr()
      ensures Valid() && fresh(Repr() - old(Repr())) && fresh(distribution)
      ensures state.View() == LookedUp(old(state.View()), id, candidates, now)
      ensures distribution[..] == Weights(old(View()), id, candidates, now)
    {
      hide Priors, Known, LookedUp, Looked, Normalized, Entanglement.Entangled;
      distribution := LookUp(id, candidates, now);
      label weighed:
      Normalize(distribution);
      var previous := if id in lastEndpoint then Some(lastEndpoint[id]) else None;
      entanglement.ApplyEntanglement(id, previous, distribution, ENTANGLEMENT_STRENGTH);
      assert unchanged@weighed(state) && unchanged@weighed(state.Repr());
    }

    /** The choice: any candidate when exploring, and otherwise one whose weight is positive, if there is one. */
    method Choose(msg: Message, candidates: seq<string>, explore: bool, now: int) returns (selected: Option<string>)
      requires Valid()
      modifies this, state, state.Repr()
      ensures Valid() && fresh(Repr() - old(Repr()))
      ensures selected == None <==> candidates == []
      ensures selected == None ==> View() == old(View())
      ensures selected.Some? ==> selected.value in candidates
      ensures selected.Some? ==>
        View() == Act(l, config, old(View()), Route(msg.conversationId, candidates, selected.value, now))
      ensures var w := Weights(old(View()), msg.conversationId, candidates, now);
        selected.Some? && !explore && Distribution.Total(w) > 0.0 ==> Drawable(w, selected.value)
    {
      hide Weights, Looked, Drawable, Distribution.Total;
      selected := None;
      if candidates != [] {
        WeightsShape(View(), msg.conversationId, candidates, now);
        var distribution := Weigh(msg.conversationId, candidates, now);
        var choice := Draw(candidates, distribution, explore);
        selected := Some(choice);
        lastEndpoint := lastEndpoint[msg.conversationId := choice];
      }
    }

    method Observed(id: nat, endpoint: string, success: bool, latencyMs: nat, now: int)
      requires Valid()
      modifies state, state.Repr()
      ensures Valid() && fresh(Repr() - old(Repr()))
      ensures View() == Act(l, config, old(View()), Observe(id, endpoint, success, latencyMs, now))
    {
      hide Updated;
      var penalty := Least(latencyMs as real / 5000.0, 1.0);
      var reward := if success then 1.0 - penalty * 0.3 else 0.0;
      state.Update(l, id, endpoint, reward, config.decoherenceRate, now);
    }

    method GiveFeedback(id: nat, endpoint: string, quality: real, now: int)
      requires Valid()
      modifies state, state.Repr()
      ensures Valid() && fresh(Repr() - old(Repr()))
      ensures View() == Act(l, config, old(View()), Feedback(id, endpoint, quality, now))
    {
      hide Updated;
      state.Update(l, id, endpoint, Clamp(quality, 0.0, 1.0), config.decoherenceRate, now);
    }

    /** Two endpoints that served one conversation. */
    method Pair(id: nat, a: string, b: string, reward: real, now: int)
      requires Valid()
      modifies entanglement
      ensures Valid() && Repr() == old(Repr())
      ensures View() == Act(l, config, old(View()), RecordPair(id, a, b, reward, now))
    {
      hide Entanglement.Recorded;
      entanglement.RecordPair(id, a, b, reward, now);
    }

    method Maintain(now: int)
      requires Valid()
      modifies this, state, entanglement
      ensures Valid() && Repr() <= old(Repr())
      ensures View() == Act(l, config, old(View()), Tick(now))
    {
      hide QuantumState.Recent, Entanglement.Recent, Remembered;
      PruneConversations(now);
      label pruned:
      entanglement.PruneOld(config.entanglementWindow * 2, now);
      ForgetEndpoints();
      assert unchanged@pruned(state) && unchanged@pruned(state.Repr());
    }

    method PruneConversations(now: int)
      requires Valid()
      modifies state
      ensures Valid() && Repr() <= old(Repr())
      ensures state.View() == QuantumState.Recent(old(state.View()), CONVERSATION_AGE, now)
    {
      hide QuantumState.Recent;
      state.PruneOld(CONVERSATION_AGE, now);
    }

    method ForgetEndpoints()
      modifies this`lastEndpoint
      ensures lastEndpoint == Remembered(old(lastEndpoint), state.View())
    {
      lastEndpoint := map k | k in lastEndpoint && k in state.conversations :: lastEndpoint[k];
    }
  }

  ghost predicate Drawable(w: seq<Entry>, endpoint: string)
  {
    exists i :: 0 <= i < |w| && w[i].endpoint == endpoint && w[i].p > 0.0
  }

  lemma WeightsShape(m: Memory, id: nat, candidates: seq<string>, now: int)
    ensures var w := Weights(m, id, candidates, now);
      |w| == |candidates| && forall i :: 0 <= i < |w| ==> w[i].endpoint == candidates[i]
  {
    hide Prior, Distribution.Total, Entanglement.Boost;
    if candidates != [] {
      var priors := Priors(Known(m.conversations, id, now).states, candidates, |candidates|);
      PriorsIs(Known(m.conversations, id, now).states, candidates, |candidates|);
      NormalizedShape(priors);
      if id in m.last {
        var boost := Entanglement.Boost(m.table, id, m.last[id], ENTANGLEMENT_STRENGTH);
        BoostedIs(Normalized(priors), boost);
        NormalizedShape(Boosted(Normalized(priors), boost));
      }
    }
  }

  lemma NormalizedShape(d: seq<Entry>)
    ensures |Normalized(d)| == |d| && forall i :: 0 <= i < |d| ==> Normalized(d)[i].endpoint == d[i].endpoint
  {
    if Distribution.Total(d) > 0.0 {
      DividedIs(d, Distribution.Total(d));
    }
  }

  method Draw(candidates: seq<string>, distribution: array<Entry>, explore: bool) returns (selected: string)
    requires candidates != [] && |candidates| == distribution.Length
    requires forall i :: 0 <= i < |candidates| ==> distribution[..][i].endpoint == candidates[i]
    ensures selected in candidates
    ensures !explore && Distribution.Total(distribution[..]) > 0.0 ==> Drawable(distribution[..], selected)
  {
    hide Distribution.Total;
    var total := Sum(distribution);
    if explore || total <= 0.0 {
      var i :| 0 <= i < |candidates|;
      selected := candidates[i];
    } else {
      PositiveExists(distribution[..]);
      var i :| 0 <= i < distribution.Length && distribution[..][i].p > 0.0;
      selected := distribution[..][i].endpoint;
    }
  }

  lemma {:induction false} PositiveExists(d: seq<Entry>)
    requires Distribution.Total(d) > 0.0
    ensures exists i :: 0 <= i < |d| && d[i].p > 0.0
  {
    if d[0].p <= 0.0 {
      PositiveExists(d[1..]);
      var i :| 0 <= i < |d[1..]| && d[1..][i].p > 0.0;
      assert d[i + 1].p > 0.0;
    }
  }
}
