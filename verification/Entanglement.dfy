/** Correlations between the endpoints of a conversation (src/quantum/entanglement.rs), over the reals. */
module Entanglement {
  import opened Arithmetic
  import opened Clock
  import opened Distribution
  import opened Options
  import opened Strings

  datatype Correlations = Correlations(pairs: map<(string, string), real>, lastActive: int)

  type Table = map<nat, Correlations>

  function OrderedKey(a: string, b: string): (string, string) { if Precedes(a, b) then (a, b) else (b, a) }

  function Correlation(table: Table, id: nat, a: string, b: string): real
  {
    if id in table && OrderedKey(a, b) in table[id].pairs then table[id].pairs[OrderedKey(a, b)] else 0.0
  }

  function Averaged(correlation: real, reward: real): real { correlation * 0.9 + reward * 0.1 }

  function Recorded(table: Table, id: nat, a: string, b: string, reward: real, now: int): Table
  {
    var pairs := if id in table then table[id].pairs else map[];
    table[id := Correlations(pairs[OrderedKey(a, b) := Averaged(Correlation(table, id, a, b), reward)], now)]
  }

  // ---------------------------------------------------------------- pairs

  ghost predicate SamePair(a: string, b: string, c: string, d: string) { (a == c && b == d) || (a == d && b == c) }

  /** A key stands for a pair in either order, and for no other pair. */
  lemma KeyIsPair(a: string, b: string, c: string, d: string)
    ensures OrderedKey(a, b) == OrderedKey(c, d) <==> SamePair(a, b, c, d)
  {
    PrecedesTotal(a, b);
    PrecedesAsymmetric(a, b);
  }

  /** Recording a pair moves its own correlation a tenth of the way to the reward, and no other. */
  lemma RecordEffect(table: Table, id: nat, a: string, b: string, reward: real, now: int,
                     id': nat, c: string, d: string)
    ensures Correlation(Recorded(table, id, a, b, reward, now), id', c, d) ==
      if id' == id && SamePair(a, b, c, d) then Correlation(table, id, c, d) * 0.9 + reward * 0.1
      else Correlation(table, id', c, d)
  {
    hide OrderedKey;
    KeyIsPair(a, b, c, d);
  }

  // ---------------------------------------------------------------- runs

  datatype Pairing = Pairing(id: nat, a: string, b: string, reward: real, at: int)

  function RunPairings(table: Table, run: seq<Pairing>): Table
    decreases run
  {
    if run == [] then table
    else RunPairings(Recorded(table, run[0].id, run[0].a, run[0].b, run[0].reward, run[0].at), run[1..])
  }

  /** The rewards one pair of one conversation got, in order. */
  function RewardsOf(run: seq<Pairing>, id: nat, a: string, b: string): seq<real>
  {
    if run == [] then []
    else (if run[0].id == id && ((run[0].a == a && run[0].b == b) || (run[0].a == b && run[0].b == a))
          then [run[0].reward] else []) + RewardsOf(run[1..], id, a, b)
  }

  function Smoothed(correlation: real, rewards: seq<real>): real
    decreases rewards
  {
    if rewards == [] then correlation else Smoothed(Averaged(correlation, rewards[0]), rewards[1..])
  }

  /** A correlation is the moving average of its own pair's rewards, in whichever order the pair is named. */
  lemma {:induction false} CorrelationIsAverage(table: Table, run: seq<Pairing>, id: nat, a: string, b: string)
    ensures Correlation(RunPairings(table, run), id, a, b) ==
      Smoothed(Correlation(table, id, a, b), RewardsOf(run, id, a, b))
    ensures Correlation(RunPairings(table, run), id, a, b) == Correlation(RunPairings(table, run), id, b, a)
    decreases run
  {
    hide OrderedKey, Correlation, Recorded;
    Symmetric(RunPairings(table, run), id, a, b);
    if run != [] {
      var p := run[0];
      RecordEffect(table, p.id, p.a, p.b, p.reward, p.at, id, a, b);
      CorrelationIsAverage(Recorded(table, p.id, p.a, p.b, p.reward, p.at), run[1..], id, a, b);
      var rest := RewardsOf(run[1..], id, a, b);
      assert [] + rest == rest && ([p.reward] + rest)[1..] == rest;
    }
  }

  lemma Symmetric(table: Table, id: nat, a: string, b: string)
    ensures Correlation(table, id, a, b) == Correlation(table, id, b, a)
  {
    hide OrderedKey;
    KeyIsPair(a, b, b, a);
  }

  ghost predicate Within(rewards: seq<real>, low: real, high: real)
  {
    forall i :: 0 <= i < |rewards| ==> low <= rewards[i] <= high
  }

  /** In a new table a pair that was not recorded has no correlation, and one that was starts from none. */
  lemma FreshCorrelation(run: seq<Pairing>, id: nat, a: string, b: string)
    ensures Correlation(RunPairings(map[], run), id, a, b) == Smoothed(0.0, RewardsOf(run, id, a, b))
    ensures RewardsOf(run, id, a, b) == [] ==> Correlation(RunPairings(map[], run), id, a, b) == 0.0
  {
    CorrelationIsAverage(map[], run, id, a, b);
  }

  /** Recording is what keeps a conversation's correlations from being forgotten. */
  lemma RecordedActive(table: Table, id: nat, a: string, b: string, reward: real, now: int)
    ensures var table' := Recorded(table, id, a, b, reward, now);
      && id in table' && table'[id].lastActive == now && table'.Keys == table.Keys + {id}
      && forall k :: k in table && k != id ==> table'[k] == table[k]
  {
  }

  /** The average never leaves an interval that holds its start and all rewards. */
  lemma {:induction false} SmoothedWithin(correlation: real, rewards: seq<real>, low: real, high: real)
    requires low <= correlation <= high && Within(rewards, low, high)
    ensures low <= Smoothed(correlation, rewards) <= high
    decreases rewards
  {
    if rewards != [] {
      SmoothedWithin(Averaged(correlation, rewards[0]), rewards[1..], low, high);
    }
  }

  /** The same reward over and over is approached geometrically. */
  lemma {:induction false} SmoothedSteady(correlation: real, rewards: seq<real>, reward: real)
    requires Within(rewards, reward, reward)
    ensures Smoothed(correlation, rewards) - reward == Power(0.9, |rewards|) * (correlation - reward)
    decreases rewards
  {
    if rewards != [] {
      SmoothedSteady(Averaged(correlation, rewards[0]), rewards[1..], reward);
    }
  }

  ghost predicate Bounded(table: Table) { forall id, a, b :: 0.0 <= Correlation(table, id, a, b) <= 1.0 }

  /** Rewards between zero and one keep every correlation there. */
  lemma CorrelationsBounded(table: Table, run: seq<Pairing>)
    requires Bounded(table) && forall i :: 0 <= i < |run| ==> 0.0 <= run[i].reward <= 1.0
    ensures Bounded(RunPairings(table, run))
  {
    hide Correlation, Smoothed;
    forall id, a, b ensures 0.0 <= Correlation(RunPairings(table, run), id, a, b) <= 1.0 {
      CorrelationIsAverage(table, run, id, a, b);
      RewardsWithin(run, id, a, b);
      SmoothedWithin(Correlation(table, id, a, b), RewardsOf(run, id, a, b), 0.0, 1.0);
    }
  }

  lemma {:induction false} RewardsWithin(run: seq<Pairing>, id: nat, a: string, b: string)
    requires forall i :: 0 <= i < |run| ==> 0.0 <= run[i].reward <= 1.0
    ensures Within(RewardsOf(run, id, a, b), 0.0, 1.0)
  {
    if run != [] {
      RewardsWithin(run[1..], id, a, b);
    }
  }

  // ---------------------------------------------------------------- boosting a distribution

  function Boost(table: Table, id: nat, previous: string, strength: real): string -> real
  {
    endpoint => 1.0 + Correlation(table, id, previous, endpoint) * strength
  }

  function Entangled(table: Table, id: nat, previous: Option<string>, d: seq<Entry>, strength: real): seq<Entry>
  {
    match previous
    case None => d
    case Some(endpoint) => Normalized(Boosted(d, Boost(table, id, endpoint, strength)))
  }

  /** Entangling a normalized distribution leaves a distribution, or nothing but zeros if there was nothing
      else, over the same endpoints. */
  lemma EntangledIsDistribution(table: Table, id: nat, previous: Option<string>, d: seq<Entry>, strength: real)
    requires Bounded(table) && strength >= 0.0 && NonNegative(d)
    ensures var e := Entangled(table, id, previous, Normalized(d), strength);
      && NonNegative(e) && SameSupport(e, d) && (if AllZero(d) then AllZero(e) else Total(e) == 1.0)
  {
    hide Correlation, Total, Boosted, Normalized;
    NormalizedIsDistribution(d);
    match previous {
      case None =>
      case Some(endpoint) =>
        var boost := Boost(table, id, endpoint, strength);
        BoostPositive(table, id, endpoint, strength);
        BoostedKeeps(Normalized(d), boost);
        NormalizedIsDistribution(Boosted(Normalized(d), boost));
        SupportZero(d, Boosted(Normalized(d), boost));
    }
  }

  lemma BoostAt(table: Table, id: nat, previous: string, strength: real, endpoint: string)
    ensures Boost(table, id, previous, strength)(endpoint) ==
      1.0 + Correlation(table, id, previous, endpoint) * strength
  {
  }

  lemma BoostPositive(table: Table, id: nat, endpoint: string, strength: real)
    requires Bounded(table) && strength >= 0.0
    ensures forall e :: Boost(table, id, endpoint, strength)(e) >= 1.0
  {
    hide Correlation;
    forall e ensures Boost(table, id, endpoint, strength)(e) >= 1.0 {
      assert 0.0 <= Correlation(table, id, endpoint, e) <= 1.0;
    }
  }

  lemma SupportZero(a: seq<Entry>, b: seq<Entry>)
    requires NonNegative(a) && NonNegative(b) && SameSupport(b, a)
    ensures AllZero(a) <==> AllZero(b)
  {
  }

  /** The weights are as though the boost had been applied before any normalization. */
  lemma EntangledOnce(table: Table, id: nat, previous: string, d: seq<Entry>, strength: real)
    requires Bounded(table) && strength >= 0.0 && NonNegative(d)
    ensures Entangled(table, id, Some(previous), Normalized(d), strength) ==
      Normalized(Boosted(d, Boost(table, id, previous, strength)))
  {
    hide Correlation, Total, Boosted, Normalized;
    BoostPositive(table, id, previous, strength);
    BoostOnce(d, Boost(table, id, previous, strength));
  }

  // ---------------------------------------------------------------- the table

  /** Conversations idle for more than so many whole seconds are forgotten. */
  function Recent(table: Table, maxAge: int, now: int): Table
  {
    map id | id in table && WholeSeconds(now - table[id].lastActive) <= maxAge :: table[id]
  }

  lemma RecentExactly(table: Table, maxAge: int, now: int)
    requires maxAge >= 0
    ensures forall id :: id in Recent(table, maxAge, now) <==>
      id in table && now - table[id].lastActive < (maxAge + 1) * TICKS_PER_SECOND
  {
    hide WholeSeconds;
    forall id | id in table
      ensures WholeSeconds(now - table[id].lastActive) <= maxAge <==>
        now - table[id].lastActive < (maxAge + 1) * TICKS_PER_SECOND
    {
      MoreSecondsExactly(now - table[id].lastActive, maxAge);
    }
  }

  class EntanglementTable {
    var correlations: Table

    constructor ()
      ensures correlations == map[]
    {
      correlations := map[];
    }

    method RecordPair(id: nat, a: string, b: string, reward: real, now: int)
      modifies this
      ensures correlations == Recorded(old(correlations), id, a, b, reward, now)
    {
      var conversation := if id in correlations then correlations[id] else Correlations(map[], now);
      conversation := conversation.(lastActive := now);
      var key := OrderedKey(a, b);
      var entry := if key in conversation.pairs then conversation.pairs[key] else 0.0;
      entry := entry * 0.9 + reward * 0.1;
      conversation := conversation.(pairs := conversation.pairs[key := entry]);
      correlations := correlations[id := conversation];
    }

    method ApplyEntanglement(id: nat, previous: Option<string>, distribution: array<Entry>, strength: real)
      modifies distribution
      ensures distribution[..] == Entangled(correlations, id, previous, old(distribution[..]), strength)
    {
      hide Correlation, Boost, Boosted, Normalized, OrderedKey;
      if previous == None {
        return;
      }
      ghost var was := distribution[..];
      ghost var boost := Boost(correlations, id, previous.value, strength);
      BoostedIs(was, boost);
      for i := 0 to distribution.Length
        invariant forall j :: 0 <= j < i ==> distribution[j] == Boosted(was, boost)[j]
        invariant forall j :: i <= j < distribution.Length ==> distribution[j] == was[j]
      {
        BoostAt(correlations, id, previous.value, strength, distribution[i].endpoint);
        var correlation := Correlation(correlations, id, previous.value, distribution[i].endpoint);
        distribution[i] := distribution[i].(p := distribution[i].p * (1.0 + correlation * strength));
      }
      assert distribution[..] == Boosted(was, boost);
      Normalize(distribution);
    }

    method PruneOld(maxAge: int, now: int)
      modifies this
      ensures correlations == Recent(old(correlations), maxAge, now)
      ensures maxAge >= 0 ==> forall id :: id in correlations <==>
        id in old(correlations) && now - old(correlations)[id].lastActive < (maxAge + 1) * TICKS_PER_SECOND
    {
      if maxAge >= 0 {
        RecentExactly(correlations, maxAge, now);
      }
      var toRemove := set id | id in correlations && WholeSeconds(now - correlations[id].lastActive) > maxAge;
      ghost var was, all := correlations, toRemove;
      while toRemove != {}
        invariant toRemove <= all && correlations == was - (all - toRemove)
        decreases toRemove
      {
        var id :| id in toRemove;
        toRemove := toRemove - {id};
        correlations := correlations - {id};
      }
    }
  }
}
