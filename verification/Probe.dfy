/** Health of endpoints under probing, and the removal of those that stay away (src/ai/probe.rs,
    src/ai/endpoints.rs). The answers of the network are given. */
module Probe {
  import opened Clock
  import opened Options

  datatype Status = Healthy | Degraded | Offline

  datatype Health = Health(
    status: Status,
    lastChecked: int,
    offlineSince: Option<int>,
    consecutiveFailures: nat,
    latencyMs: nat,
    lastError: Option<string>)

  const OFFLINE_AFTER: nat := 3

  /** What a probe brought: a response, which is a success or not, or an error. */
  datatype Answer = Response(success: bool, code: string) | NoResponse(error: string)

  datatype Reading = Reading(answer: Answer, latencyMs: nat, at: int)

  predicate Good(r: Reading) { r.answer.Response? && r.answer.success }

  function Unprobed(now: int): Health { Health(Healthy, now, None, 0, 0, None) }

  function Failing(h: Health, at: int): Health
  {
    var failures := h.consecutiveFailures + 1;
    if failures >= OFFLINE_AFTER then
      h.(consecutiveFailures := failures, status := Offline,
         offlineSince := if h.status != Offline then Some(at) else h.offlineSince)
    else h.(consecutiveFailures := failures, status := Degraded)
  }

  /** The health after one more reading. */
  function Checked(health: Health, r: Reading): Health
  {
    var h := health.(lastChecked := r.at, latencyMs := r.latencyMs);
    match r.answer
    case Response(success, code) =>
      if success then h.(consecutiveFailures := 0, status := Healthy, offlineSince := None, lastError := None)
      else Failing(h, r.at).(lastError := Some("HTTP " + code))
    case NoResponse(error) => Failing(h, r.at).(lastError := Some(error))
  }

  predicate Stale(h: Health, maxOffline: int, now: int)
  {
    && h.status == Offline
    && WholeSeconds(now - (if h.offlineSince.Some? then h.offlineSince.value else h.lastChecked)) > maxOffline
  }

  lemma StaleExactly(h: Health, maxOffline: nat, now: int)
    ensures var since := if h.offlineSince.Some? then h.offlineSince.value else h.lastChecked;
      Stale(h, maxOffline, now) <==> h.status == Offline && now - since >= (maxOffline + 1) * TICKS_PER_SECOND
  {
    hide WholeSeconds;
    MoreSecondsExactly(now - (if h.offlineSince.Some? then h.offlineSince.value else h.lastChecked), maxOffline);
  }

  // ---------------------------------------------------------------- health is a function of the streak

  /** All that is known of an endpoint: when it was registered, and every reading since. */
  datatype Journal = Journal(since: int, readings: seq<Reading>) {
    function Add(r: Reading): Journal { this.(readings := readings + [r]) }
  }

  function Replayed(j: Journal): Health
    decreases |j.readings|
  {
    if j.readings == [] then Unprobed(j.since)
    else
      var n := |j.readings| - 1;
      Checked(Replayed(j.(readings := j.readings[..n])), j.readings[n])
  }

  /** What a probe that failed is reported as. */
  function Complaint(a: Answer): string { if a.Response? then "HTTP " + a.code else a.error }

  /** The failures since the last success. */
  function Streak(readings: seq<Reading>): (n: nat)
    ensures n <= |readings|
    ensures forall i :: |readings| - n <= i < |readings| ==> !Good(readings[i])
    ensures n < |readings| ==> Good(readings[|readings| - n - 1])
  {
    if readings == [] || Good(readings[|readings| - 1]) then 0 else 1 + Streak(readings[..|readings| - 1])
  }

  /** The reading that takes an endpoint offline: the third failure of the running streak. */
  function Third(readings: seq<Reading>): Reading
    requires Streak(readings) >= 3
  {
    readings[|readings| - Streak(readings) + 2]
  }

  /** Over every history of readings, the status tells the running streak, an endpoint is offline since the third
      failure of that streak, and the rest is that of the last reading. */
  lemma {:induction false} HealthIsStreak(j: Journal)
    ensures var h, n := Replayed(j), Streak(j.readings);
      && h.consecutiveFailures == n
      && h.status == (if n == 0 then Healthy else if n < 3 then Degraded else Offline)
      && h.offlineSince == (if n < 3 then None else Some(Third(j.readings).at))
      && h.lastChecked == (if j.readings == [] then j.since else j.readings[|j.readings| - 1].at)
      && h.latencyMs == (if j.readings == [] then 0 else j.readings[|j.readings| - 1].latencyMs)
      && h.lastError == (if n == 0 then None else Some(Complaint(j.readings[|j.readings| - 1].answer)))
    decreases |j.readings|
  {
    hide Checked;
    if j.readings != [] {
      var n := |j.readings| - 1;
      var front, r := j.readings[..n], j.readings[n];
      HealthIsStreak(j.(readings := front));
      CheckedIs(Replayed(j.(readings := front)), r);
      if Streak(j.readings) > 3 {
        assert Third(j.readings) == Third(front);
      }
    }
  }

  /** One reading: a success clears everything, a failure counts. */
  lemma CheckedIs(h: Health, r: Reading)
    ensures var h', n := Checked(h, r), if Good(r) then 0 else h.consecutiveFailures + 1;
      && h'.consecutiveFailures == n && h'.lastChecked == r.at && h'.latencyMs == r.latencyMs
      && h'.status == (if n == 0 then Healthy else if n < 3 then Degraded else Offline)
      && h'.lastError == (if n == 0 then None else Some(Complaint(r.answer)))
      && h'.offlineSince == (if n == 0 then None else if n >= 3 && h.status != Offline then Some(r.at)
                             else h.offlineSince)
  {
  }

  /** What pruning means, without the bookkeeping: the running streak has three failures or more, and the
      third of them is too long ago. */
  ghost predicate Overdue(j: Journal, maxOffline: int, now: int)
  {
    Streak(j.readings) >= 3 && WholeSeconds(now - Third(j.readings).at) > maxOffline
  }

  /** In ticks. */
  lemma OverdueExactly(j: Journal, maxOffline: nat, now: int)
    ensures Stale(Replayed(j), maxOffline, now) <==>
      Streak(j.readings) >= 3 && now - Third(j.readings).at >= (maxOffline + 1) * TICKS_PER_SECOND
  {
    hide WholeSeconds;
    StaleIsOverdue(j, maxOffline, now);
    if Streak(j.readings) >= 3 {
      MoreSecondsExactly(now - Third(j.readings).at, maxOffline);
    }
  }

  lemma StaleIsOverdue(j: Journal, maxOffline: int, now: int)
    ensures Stale(Replayed(j), maxOffline, now) <==> Overdue(j, maxOffline, now)
  {
    HealthIsStreak(j);
  }

  ghost predicate Chronological(readings: seq<Reading>, now: int)
  {
    && (forall i, k :: 0 <= i < k < |readings| ==> readings[i].at <= readings[k].at)
    && (forall i :: 0 <= i < |readings| ==> readings[i].at <= now)
  }

  /** No endpoint is pruned that answered well within the limit. */
  lemma NoRecentSuccess(j: Journal, maxOffline: int, now: int, i: nat)
    requires Chronological(j.readings, now) && Overdue(j, maxOffline, now)
    requires i < |j.readings| && Good(j.readings[i])
    ensures WholeSeconds(now - j.readings[i].at) > maxOffline
  {
    WholeSecondsOrder(now - Third(j.readings).at, now - j.readings[i].at);
  }

  // ---------------------------------------------------------------- a fleet of endpoints

  datatype Event =
    | Register(id: string, at: int)
    | Deregister(id: string)
    | Probed(id: string, reading: Reading)
    | Prune(maxOffline: int, at: int)

  type Fleet = map<string, Health>

  /** What the program keeps: the health of each endpoint. */
  function Next(f: Fleet, e: Event): Fleet
  {
    match e
    case Register(id, at) => f[id := Unprobed(at)]
    case Deregister(id) => f - {id}
    case Probed(id, r) => if id in f then f[id := Checked(f[id], r)] else f
    case Prune(maxOffline, now) => map id | id in f && !Stale(f[id], maxOffline, now) :: f[id]
  }

  /** What it stands for: the whole history of each endpoint since it was registered. */
  ghost function Recorded(all: map<string, Journal>, e: Event): map<string, Journal>
  {
    match e
    case Register(id, at) => all[id := Journal(at, [])]
    case Deregister(id) => all - {id}
    case Probed(id, r) => if id in all then all[id := all[id].Add(r)] else all
    case Prune(maxOffline, now) => map id | id in all && !Overdue(all[id], maxOffline, now) :: all[id]
  }

  function Run(f: Fleet, run: seq<Event>): Fleet
    decreases run
  {
    if run == [] then f else Run(Next(f, run[0]), run[1..])
  }

  ghost function Record(all: map<string, Journal>, run: seq<Event>): map<string, Journal>
    decreases run
  {
    if run == [] then all else Record(Recorded(all, run[0]), run[1..])
  }

  ghost predicate Summarizes(f: Fleet, all: map<string, Journal>)
  {
    f.Keys == all.Keys && forall id :: id in f ==> f[id] == Replayed(all[id])
  }

  lemma NextSummarizes(f: Fleet, all: map<string, Journal>, e: Event)
    requires Summarizes(f, all)
    ensures Summarizes(Next(f, e), Recorded(all, e))
  {
    hide Stale, Overdue, Checked;
    match e {
      case Register(id, at) =>
      case Deregister(id) =>
      case Probed(id, r) =>
        if id in f {
          var j := all[id].Add(r);
          assert j.readings[..|j.readings| - 1] == all[id].readings;
          assert Replayed(j) == Checked(Replayed(all[id]), r);
        }
      case Prune(maxOffline, now) =>
        forall id | id in f {
          StaleIsOverdue(all[id], maxOffline, now);
        }
    }
  }

  /** Over every interleaving of registrations, removals, probes of any endpoints and prunes, the healths kept
      are those of the histories, and prunes remove exactly the endpoints whose third failure is overdue. */
  lemma {:induction false} HealthRefinesHistory(f: Fleet, all: map<string, Journal>, run: seq<Event>)
    requires Summarizes(f, all)
    ensures Summarizes(Run(f, run), Record(all, run))
    decreases run
  {
    hide Next, Recorded, Summarizes;
    if run != [] {
      NextSummarizes(f, all, run[0]);
      HealthRefinesHistory(Next(f, run[0]), Recorded(all, run[0]), run[1..]);
    }
  }

  // ---------------------------------------------------------------- the engine

  datatype Endpoint = Endpoint(url: string, health: Health)

  class ProbeEngine {
    var endpoints: map<string, Endpoint>

    ghost function Healths(): Fleet
      reads this
    {
      map id | id in endpoints :: endpoints[id].health
    }

    constructor (endpoints: map<string, Endpoint>)
      ensures this.endpoints == endpoints
    {
      this.endpoints := endpoints;
    }

    /** An endpoint that went away while it was being probed is left alone. */
    method Probe(id: string, r: Reading)
      modifies this
      ensures Healths() == Next(old(Healths()), Probed(id, r))
      ensures endpoints.Keys == old(endpoints).Keys
      ensures forall k :: k in endpoints ==> endpoints[k].url == old(endpoints)[k].url
    {
      if id !in endpoints {
        return;
      }
      var entry := endpoints[id];
      var health := entry.health.(lastChecked := r.at, latencyMs := r.latencyMs);
      if r.answer.Response? && r.answer.success {
        health := health.(consecutiveFailures := 0, status := Healthy, offlineSince := None, lastError := None);
      } else {
        health := health.(consecutiveFailures := health.consecutiveFailures + 1);
        if health.consecutiveFailures >= OFFLINE_AFTER {
          if health.status != Offline {
            health := health.(offlineSince := Some(r.at));
          }
          health := health.(status := Offline);
        } else {
          health := health.(status := Degraded);
        }
        health := health.(lastError := Some(if r.answer.Response? then "HTTP " + r.answer.code else r.answer.error));
      }
      endpoints := endpoints[id := entry.(health := health)];
    }

    /** Every endpoint is probed once, in whatever order the table yields them. */
    method ProbeAll(reading: string -> Reading)
      modifies this
      ensures Healths() == map id | id in old(Healths()) :: Checked(old(Healths())[id], reading(id))
      ensures endpoints.Keys == old(endpoints).Keys
      ensures forall k :: k in endpoints ==> endpoints[k].url == old(endpoints)[k].url
    {
      hide Checked;
      var targets := endpoints.Keys;
      while targets != {}
        invariant targets <= old(endpoints).Keys == endpoints.Keys
        invariant forall k :: k in endpoints ==> endpoints[k].url == old(endpoints)[k].url
        invariant forall k :: k in targets ==> Healths()[k] == old(Healths())[k]
        invariant forall k :: k in endpoints && k !in targets ==> Healths()[k] == Checked(old(Healths())[k], reading(k))
        decreases targets
      {
        var id :| id in targets;
        targets := targets - {id};
        Probe(id, reading(id));
      }
    }

    method PruneOffline(maxOffline: int, now: int) returns (removed: nat)
      modifies this
      ensures Healths() == Next(old(Healths()), Prune(maxOffline, now))
      ensures removed == |old(endpoints)| - |endpoints|
      ensures forall k :: k in endpoints ==> k in old(endpoints) && endpoints[k] == old(endpoints)[k]
      ensures maxOffline >= 0 ==> forall k :: k in old(endpoints) ==>
        var h := old(endpoints)[k].health;
        var since := if h.offlineSince.Some? then h.offlineSince.value else h.lastChecked;
        k !in endpoints <==> h.status == Offline && now - since >= (maxOffline + 1) * TICKS_PER_SECOND
    {
      hide Stale;
      var toRemove := set id | id in endpoints && Stale(endpoints[id].health, maxOffline, now);
      removed := |toRemove|;
      ghost var was := endpoints;
      RemoveAll(toRemove);
      assert endpoints.Keys == was.Keys - toRemove && |endpoints| == |endpoints.Keys| && |was| == |was.Keys|;
      forall k | maxOffline >= 0 && k in was {
        StaleExactly(was[k].health, maxOffline, now);
      }
    }

    method RemoveAll(ids: set<string>)
      modifies this
      ensures endpoints == old(endpoints) - ids
    {
      var todo := ids;
      while todo != {}
        invariant todo <= ids && endpoints == old(endpoints) - (ids - todo)
        decreases todo
      {
        var id :| id in todo;
        todo := todo - {id};
        endpoints := endpoints - {id};
      }
      assert ids - todo == ids;
    }
  }
}
