/** The per-endpoint circuit breaker (src/circuit.rs), with every instant made explicit. */
module Circuit {
  import opened Arithmetic

  datatype CircuitState = Closed | Open | HalfOpen

  datatype LastFailure = Never | At(time: int)

  datatype Endpoint = Endpoint(state: CircuitState, failures: nat, lastFailure: LastFailure, halfOpenCalls: nat)

  const DEFAULT := Endpoint(Closed, 0, Never, 0)

  /** Recovery timeouts are whole numbers of ticks. */
  datatype Config = Config(failureThreshold: nat, recoveryTimeout: nat, halfOpenMaxCalls: nat) {
    /** The calls one half-open episode lets through: the first is granted whatever the limit. */
    function Probes(): (n: nat)
      ensures n >= 1 && n >= halfOpenMaxCalls && (n == 1 || n == halfOpenMaxCalls)
    {
      if halfOpenMaxCalls >= 1 then halfOpenMaxCalls else 1
    }
  }

  // ---------------------------------------------------------------- one endpoint

  /** The instants of a monotonic clock: a difference never goes below zero. */
  function Elapsed(since: int, now: int): nat { if now >= since then now - since else 0 }

  predicate Recovered(c: Config, e: Endpoint, now: int)
  {
    e.lastFailure.At? && Elapsed(e.lastFailure.time, now) >= c.recoveryTimeout
  }

  predicate Allows(c: Config, e: Endpoint, now: int)
  {
    match e.state
    case Closed => true
    case Open => Recovered(c, e, now)
    case HalfOpen => e.halfOpenCalls < c.halfOpenMaxCalls
  }

  function AfterAllow(c: Config, e: Endpoint, now: int): Endpoint
  {
    if !Allows(c, e, now) then e
    else match e.state
      case Closed => e
      case Open => e.(state := HalfOpen, halfOpenCalls := 1)
      case HalfOpen => e.(halfOpenCalls := e.halfOpenCalls + 1)
  }

  function AfterSuccess(e: Endpoint): Endpoint
  {
    match e.state
    case HalfOpen => e.(state := Closed, failures := 0, lastFailure := Never)
    case Closed => e.(failures := 0)
    case Open => e
  }

  function AfterFailure(c: Config, e: Endpoint, now: int): Endpoint
  {
    var f := e.(failures := e.failures + 1, lastFailure := At(now));
    if e.state == HalfOpen || f.failures >= c.failureThreshold then f.(state := Open) else f
  }

  // ---------------------------------------------------------------- the breaker

  type Endpoints = map<string, Endpoint>

  function Lookup(m: Endpoints, id: string): Endpoint { if id in m then m[id] else DEFAULT }

  class CircuitBreaker {
    const config: Config
    var state: Endpoints

    constructor (failureThreshold: nat, recoveryTimeout: nat, halfOpenMaxCalls: nat)
      ensures config == Config(failureThreshold, recoveryTimeout, halfOpenMaxCalls) && state == map[]
    {
      config := Config(failureThreshold, recoveryTimeout, halfOpenMaxCalls);
      state := map[];
    }

    method Allow(id: string, now: int) returns (allowed: bool)
      modifies this`state
      ensures allowed == Allows(config, Lookup(old(state), id), now)
      ensures state == old(state)[id := AfterAllow(config, Lookup(old(state), id), now)]
      // An endpoint never seen is closed, and so gets its call.
      ensures id !in old(state) ==> allowed && state == old(state)[id := Endpoint(Closed, 0, Never, 0)]
      ensures id in old(state) && old(state)[id].state == Closed ==> allowed && state == old(state)
      ensures id in old(state) && old(state)[id].state == Open ==>
        && (allowed <==>
              && old(state)[id].lastFailure.At?
              && (now - old(state)[id].lastFailure.time >= config.recoveryTimeout || config.recoveryTimeout == 0))
        && state ==
             if allowed then old(state)[id := old(state)[id].(state := HalfOpen, halfOpenCalls := 1)] else old(state)
      ensures id in old(state) && old(state)[id].state == HalfOpen ==>
        && (allowed <==> old(state)[id].halfOpenCalls < config.halfOpenMaxCalls)
        && state ==
             if allowed then old(state)[id := old(state)[id].(halfOpenCalls := old(state)[id].halfOpenCalls + 1)]
             else old(state)
    {
      var entry := if id in state then state[id] else DEFAULT;
      match entry.state {
        case Closed =>
          allowed := true;
        case Open =>
          if entry.lastFailure.At? {
            if Elapsed(entry.lastFailure.time, now) >= config.recoveryTimeout {
              entry := entry.(state := HalfOpen, halfOpenCalls := 1);
              allowed := true;
            } else {
              allowed := false;
            }
          } else {
            allowed := false;
          }
        case HalfOpen =>
          if entry.halfOpenCalls < config.halfOpenMaxCalls {
            entry := entry.(halfOpenCalls := entry.halfOpenCalls + 1);
            allowed := true;
          } else {
            allowed := false;
          }
      }
      state := state[id := entry];
    }

    /** A success of an endpoint never seen leaves no entry behind. */
    method RecordSuccess(id: string)
      modifies this`state
      ensures state == if id in old(state) then old(state)[id := AfterSuccess(old(state)[id])] else old(state)
      ensures id in old(state) && old(state)[id].state == HalfOpen ==>
        state == old(state)[id := old(state)[id].(state := Closed, failures := 0, lastFailure := Never)]
      ensures id in old(state) && old(state)[id].state == Closed ==>
        state == old(state)[id := old(state)[id].(failures := 0)]
      ensures id !in old(state) || old(state)[id].state == Open ==> state == old(state)
    {
      if id in state {
        var entry := state[id];
        match entry.state {
          case HalfOpen =>
            entry := entry.(state := Closed, failures := 0, lastFailure := Never);
          case Closed =>
            entry := entry.(failures := 0);
          case Open =>
        }
        state := state[id := entry];
      }
    }

    method RecordFailure(id: string, now: int)
      modifies this`state
      ensures state == old(state)[id := AfterFailure(config, Lookup(old(state), id), now)]
      ensures id !in old(state) ==> state == old(state)[id :=
        Endpoint(if config.failureThreshold <= 1 then Open else Closed, 1, At(now), 0)]
      ensures id in old(state) ==>
        var was := old(state)[id];
        && state.Keys == old(state).Keys && (forall k :: k in state && k != id ==> state[k] == old(state)[k])
        && state[id].failures == was.failures + 1 && state[id].lastFailure == At(now)
        && state[id].halfOpenCalls == was.halfOpenCalls
        && state[id].state ==
             if was.state == HalfOpen || was.failures + 1 >= config.failureThreshold then Open else was.state
    {
      var entry := if id in state then state[id] else DEFAULT;
      entry := entry.(failures := entry.failures + 1, lastFailure := At(now));
      if entry.state == HalfOpen {
        entry := entry.(state := Open);
      } else if entry.failures >= config.failureThreshold {
        entry := entry.(state := Open);
      }
      state := state[id := entry];
    }

    method GetState(id: string) returns (s: CircuitState)
      ensures s == Lookup(state, id).state
      ensures if id in state then s == state[id].state else s == Closed
    {
      s := if id in state then state[id].state else Closed;
    }
  }

  // ---------------------------------------------------------------- runs

  datatype Event = Allow(at: int) | Success(at: int) | Failure(at: int)

  function Apply(c: Config, e: Endpoint, ev: Event): Endpoint
  {
    match ev
    case Allow(t) => AfterAllow(c, e, t)
    case Success(_) => AfterSuccess(e)
    case Failure(t) => AfterFailure(c, e, t)
  }

  function Run(c: Config, e: Endpoint, run: seq<Event>): Endpoint
    decreases run
  {
    if run == [] then e else Run(c, Apply(c, e, run[0]), run[1..])
  }

  /** Calls let through by a run. */
  function Passed(c: Config, e: Endpoint, run: seq<Event>): nat
    decreases run
  {
    if run == [] then 0
    else (if run[0].Allow? && Allows(c, e, run[0].at) then 1 else 0) + Passed(c, Apply(c, e, run[0]), run[1..])
  }

  ghost predicate Clocked(start: int, run: seq<Event>, end: int)
    decreases run
  {
    if run == [] then start <= end else start <= run[0].at && Clocked(run[0].at, run[1..], end)
  }

  // ---------------------------------------------------------------- the probe-rate bound

  /** No success of the run finds the endpoint half-open: none of them closes it. */
  ghost predicate NeverCloses(c: Config, e: Endpoint, run: seq<Event>)
    decreases run
  {
    run == [] || ((run[0].Success? ==> e.state != HalfOpen) && NeverCloses(c, Apply(c, e, run[0]), run[1..]))
  }

  /** What an endpoint that is not closed may still let through by `end`: one episode of probes per
      recovery timeout since its last failure, less the probes the running episode has used. */
  function Budget(c: Config, e: Endpoint, end: int): int
    requires c.recoveryTimeout > 0 && e.lastFailure.At? && e.lastFailure.time <= end
  {
    c.Probes() * ((end - e.lastFailure.time) / c.recoveryTimeout) - (if e.state == HalfOpen then e.halfOpenCalls else 0)
  }

  /** Open or half-open after a recorded failure; a running episode began a full timeout after it and
      stays within its limit. */
  ghost predicate Tripped(c: Config, e: Endpoint, now: int)
  {
    && e.state != Closed
    && e.lastFailure.At? && e.lastFailure.time <= now
    && (e.state == HalfOpen ==> 1 <= e.halfOpenCalls <= c.Probes() && now - e.lastFailure.time >= c.recoveryTimeout)
  }

  lemma BudgetNonNegative(c: Config, e: Endpoint, now: int, end: int)
    requires c.recoveryTimeout > 0 && Tripped(c, e, now) && now <= end
    ensures Budget(c, e, end) >= 0
  {
    var n := (end - e.lastFailure.time) / c.recoveryTimeout;
    if e.state == HalfOpen {
      QuotientStep(0, end - e.lastFailure.time, c.recoveryTimeout);
    } else {
      QuotientOrder(0, end - e.lastFailure.time, c.recoveryTimeout);
    }
    assert c.Probes() * n >= c.Probes() * (if e.state == HalfOpen then 1 else 0) by {
      MulOrder(if e.state == HalfOpen then 1 else 0, n, c.Probes());
    }
  }

  lemma FailureSpends(c: Config, e: Endpoint, t: int, end: int)
    requires c.recoveryTimeout > 0 && Tripped(c, e, t) && t <= end
    ensures Tripped(c, AfterFailure(c, e, t), t)
    ensures Budget(c, AfterFailure(c, e, t), end) <= Budget(c, e, end)
  {
    hide Config.Probes;
    var d := c.recoveryTimeout;
    var n', n := (end - t) / d, (end - e.lastFailure.time) / d;
    QuotientOrder(end - t, end - e.lastFailure.time, d);
    if e.state == HalfOpen {
      QuotientStep(end - t, end - e.lastFailure.time, d);
      MulOrder(n' + 1, n, c.Probes());
      assert c.Probes() * (n' + 1) == c.Probes() * n' + c.Probes();
    } else {
      MulOrder(n', n, c.Probes());
    }
  }

  /** From any tripped state, for every run that never closes the endpoint. */
  lemma {:induction false} ProbesWithinBudget(c: Config, e: Endpoint, now: int, run: seq<Event>, end: int)
    requires c.recoveryTimeout > 0 && Tripped(c, e, now) && Clocked(now, run, end) && NeverCloses(c, e, run)
    ensures e.lastFailure.time <= end && Passed(c, e, run) <= Budget(c, e, end)
    decreases run
  {
    ClockedReaches(now, run, end);
    if run == [] {
      BudgetNonNegative(c, e, now, end);
    } else {
      var t, next := run[0].at, Apply(c, e, run[0]);
      ClockedReaches(t, run[1..], end);
      if run[0].Failure? {
        FailureSpends(c, e, t, end);
      }
      ProbesWithinBudget(c, next, t, run[1..], end);
    }
  }

  lemma {:induction false} ClockedReaches(start: int, run: seq<Event>, end: int)
    requires Clocked(start, run, end)
    ensures start <= end
    decreases run
  {
    if run != [] {
      ClockedReaches(run[0].at, run[1..], end);
    }
  }

  /** After a failure at `t0` leaves the endpoint open, any run up to `t1` that never closes it lets
      through at most one episode of probes per whole recovery timeout elapsed. */
  lemma ProbeRateBound(c: Config, e: Endpoint, t0: int, run: seq<Event>, t1: int)
    requires c.recoveryTimeout > 0 && AfterFailure(c, e, t0).state == Open
    requires Clocked(t0, run, t1) && NeverCloses(c, AfterFailure(c, e, t0), run)
    ensures t0 <= t1 && Passed(c, AfterFailure(c, e, t0), run) <= c.Probes() * ((t1 - t0) / c.recoveryTimeout)
  {
    ProbesWithinBudget(c, AfterFailure(c, e, t0), t0, run, t1);
  }

  // ---------------------------------------------------------------- the bound is met

  function Allowances(n: nat, at: int): seq<Event>
  {
    if n == 0 then [] else [Allow(at)] + Allowances(n - 1, at)
  }

  /** Each episode: as many calls as it grants, as soon as it may start, then a failure. */
  function Episodes(c: Config, t0: int, rounds: nat): seq<Event>
    decreases rounds
  {
    if rounds == 0 then [] else
      var t := t0 + c.recoveryTimeout;
      Allowances(c.Probes(), t) + [Failure(t)] + Episodes(c, t, rounds - 1)
  }

  /** Such a client gets every probe the bound allows. */
  lemma {:induction false} EpisodesPass(c: Config, e: Endpoint, t0: int, rounds: nat)
    requires e.state == Open && e.lastFailure == At(t0)
    ensures Passed(c, e, Episodes(c, t0, rounds)) == c.Probes() * rounds
    decreases rounds
  {
    if rounds > 0 {
      var t, n := t0 + c.recoveryTimeout, c.Probes();
      var asks, later := Allowances(n, t), Episodes(c, t, rounds - 1);
      var asked := Run(c, e, asks);
      var first := AfterAllow(c, e, t);
      assert asks[1..] == Allowances(n - 1, t);
      AllowancesPass(c, first, t, n - 1);
      var tripped := AfterFailure(c, asked, t);
      EpisodesPass(c, tripped, t, rounds - 1);
      PassedSplits(c, e, asks, [Failure(t)] + later);
      assert asks + ([Failure(t)] + later) == asks + [Failure(t)] + later;
      assert ([Failure(t)] + later)[1..] == later;
      assert Passed(c, asked, [Failure(t)] + later) == Passed(c, tripped, later);
      assert n * rounds == n + n * (rounds - 1);
    }
  }

  lemma {:induction false} AllowancesPass(c: Config, e: Endpoint, t: int, n: nat)
    requires e.state == HalfOpen && (n > 0 ==> e.halfOpenCalls + n <= c.halfOpenMaxCalls)
    ensures Passed(c, e, Allowances(n, t)) == n
    ensures Run(c, e, Allowances(n, t)) == e.(halfOpenCalls := e.halfOpenCalls + n)
    decreases n
  {
    if n > 0 {
      assert Allowances(n, t)[1..] == Allowances(n - 1, t);
      AllowancesPass(c, AfterAllow(c, e, t), t, n - 1);
    }
  }

  lemma {:induction false} PassedSplits(c: Config, e: Endpoint, xs: seq<Event>, ys: seq<Event>)
    ensures Passed(c, e, xs + ys) == Passed(c, e, xs) + Passed(c, Run(c, e, xs), ys)
    ensures Run(c, e, xs + ys) == Run(c, Run(c, e, xs), ys)
    decreases xs
  {
    if xs == [] {
      assert xs + ys == ys;
    } else {
      assert (xs + ys)[1..] == xs[1..] + ys;
      PassedSplits(c, Apply(c, e, xs[0]), xs[1..], ys);
    }
  }

  // ---------------------------------------------------------------- state as a function of history

  /** What happened since the last success that took effect: the failures and, since the latest of
      them, the instants at which a call was asked for. No counter and no state are kept. */
  datatype History = History(failures: seq<int>, asks: seq<int>)

  function Since(c: Config, run: seq<Event>): History
    decreases run
  {
    if run == [] then History([], []) else
      var h := Since(c, run[..|run| - 1]);
      match run[|run| - 1]
      case Failure(t) => History(h.failures + [t], [])
      case Allow(t) => h.(asks := h.asks + [t])
      case Success(_) => if StateOf(c, h) == Open then h else History([], [])
  }

  /** Asks from the first one that came a full recovery timeout after the last failure. */
  function ProbesAsked(c: Config, lastFailure: int, asks: seq<int>): nat
  {
    if asks == [] then 0
    else if Elapsed(lastFailure, asks[0]) >= c.recoveryTimeout then |asks|
    else ProbesAsked(c, lastFailure, asks[1..])
  }

  /** The state an endpoint must be in, read off its history alone. */
  function StateOf(c: Config, h: History): CircuitState
  {
    if |h.failures| < c.failureThreshold || h.failures == [] then Closed
    else if ProbesAsked(c, h.failures[|h.failures| - 1], h.asks) > 0 then HalfOpen
    else Open
  }

  lemma {:induction false} AskAppended(c: Config, lastFailure: int, asks: seq<int>, t: int)
    ensures var n := ProbesAsked(c, lastFailure, asks);
      ProbesAsked(c, lastFailure, asks + [t]) ==
        if n > 0 || Elapsed(lastFailure, t) >= c.recoveryTimeout then n + 1 else 0
  {
    if asks != [] {
      assert (asks + [t])[1..] == asks[1..] + [t];
      AskAppended(c, lastFailure, asks[1..], t);
    } else {
      assert asks + [t] == [t];
    }
  }

  lemma RunAppends(c: Config, e: Endpoint, run: seq<Event>, ev: Event)
    ensures Run(c, e, run + [ev]) == Apply(c, Run(c, e, run), ev)
  {
    PassedSplits(c, e, run, [ev]);
  }

  /** On every run the three-state machine with its counters is the history's reading: it counts the
      failures since the last success that took effect, it is closed exactly below the threshold (zero acts
      like one), and half-open exactly once a call was asked for a full timeout after the last failure, when
      it counts the calls asked for since, up to its limit. */
  lemma {:induction false} StateFollowsHistory(c: Config, run: seq<Event>)
    ensures var e, h := Run(c, DEFAULT, run), Since(c, run);
      && e.state == StateOf(c, h)
      && e.failures == |h.failures|
      && (h.failures != [] ==> e.lastFailure == At(h.failures[|h.failures| - 1]))
      && (e.state == HalfOpen ==>
            var n := ProbesAsked(c, h.failures[|h.failures| - 1], h.asks);
            e.halfOpenCalls == if n <= c.Probes() then n else c.Probes())
    decreases run
  {
    if run != [] {
      var front, ev := run[..|run| - 1], run[|run| - 1];
      StateFollowsHistory(c, front);
      assert run == front + [ev];
      RunAppends(c, DEFAULT, front, ev);
      var h := Since(c, front);
      if ev.Allow? && h.failures != [] {
        AskAppended(c, h.failures[|h.failures| - 1], h.asks, ev.at);
      }
    }
  }

  // ---------------------------------------------------------------- many endpoints

  datatype Call = Call(id: string, event: Event)

  function ApplyAt(c: Config, m: Endpoints, call: Call): Endpoints
  {
    if call.event.Success? && call.id !in m then m
    else m[call.id := Apply(c, Lookup(m, call.id), call.event)]
  }

  function RunAll(c: Config, m: Endpoints, calls: seq<Call>): Endpoints
    decreases calls
  {
    if calls == [] then m else RunAll(c, ApplyAt(c, m, calls[0]), calls[1..])
  }

  function EventsOf(calls: seq<Call>, id: string): seq<Event>
  {
    if calls == [] then [] else (if calls[0].id == id then [calls[0].event] else []) + EventsOf(calls[1..], id)
  }

  /** An interleaved run, seen at one endpoint, is the run of that endpoint's own events. */
  lemma {:induction false} EndpointsIsolated(c: Config, m: Endpoints, calls: seq<Call>, id: string)
    ensures Lookup(RunAll(c, m, calls), id) == Run(c, Lookup(m, id), EventsOf(calls, id))
    decreases calls
  {
    if calls != [] {
      EndpointsIsolated(c, ApplyAt(c, m, calls[0]), calls[1..], id);
      if calls[0].id == id {
        assert EventsOf(calls, id)[1..] == EventsOf(calls[1..], id);
      } else {
        assert EventsOf(calls, id) == EventsOf(calls[1..], id);
      }
    }
  }

  lemma {:induction false} EntriesArise(c: Config, m: Endpoints, calls: seq<Call>, id: string)
    ensures id in RunAll(c, m, calls) <==>
      id in m || exists i :: 0 <= i < |calls| && calls[i].id == id && !calls[i].event.Success?
    decreases calls
  {
    if calls != [] {
      EntriesArise(c, ApplyAt(c, m, calls[0]), calls[1..], id);
      if i :| 0 <= i < |calls| && calls[i].id == id && !calls[i].event.Success? {
        assert i > 0 ==> calls[1..][i - 1] == calls[i];
      }
    }
  }

  /** Over every interleaved run of a new breaker: an endpoint has an entry exactly from its first call or
      failure on, and what the entry says is read off the endpoint's own history. Before that it is closed, and
      gets its first call whatever happened to others. */
  lemma FreshRun(c: Config, calls: seq<Call>, id: string)
    ensures var m, h := RunAll(c, map[], calls), Since(c, EventsOf(calls, id));
      && (id in m <==> exists i :: 0 <= i < |calls| && calls[i].id == id && !calls[i].event.Success?)
      && (id in m ==> m[id].state == StateOf(c, h) && m[id].failures == |h.failures|)
      && (id !in m ==> forall now :: Apply(c, Lookup(m, id), Allow(now)) == Endpoint(Closed, 0, Never, 0))
  {
    EntriesArise(c, map[], calls, id);
    EndpointsIsolated(c, map[], calls, id);
    StateFollowsHistory(c, EventsOf(calls, id));
  }
}
