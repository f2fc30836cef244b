/** What the stages of the routing pipeline do to the candidates (src/router.rs), stage by stage. */
module Routing {
  import opened Messages
  import opened Options
  import opened Sequences
  import Circuit
  import Plumber
  import Probe

  /** The tool a message's data asks for, and who serves which tool. */
  datatype Mcp = Mcp(toolOf: string -> Option<string>, toolIndex: map<string, string>)

  const MCP_TOOL_CALL := "mcp_tool_call"
  const UNKNOWN_TOOL := "unknown"

  function McpTarget(mcp: Mcp, msg: Message): Option<string>
  {
    if msg.msgType != MCP_TOOL_CALL then None
    else
      var asked := mcp.toolOf(msg.data);
      var tool := if asked.Some? then asked.value else UNKNOWN_TOOL;
      if tool in mcp.toolIndex then Some(mcp.toolIndex[tool]) else None
  }

  /** The message is a tool call for the tool; one that names none asks for `unknown`. */
  ghost predicate AsksFor(mcp: Mcp, msg: Message, tool: string)
  {
    && msg.msgType == "mcp_tool_call"
    && (mcp.toolOf(msg.data) == Some(tool) || (mcp.toolOf(msg.data) == None && tool == "unknown"))
  }

  /** A tool call goes to the endpoint that serves the tool, and nothing else goes that way. */
  lemma McpTargetExactly(mcp: Mcp, msg: Message, endpoint: string)
    ensures McpTarget(mcp, msg) == Some(endpoint) <==>
      exists tool :: AsksFor(mcp, msg, tool) && tool in mcp.toolIndex && mcp.toolIndex[tool] == endpoint
    ensures msg.msgType != "mcp_tool_call" ==> McpTarget(mcp, msg) == None
  {
    if McpTarget(mcp, msg) == Some(endpoint) {
      var asked := mcp.toolOf(msg.data);
      assert AsksFor(mcp, msg, if asked.Some? then asked.value else "unknown");
    }
  }

  /** The candidates that were not rejected, in order. */
  function Remaining(candidates: seq<string>, rejected: seq<string>): seq<string>
  {
    if candidates == [] then []
    else (if candidates[0] in rejected then [] else [candidates[0]]) + Remaining(candidates[1..], rejected)
  }

  lemma {:induction false} RemainingSplits(xs: seq<string>, ys: seq<string>, rejected: seq<string>)
    ensures Remaining(xs + ys, rejected) == Remaining(xs, rejected) + Remaining(ys, rejected)
  {
    if xs == [] {
      assert xs + ys == ys;
    } else {
      assert (xs + ys)[1..] == xs[1..] + ys;
      RemainingSplits(xs[1..], ys, rejected);
      Regroup(if xs[0] in rejected then [] else [xs[0]], Remaining(xs[1..], rejected), Remaining(ys, rejected));
    }
  }

  lemma {:induction false} RemainingIs(candidates: seq<string>, rejected: seq<string>)
    ensures forall x :: x in Remaining(candidates, rejected) <==> x in candidates && x !in rejected
  {
    if candidates != [] {
      RemainingIs(candidates[1..], rejected);
      assert forall x :: x in candidates <==> x == candidates[0] || x in candidates[1..];
    }
  }

  // ---------------------------------------------------------------- the breaker stage

  datatype Sieved = Sieved(kept: seq<string>, rejected: seq<string>, breaker: Circuit.Endpoints)

  /** What the breaker and the probes know before the stage, and when it looks at each occurrence. */
  datatype Gate = Gate(config: Circuit.Config, breaker: Circuit.Endpoints, fleet: Probe.Fleet, clock: nat -> int)

  predicate Down(fleet: Probe.Fleet, id: string) { id in fleet && fleet[id].status == Probe.Offline }

  /** After the first `n` occurrences. Every occurrence asks the breaker, and an offline endpoint is turned
      away only after that. */
  function Sieve(g: Gate, candidates: seq<string>, n: nat): Sieved
    requires n <= |candidates|
  {
    if n == 0 then Sieved([], [], g.breaker)
    else
      var s, id, now := Sieve(g, candidates, n - 1), candidates[n - 1], g.clock(n - 1);
      var entry := Circuit.Lookup(s.breaker, id);
      var breaker := s.breaker[id := Circuit.AfterAllow(g.config, entry, now)];
      if Circuit.Allows(g.config, entry, now) && !Down(g.fleet, id)
      then Sieved(s.kept + [id], s.rejected, breaker)
      else Sieved(s.kept, s.rejected + [id], breaker)
  }

  /** The breaker lets occurrence `i` through, and its endpoint is not offline. */
  predicate Passes(g: Gate, candidates: seq<string>, i: nat)
    requires i < |candidates|
  {
    && Circuit.Allows(g.config, Circuit.Lookup(Sieve(g, candidates, i).breaker, candidates[i]), g.clock(i))
    && !Down(g.fleet, candidates[i])
  }

  /** An endpoint is rejected exactly when some occurrence of it does not pass. */
  lemma {:induction false} SieveRejects(g: Gate, candidates: seq<string>, n: nat, id: string)
    requires n <= |candidates|
    ensures id in Sieve(g, candidates, n).rejected <==>
      exists i :: 0 <= i < n && candidates[i] == id && !Passes(g, candidates, i)
  {
    if n > 0 {
      SieveRejects(g, candidates, n - 1, id);
      if candidates[n - 1] == id && !Passes(g, candidates, n - 1) {
        assert id in Sieve(g, candidates, n).rejected;
      }
    }
  }

  /** What remains after the stage is what remains of all that were produced. */
  lemma {:induction false} SieveRemaining(g: Gate, candidates: seq<string>, n: nat, rejected: seq<string>)
    requires n <= |candidates|
    requires forall x :: x in Sieve(g, candidates, n).rejected ==> x in rejected
    ensures Remaining(Sieve(g, candidates, n).kept, rejected) == Remaining(candidates[..n], rejected)
  {
    if n > 0 {
      var s, last := Sieve(g, candidates, n - 1), candidates[n - 1];
      SieveRemaining(g, candidates, n - 1, rejected);
      assert candidates[..n] == candidates[..n - 1] + [last];
      RemainingSplits(candidates[..n - 1], [last], rejected);
      RemainingSplits(s.kept, [last], rejected);
      if !Passes(g, candidates, n - 1) {
        assert last in Sieve(g, candidates, n).rejected;
        assert Remaining([last], rejected) == [];
      }
    }
  }

  /** Positions in ascending order. */
  ghost predicate Rising(at: seq<nat>) { forall k, l :: 0 <= k < l < |at| ==> at[k] < at[l] }

  /** What the stage keeps: the occurrences that pass, each once, in their order. */
  lemma {:induction false} SieveKeeps(g: Gate, candidates: seq<string>, n: nat) returns (at: seq<nat>)
    requires n <= |candidates|
    ensures Rising(at) && (forall k :: 0 <= k < |at| ==> at[k] < n)
    ensures forall i :: 0 <= i < n ==> (i in at <==> Passes(g, candidates, i))
    ensures var kept := Sieve(g, candidates, n).kept;
      |kept| == |at| && forall k :: 0 <= k < |at| ==> kept[k] == candidates[at[k]]
    ensures |Sieve(g, candidates, n).rejected| == n - |at|
  {
    hide Passes;
    if n == 0 {
      at := [];
    } else {
      at := SieveKeeps(g, candidates, n - 1);
      SieveOne(g, candidates, n);
      assert forall k :: 0 <= k < |at| ==> at[k] in at;
      if Passes(g, candidates, n - 1) {
        at := at + [n - 1];
      }
    }
  }

  lemma SieveOne(g: Gate, candidates: seq<string>, n: nat)
    requires 0 < n <= |candidates|
    ensures var s, was, id := Sieve(g, candidates, n), Sieve(g, candidates, n - 1), candidates[n - 1];
      if Passes(g, candidates, n - 1) then s.kept == was.kept + [id] && s.rejected == was.rejected
      else s.kept == was.kept && s.rejected == was.rejected + [id]
  {
  }

  // ---------------------------------------------------------------- repeated candidates

  function Occurrences(candidates: seq<string>, id: string, n: nat): nat
    requires n <= |candidates|
  {
    if n == 0 then 0 else Occurrences(candidates, id, n - 1) + (if candidates[n - 1] == id then 1 else 0)
  }

  function First(candidates: seq<string>, id: string): nat
    requires id in candidates
    ensures First(candidates, id) < |candidates| && candidates[First(candidates, id)] == id
    ensures forall i :: 0 <= i < First(candidates, id) ==> candidates[i] != id
  {
    if candidates[0] == id then 0 else 1 + First(candidates[1..], id)
  }

  /** How many occurrences an endpoint may have: a closed one any number, one that recovers a whole episode of
      probes, a half-open one what is left of its episode, any other none. */
  predicate Room(c: Circuit.Config, e: Circuit.Endpoint, now: int, k: nat)
  {
    match e.state
    case Closed => true
    case Open => Circuit.Recovered(c, e, now) && k <= c.Probes()
    case HalfOpen => e.halfOpenCalls + k <= c.halfOpenMaxCalls
  }

  /** The breaker's entry after `k` occurrences of an endpoint that is closed, half-open or recovers. */
  function Asked(c: Circuit.Config, e: Circuit.Endpoint, k: nat): Circuit.Endpoint
  {
    if k == 0 then e
    else match e.state
      case Closed => e
      case Open => e.(state := Circuit.HalfOpen, halfOpenCalls := if k <= c.Probes() then k else c.Probes())
      case HalfOpen =>
        if e.halfOpenCalls >= c.halfOpenMaxCalls then e
        else e.(halfOpenCalls :=
          if e.halfOpenCalls + k <= c.halfOpenMaxCalls then e.halfOpenCalls + k else c.halfOpenMaxCalls)
  }

  lemma AskedOnce(c: Circuit.Config, e: Circuit.Endpoint, k: nat, first: int, now: int)
    requires e.state == Circuit.Open ==> Circuit.Recovered(c, e, first)
    requires k == 0 ==> now == first
    ensures Circuit.AfterAllow(c, Asked(c, e, k), now) == Asked(c, e, k + 1)
    ensures Room(c, e, first, k + 1) <==> Room(c, e, first, k) && Circuit.Allows(c, Asked(c, e, k), now)
  {
  }

  /** Before the first occurrence; and an open endpoint that does not recover has no room for one. */
  lemma AskedNever(c: Circuit.Config, e: Circuit.Endpoint, now: int)
    ensures Asked(c, e, 0) == e
    ensures e.state == Circuit.Open && !Circuit.Recovered(c, e, now) ==>
      !Circuit.Allows(c, e, now) && forall k: nat :: !Room(c, e, now, k)
    ensures Room(c, e, now, 1) <==> Circuit.Allows(c, e, now)
  {
  }

  /** An endpoint comes through the stage exactly when it is not offline and the breaker has room for all of
      its occurrences; the time of the first decides. */
  lemma {:induction false} SieveByRoom(g: Gate, candidates: seq<string>, n: nat, id: string)
    requires n <= |candidates| && id in candidates
    ensures var e, first := Circuit.Lookup(g.breaker, id), First(candidates, id);
      var k, s := Occurrences(candidates, id, n), Sieve(g, candidates, n);
      && (k > 0 <==> first < n)
      && (id in s.rejected <==> k > 0 && (Down(g.fleet, id) || !Room(g.config, e, g.clock(first), k)))
      && (k == 0 || e.state != Circuit.Open || Circuit.Recovered(g.config, e, g.clock(first)) ==>
            Circuit.Lookup(s.breaker, id) == Asked(g.config, e, k))
  {
    hide Circuit.AfterAllow, Circuit.Allows, Asked, Room, First, Down;
    AskedNever(g.config, Circuit.Lookup(g.breaker, id), g.clock(First(candidates, id)));
    if n > 0 {
      SieveByRoom(g, candidates, n - 1, id);
      if candidates[n - 1] == id {
        var e, first := Circuit.Lookup(g.breaker, id), First(candidates, id);
        var k := Occurrences(candidates, id, n - 1);
        if e.state != Circuit.Open || Circuit.Recovered(g.config, e, g.clock(first)) {
          AskedOnce(g.config, e, k, g.clock(first), g.clock(n - 1));
        }
      }
    }
  }

  ghost predicate OnlyAsks(run: seq<Circuit.Event>) { forall i :: 0 <= i < |run| ==> run[i].Allow? }

  lemma {:induction false} NothingPasses(c: Circuit.Config, e: Circuit.Endpoint, run: seq<Circuit.Event>)
    requires e.state == Circuit.HalfOpen && e.halfOpenCalls >= c.halfOpenMaxCalls && OnlyAsks(run)
    ensures Circuit.Passed(c, e, run) == 0
    decreases run
  {
    if run != [] {
      NothingPasses(c, e, run[1..]);
    }
  }

  /** An endpoint that recovers but is produced more often than its episode has probes spends them all in one
      routing without being selectable, and nothing passes afterwards until an outcome is recorded. */
  lemma RepeatsWedge(g: Gate, candidates: seq<string>, id: string, later: seq<Circuit.Event>)
    requires id in candidates && Circuit.Lookup(g.breaker, id).state == Circuit.Open
    requires Circuit.Recovered(g.config, Circuit.Lookup(g.breaker, id), g.clock(First(candidates, id)))
    requires Occurrences(candidates, id, |candidates|) > g.config.Probes() && OnlyAsks(later)
    ensures var s := Sieve(g, candidates, |candidates|);
      id in s.rejected && Circuit.Passed(g.config, Circuit.Lookup(s.breaker, id), later) == 0
  {
    hide Sieve, Circuit.Passed;
    SieveByRoom(g, candidates, |candidates|, id);
    NothingPasses(g.config, Circuit.Lookup(Sieve(g, candidates, |candidates|).breaker, id), later);
  }

  // ---------------------------------------------------------------- what the plumber produced

  /** The destinations that remain are those of the rules whose destination remains. */
  lemma {:induction false} RemainingRules(rules: seq<Plumber.Rule>, rejected: seq<string>)
    ensures Remaining(Plumber.Destinations(rules), rejected) ==
      Plumber.Destinations(Plumber.Keep(rules, Selectable(rejected)))
  {
    if rules != [] {
      var rest := rules[1..];
      RemainingRules(rest, rejected);
      var head := if Selectable(rejected)(rules[0]) then [rules[0]] else [];
      Plumber.DestinationsSplit(head, Plumber.Keep(rest, Selectable(rejected)));
      assert Plumber.Destinations(rules)[1..] == Plumber.Destinations(rest);
    }
  }

  function Selectable(rejected: seq<string>): Plumber.Rule -> bool { (r: Plumber.Rule) => r.destination !in rejected }

  /** A rule that matches and whose destination was not rejected. */
  predicate Eligible(regex: Plumber.Regex, r: Plumber.Rule, msg: Message, rejected: seq<string>)
  {
    Plumber.Matches(regex, r, msg) && r.destination !in rejected
  }

  /** The first destination that remains is that of the eligible rule with the highest priority, and of those
      the one added first. */
  lemma FirstRemaining(regex: Plumber.Regex, added: seq<Plumber.Rule>, msg: Message, rejected: seq<string>)
    returns (i: nat)
    requires Remaining(Plumber.Routed(regex, added, msg), rejected) != []
    requires exists r :: r in added && Plumber.Matches(regex, r, msg)
    ensures i < |added| && Eligible(regex, added[i], msg, rejected)
    ensures Remaining(Plumber.Routed(regex, added, msg), rejected)[0] == added[i].destination
    ensures forall j :: 0 <= j < |added| && Eligible(regex, added[j], msg, rejected) ==>
      added[j].priority < added[i].priority || (added[j].priority == added[i].priority && i <= j)
  {
    hide Plumber.Ranked, Plumber.Matches, Remaining;
    var wanted, open := Plumber.Matching(regex, msg), Selectable(rejected);
    var matching := Plumber.Keep(added, wanted);
    Plumber.KeepIs(added, wanted);
    var r :| r in added && Plumber.Matches(regex, r, msg);
    assert wanted(r);
    var k := Plumber.FirstRanked(matching);
    RemainingRules(Plumber.Ranked(matching), rejected);
    Plumber.KeepRanked(matching, open);
    var eligible := Plumber.Keep(matching, open);
    if eligible == [] {
      assert Plumber.Ranked(eligible) == [] by { RankedNothing(); }
    }
    var e := Plumber.FirstRanked(eligible);
    KeepTwice(added, wanted, open);
    i := KeptFrom(added, Both(wanted, open), e);
    forall j | 0 <= j < |added| && Eligible(regex, added[j], msg, rejected)
      ensures added[j].priority < added[i].priority || (added[j].priority == added[i].priority && i <= j)
    {
      assert Both(wanted, open)(added[j]);
    }
  }

  lemma RankedNothing()
    ensures Plumber.Ranked([]) == []
  {
  }

  function Both(f: Plumber.Rule -> bool, g: Plumber.Rule -> bool): Plumber.Rule -> bool { r => f(r) && g(r) }

  lemma {:induction false} KeepTwice(rules: seq<Plumber.Rule>, f: Plumber.Rule -> bool, g: Plumber.Rule -> bool)
    ensures Plumber.Keep(Plumber.Keep(rules, f), g) == Plumber.Keep(rules, Both(f, g))
  {
    if rules != [] {
      var rest := rules[1..];
      KeepTwice(rest, f, g);
      Plumber.KeepSplits(if f(rules[0]) then [rules[0]] else [], Plumber.Keep(rest, f), g);
    }
  }

  /** The foremost of the wanted rules. */
  ghost predicate ForemostWanted(rules: seq<Plumber.Rule>, wanted: Plumber.Rule -> bool, i: nat)
  {
    && i < |rules| && wanted(rules[i])
    && forall j :: 0 <= j < |rules| && wanted(rules[j]) ==>
      rules[j].priority < rules[i].priority || (rules[j].priority == rules[i].priority && i <= j)
  }

  /** Where the foremost of the kept rules stood. */
  lemma {:induction false} KeptFrom(rules: seq<Plumber.Rule>, wanted: Plumber.Rule -> bool, e: nat) returns (i: nat)
    requires Plumber.Foremost(Plumber.Keep(rules, wanted), e)
    ensures ForemostWanted(rules, wanted, i) && rules[i] == Plumber.Keep(rules, wanted)[e]
  {
    hide Plumber.Foremost, ForemostWanted, Plumber.Keep;
    KeepBound(rules, wanted, e);
    KeepRest(rules, wanted);
    if wanted(rules[0]) && e == 0 {
      i := 0;
      KeptHead(rules, wanted);
    } else {
      var skipped := if wanted(rules[0]) then 1 else 0;
      ForemostRest(Plumber.Keep(rules, wanted), Plumber.Keep(rules[1..], wanted), e, skipped);
      i := KeptFrom(rules[1..], wanted, e - skipped);
      KeptTail(rules, wanted, e, i);
      i := i + 1;
    }
  }

  lemma KeepBound(rules: seq<Plumber.Rule>, wanted: Plumber.Rule -> bool, e: nat)
    requires Plumber.Foremost(Plumber.Keep(rules, wanted), e)
    ensures rules != [] && e < |Plumber.Keep(rules, wanted)|
  {
  }

  lemma KeepRest(rules: seq<Plumber.Rule>, wanted: Plumber.Rule -> bool)
    requires rules != []
    ensures var kept, skipped := Plumber.Keep(rules, wanted), if wanted(rules[0]) then 1 else 0;
      skipped <= |kept| && Plumber.Keep(rules[1..], wanted) == kept[skipped..]
  {
  }

  lemma KeptHead(rules: seq<Plumber.Rule>, wanted: Plumber.Rule -> bool)
    requires rules != [] && wanted(rules[0]) && Plumber.Foremost(Plumber.Keep(rules, wanted), 0)
    ensures ForemostWanted(rules, wanted, 0) && Plumber.Keep(rules, wanted)[0] == rules[0]
  {
    Plumber.KeepIs(rules, wanted);
    var kept := Plumber.Keep(rules, wanted);
    assert kept[0] == rules[0];
    forall j | 0 <= j < |rules| && wanted(rules[j]) ensures rules[j].priority <= rules[0].priority {
      assert rules[j] in kept;
      var k :| 0 <= k < |kept| && kept[k] == rules[j];
    }
  }

  lemma KeptTail(rules: seq<Plumber.Rule>, wanted: Plumber.Rule -> bool, e: nat, i: nat)
    requires rules != [] && ForemostWanted(rules[1..], wanted, i)
    requires Plumber.Foremost(Plumber.Keep(rules, wanted), e)
    requires rules[1..][i] == Plumber.Keep(rules, wanted)[e] && (wanted(rules[0]) ==> e > 0)
    ensures ForemostWanted(rules, wanted, i + 1) && rules[i + 1] == Plumber.Keep(rules, wanted)[e]
  {
    var rest, kept := rules[1..], Plumber.Keep(rules, wanted);
    assert rest[i] == rules[i + 1];
    if wanted(rules[0]) {
      assert kept[0] == rules[0];
      assert kept[0].priority < kept[e].priority;
    }
    forall j | 1 <= j < |rules| && wanted(rules[j])
      ensures rules[j].priority < rules[i + 1].priority || (rules[j].priority == rules[i + 1].priority && i + 1 <= j)
    {
      assert rest[j - 1] == rules[j];
    }
  }

  lemma ForemostRest(all: seq<Plumber.Rule>, rest: seq<Plumber.Rule>, e: nat, skipped: nat)
    requires Plumber.Foremost(all, e) && skipped <= e && skipped <= |all| && rest == all[skipped..]
    ensures Plumber.Foremost(rest, e - skipped)
  {
    forall j | 0 <= j < |rest| ensures rest[j] == all[j + skipped] {
    }
  }
}
