/** The routing pipeline (src/router.rs): its stages over a shared context, and what they select. The wording
    of explanations is not modelled. */
module Router {
  import opened Messages
  import opened Options
  import opened Routing
  import Circuit
  import Plumber
  import Probe
  import QuantumRouter
  import QuantumState

  datatype Stage = McpStage | PlumberStage | CircuitStage | QuantumStage | FallbackStage

  datatype Context = Context(candidates: seq<string>, selected: Option<string>, rejected: seq<string>)

  const START := Context([], None, [])

  /** What changes during a route besides the context. */
  datatype World = World(breaker: Circuit.Endpoints, memory: QuantumRouter.Memory)

  const FORGETFUL := QuantumRouter.Memory(map[], map[], map[])

  /** What does not: rules, configuration, healths, and the clock. */
  datatype Setting = Setting(
    mcp: Mcp,
    regex: Plumber.Regex,
    added: seq<Plumber.Rule>,
    circuit: Option<Circuit.Config>,
    fleet: Probe.Fleet,
    clock: nat -> int,
    quantum: Option<(QuantumState.Libm, QuantumRouter.Config)>,
    now: int)
  {
    ghost predicate Fits(stages: seq<Stage>)
    {
      && (CircuitStage in stages ==> circuit.Some?)
      && (QuantumStage in stages ==> quantum.Some? && quantum.value.0.Sound())
    }
  }

  // ---------------------------------------------------------------- stages

  datatype Step = Step(world: World, context: Context, done: bool)

  ghost predicate StageFits(s: Setting, stage: Stage)
  {
    && (stage == CircuitStage ==> s.circuit.Some?)
    && (stage == QuantumStage ==> s.quantum.Some? && s.quantum.value.0.Sound())
  }

  function GateOf(s: Setting, w: World): Gate
    requires s.circuit.Some?
  {
    Gate(s.circuit.value, w.breaker, s.fleet, s.clock)
  }

  /** One stage; `choice` is the draw of the quantum stage, the only one that is not determined. */
  function After(s: Setting, stage: Stage, msg: Message, w: World, x: Context, choice: string): Step
    requires StageFits(s, stage)
  {
    match stage
    case McpStage =>
      (match McpTarget(s.mcp, msg)
       case Some(endpoint) => Step(w, x.(selected := Some(endpoint)), true)
       case None => Step(w, x, false))
    case PlumberStage => Step(w, x.(candidates := Plumber.Routed(s.regex, s.added, msg)), false)
    case CircuitStage =>
      var sieved := Sieve(GateOf(s, w), x.candidates, |x.candidates|);
      Step(w.(breaker := sieved.breaker),
           x.(candidates := sieved.kept, rejected := x.rejected + sieved.rejected), false)
    case QuantumStage =>
      var open := Remaining(x.candidates, x.rejected);
      if open == [] then Step(w, x, false)
      else
        var action := QuantumRouter.Route(msg.conversationId, open, choice, s.now);
        Step(w.(memory := QuantumRouter.Act(s.quantum.value.0, s.quantum.value.1, w.memory, action)),
             x.(selected := Some(choice)), true)
    case FallbackStage =>
      var open := Remaining(x.candidates, x.rejected);
      if open == [] then Step(w, x, false) else Step(w, x.(selected := Some(open[0])), true)
  }

  /** The stages in turn, up to the first that is final. */
  function Ran(s: Setting, stages: seq<Stage>, msg: Message, w: World, x: Context, choice: string): Step
    requires s.Fits(stages)
    decreases stages
  {
    if stages == [] then Step(w, x, false)
    else
      var step := After(s, stages[0], msg, w, x, choice);
      if step.done then step else Ran(s, stages[1..], msg, step.world, step.context, choice)
  }

  /** The quantum stage draws one of the candidates that remain. */
  ghost predicate Legal(s: Setting, stages: seq<Stage>, msg: Message, w: World, x: Context, choice: string)
    requires s.Fits(stages)
    decreases stages
  {
    stages == [] ||
    var step := After(s, stages[0], msg, w, x, choice);
    && (stages[0] == QuantumStage && step.done ==> choice in Remaining(x.candidates, x.rejected))
    && (step.done || Legal(s, stages[1..], msg, step.world, step.context, choice))
  }

  /** The rest of a run, from one of its middle states. */
  ghost predicate Reaches(s: Setting, stages: seq<Stage>, msg: Message, w: World, x: Context,
                          i: nat, w': World, x': Context)
    requires i <= |stages| && s.Fits(stages)
  {
    && s.Fits(stages[i..])
    && (forall c :: Ran(s, stages, msg, w, x, c) == Ran(s, stages[i..], msg, w', x', c))
    && (forall c :: Legal(s, stages[i..], msg, w', x', c) ==> Legal(s, stages, msg, w, x, c))
  }

  /** A stage that is not final is the same for every draw. */
  lemma ReachesNext(s: Setting, stages: seq<Stage>, msg: Message, w: World, x: Context,
                    i: nat, w': World, x': Context, choice: string)
    requires i < |stages| && s.Fits(stages) && Reaches(s, stages, msg, w, x, i, w', x')
    ensures StageFits(s, stages[i])
    ensures var step := After(s, stages[i], msg, w', x', choice);
      && (!step.done ==> Reaches(s, stages, msg, w, x, i + 1, step.world, step.context))
      && (step.done && (stages[i] == QuantumStage ==> choice in Remaining(x'.candidates, x'.rejected)) ==>
            Ran(s, stages, msg, w, x, choice) == step && Legal(s, stages, msg, w, x, choice))
  {
    hide Sieve, Remaining, Plumber.Routed, McpTarget, QuantumRouter.Act;
    var rest := stages[i..];
    assert rest[1..] == stages[i + 1..] && rest[0] == stages[i];
    var step := After(s, stages[i], msg, w', x', choice);
    forall c ensures !step.done ==> After(s, stages[i], msg, w', x', c) == step {
    }
    assert Ran(s, stages, msg, w, x, choice) == Ran(s, rest, msg, w', x', choice);
    assert Legal(s, rest, msg, w', x', choice) ==> Legal(s, stages, msg, w, x, choice);
  }

  lemma ReachesStart(s: Setting, stages: seq<Stage>, msg: Message, w: World, x: Context)
    requires s.Fits(stages)
    ensures Reaches(s, stages, msg, w, x, 0, w, x)
  {
    assert stages[0..] == stages;
  }

  lemma ReachesEnd(s: Setting, stages: seq<Stage>, msg: Message, w: World, x: Context,
                   w': World, x': Context, choice: string)
    requires s.Fits(stages) && Reaches(s, stages, msg, w, x, |stages|, w', x')
    ensures Ran(s, stages, msg, w, x, choice) == Step(w', x', false) && Legal(s, stages, msg, w, x, choice)
  {
    assert stages[|stages|..] == [];
    assert Ran(s, stages, msg, w, x, choice) == Ran(s, [], msg, w', x', choice);
    assert Legal(s, [], msg, w', x', choice);
  }

  function DefaultStages(circuit: bool, quantum: bool): seq<Stage>
  {
    [McpStage, PlumberStage] + (if circuit then [CircuitStage] else []) + (if quantum then [QuantumStage] else [])
      + [FallbackStage]
  }

  // ---------------------------------------------------------------- the default pipeline

  function Produced(s: Setting, msg: Message): seq<string> { Plumber.Routed(s.regex, s.added, msg) }

  /** Nothing is rejected and no breaker asked where there is no circuit stage. */
  function SievedBy(s: Setting, msg: Message, w: World): Sieved
  {
    if s.circuit.Some? then Sieve(GateOf(s, w), Produced(s, msg), |Produced(s, msg)|)
    else Sieved(Produced(s, msg), [], w.breaker)
  }

  /** The destinations the plumber produced of which no occurrence was rejected. */
  function Available(s: Setting, msg: Message, w: World): seq<string>
  {
    Remaining(Produced(s, msg), SievedBy(s, msg, w).rejected)
  }

  ghost predicate Configured(s: Setting) { s.quantum.Some? ==> s.quantum.value.0.Sound() }

  lemma DefaultFits(s: Setting)
    requires Configured(s)
    ensures s.Fits(DefaultStages(s.circuit.Some?, s.quantum.Some?))
  {
  }

  /** An MCP tool call that somebody serves goes there and touches nothing else. */
  lemma McpFires(s: Setting, msg: Message, w: World, choice: string)
    requires Configured(s) && McpTarget(s.mcp, msg).Some?
    ensures s.Fits(DefaultStages(s.circuit.Some?, s.quantum.Some?))
    ensures var r := Ran(s, DefaultStages(s.circuit.Some?, s.quantum.Some?), msg, w, START, choice);
      r.world == w && r.context == START.(selected := McpTarget(s.mcp, msg))
  {
  }

  /** For instance, whatever the plumber would make of it. */
  lemma ToolCallIsServed(s: Setting, msg: Message, w: World, choice: string, tool: string)
    requires Configured(s) && AsksFor(s.mcp, msg, tool) && tool in s.mcp.toolIndex
    ensures s.Fits(DefaultStages(s.circuit.Some?, s.quantum.Some?))
    ensures var r := Ran(s, DefaultStages(s.circuit.Some?, s.quantum.Some?), msg, w, START, choice);
      r.world == w && r.context.selected == Some(s.mcp.toolIndex[tool])
  {
    McpTargetExactly(s.mcp, msg, s.mcp.toolIndex[tool]);
    McpFires(s, msg, w, choice);
  }

  /** Any other message: what is selected is available, and nothing is selected exactly when nothing is. With
      no quantum stage it is the first that is available. */
  lemma SelectsAvailable(s: Setting, msg: Message, w: World, choice: string)
    requires Configured(s) && McpTarget(s.mcp, msg) == None
    requires s.Fits(DefaultStages(s.circuit.Some?, s.quantum.Some?))
    requires Legal(s, DefaultStages(s.circuit.Some?, s.quantum.Some?), msg, w, START, choice)
    ensures var r := Ran(s, DefaultStages(s.circuit.Some?, s.quantum.Some?), msg, w, START, choice);
      && (r.context.selected == None <==> Available(s, msg, w) == [])
      && (r.context.selected.Some? ==> r.context.selected.value in Available(s, msg, w))
      && (r.context.selected.Some? && s.quantum == None ==> r.context.selected.value == Available(s, msg, w)[0])
      && r.world.breaker == SievedBy(s, msg, w).breaker
      && r.context.rejected == SievedBy(s, msg, w).rejected
      && r.context.candidates == SievedBy(s, msg, w).kept
  {
    hide Remaining, Sieve, Plumber.Routed, QuantumRouter.Act, McpTarget;
    var stages := DefaultStages(s.circuit.Some?, s.quantum.Some?);
    var produced := START.(candidates := Produced(s, msg));
    var rest := stages[2..];
    assert stages[1..][1..] == rest;
    assert Ran(s, stages, msg, w, START, choice) == Ran(s, rest, msg, w, produced, choice);
    assert Legal(s, rest, msg, w, produced, choice);
    if s.circuit.Some? {
      var g := GateOf(s, w);
      var n := |produced.candidates|;
      var sieved := Sieve(g, produced.candidates, n);
      SieveRemaining(g, produced.candidates, n, sieved.rejected);
      assert produced.candidates[..n] == produced.candidates && [] + sieved.rejected == sieved.rejected;
      var after := Context(sieved.kept, None, sieved.rejected);
      var last := rest[1..];
      assert Ran(s, rest, msg, w, produced, choice) == Ran(s, last, msg, w.(breaker := sieved.breaker), after, choice);
      assert Legal(s, last, msg, w.(breaker := sieved.breaker), after, choice);
      LastStages(s, last, msg, w.(breaker := sieved.breaker), after, choice);
    } else {
      LastStages(s, rest, msg, w, produced, choice);
    }
  }

  /** The tail of the pipeline, with the quantum stage or without. */
  lemma LastStages(s: Setting, stages: seq<Stage>, msg: Message, w: World, x: Context, choice: string)
    requires stages == if s.quantum.Some? then [QuantumStage, FallbackStage] else [FallbackStage]
    requires s.Fits(stages) && Legal(s, stages, msg, w, x, choice) && x.selected == None
    ensures var r, open := Ran(s, stages, msg, w, x, choice), Remaining(x.candidates, x.rejected);
      && (r.context.selected == None <==> open == [])
      && (r.context.selected.Some? ==> r.context.selected.value in open)
      && (r.context.selected.Some? && s.quantum == None ==> r.context.selected.value == open[0])
      && r.world.breaker == w.breaker && r.context.rejected == x.rejected && r.context.candidates == x.candidates
  {
    hide Remaining, QuantumRouter.Act;
    if s.quantum.Some? {
      assert stages[1..] == [FallbackStage] && [FallbackStage][1..] == [];
    } else {
      assert stages[1..] == [];
    }
  }

  /** An available endpoint was produced, and every occurrence of it passed the breaker and was not offline;
      one that is not available has an occurrence that did not. */
  lemma AvailableExactly(s: Setting, msg: Message, w: World, id: string)
    requires s.circuit.Some?
    ensures id in Available(s, msg, w) <==>
      && id in Produced(s, msg)
      && forall i :: 0 <= i < |Produced(s, msg)| && Produced(s, msg)[i] == id ==>
           Passes(GateOf(s, w), Produced(s, msg), i)
  {
    hide Passes, Sieve, Remaining, Plumber.Routed;
    RemainingIs(Produced(s, msg), SievedBy(s, msg, w).rejected);
    SieveRejects(GateOf(s, w), Produced(s, msg), |Produced(s, msg)|, id);
  }

  /** An endpoint is available exactly when it is produced, not offline, and the breaker has room for as many
      calls as there are occurrences of it. */
  lemma AvailableByRoom(s: Setting, msg: Message, w: World, id: string)
    requires s.circuit.Some?
    ensures id in Available(s, msg, w) <==>
      && id in Produced(s, msg) && !(id in s.fleet && s.fleet[id].status == Probe.Offline)
      && Room(s.circuit.value, Circuit.Lookup(w.breaker, id), s.clock(First(Produced(s, msg), id)),
              Occurrences(Produced(s, msg), id, |Produced(s, msg)|))
  {
    hide Sieve, Remaining, Plumber.Routed, Room, Occurrences;
    var produced := Produced(s, msg);
    RemainingIs(produced, SievedBy(s, msg, w).rejected);
    if id in produced {
      SieveByRoom(GateOf(s, w), produced, |produced|, id);
    }
  }

  /** An endpoint that neither the breaker nor the probes have heard of is available however often it is
      produced. */
  lemma AvailableUnseen(s: Setting, msg: Message, w: World, id: string)
    requires s.circuit.Some? && id in Produced(s, msg) && id !in w.breaker && id !in s.fleet
    ensures id in Available(s, msg, w)
  {
    hide Available, Produced;
    AvailableByRoom(s, msg, w, id);
  }

  /** Without a breaker everything produced is available, so something always is. */
  lemma AvailableWithoutBreaker(s: Setting, msg: Message, w: World)
    requires s.circuit == None
    ensures Available(s, msg, w) == Produced(s, msg) != []
  {
    NothingRejected(Produced(s, msg));
  }

  lemma {:induction false} NothingRejected(candidates: seq<string>)
    ensures Remaining(candidates, []) == candidates
  {
    if candidates != [] {
      NothingRejected(candidates[1..]);
    }
  }

  /** With and without the quantum stage, a message finds a destination in the same situations, and among the
      same available ones. */
  lemma QuantumAgreesWithFallback(s: Setting, msg: Message, w: World, choice: string)
    requires Configured(s) && s.quantum.Some? && McpTarget(s.mcp, msg) == None
    requires s.Fits(DefaultStages(s.circuit.Some?, true))
    requires Legal(s, DefaultStages(s.circuit.Some?, true), msg, w, START, choice)
    ensures var plain := s.(quantum := None);
      && plain.Fits(DefaultStages(s.circuit.Some?, false))
      && var drawn := Ran(s, DefaultStages(s.circuit.Some?, true), msg, w, START, choice);
         var first := Ran(plain, DefaultStages(s.circuit.Some?, false), msg, w, START, choice);
      && (drawn.context.selected == None <==> first.context.selected == None)
      && drawn.world.breaker == first.world.breaker && drawn.context.rejected == first.context.rejected
      && (drawn.context.selected.Some? ==>
            && drawn.context.selected.value in Available(s, msg, w)
            && first.context.selected.value in Available(s, msg, w))
  {
    hide Available, SievedBy, McpTarget, Ran, Legal;
    var plain := s.(quantum := None);
    DefaultFits(plain);
    SelectsAvailable(s, msg, w, choice);
    PlainLegal(plain, msg, w, choice);
    SelectsAvailable(plain, msg, w, choice);
    SameAvailable(s, msg, w);
  }

  lemma SameAvailable(s: Setting, msg: Message, w: World)
    ensures SievedBy(s.(quantum := None), msg, w) == SievedBy(s, msg, w)
    ensures Available(s.(quantum := None), msg, w) == Available(s, msg, w)
  {
  }

  lemma PlainLegal(s: Setting, msg: Message, w: World, choice: string)
    requires s.quantum == None && s.Fits(DefaultStages(s.circuit.Some?, false))
    ensures Legal(s, DefaultStages(s.circuit.Some?, false), msg, w, START, choice)
  {
    NoQuantumLegal(s, DefaultStages(s.circuit.Some?, false), msg, w, START, choice);
  }

  lemma {:induction false} NoQuantumLegal(s: Setting, stages: seq<Stage>, msg: Message, w: World, x: Context,
                                          choice: string)
    requires s.Fits(stages) && QuantumStage !in stages
    ensures Legal(s, stages, msg, w, x, choice)
    decreases stages
  {
    hide After;
    if stages != [] {
      var step := After(s, stages[0], msg, w, x, choice);
      NoQuantumLegal(s, stages[1..], msg, step.world, step.context, choice);
    }
  }

  /** Without the quantum stage the pipeline picks the destination of the eligible rule with the highest
      priority, the first added among equals. */
  lemma FallbackPicks(s: Setting, msg: Message, w: World, choice: string) returns (i: nat)
    requires s.quantum == None && McpTarget(s.mcp, msg) == None && Available(s, msg, w) != []
    requires exists r :: r in s.added && Plumber.Matches(s.regex, r, msg)
    requires s.Fits(DefaultStages(s.circuit.Some?, false))
    ensures var rejected := SievedBy(s, msg, w).rejected;
      && i < |s.added| && Eligible(s.regex, s.added[i], msg, rejected)
      && Ran(s, DefaultStages(s.circuit.Some?, false), msg, w, START, choice).context.selected ==
           Some(s.added[i].destination)
      && forall j :: 0 <= j < |s.added| && Eligible(s.regex, s.added[j], msg, rejected) ==>
        s.added[j].priority < s.added[i].priority || (s.added[j].priority == s.added[i].priority && i <= j)
  {
    hide McpTarget, Ran, Legal, Sieve, Eligible, Plumber.Routed;
    PlainLegal(s, msg, w, choice);
    SelectsAvailable(s, msg, w, choice);
    i := FirstRemaining(s.regex, s.added, msg, SievedBy(s, msg, w).rejected);
  }

  // ---------------------------------------------------------------- the pipeline

  class RoutingContext {
    var candidates: seq<string>
    var selected: Option<string>
    var rejected: seq<string>

    constructor (candidates: seq<string>)
      ensures View() == Context(candidates, None, [])
    {
      this.candidates := candidates;
      selected := None;
      rejected := [];
    }

    ghost function View(): Context
      reads this
    {
      Context(candidates, selected, rejected)
    }
  }

  datatype Decision = Decision(selected: Option<string>, candidates: seq<string>)

  class RoutingPipeline {
    const mcp: Mcp
    const plumber: Plumber.Plumber
    const circuit: Option<Circuit.CircuitBreaker>
    const probes: Probe.ProbeEngine
    const quantum: Option<QuantumRouter.QuantumRouter>
    const stages: seq<Stage>

    ghost function Repr(): set<object>
      reads this
      reads if quantum.Some? then {quantum.value, quantum.value.state} else {}
    {
      (if circuit.Some? then {circuit.value} else {}) + (if quantum.Some? then quantum.value.Repr() else {})
    }

    ghost predicate Valid()
      reads this, plumber
      reads if quantum.Some? then {quantum.value, quantum.value.state} else {}
    {
      && plumber.Valid()
      && (quantum.Some? ==> quantum.value.Valid())
      && (CircuitStage in stages ==> circuit.Some?)
      && (QuantumStage in stages ==> quantum.Some?)
    }

    ghost function Facts(clock: nat -> int, now: int): Setting
      reads plumber, probes
    {
      Setting(mcp, plumber.regex, plumber.added, if circuit.Some? then Some(circuit.value.config) else None,
        probes.Healths(), clock, if quantum.Some? then Some((quantum.value.l, quantum.value.config)) else None, now)
    }

    ghost function View(): World
      reads this, Repr()
      reads if quantum.Some? then {quantum.value, quantum.value.state} else {}
    {
      World(if circuit.Some? then circuit.value.state else map[],
            if quantum.Some? then quantum.value.View() else FORGETFUL)
    }

    /** The default pipeline. */
    constructor (mcp: Mcp, plumber: Plumber.Plumber, quantum: Option<QuantumRouter.QuantumRouter>,
                 circuit: Option<Circuit.CircuitBreaker>, probes: Probe.ProbeEngine)
      requires plumber.Valid() && (quantum.Some? ==> quantum.value.Valid())
      ensures Valid() && stages == DefaultStages(circuit.Some?, quantum.Some?)
      ensures this.mcp == mcp && this.plumber == plumber && this.quantum == quantum
      ensures this.circuit == circuit && this.probes == probes
    {
      this.mcp := mcp;
      this.plumber := plumber;
      this.quantum := quantum;
      this.circuit := circuit;
      this.probes := probes;
      var chosen := [McpStage];
      chosen := chosen + [PlumberStage];
      if circuit.Some? {
        chosen := chosen + [CircuitStage];
      }
      if quantum.Some? {
        chosen := chosen + [QuantumStage];
      }
      stages := chosen + [FallbackStage];
    }

    /** Each occurrence of a candidate asks the breaker; what does not pass is rejected. */
    method ApplyCircuit(x: RoutingContext, clock: nat -> int)
      requires Valid() && circuit.Some?
      modifies x, circuit.value
      ensures var sieved := Sieve(Gate(circuit.value.config, old(circuit.value.state), probes.Healths(), clock),
          old(x.candidates), |old(x.candidates)|);
        && x.View() == old(x.View()).(candidates := sieved.kept, rejected := old(x.rejected) + sieved.rejected)
        && circuit.value.state == sieved.breaker
    {
      hide Circuit.Allows, Circuit.AfterAllow;
      ghost var g := Gate(circuit.value.config, circuit.value.state, probes.Healths(), clock);
      var candidates := x.candidates;
      var kept := [];
      for i := 0 to |candidates|
        invariant circuit.value.state == Sieve(g, candidates, i).breaker && kept == Sieve(g, candidates, i).kept
        invariant x.rejected == old(x.rejected) + Sieve(g, candidates, i).rejected
        invariant x.selected == old(x.selected) && probes.Healths() == g.fleet
      {
        var id := candidates[i];
        var allowed := circuit.value.Allow(id, clock(i));
        if !allowed {
          x.rejected := x.rejected + [id];
        } else if id in probes.endpoints && probes.endpoints[id].health.status == Probe.Offline {
          x.rejected := x.rejected + [id];
        } else {
          kept := kept + [id];
        }
      }
      x.candidates := kept;
    }

    /** One of the candidates that remain, drawn by the quantum router. */
    method ApplyQuantum(msg: Message, x: RoutingContext, explore: bool, now: int) returns (done: bool)
      requires Valid() && quantum.Some?
      modifies x, quantum.value, quantum.value.state, quantum.value.state.Repr()
      ensures quantum.value.Valid() && fresh(quantum.value.Repr() - old(quantum.value.Repr()))
      ensures var open := old(Remaining(x.candidates, x.rejected));
        if open == [] then !done && x.View() == old(x.View()) && quantum.value.View() == old(quantum.value.View())
        else
          && done && x.selected.Some? && x.selected.value in open && x.View() == old(x.View()).(selected := x.selected)
          && quantum.value.View() == QuantumRouter.Act(quantum.value.l, quantum.value.config, old(quantum.value.View()),
               QuantumRouter.Route(msg.conversationId, open, x.selected.value, now))
    {
      hide QuantumRouter.Act;
      done := false;
      var open := Remaining(x.candidates, x.rejected);
      if open != [] {
        var selected := quantum.value.Choose(msg, open, explore, now);
        x.selected := selected;
        done := true;
      }
    }

    method ApplyFallback(x: RoutingContext) returns (done: bool)
      modifies x
      ensures var open := old(Remaining(x.candidates, x.rejected));
        done == (open != []) && x.View() == if done then old(x.View()).(selected := Some(open[0])) else old(x.View())
    {
      var open := Remaining(x.candidates, x.rejected);
      done := open != [];
      if done {
        x.selected := Some(open[0]);
      }
    }

    /** The stages that only touch the context. */
    method ApplyPure(stage: Stage, msg: Message, x: RoutingContext, clock: nat -> int, now: int) returns (done: bool)
      requires Valid() && stage != CircuitStage && stage != QuantumStage
      modifies x
      ensures forall w, choice ::
        After(Facts(clock, now), stage, msg, w, old(x.View()), choice) == Step(w, x.View(), done)
    {
      hide Remaining, Plumber.Routed;
      done := false;
      if stage == McpStage {
        var target := McpTarget(mcp, msg);
        if target.Some? {
          x.selected := target;
          done := true;
        }
      } else if stage == PlumberStage {
        x.candidates := plumber.Route(msg);
      } else {
        done := ApplyFallback(x);
      }
    }

    method Apply(stage: Stage, msg: Message, x: RoutingContext, clock: nat -> int, explore: bool, now: int)
      returns (done: bool, ghost choice: string)
      requires Valid() && stage in stages
      modifies x, Repr()
      ensures Valid() && fresh(Repr() - old(Repr())) && Facts(clock, now) == old(Facts(clock, now))
      ensures StageFits(Facts(clock, now), stage)
      ensures After(Facts(clock, now), stage, msg, old(View()), old(x.View()), choice) == Step(View(), x.View(), done)
      ensures stage == QuantumStage && done ==> choice in old(Remaining(x.candidates, x.rejected))
    {
      hide Sieve, Remaining, Plumber.Routed, QuantumRouter.Act;
      done, choice := false, "";
      if stage == CircuitStage {
        ApplyCircuit(x, clock);
      } else if stage == QuantumStage {
        done := ApplyQuantum(msg, x, explore, now);
        if done {
          choice := x.selected.value;
        }
      } else {
        done := ApplyPure(stage, msg, x, clock, now);
      }
    }

    /** The stages in turn until one is final. */
    method Route(msg: Message, clock: nat -> int, explore: bool, now: int)
      returns (decision: Decision, ghost choice: string)
      requires Valid()
      modifies Repr()
      ensures Valid() && fresh(Repr() - old(Repr()))
      ensures var s := old(Facts(clock, now));
        && s.Fits(stages) && Legal(s, stages, msg, old(View()), START, choice)
        && var r := Ran(s, stages, msg, old(View()), START, choice);
           View() == r.world && decision == Decision(r.context.selected, r.context.candidates)
    {
      hide After, Ran, Legal, Reaches, Remaining;
      ghost var s, w := Facts(clock, now), View();
      var x := new RoutingContext([]);
      choice := "";
      var done := false;
      var i := 0;
      ReachesStart(s, stages, msg, w, START);
      while i < |stages| && !done
        invariant 0 <= i <= |stages| && Valid() && fresh(x) && fresh(Repr() - old(Repr()))
        invariant Facts(clock, now) == s && s.Fits(stages)
        invariant !done ==> Reaches(s, stages, msg, w, START, i, View(), x.View())
        invariant done ==>
          && Ran(s, stages, msg, w, START, choice) == Step(View(), x.View(), true)
          && Legal(s, stages, msg, w, START, choice)
        decreases |stages| - i, !done
      {
        ghost var before, was := View(), x.View();
        done, choice := Apply(stages[i], msg, x, clock, explore, now);
        ReachesNext(s, stages, msg, w, START, i, before, was, choice);
        i := i + 1;
      }
      if !done {
        ReachesEnd(s, stages, msg, w, START, View(), x.View(), choice);
      }
      decision := Decision(x.selected, x.candidates);
    }
  }
}
