/** From a message to its delivery: the handlers that route and then deliver (src/net/transport.rs,
    src/daemon.rs, src/api.rs). */
module Handlers {
  import opened Custody
  import opened Messages
  import opened Options
  import opened Queue
  import opened Transport
  import Plumber
  import QuantumRouter
  import Router

  /** The steps deliver the message to whom the destination names, or there are none. */
  ghost predicate Delivers(s: State<Channel>, steps: seq<Step<Channel>>, sender: Sender, dest: string, msg: Message,
                           now: int)
  {
    match TargetAgent(dest)
    case None => steps == []
    case Some(id) => Sends(s, steps, sender, id, msg, now)
  }

  /** The plumber's destinations, of which the quantum router draws one and which are otherwise served in
      order; no breaker is asked. */
  method Pick(plumber: Plumber.Plumber, quantum: Option<QuantumRouter.QuantumRouter>, msg: Message, explore: bool,
              now: int)
    returns (dest: string)
    requires plumber.Valid() && (quantum.Some? ==> quantum.value.Valid())
    modifies if quantum.Some? then {quantum.value, quantum.value.state} + quantum.value.state.Repr() else {}
    ensures quantum.Some? ==> quantum.value.Valid()
    ensures var routed := Plumber.Routed(plumber.regex, plumber.added, msg);
      dest in routed && (quantum == None ==> dest == routed[0])
  {
    var routed := plumber.Route(msg);
    if quantum.Some? {
      var selected := quantum.value.Choose(msg, routed, explore, now);
      dest := selected.value;
    } else {
      dest := routed[0];
    }
  }

  /** A message that arrives over an agent's websocket is signed, routed and delivered. */
  method OnWebsocket(hub: TransportState, plumber: Plumber.Plumber, quantum: Option<QuantumRouter.QuantumRouter>,
                     sender: string, msg: Message, explore: bool, now: int)
    returns (dest: string, ghost steps: seq<Step<Channel>>)
    requires hub.Valid() && plumber.Valid() && (quantum.Some? ==> quantum.value.Valid())
    modifies if quantum.Some? then {quantum.value, quantum.value.state} + quantum.value.state.Repr() else {}
    modifies hub`view, hub`history, hub.queue, hub.view.owner.Keys
    ensures hub.Valid() && hub.history == old(hub.history) + steps
    ensures var signed := msg.(sender := sender, senderNs := "/net/" + sender);
      var routed := Plumber.Routed(plumber.regex, plumber.added, signed);
      && dest in routed && (quantum == None ==> dest == routed[0])
      && Delivers(old(hub.view), steps, Websocket, dest, signed, now)
  {
    hide Legal, Exec, SentOn, Sends, Segment, Plumber.Routed;
    dest := Pick(plumber, quantum, Signed(msg, sender), explore, now);
    steps := hub.DeliverWebsocket(sender, dest, msg, now);
  }

  /** So is a message sent over gRPC, unsigned. */
  method OnGrpc(hub: TransportState, plumber: Plumber.Plumber, quantum: Option<QuantumRouter.QuantumRouter>,
                msg: Message, explore: bool, now: int)
    returns (dest: string, ghost steps: seq<Step<Channel>>)
    requires hub.Valid() && plumber.Valid() && (quantum.Some? ==> quantum.value.Valid())
    modifies if quantum.Some? then {quantum.value, quantum.value.state} + quantum.value.state.Repr() else {}
    modifies hub`view, hub`history, hub.queue, hub.view.owner.Keys
    ensures hub.Valid() && hub.history == old(hub.history) + steps
    ensures var routed := Plumber.Routed(plumber.regex, plumber.added, msg);
      dest in routed && (quantum == None ==> dest == routed[0])
    ensures Delivers(old(hub.view), steps, Grpc, dest, msg, now)
  {
    hide Legal, Exec, SentOn, Sends, Segment, Plumber.Routed;
    dest := Pick(plumber, quantum, msg, explore, now);
    steps := hub.DeliverGrpc(dest, msg, now);
  }

  /** The decision is that of a run of the pipeline's stages. */
  ghost predicate Decides(s: Router.Setting, stages: seq<Router.Stage>, msg: Message, w: Router.World,
                          decision: Router.Decision, choice: string)
  {
    && s.Fits(stages) && Router.Legal(s, stages, msg, w, Router.START, choice)
    && var r := Router.Ran(s, stages, msg, w, Router.START, choice);
       decision == Router.Decision(r.context.selected, r.context.candidates)
  }

  method Decide(pipeline: Router.RoutingPipeline, msg: Message, clock: nat -> int, explore: bool, now: int)
    returns (decision: Router.Decision, ghost choice: string)
    requires pipeline.Valid()
    modifies pipeline.Repr()
    ensures pipeline.Valid()
    ensures Decides(old(pipeline.Facts(clock, now)), pipeline.stages, msg, old(pipeline.View()), decision, choice)
  {
    hide Router.After, Router.Ran, Router.Legal;
    decision, choice := pipeline.Route(msg, clock, explore, now);
  }

  /** A message posted to `/msg` goes where the pipeline sends it, if anywhere. */
  method OnMsg(hub: TransportState, pipeline: Router.RoutingPipeline, msg: Message, clock: nat -> int,
               explore: bool, now: int)
    returns (decision: Router.Decision, ghost choice: string, ghost steps: seq<Step<Channel>>)
    requires hub.Valid() && pipeline.Valid()
    modifies pipeline.Repr()
    modifies hub`view, hub`history, hub.queue, hub.view.owner.Keys
    ensures hub.Valid() && hub.history == old(hub.history) + steps
    ensures Decides(old(pipeline.Facts(clock, now)), pipeline.stages, msg, old(pipeline.View()), decision, choice)
    ensures match decision.selected
      case None => steps == []
      case Some(dest) => Delivers(old(hub.view), steps, Http, dest, msg, now)
  {
    hide Decides, Legal, Exec, SentOn, Sends, Segment;
    decision, choice := Decide(pipeline, msg, clock, explore, now);
    steps := [];
    if decision.selected.Some? {
      steps := hub.DeliverHttp(decision.selected.value, msg, now);
    }
  }

  /** And so does one posted to the REST API, which does not queue what it fails to push. */
  method OnApi(hub: TransportState, pipeline: Router.RoutingPipeline, msg: Message, clock: nat -> int,
               explore: bool, now: int)
    returns (decision: Router.Decision, ghost choice: string, ghost steps: seq<Step<Channel>>)
    requires hub.Valid() && pipeline.Valid()
    modifies pipeline.Repr()
    modifies hub`view, hub`history, hub.queue, hub.view.owner.Keys
    ensures hub.Valid() && hub.history == old(hub.history) + steps
    ensures Decides(old(pipeline.Facts(clock, now)), pipeline.stages, msg, old(pipeline.View()), decision, choice)
    ensures match decision.selected
      case None => steps == []
      case Some(dest) => Delivers(old(hub.view), steps, Websocket, dest, msg, now)
  {
    hide Decides, Legal, Exec, SentOn, Sends, Segment;
    decision, choice := Decide(pipeline, msg, clock, explore, now);
    steps := [];
    if decision.selected.Some? {
      steps := hub.DeliverApi(decision.selected.value, msg, now);
    }
  }
}
