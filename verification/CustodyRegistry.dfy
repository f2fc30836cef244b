/** Who is registered, what is dropped, and which of the protocol's steps cannot be taken apart. */
module CustodyRegistry {
  import opened Options
  import opened Messages
  import opened Queue
  import opened Custody
  import opened CustodyOrder
  import opened CustodyFifo

  // ---------------------------------------------------------------- registration safety

  /** The connection of the agent's most recent hello in the run. */
  function LatestHello<C(==)>(s: State<C>, run: seq<Step<C>>, id: string): Option<C>
    requires Legal(s, run)
    decreases run
  {
    if run == [] then None else
      var later := LatestHello(Next(s, run[0]), run[1..], id);
      if later.Some? then later else if HelloOf(s, run[0], id) then Some(run[0].conn) else None
  }

  lemma {:induction false} RegisteredIsLatest<C>(s: State<C>, run: seq<Step<C>>, id: string)
    requires Legal(s, run)
    ensures var s', latest := Exec(s, run), LatestHello(s, run, id);
      id in s'.registry ==>
        if latest.Some? then s'.registry[id] == latest else id in s.registry && s'.registry[id] == s.registry[id]
    decreases run
  {
    if run != [] {
      RegistryEffect(s, run[0], id);
      RegisteredIsLatest(Next(s, run[0]), run[1..], id);
    }
  }

  /** No registered connection has been torn down, and each speaks for its agent. */
  ghost predicate Live<C>(s: State<C>, id: string)
  {
    id in s.registry ==>
      && s.registry[id].Some?
      && s.registry[id].value !in s.torn
      && s.registry[id].value in s.owner && s.owner[s.registry[id].value] == id
  }

  lemma StepStaysLive<C>(s: State<C>, step: Step<C>, id: string)
    requires Enabled(s, step) && Live(s, id)
    ensures Live(Next(s, step), id)
  {
    hide Next;
    RegistryEffect(s, step, id);
    ChannelEffect(s, step);
    TornEffect(s, step);
  }

  lemma TornEffect<C>(s: State<C>, step: Step<C>)
    requires Enabled(s, step)
    ensures Next(s, step).torn ==
      if step.Teardown? || step.Evict? || (step.Leave? && !Current(s, step.conn)) then s.torn + {step.conn} else s.torn
  {
    hide AfterSend, AfterAct, AfterEnqueue, AfterDrain, AfterHello, AfterPrune, AfterSift, AfterSweep;
    if MovesMessages(step) {
      MessageFrame(s, step);
    }
  }

  lemma {:induction false} StaysLive<C>(s: State<C>, run: seq<Step<C>>, id: string)
    requires Legal(s, run) && Live(s, id)
    ensures Live(Exec(s, run), id)
    decreases run
  {
    if run != [] {
      StepStaysLive(s, run[0], id);
      StaysLive(Next(s, run[0]), run[1..], id);
    }
  }

  /** In every run, even with hellos split, the registry entry of an agent is the connection of its most
      recent hello, and one that has not torn down. */
  lemma RegistrationSafety<C>(clock: int, run: seq<Step<C>>, id: string)
    requires Legal(Init(clock), run) && id in Exec(Init(clock), run).registry
    ensures var entry := Exec(Init(clock), run).registry[id];
      entry.Some? && entry == LatestHello(Init(clock), run, id) && entry.value !in Exec(Init(clock), run).torn
  {
    RegisteredIsLatest(Init(clock), run, id);
    StaysLive(Init(clock), run, id);
  }

  /** A connection superseded by a later hello tears down without touching the registry. */
  lemma SupersededTeardown<C>(clock: int, run: seq<Step<C>>, c: C)
    requires Legal(Init(clock), run) && Enabled(Exec(Init(clock), run), Teardown(c))
    requires LatestHello(Init(clock), run, Exec(Init(clock), run).owner[c]) != Some(c)
    ensures var s := Exec(Init(clock), run); Next(s, Teardown(c)).registry == s.registry
  {
    var s := Exec(Init(clock), run);
    if s.owner[c] in s.registry {
      RegistrationSafety(clock, run, s.owner[c]);
    }
  }

  /** A whole teardown is its halves with nothing in between. */
  lemma TeardownIsItsPieces<C>(s: State<C>, c: C)
    requires Serving(s, c)
    ensures Enabled(s, Leave(c))
    ensures var s' := Next(s, Leave(c));
      && (c in s'.leaving <==> Current(s, c))
      && (Current(s, c) ==> Enabled(s', Evict(c)))
      && (if Current(s, c) then Next(s', Evict(c)) else s') == Next(s, Teardown(c))
  {
    if Current(s, c) {
      assert s.leaving + {c} - {c} == s.leaving;
    }
  }

  /** The program reads the registry and then removes the entry. Whatever runs in between, the removal differs
      from a whole teardown in its place exactly when the agent is registered by then with another
      connection. That connection said hello in between, and it loses its registration. */
  lemma SplitTeardownEvicts<C>(s: State<C>, c: C, between: seq<Step<C>>)
    requires Enabled(s, Leave(c)) && Current(s, c)
    requires Legal(Next(s, Leave(c)), between) && Enabled(Exec(Next(s, Leave(c)), between), Evict(c))
    ensures var s0, id := Next(s, Leave(c)), s.owner[c];
      var s' := Exec(s0, between);
      var evicted, whole := Next(s', Evict(c)).registry, AfterTeardown(s', c).registry;
      && s'.owner[c] == id
      && (evicted != whole <==> id in s'.registry && s'.registry[id] != Some(c))
      && (evicted != whole ==>
            LatestHello(s0, between, id) == s'.registry[id] == whole[id] && id !in evicted)
  {
    var s0, id := Next(s, Leave(c)), s.owner[c];
    OwnersStay(s0, between, c);
    RegisteredIsLatest(s0, between, id);
    var s' := Exec(s0, between);
    if id in s'.registry && s'.registry[id] != Some(c) {
      assert id in AfterTeardown(s', c).registry && id !in Next(s', Evict(c)).registry;
    } else if id !in s'.registry {
      assert s'.registry - {id} == s'.registry;
    }
  }

  lemma {:induction false} OwnersStay<C>(s: State<C>, run: seq<Step<C>>, c: C)
    requires Legal(s, run) && c in s.owner
    ensures c in Exec(s, run).owner && Exec(s, run).owner[c] == s.owner[c]
    decreases run
  {
    if run != [] {
      ChannelEffect(s, run[0]);
      OwnersStay(Next(s, run[0]), run[1..], c);
    }
  }

  /** A teardown with one hello of a newer connection between its halves. */
  function SplitTeardown<C>(c: C, newer: C, sent: nat): seq<Step<C>>
  {
    [Leave(c)] + ([Hello(newer, sent)] + ([Evict(c)] + []))
  }

  /** It ends with the agent's latest connection in service, its receiver still there, and the agent not
      registered. */
  lemma SplitTeardownHarms<C>(s: State<C>, c: C, newer: C, sent: nat)
    requires Serving(s, c) && Current(s, c) && c != newer
    requires Serving(s, newer) && DrainsTo(s, newer, sent) && s.owner[newer] == s.owner[c]
    ensures var id, run := s.owner[c], SplitTeardown(c, newer, sent);
      && Legal(s, run) && LatestHello(s, run, id) == Some(newer)
      && var s' := Exec(s, run);
         && id !in s'.registry && Serving(s', newer)
         && (newer in s.open && sent == |QueueOf(s.queues, id)| ==> newer in s'.open)
  {
    hide AfterHello;
    var id := s.owner[c];
    var s1 := Next(s, Leave(c));
    HelloFrame(s1, newer, sent);
    var s2 := Next(s1, Hello(newer, sent));
    var s3 := Next(s2, Evict(c));
    ExecHead(s2, Evict(c), []);
    ExecHead(s1, Hello(newer, sent), [Evict(c)] + []);
    ExecHead(s, Leave(c), [Hello(newer, sent)] + ([Evict(c)] + []));
    NoHello(s2, Evict(c), id);
    LatestHead(s1, Hello(newer, sent), [Evict(c)] + [], id);
    LatestHead(s, Leave(c), [Hello(newer, sent)] + ([Evict(c)] + []), id);
  }

  lemma NoHello<C>(s: State<C>, step: Step<C>, id: string)
    requires Enabled(s, step) && !HelloOf(s, step, id)
    ensures Legal(s, [step] + []) && LatestHello(s, [step] + [], id) == None
  {
    assert ([step] + [])[1..] == [];
  }

  lemma LatestHead<C>(s: State<C>, step: Step<C>, rest: seq<Step<C>>, id: string)
    requires Enabled(s, step) && Legal(Next(s, step), rest)
    ensures Legal(s, [step] + rest)
    ensures LatestHello(s, [step] + rest, id) ==
      if LatestHello(Next(s, step), rest, id).Some? then LatestHello(Next(s, step), rest, id)
      else if HelloOf(s, step, id) then Some(step.conn) else None
  {
    hide Next, Enabled;
    assert ([step] + rest)[1..] == rest;
  }

  /** A whole teardown spares the newer connection, whichever comes first. */
  lemma WholeTeardownSpares<C>(s: State<C>, c: C, newer: C, sent: nat)
    requires Serving(s, c) && Current(s, c) && c != newer
    requires Serving(s, newer) && DrainsTo(s, newer, sent) && s.owner[newer] == s.owner[c]
    ensures Enabled(s, Hello(newer, sent)) && Enabled(s, Teardown(c))
    ensures var first := Next(s, Hello(newer, sent));
      Enabled(first, Teardown(c)) && Found(Next(first, Teardown(c)), s.owner[c]) == Some(Some(newer))
    ensures var first := Next(s, Teardown(c));
      Enabled(first, Hello(newer, sent)) && Found(Next(first, Hello(newer, sent)), s.owner[c]) == Some(Some(newer))
  {
    hide AfterHello;
    HelloFrame(s, newer, sent);
    HelloFrame(Next(s, Teardown(c)), newer, sent);
  }

  // ---------------------------------------------------------------- no misdelivery

  /** Whatever was handed over for an agent went into a channel of one of its own connections. */
  ghost predicate OwnChannels<C>(s: State<C>, id: string)
  {
    var log := LedgerOf(s, id).settled;
    forall i :: 0 <= i < |log| ==>
      if log[i].loss != Safe then log[i].via.None?
      else log[i].via.Some? && log[i].via.value in s.owner && s.owner[log[i].via.value] == id
  }

  /** What a sender found was the agent's own connection; and one that is left with a message to enqueue found
      no live channel, nor will that channel come back. */
  ghost predicate Grounded<C>(s: State<C>, id: string)
  {
    forall i :: 0 <= i < |s.flights| && s.flights[i].agent == id && Via(s.flights[i].found).Some? ==>
      var c := Via(s.flights[i].found).value;
      && c in s.owner && s.owner[c] == id
      && (s.flights[i].phase == Parking ==> c !in s.open)
  }

  lemma StepStaysGrounded<C>(s: State<C>, step: Step<C>, id: string)
    requires Enabled(s, step) && Live(s, id) && Grounded(s, id)
    ensures Grounded(Next(s, step), id)
  {
    hide Taken;
    ChannelEffect(s, step);
    if step.Act? {
      ActFlights(s, step.flight);
    } else if step.Enqueue? {
      EnqueueFlights(s, step.flight, step.at);
    } else if !step.Look? {
      OtherFlights(s, step);
    }
  }

  lemma StepOwnChannels<C>(s: State<C>, step: Step<C>, id: string)
    requires Enabled(s, step) && OwnChannels(s, id) && Live(s, id) && Grounded(s, id)
    ensures OwnChannels(Next(s, step), id)
  {
    hide Next;
    ChannelEffect(s, step);
    var log, log' := LedgerOf(s, id).settled, LedgerOf(Next(s, step), id).settled;
    SettledEffect(s, step, id);
    forall i | 0 <= i < |log'|
      ensures var via := log'[i].via;
        if log'[i].loss != Safe then via.None? else via.Some? && via.value in s.owner && s.owner[via.value] == id
    {
      if i < |log| {
        assert log'[i] == log[i];
      }
    }
  }

  /** An entry a step may add to what was settled for `id`: a loss, or a handover via the connection that
      drains the agent's queue or that the sender found. */
  ghost predicate Attributed<C>(s: State<C>, step: Step<C>, id: string, e: Entry<C>)
    requires Enabled(s, step)
  {
    if e.loss != Safe then e.via.None?
    else e.via.Some? &&
         ((DrainsFor(s, step, id) && e.via == Some(step.conn)) ||
          (Arrives(s, step, id) && Pushes(ArrivalOf(s, step), e)))
  }

  ghost predicate Pushes<C>(a: Arrival<C>, e: Entry<C>)
    requires a.Arrival?
  {
    a.fate == Push && e.via == a.via
  }

  ghost predicate Extends<C>(s: State<C>, step: Step<C>, id: string, log: seq<Entry<C>>, log': seq<Entry<C>>)
    requires Enabled(s, step)
  {
    log <= log' && forall i :: |log| <= i < |log'| ==> Attributed(s, step, id, log'[i])
  }

  lemma PushedVia<C>(s: State<C>, step: Step<C>)
    requires Enabled(s, step) && ArrivalOf(s, step).Arrival?
    ensures ArrivalOf(s, step).fate == Push ==> ArrivalOf(s, step).via.Some?
  {
  }

  lemma SettledEffect<C>(s: State<C>, step: Step<C>, id: string)
    requires Enabled(s, step)
    ensures Extends(s, step, id, LedgerOf(s, id).settled, LedgerOf(Next(s, step), id).settled)
  {
    hide Next, ArrivalOf, LedgerOf, Bodies, Entries, Discarded;
    StepSettles(s, step, id);
    if ArrivalOf(s, step).Arrival? {
      PushedVia(s, step);
    } else if DrainsFor(s, step, id) {
      EntriesUniform(Bodies(QueueOf(s.queues, id)[..step.sent]), Safe, Some(step.conn));
    } else if Thins(step, id) {
      EntriesUniform<C>(Bodies(Discarded(QueueOf(s.queues, id), step.at, step.maxAge)), Lost, None);
    } else if Sweeps(step, id) {
      EntriesUniform<C>(Bodies(QueueOf(s.queues, id)), Swept, None);
    }
  }

  lemma {:induction false} EntriesUniform<C>(ms: seq<Message>, loss: Loss, via: Option<C>)
    ensures forall i :: 0 <= i < |Entries(ms, loss, via)| ==>
      Entries(ms, loss, via)[i].loss == loss && Entries(ms, loss, via)[i].via == via
  {
    if ms != [] {
      EntriesUniform(ms[1..], loss, via);
    }
  }

  lemma {:induction false} StaysOwnChannels<C>(s: State<C>, run: seq<Step<C>>, id: string)
    requires Legal(s, run) && OwnChannels(s, id) && Live(s, id) && Grounded(s, id)
    ensures OwnChannels(Exec(s, run), id) && Grounded(Exec(s, run), id)
    decreases run
  {
    if run != [] {
      StepOwnChannels(s, run[0], id);
      StepStaysGrounded(s, run[0], id);
      StepStaysLive(s, run[0], id);
      StaysOwnChannels(Next(s, run[0]), run[1..], id);
    }
  }

  lemma NoMisdelivery<C>(clock: int, run: seq<Step<C>>, id: string)
    requires Legal(Init(clock), run)
    ensures OwnChannels(Exec(Init(clock), run), id)
  {
    StaysOwnChannels(Init(clock), run, id);
  }

  // ---------------------------------------------------------------- drops

  /** The connection a sender pushes to: the one registered as it sends, or the one it found earlier. */
  function Target<C(==)>(s: State<C>, step: Step<C>): Option<C>
    requires Enabled(s, step)
  {
    if step.Send? then Via(Found(s, step.agent))
    else if step.Act? then Via(s.flights[step.flight].found)
    else None
  }

  predicate Careless<C(==)>(s: State<C>, step: Step<C>)
    requires Enabled(s, step)
  {
    (step.Send? && step.sender == Websocket) || (step.Act? && s.flights[step.flight].sender == Websocket)
  }

  /** Whom a send or an act is for. */
  predicate Aims<C(==)>(s: State<C>, step: Step<C>, id: string)
    requires Enabled(s, step)
  {
    (step.Send? && step.agent == id) || (step.Act? && s.flights[step.flight].agent == id)
  }

  function Aimed<C(==)>(s: State<C>, step: Step<C>): Message
    requires Enabled(s, step) && (step.Send? || step.Act?)
  {
    if step.Send? then step.msg else s.flights[step.flight].msg
  }

  /** Every look-up finds an entry with a channel, or none. */
  ghost predicate FoundChannels<C>(s: State<C>)
  {
    forall i :: 0 <= i < |s.flights| ==> (s.flights[i].found.Some? ==> s.flights[i].found.value.Some?)
  }

  lemma {:induction false} StaysFound<C>(s: State<C>, run: seq<Step<C>>)
    requires Legal(s, run) && Registered(s) && FoundChannels(s)
    ensures Registered(Exec(s, run)) && FoundChannels(Exec(s, run))
    decreases run
  {
    if run != [] {
      StepStaysFound(s, run[0]);
      StaysFound(Next(s, run[0]), run[1..]);
    }
  }

  lemma StepStaysFound<C>(s: State<C>, step: Step<C>)
    requires Enabled(s, step) && Registered(s) && FoundChannels(s)
    ensures Registered(Next(s, step)) && FoundChannels(Next(s, step))
  {
    hide Taken;
    forall id | id in Next(s, step).registry ensures Next(s, step).registry[id].Some? {
      RegistryEffect(s, step, id);
    }
    if step.Act? {
      ActFlights(s, step.flight);
    } else if step.Enqueue? {
      EnqueueFlights(s, step.flight, step.at);
    } else if !step.Look? {
      OtherFlights(s, step);
    }
  }

  /** A message is dropped exactly when a sender that ignores failures has one for an agent and the channel it
      found, as it sends or earlier, has lost its receiver. */
  lemma DropsExactly<C>(clock: int, run: seq<Step<C>>, step: Step<C>, id: string)
    requires Legal(Init(clock), run) && Enabled(Exec(Init(clock), run), step)
    ensures var s := Exec(Init(clock), run);
      Dropped(LedgerOf(Next(s, step), id)) ==
        if Aims(s, step, id) && Careless(s, step) && Target(s, step).Some? && Target(s, step).value !in s.open
        then Dropped(LedgerOf(s, id)) + [Aimed(s, step)] else Dropped(LedgerOf(s, id))
  {
    hide Next, Dropped;
    var s := Exec(Init(clock), run);
    StaysFound(Init(clock), run);
    if step.Send? {
      assert step.agent in s.registry ==> s.registry[step.agent].Some?;
    }
    StepDrops(s, step, id);
  }

  lemma StepDrops<C>(s: State<C>, step: Step<C>, id: string)
    requires Enabled(s, step)
    ensures Dropped(LedgerOf(Next(s, step), id)) == Dropped(LedgerOf(s, id)) +
      if Arrives(s, step, id) && ArrivalOf(s, step).fate == Drop then [ArrivalOf(s, step).msg] else []
  {
    hide Taken;
    var a := ArrivalOf(s, step);
    if a.Arrival? {
      ArrivalNext(s, step);
      TakenDrops(s, a.agent, a.msg, a.fate, a.via, a.at, id);
      Unrecorded(Taken(s, a.agent, a.msg, a.fate, a.via, a.at), Next(s, step), id);
    } else {
      QuietAccepts(s, step, id);
    }
  }

  lemma TakenDrops<C>(s: State<C>, agent: string, msg: Message, fate: Delivery, via: Option<C>, at: int, id: string)
    ensures Dropped(LedgerOf(Taken(s, agent, msg, fate, via, at), id)) ==
      Dropped(LedgerOf(s, id)) + if agent == id && fate == Drop then [msg] else []
  {
    SelectSplits(LedgerOf(s, id).accepted, [Entry(msg, if fate == Drop then Lost else Safe, None)], true);
  }

  // ---------------------------------------------------------------- a hello taken apart

  /** Between registering and draining, every sender overtakes every queued message: whatever happens
      next, some message accepted earlier leaves later. */
  lemma SplitHelloReorders<C>(s: State<C>, c: C, sender: Sender, msg: Message, at: int, rest: seq<Step<C>>)
    requires Enabled(s, Register(c)) && c in s.open && QueueOf(s.queues, s.owner[c]) != []
    requires AllOrdered(s) && Fifo(s, s.owner[c])
    requires var run := [Register(c), Send(sender, s.owner[c], msg, at)] + rest;
      Legal(s, run) && Timely(s.clock, run)
    ensures var run := [Register(c), Send(sender, s.owner[c], msg, at)] + rest;
      Inverted(Accepted(Exec(s, run), s.owner[c]), Outcome(Exec(s, run), s.owner[c]))
  {
    var id := s.owner[c];
    var push := Send(sender, id, msg, at);
    var run := [Register(c), push] + rest;
    assert run[1..] == [push] + rest;
    assert Overtakes(Next(s, run[0]), push, id);
    assert EverOvertakes(Next(s, run[0]), run[1..], id);
    OrderLost(s, run, id);
  }

  /** A push to an agent that is registered and has something queued. */
  lemma PushOvertakes<C>(s: State<C>, c: C, sender: Sender, msg: Message, at: int)
    requires Current(s, c) && c in s.open && QueueOf(s.queues, s.owner[c]) != []
    ensures var push := Send(sender, s.owner[c], msg, at); Enabled(s, push) && Overtakes(s, push, s.owner[c])
  {
  }

  lemma DrainLeaves<C>(s: State<C>, c: C, sent: nat)
    requires Enabled(s, Drain(c, sent)) && sent < |QueueOf(s.queues, s.owner[c])|
    ensures var s' := Next(s, Drain(c, sent));
      && s'.owner == s.owner && s'.registry == s.registry && s'.open == s.open
      && QueueOf(s'.queues, s.owner[c]) != []
  {
    hide Drained, Bodies, Entries;
    DrainedQueue(s.queues, s.owner[c], sent, s.owner[c]);
  }

  /** So does a push between two sends of the drain loop. */
  lemma SplitDrainReorders<C>(s: State<C>, c: C, sent: nat, sender: Sender, msg: Message, at: int,
                              rest: seq<Step<C>>)
    requires Enabled(s, Drain(c, sent)) && c in s.open && Current(s, c) && sent < |QueueOf(s.queues, s.owner[c])|
    requires AllOrdered(s) && Fifo(s, s.owner[c])
    requires var run := [Drain(c, sent)] + ([Send(sender, s.owner[c], msg, at)] + rest);
      Legal(s, run) && Timely(s.clock, run)
    ensures var run := [Drain(c, sent)] + ([Send(sender, s.owner[c], msg, at)] + rest);
      Inverted(Accepted(Exec(s, run), s.owner[c]), Outcome(Exec(s, run), s.owner[c]))
  {
    hide Legal, Timely, Next, Enabled, Overtakes;
    var id := s.owner[c];
    var step, push := Drain(c, sent), Send(sender, id, msg, at);
    DrainLeaves(s, c, sent);
    PushOvertakes(Next(s, step), c, sender, msg, at);
    OvertakesSecond(s, step, push, rest, id);
    OrderLost(s, [step] + ([push] + rest), id);
  }

  lemma OvertakesSecond<C>(s: State<C>, step: Step<C>, push: Step<C>, rest: seq<Step<C>>, id: string)
    requires Legal(s, [step] + ([push] + rest)) && Enabled(s, step) && Enabled(Next(s, step), push)
    requires Overtakes(Next(s, step), push, id)
    ensures EverOvertakes(s, [step] + ([push] + rest), id)
  {
    hide Next, Enabled, Overtakes;
    assert ([step] + ([push] + rest))[1..] == [push] + rest;
    assert EverOvertakes(Next(s, step), [push] + rest, id);
  }

  /** The smallest such run: a message is queued; the agent registers; a second message is pushed before
      the queue is drained. */
  function SplitHello(id: string, first: Message, second: Message): seq<Step<int>>
  {
    [Connect(0, id)] + ([Send(Http, id, first, 0)] + ([Register(0)]
      + ([Send(Http, id, second, 0)] + ([Drain(0, 1)] + []))))
  }

  lemma SplitHelloBreaksFifo(id: string, first: Message, second: Message)
    requires first != second
    ensures var run := SplitHello(id, first, second);
      && Legal(Init(0), run) && Timely(0, run) && Reliable(run)
      && !Fifo(Exec(Init(0), run), id)
  {
    hide Legal, Exec, Timely, EverOvertakes, Accepted, Fifo;
    SplitHelloRuns(id, first, second);
    OutOfOrder(SplitHello(id, first, second), id, first, second);
  }

  lemma OutOfOrder(run: seq<Step<int>>, id: string, first: Message, second: Message)
    requires first != second && Legal(Init(0), run) && Timely(0, run) && EverOvertakes(Init(0), run, id)
    requires Accepted(Exec(Init(0), run), id) == [first, second]
    ensures !Fifo(Exec(Init(0), run), id)
  {
    hide Legal, Exec, Timely, EverOvertakes, Accepted, Outcome, Fifo;
    FifoExactlyWithoutOvertaking(0, run, id);
  }

  lemma SplitHelloRuns(id: string, first: Message, second: Message)
    ensures var run := SplitHello(id, first, second);
      && Legal(Init(0), run) && Timely(0, run) && EverOvertakes(Init(0), run, id)
      && Accepted(Exec(Init(0), run), id) == [first, second]
  {
    hide Next, Enabled, Takes, Overtakes, Runs;
    var s0: State<int> := Init(0);
    SplitHelloSteps(id, first, second);
    var s1 := Next(s0, Connect(0, id));
    var s2 := Next(s1, Send(Http, id, first, 0));
    var s3 := Next(s2, Register(0));
    var s4 := Next(s3, Send(Http, id, second, 0));
    var s5 := Next(s4, Drain(0, 1));
    RunsOut(s5, id);
    var run5: seq<Step<int>> := [];
    var none: seq<Message> := [];
    RunsOn(s4, Drain(0, 1), run5, id, none, false, none);
    assert none + none == none;
    var run4 := [Drain(0, 1)] + run5;
    RunsOn(s3, Send(Http, id, second, 0), run4, id, [second], false, []);
    assert [second] + [] == [second];
    var run3 := [Send(Http, id, second, 0)] + run4;
    RunsOn(s2, Register(0), run3, id, [], true, [second]);
    assert [] + [second] == [second];
    var run2 := [Register(0)] + run3;
    RunsOn(s1, Send(Http, id, first, 0), run2, id, [first], true, [second]);
    assert [first] + [second] == [first, second];
    var run1 := [Send(Http, id, first, 0)] + run2;
    RunsOn(s0, Connect(0, id), run1, id, [], true, [first, second]);
    assert [] + [first, second] == [first, second];
    var run0 := [Connect(0, id)] + run1;
    StartsRun(run0, id, [first, second]);
  }

  /** Step by step: all are enabled, and which messages they take. */
  lemma SplitHelloSteps(id: string, first: Message, second: Message)
    ensures var s0: State<int> := Init(0);
      Takes(s0, Connect(0, id), id, []) &&
      var s1 := Next(s0, Connect(0, id));
      Takes(s1, Send(Http, id, first, 0), id, [first]) &&
      var s2 := Next(s1, Send(Http, id, first, 0));
      Takes(s2, Register(0), id, []) &&
      var s3 := Next(s2, Register(0));
      Takes(s3, Send(Http, id, second, 0), id, [second]) && Overtakes(s3, Send(Http, id, second, 0), id) &&
      var s4 := Next(s3, Send(Http, id, second, 0));
      Takes(s4, Drain(0, 1), id, []) && !Overtakes(s4, Drain(0, 1), id)
  {
  }

  /** The step can be taken, and accepts these messages for `id`. */
  ghost predicate Takes<C>(s: State<C>, step: Step<C>, id: string, taken: seq<Message>)
  {
    && Enabled(s, step)
    && taken == if Arrives(s, step, id) && ArrivalOf(s, step).fate != Drop then [ArrivalOf(s, step).msg] else []
  }

  /** The run can be taken, at the same instant throughout, and accepts these messages for `id`. */
  ghost predicate Runs<C>(s: State<C>, run: seq<Step<C>>, id: string, overtakes: bool, accepted: seq<Message>)
  {
    && Legal(s, run) && Timely(0, run) && EverOvertakes(s, run, id) == overtakes
    && Accepted(Exec(s, run), id) == Accepted(s, id) + accepted
  }

  lemma RunsOut<C>(s: State<C>, id: string)
    ensures Runs(s, [], id, false, [])
  {
  }

  /** One step before a run. */
  lemma RunsOn<C>(s: State<C>, step: Step<C>, rest: seq<Step<C>>, id: string, taken: seq<Message>, overtakes: bool,
                  later: seq<Message>)
    requires Takes(s, step, id, taken) && Runs(Next(s, step), rest, id, overtakes, later)
    requires Reads(step) ==> step.at == 0
    ensures Runs(s, [step] + rest, id, Overtakes(s, step, id) || overtakes, taken + later)
  {
    hide Next, Enabled, Overtakes, Accepted, Takes;
    var run := [step] + rest;
    assert run[1..] == rest && Enabled(s, step) by { TakesEnabled(s, step, id, taken); }
    TakesEffect(s, step, id, taken);
    assert Accepted(s, id) + taken + later == Accepted(s, id) + (taken + later);
  }

  lemma TakesEnabled<C>(s: State<C>, step: Step<C>, id: string, taken: seq<Message>)
    requires Takes(s, step, id, taken)
    ensures Enabled(s, step)
  {
  }

  lemma TakesEffect<C>(s: State<C>, step: Step<C>, id: string, taken: seq<Message>)
    requires Takes(s, step, id, taken)
    ensures Accepted(Next(s, step), id) == Accepted(s, id) + taken
  {
    StepEffect(s, step, id);
  }

  lemma StartsRun<C>(run: seq<Step<C>>, id: string, accepted: seq<Message>)
    requires Runs(Init(0), run, id, true, accepted)
    ensures Legal(Init(0), run) && Timely(0, run) && EverOvertakes(Init(0), run, id)
    ensures Accepted(Exec(Init(0), run), id) == accepted
  {
    assert Accepted<C>(Init(0), id) == [];
  }

}
