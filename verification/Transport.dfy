/** The handlers that move messages (src/net/transport.rs, src/daemon.rs, src/api.rs), over the live
    registry, queue and channels. Each is shown to take exactly the steps of the custody protocol it
    claims to take. */
module Transport {
  import opened Options
  import opened Messages
  import opened Queue
  import opened Agents
  import opened Clock
  import opened Custody
  import opened CustodyOrder
  import opened CustodyFifo
  import opened CustodyRegistry

  // ---------------------------------------------------------------- addressing

  /** The text before the next slash. */
  function Segment(s: string): string
  {
    if s == "" || s[0] == '/' then "" else [s[0]] + Segment(s[1..])
  }

  /** Destinations under `/net/` name an agent by their third component. */
  function TargetAgent(dest: string): Option<string>
  {
    if "/net/" <= dest then Some(Segment(dest[5..])) else None
  }

  /** The destination of an agent's own namespace, or of anything below it, is that agent. */
  lemma {:induction false} SegmentOf(id: string, rest: string)
    requires forall i :: 0 <= i < |id| ==> id[i] != '/'
    requires rest == "" || rest[0] == '/'
    ensures Segment(id + rest) == id
  {
    if id == "" {
      assert id + rest == rest;
    } else {
      assert (id + rest)[1..] == id[1..] + rest;
      SegmentOf(id[1..], rest);
    }
  }

  lemma NamespaceReaches(id: string, rest: string)
    requires forall i :: 0 <= i < |id| ==> id[i] != '/'
    requires rest == "" || rest[0] == '/'
    ensures TargetAgent("/net/" + id + rest) == Some(id)
  {
    SegmentOf(id, rest);
    assert ("/net/" + id + rest)[..5] == "/net/";
    assert ("/net/" + id + rest)[5..] == id + rest;
  }

  ghost predicate Below(dest: string, id: string, rest: string)
  {
    dest == "/net/" + id + rest && (rest == "" || rest[0] == '/')
  }

  lemma {:induction false} SegmentIs(s: string)
    ensures var id := Segment(s);
      && (forall i :: 0 <= i < |id| ==> id[i] != '/')
      && id <= s && (s[|id|..] == "" || s[|id|..][0] == '/')
  {
    if s != "" && s[0] != '/' {
      SegmentIs(s[1..]);
      var id := Segment(s[1..]);
      assert Segment(s) == [s[0]] + id && s == [s[0]] + s[1..];
      assert s[|id| + 1..] == s[1..][|id|..];
    }
  }

  /** A destination reaches an agent exactly if it is the agent's namespace or lies below it; anything else
      reaches nobody. */
  lemma TargetExactly(dest: string, id: string)
    ensures TargetAgent(dest) == Some(id) <==>
      (forall i :: 0 <= i < |id| ==> id[i] != '/') && exists rest :: Below(dest, id, rest)
    ensures TargetAgent(dest) == None <==> !("/net/" <= dest)
  {
    hide Segment;
    if "/net/" <= dest {
      var rest := dest[5..];
      SegmentIs(rest);
      var found := Segment(rest);
      assert dest == "/net/" + rest && rest == found + rest[|found|..];
      assert Below(dest, found, rest[|found|..]);
    }
    if (forall i :: 0 <= i < |id| ==> id[i] != '/') && exists rest :: Below(dest, id, rest) {
      var rest :| Below(dest, id, rest);
      NamespaceReaches(id, rest);
    }
  }

  // ---------------------------------------------------------------- the abstract state of live objects

  function Registrations(agents: map<string, Agent>): map<string, Option<Channel>>
  {
    map id | id in agents :: agents[id].tx
  }

  /** What a connection's channel has been sent, by the ledger of its agent. */
  function SentOn<C(==)>(s: State<C>, c: C): seq<Message>
    requires c in s.owner
  {
    Through(LedgerOf(s, s.owner[c]).settled, c)
  }

  lemma SendSends<C>(s: State<C>, sender: Sender, id: string, msg: Message, at: int, c: C)
    requires Live(s, id) && c in s.owner
    ensures SentOn(AfterSend(s, sender, id, msg, at), c) ==
      if Deliver(s, sender, id) == Push && s.registry[id] == Some(c) then SentOn(s, c) + [msg] else SentOn(s, c)
  {
    SendSettles(s, sender, id, msg, at, s.owner[c]);
    if Deliver(s, sender, id) == Push {
      ThroughSplits(LedgerOf(s, s.owner[c]).settled, [Entry(msg, Safe, s.registry[id])], c);
    }
  }

  lemma TickedSends<C>(s: State<C>, at: int, c: C)
    requires c in s.owner
    ensures SentOn(Ticked(s, at), c) == SentOn(s, c)
  {
    assert LedgerOf(Ticked(s, at), s.owner[c]) == LedgerOf(s, s.owner[c]);
  }

  lemma SendSettles<C>(s: State<C>, sender: Sender, id: string, msg: Message, at: int, other: string)
    ensures LedgerOf(AfterSend(s, sender, id, msg, at), other).settled == LedgerOf(s, other).settled +
      if other == id && Deliver(s, sender, id) == Push then [Entry(msg, Safe, s.registry[id])] else []
  {
  }

  lemma DrainSends<C>(s: State<C>, d: C, sent: nat, c: C)
    requires d in s.owner && DrainsTo(s, d, sent) && c in s.owner
    ensures SentOn(AfterDrain(s, d, sent), c) ==
      if c == d then SentOn(s, c) + Bodies(QueueOf(s.queues, s.owner[c])[..sent]) else SentOn(s, c)
  {
    var ms := Bodies(QueueOf(s.queues, s.owner[d])[..sent]);
    if s.owner[c] == s.owner[d] {
      ThroughSplits(LedgerOf(s, s.owner[d]).settled, Entries(ms, Safe, Some(d)), c);
      ThroughEntries(ms, Safe, Some(d), c);
    }
  }

  lemma HelloSends<C>(s: State<C>, d: C, sent: nat, c: C)
    requires Enabled(s, Hello(d, sent)) && c in s.owner
    ensures SentOn(Next(s, Hello(d, sent)), c) ==
      if c == d then SentOn(s, c) + Bodies(QueueOf(s.queues, s.owner[c])[..sent]) else SentOn(s, c)
  {
    DrainSends(AfterRegister(s, d), d, sent, c);
    assert LedgerOf(AfterRegister(s, d), s.owner[c]) == LedgerOf(s, s.owner[c]);
    assert LedgerOf(AfterHello(s, d, sent), s.owner[c]) ==
      LedgerOf(AfterDrain(AfterRegister(s, d), d, sent), s.owner[c]);
  }

  lemma HelloFields<C>(s: State<C>, d: C, sent: nat)
    requires Enabled(s, Hello(d, sent))
    ensures var s', id := Next(s, Hello(d, sent)), s.owner[d];
      && s'.owner == s.owner
      && s'.registry == s.registry[id := Some(d)]
      && s'.queues == Drained(s.queues, id, sent)
      && s'.open == if sent < |QueueOf(s.queues, id)| then s.open - {d} else s.open
  {
  }

  lemma PruneSends<C>(s: State<C>, maxAge: int, at: int, c: C)
    requires c in s.owner
    ensures SentOn(AfterPrune(s, maxAge, at), c) == SentOn(s, c)
  {
    var lost := Bodies(Discarded(QueueOf(s.queues, s.owner[c]), at, maxAge));
    PruneThins(s, s.owner[c], maxAge, at);
    ThroughSplits(LedgerOf(s, s.owner[c]).settled, Entries(lost, Lost, None), c);
    ThroughEntries(lost, Lost, None, c);
  }

  lemma QuietSends<C>(s: State<C>, step: Step<C>, c: C)
    requires Enabled(s, step) && (step.Teardown? || step.Unregister? || step.Prune?) && c in s.owner
    ensures c in Next(s, step).owner && SentOn(Next(s, step), c) == SentOn(s, c)
  {
    if step.Prune? {
      PruneSends(s, step.maxAge, step.at, c);
    } else {
      assert LedgerOf(Next(s, step), s.owner[c]) == LedgerOf(s, s.owner[c]);
    }
  }

  /** A connection not made yet has been sent nothing. */
  lemma {:induction false} UnknownUnsent<C>(log: seq<Entry<C>>, c: C)
    requires forall i :: 0 <= i < |log| ==> log[i].via != Some(c)
    ensures Through(log, c) == []
  {
    if log != [] {
      assert log[0].via != Some(c);
      UnknownUnsent(log[1..], c);
    }
  }

  /** If everything handed over went via one connection, that is what the connection was sent. */
  lemma {:induction false} OnlyThrough<C>(log: seq<Entry<C>>, c: C)
    requires forall i :: 0 <= i < |log| ==> (log[i].loss == Safe <==> log[i].via == Some(c))
    ensures Through(log, c) == Select(log, false)
  {
    if log != [] {
      assert log[0].loss == Safe <==> log[0].via == Some(c);
      OnlyThrough(log[1..], c);
    }
  }

  lemma ConnectSends<C>(s: State<C>, d: C, id: string, c: C)
    requires d !in s.owner && OwnChannels(s, id) && (c == d || c in s.owner)
    ensures SentOn(Next(s, Step.Connect(d, id)), c) == if c == d then [] else SentOn(s, c)
  {
    if c == d {
      UnknownUnsent(LedgerOf(s, id).settled, d);
    }
  }

  // ---------------------------------------------------------------- the hub

  /** What a delivery may amount to: the send itself, perhaps just after the receiver of the registered
      channel has gone away. */
  ghost predicate Sends<C>(s: State<C>, steps: seq<Step<C>>, sender: Sender, id: string, msg: Message, at: int)
  {
    || steps == [Send(sender, id, msg, at)]
    || (id in s.registry && s.registry[id].Some? &&
        steps == [Close(s.registry[id].value), Send(sender, id, msg, at)])
  }

  /** What is done with a message that was not pushed. */
  predicate Parks<C(==)>(s: State<C>, sender: Sender, id: string)
  {
    id !in s.registry || sender == Grpc || (sender == Http && s.registry[id].Some?)
  }

  function Signed(msg: Message, sender: string): Message
  {
    msg.(sender := sender, senderNs := "/net/" + sender)
  }

  lemma SendFields<C>(s: State<C>, sender: Sender, id: string, msg: Message, at: int)
    ensures var s' := Next(s, Send(sender, id, msg, at));
      && s'.owner == s.owner && s'.registry == s.registry && s'.open == s.open
      && s'.queues ==
           if Deliver(s, sender, id) != Push && Parks(s, sender, id) then Enqueued(s.queues, id, msg, at) else s.queues
  {
    hide Enqueued, Settle, Accept;
    ArrivalNext(s, Send(sender, id, msg, at));
    SendQueues(s, id, msg, Deliver(s, sender, id), Via(Found(s, id)), at);
  }

  lemma SendQueues<C>(s: State<C>, id: string, msg: Message, fate: Delivery, via: Option<C>, at: int)
    ensures Taken(s, id, msg, fate, via, at).queues ==
      if fate == Park then Enqueued(s.queues, id, msg, at) else s.queues
  {
  }

  lemma Recorded<C>(s: State<C>, run: seq<Step<C>>, step: Step<C>)
    requires Legal(s, run) && Enabled(Exec(s, run), step)
    ensures Legal(s, run + [step]) && Exec(s, run + [step]) == Next(Exec(s, run), step)
  {
    ExecSplits(s, run, [step]);
  }

  lemma SendsUnsplit<C>(s: State<C>, sender: Sender, id: string, msg: Message, at: int)
    ensures forall steps: seq<Step<C>> :: Sends(s, steps, sender, id, msg, at) ==> Unsplit(steps)
  {
  }

  class TransportState {
    const agents: AgentRegistry
    const queue: MessageQueue
    ghost const started: int
    ghost var history: seq<Step<Channel>>
    ghost var view: State<Channel>

    /** The hub has taken the steps in `history`, each of its operations as one step, and the view is where they
        lead: it is the abstract state of the registry, of the queue and of every channel ever made. What each
        channel received is what the ledger says was handed over via it. */
    ghost predicate Valid()
      reads this, agents, queue, view.owner.Keys
    {
      && Legal(Init(started), history) && view == Exec(Init(started), history)
      && view.registry == Registrations(agents.agents)
      && view.queues == queue.queues
      && (forall c :: c in view.owner ==> (c in view.open <==> c.open) && c.sent == SentOn(view, c))
      && Unsplit(history)
    }

    /** The agent is registered with a channel whose receiver is there. */
    ghost predicate HasLive(id: string)
      reads agents
      reads if id in agents.agents && agents.agents[id].tx.Some? then {agents.agents[id].tx.value} else {}
    {
      id in agents.agents && agents.agents[id].tx.Some? && agents.agents[id].tx.value.open
    }

    constructor (now: int)
      ensures Valid() && history == [] && started == now && fresh(agents) && fresh(queue)
    {
      agents := new AgentRegistry();
      queue := new MessageQueue();
      started := now;
      history := [];
      view := Init(now);
    }

    ghost method Record(step: Step<Channel>)
      requires Legal(Init(started), history) && view == Exec(Init(started), history) && Enabled(view, step)
      modifies this`view, this`history
      ensures history == old(history) + [step] && view == Next(old(view), step)
      ensures Legal(Init(started), history) && view == Exec(Init(started), history)
    {
      Recorded(Init(started), history, step);
      history := history + [step];
      view := Next(view, step);
    }

    ghost method RecordHello(tx: Channel, sent: nat)
      requires Legal(Init(started), history) && view == Exec(Init(started), history)
      requires Enabled(view, Step.Hello(tx, sent))
      modifies this`view, this`history
      ensures history == old(history) + [Step.Hello(tx, sent)]
      ensures Legal(Init(started), history) && view == Exec(Init(started), history)
      ensures var s, id := old(view), old(view).owner[tx];
        && view.owner == s.owner && view.registry == s.registry[id := Some(tx)]
        && view.queues == Drained(s.queues, id, sent)
        && view.open == (if sent < |QueueOf(s.queues, id)| then s.open - {tx} else s.open)
        && forall c :: c in s.owner ==>
             SentOn(view, c) == if c == tx then SentOn(s, c) + Bodies(QueueOf(s.queues, id)[..sent]) else SentOn(s, c)
    {
      ghost var s := view;
      Record(Step.Hello(tx, sent));
      HelloFields(s, tx, sent);
      forall c | c in s.owner
        ensures SentOn(view, c) ==
          if c == tx then SentOn(s, c) + Bodies(QueueOf(s.queues, s.owner[tx])[..sent]) else SentOn(s, c)
      {
        HelloSends(s, tx, sent, c);
      }
    }

    /** Steps that settle nothing and wake no receiver. */
    ghost method RecordQuiet(step: Step<Channel>)
      requires Legal(Init(started), history) && view == Exec(Init(started), history) && Enabled(view, step)
      requires step.Teardown? || step.Unregister? || step.Prune?
      modifies this`view, this`history
      ensures history == old(history) + [step]
      ensures Legal(Init(started), history) && view == Exec(Init(started), history)
      ensures var s := old(view);
        && view.owner == s.owner && view.open == s.open
        && view.registry ==
             (if step.Unregister? then s.registry - {step.agent}
              else if step.Teardown? && Current(s, step.conn) then s.registry - {s.owner[step.conn]}
              else s.registry)
        && view.queues == (if step.Prune? then Pruned(s.queues, step.at, step.maxAge) else s.queues)
        && forall c :: c in s.owner ==> SentOn(view, c) == SentOn(s, c)
    {
      ghost var s := view;
      Record(step);
      forall c | c in s.owner ensures SentOn(view, c) == SentOn(s, c) {
        QuietSends(s, step, c);
      }
    }

    /** A delivery that pushed (`ok`) or found no receiver, for whatever reason. */
    ghost method RecordSend(sender: Sender, id: string, msg: Message, at: int, ok: bool)
      returns (steps: seq<Step<Channel>>)
      requires Legal(Init(started), history) && view == Exec(Init(started), history)
      requires ok ==> id in view.registry && view.registry[id].Some? && view.registry[id].value in view.open
      modifies this`view, this`history
      ensures history == old(history) + steps && Sends(old(view), steps, sender, id, msg, at)
      ensures Unsplit(steps)
      ensures Legal(Init(started), history) && view == Exec(Init(started), history)
      ensures view.owner == old(view).owner && view.registry == old(view).registry
      ensures view.queues ==
        if !ok && Parks(old(view), sender, id) then Enqueued(old(view).queues, id, msg, at) else old(view).queues
      ensures view.open ==
        if !ok && id in view.registry && view.registry[id].Some? then old(view).open - {view.registry[id].value}
        else old(view).open
      ensures forall c :: c in view.owner ==>
        SentOn(view, c) ==
          if ok && view.registry[id] == Some(c) then SentOn(old(view), c) + [msg] else SentOn(old(view), c)
    {
      hide SentOn, Exec, Legal, Enqueued, Through, Unsplit;
      SendsUnsplit(view, sender, id, msg, at);
      steps := [];
      StaysLive(Init(started), history, id);
      if !ok && id in view.registry && view.registry[id].Some? && view.registry[id].value in view.open {
        steps := [Close(view.registry[id].value)];
        RecordClose(view.registry[id].value);
        StaysLive(Init(started), history, id);
      }
      RecordArrival(sender, id, msg, at);
      steps := steps + [Send(sender, id, msg, at)];
    }

    ghost method RecordClose(tx: Channel)
      requires Legal(Init(started), history) && view == Exec(Init(started), history) && tx in view.owner
      modifies this`view, this`history
      ensures history == old(history) + [Close(tx)]
      ensures Legal(Init(started), history) && view == Exec(Init(started), history)
      ensures view.owner == old(view).owner && view.registry == old(view).registry && view.queues == old(view).queues
      ensures view.open == old(view).open - {tx}
      ensures forall c :: c in view.owner ==> SentOn(view, c) == SentOn(old(view), c)
    {
      Record(Close(tx));
    }

    ghost method RecordArrival(sender: Sender, id: string, msg: Message, at: int)
      requires Legal(Init(started), history) && view == Exec(Init(started), history) && Live(view, id)
      modifies this`view, this`history
      ensures history == old(history) + [Send(sender, id, msg, at)]
      ensures Legal(Init(started), history) && view == Exec(Init(started), history)
      ensures view.owner == old(view).owner && view.registry == old(view).registry && view.open == old(view).open
      ensures view.queues ==
        if Deliver(old(view), sender, id) != Push && Parks(old(view), sender, id)
        then Enqueued(old(view).queues, id, msg, at) else old(view).queues
      ensures forall c :: c in view.owner ==>
        SentOn(view, c) ==
          if Deliver(old(view), sender, id) == Push && view.registry[id] == Some(c) then SentOn(old(view), c) + [msg]
          else SentOn(old(view), c)
    {
      ghost var s := view;
      Record(Send(sender, id, msg, at));
      SendFields(s, sender, id, msg, at);
      forall c | c in view.owner
        ensures SentOn(view, c) ==
          if Deliver(s, sender, id) == Push && s.registry[id] == Some(c) then SentOn(s, c) + [msg] else SentOn(s, c)
      {
        SendSends(s, sender, id, msg, at, c);
        TickedSends(AfterSend(s, sender, id, msg, at), at, c);
      }
    }

    lemma OwnRegistration(id: string)
      requires Valid()
      ensures id in view.registry ==> view.registry[id].Some? && view.registry[id].value in view.owner
    {
      StaysLive(Init(started), history, id);
    }

    /** An agent whose registered channel has a receiver has nothing queued. */
    lemma LiveAgentsWait(id: string)
      requires Valid() && id in agents.agents
      ensures agents.agents[id].tx.Some?
      ensures agents.agents[id].tx.value.open ==> QueueOf(queue.queues, id) == []
    {
      WholeUndisturbed(Init(started), history, id);
      AtomicNeverOvertakes(Init(started), history, id);
    }

    /** Whatever was done, if the time of day never went back: what left the hub for an agent, followed by its
        queue, is what was accepted for it and not dropped, in order. */
    lemma KeptInOrder(id: string)
      requires Valid() && Timely(started, history)
      ensures Kept(LedgerOf(view, id)) == All(LedgerOf(view, id).settled) + Bodies(QueueOf(queue.queues, id))
    {
      WholeUndisturbed(Init(started), history, id);
      FifoCustody(started, history, id);
    }

    /** If nothing was pruned and no sender ignored a failed push: what senders had for an agent is what was handed
        over across all its connections, followed by its queue, in order. */
    lemma DeliveredInOrder(id: string)
      requires Valid() && Reliable(history)
      ensures Offered(history, id) == Handed(LedgerOf(view, id)) + Bodies(QueueOf(queue.queues, id))
    {
      WholeUndisturbed(Init(started), history, id);
      EndToEndFifo(started, history, id);
      WholeAccepts(Init(started), history, id);
    }

    /** And for an agent with one connection, what that connection's channel has been sent. */
    lemma SentInOrder(id: string, tx: Channel)
      requires Valid() && Reliable(history)
      requires tx in view.owner && forall c :: c in view.owner && view.owner[c] == id <==> c == tx
      ensures Offered(history, id) == tx.sent + Bodies(QueueOf(queue.queues, id))
    {
      DeliveredInOrder(id);
      NoMisdelivery(started, history, id);
      OnlyThrough(LedgerOf(view, id).settled, tx);
    }

    /** A websocket is accepted for an agent. */
    method Connect(id: string) returns (tx: Channel)
      requires Valid()
      modifies this`view, this`history
      ensures Valid() && fresh(tx) && history == old(history) + [Step.Connect(tx, id)]
      ensures tx.open && tx.sent == []
    {
      tx := new Channel();
      ghost var s := view;
      NoMisdelivery(started, history, id);
      Record(Step.Connect(tx, id));
      forall c | c in view.owner ensures c.sent == SentOn(view, c) {
        ConnectSends(s, tx, id, c);
      }
    }

    /** The forwarder from a connection's channel to its socket ends, and with it the receiver. */
    method ReceiverGone(tx: Channel)
      requires Valid() && tx in view.owner
      modifies this`view, this`history, tx
      ensures Valid() && history == old(history) + [Close(tx)]
    {
      tx.open := false;
      Record(Close(tx));
    }

    /** A hello's effect on the registry, the queue and the channel: the agent is registered, and only
        then is its queue drained into the new channel. */
    method RegisterAndDrain(id: string, hostname: string, tx: Channel, now: int) returns (delivered: nat)
      modifies agents, queue, tx
      ensures agents.agents == old(agents.agents)[id := Agent(id, hostname, "/net/" + id, now, now, Some(tx))]
      ensures Registrations(agents.agents) == Registrations(old(agents.agents))[id := Some(tx)]
      ensures delivered <= |QueueOf(old(queue.queues), id)|
      ensures queue.queues == Drained(old(queue.queues), id, delivered)
      ensures tx.sent == old(tx.sent) + Bodies(QueueOf(old(queue.queues), id)[..delivered])
      ensures tx.open == (old(tx.open) && delivered == |QueueOf(old(queue.queues), id)|)
      ensures delivered > 0 ==> old(tx.open)
    {
      agents.Register(Agent(id, hostname, "/net/" + id, now, now, Some(tx)));
      delivered := queue.DrainTo(id, tx);
    }

    method Hello(id: string, hostname: string, tx: Channel, now: int) returns (delivered: nat)
      requires Valid() && Serving(view, tx) && view.owner[tx] == id
      modifies this`view, this`history, agents, queue, tx
      ensures Valid() && history == old(history) + [Step.Hello(tx, delivered)]
      ensures agents.agents == old(agents.agents)[id := Agent(id, hostname, "/net/" + id, now, now, Some(tx))]
      ensures delivered <= |QueueOf(old(queue.queues), id)| && queue.queues == Drained(old(queue.queues), id, delivered)
      ensures tx.sent == old(tx.sent) + Bodies(QueueOf(old(queue.queues), id)[..delivered])
    {
      hide Exec, Legal, SentOn, Drained, Bodies;
      ghost var s := view;
      delivered := RegisterAndDrain(id, hostname, tx, now);
      assert Enabled(s, Step.Hello(tx, delivered));
      RecordHello(tx, delivered);
      forall c | c in view.owner ensures (c in view.open <==> c.open) && c.sent == SentOn(view, c) {
        if c != tx {
          assert c.sent == old(c.sent) && c.open == old(c.open);
        }
      }
    }

    /** A connection's receive loop ends. Only the registered connection unregisters its agent. */
    method Teardown(id: string, tx: Channel)
      requires Valid() && Serving(view, tx) && view.owner[tx] == id
      modifies this`view, this`history, agents
      ensures Valid() && history == old(history) + [Step.Teardown(tx)]
      ensures agents.agents ==
        if id in old(agents.agents) && old(agents.agents)[id].tx == Some(tx) then old(agents.agents) - {id}
        else old(agents.agents)
    {
      hide Exec, Legal, SentOn;
      var found := agents.Get(id);
      if found.Some? && found.value.tx.Some? && found.value.tx.value == tx {
        var _ := agents.Unregister(id);
      }
      RecordQuiet(Step.Teardown(tx));
    }

    /** A heartbeat moves nothing. */
    method Heartbeat(id: string, now: int)
      requires Valid()
      modifies agents
      ensures Valid()
      ensures agents.agents ==
        if id in old(agents.agents) then old(agents.agents)[id := old(agents.agents)[id].(lastHeartbeat := now)]
        else old(agents.agents)
    {
      agents.Heartbeat(id, now);
    }

    /** Unregisters an agent, by the cleanup of stale agents or by request. */
    method UnregisterAgent(id: string)
      requires Valid()
      modifies this`view, this`history, agents
      ensures Valid() && history == old(history) + [Unregister(id)]
      ensures agents.agents == old(agents.agents) - {id}
    {
      var _ := agents.Unregister(id);
      RecordQuiet(Unregister(id));
    }

    /** Unregisters every agent found stale, whatever has become of it since. */
    method CleanupStale(thresholdSecs: int, now: int) returns (stale: seq<string>)
      requires Valid()
      modifies this`view, this`history, agents
      ensures Valid() && history == old(history) + Unregistrations(stale)
      ensures forall id :: id in stale <==>
        id in old(agents.agents) && Stale(old(agents.agents)[id], now, thresholdSecs)
      ensures agents.agents == old(agents.agents) - (set id | id in stale)
      ensures thresholdSecs >= 0 ==> forall id :: id in agents.agents <==>
        id in old(agents.agents) &&
        now - old(agents.agents)[id].lastHeartbeat < (thresholdSecs + 1) * TICKS_PER_SECOND
    {
      hide Exec, Legal, SentOn, Agents.Stale;
      stale := agents.StaleAgents(thresholdSecs, now);
      UnregisterAll(stale);
    }

    method UnregisterAll(stale: seq<string>)
      requires Valid()
      modifies this`view, this`history, agents
      ensures Valid() && history == old(history) + Unregistrations(stale)
      ensures agents.agents == old(agents.agents) - (set id | id in stale)
    {
      hide Exec, Legal, SentOn, Valid;
      assert stale[..0] == [];
      for i := 0 to |stale|
        invariant Valid() && history == old(history) + Unregistrations(stale[..i])
        invariant agents.agents == old(agents.agents) - (set id | id in stale[..i])
      {
        UnregistrationsAppend<Channel>(stale[..i], stale[i]);
        assert stale[..i + 1] == stale[..i] + [stale[i]];
        UnregisterAgent(stale[i]);
      }
      assert stale[..|stale|] == stale;
    }

    /** Delivery of a routed message by `/msg`: on failure the message is queued. */
    method DeliverHttp(dest: string, msg: Message, now: int) returns (ghost steps: seq<Step<Channel>>)
      requires Valid()
      modifies this`view, this`history, queue, view.owner.Keys
      ensures Valid() && history == old(history) + steps
      ensures match TargetAgent(dest)
        case None => steps == []
        case Some(id) => Sends(old(view), steps, Http, id, msg, now)
      // A destination outside of all namespaces is nobody's: nothing moves.
      ensures !("/net/" <= dest) ==>
        queue.queues == old(queue.queues) && forall c :: c in old(view).owner ==> c.sent == old(c.sent)
      ensures TargetAgent(dest).Some? ==>
        var id, msg' := TargetAgent(dest).value, msg;
        && queue.queues ==
             (if HasLive(id) || (id in agents.agents && agents.agents[id].tx == None) then old(queue.queues)
              else Enqueued(old(queue.queues), id, msg', now))
        && forall c :: c in old(view).owner ==>
             c.sent == if HasLive(id) && agents.agents[id].tx == Some(c) then old(c.sent) + [msg'] else old(c.sent)
    {
      steps := [];
      var target := TargetAgent(dest);
      if target.Some? {
        steps := SendHttp(target.value, msg, now);
      }
    }

    method SendHttp(id: string, msg: Message, now: int) returns (ghost steps: seq<Step<Channel>>)
      requires Valid()
      modifies this`view, this`history, queue, view.owner.Keys
      ensures Valid() && history == old(history) + steps && Sends(old(view), steps, Http, id, msg, now)
      ensures queue.queues ==
        if HasLive(id) || (id in agents.agents && agents.agents[id].tx == None) then old(queue.queues)
        else Enqueued(old(queue.queues), id, msg, now)
      ensures forall c :: c in old(view).owner ==>
        c.sent == if HasLive(id) && agents.agents[id].tx == Some(c) then old(c.sent) + [msg] else old(c.sent)
    {
      hide Exec, Legal, SentOn, Sends, Enqueued;
      OwnRegistration(id);
      var ok := false;
      var found := agents.Get(id);
      if found.Some? {
        if found.value.tx.Some? {
          ok := found.value.tx.value.Send(msg);
          if !ok {
            queue.Enqueue(id, msg, now);
          }
        }
      } else {
        queue.Enqueue(id, msg, now);
      }
      steps := RecordSend(Http, id, msg, now, ok);
      forall c | c in view.owner ensures (c in view.open <==> c.open) && c.sent == SentOn(view, c) {
        if found.None? || found.value.tx != Some(c) {
          assert c.sent == old(c.sent) && c.open == old(c.open);
        }
      }
    }

    /** Delivery over gRPC: whatever was not sent is queued. */
    method DeliverGrpc(dest: string, msg: Message, now: int) returns (ghost steps: seq<Step<Channel>>)
      requires Valid()
      modifies this`view, this`history, queue, view.owner.Keys
      ensures Valid() && history == old(history) + steps
      ensures match TargetAgent(dest)
        case None => steps == []
        case Some(id) => Sends(old(view), steps, Grpc, id, msg, now)
      // A destination outside of all namespaces is nobody's: nothing moves.
      ensures !("/net/" <= dest) ==>
        queue.queues == old(queue.queues) && forall c :: c in old(view).owner ==> c.sent == old(c.sent)
      ensures TargetAgent(dest).Some? ==>
        var id, msg' := TargetAgent(dest).value, msg;
        && queue.queues ==
             (if HasLive(id) then old(queue.queues)
              else Enqueued(old(queue.queues), id, msg', now))
        && forall c :: c in old(view).owner ==>
             c.sent == if HasLive(id) && agents.agents[id].tx == Some(c) then old(c.sent) + [msg'] else old(c.sent)
    {
      steps := [];
      var target := TargetAgent(dest);
      if target.Some? {
        steps := SendGrpc(target.value, msg, now);
      }
    }

    method SendGrpc(id: string, msg: Message, now: int) returns (ghost steps: seq<Step<Channel>>)
      requires Valid()
      modifies this`view, this`history, queue, view.owner.Keys
      ensures Valid() && history == old(history) + steps && Sends(old(view), steps, Grpc, id, msg, now)
      ensures queue.queues ==
        if HasLive(id) then old(queue.queues)
        else Enqueued(old(queue.queues), id, msg, now)
      ensures forall c :: c in old(view).owner ==>
        c.sent == if HasLive(id) && agents.agents[id].tx == Some(c) then old(c.sent) + [msg] else old(c.sent)
    {
      hide Exec, Legal, SentOn, Sends, Enqueued;
      OwnRegistration(id);
      var ok := false;
      var found := agents.Get(id);
      if found.Some? && found.value.tx.Some? {
        ok := found.value.tx.value.Send(msg);
      }
      if !ok {
        queue.Enqueue(id, msg, now);
      }
      steps := RecordSend(Grpc, id, msg, now, ok);
      forall c | c in view.owner ensures (c in view.open <==> c.open) && c.sent == SentOn(view, c) {
        if found.None? || found.value.tx != Some(c) {
          assert c.sent == old(c.sent) && c.open == old(c.open);
        }
      }
    }

    /** Delivery of a message one agent sends over its websocket: it is signed with the sender's name,
        and a failure to push it is ignored. */
    method DeliverWebsocket(sender: string, dest: string, msg: Message, now: int)
      returns (ghost steps: seq<Step<Channel>>)
      requires Valid()
      modifies this`view, this`history, queue, view.owner.Keys
      ensures Valid() && history == old(history) + steps
      ensures match TargetAgent(dest)
        case None => steps == []
        case Some(id) =>
          Sends(old(view), steps, Websocket, id, msg.(sender := sender, senderNs := "/net/" + sender), now)
      // A destination outside of all namespaces is nobody's: nothing moves.
      ensures !("/net/" <= dest) ==>
        queue.queues == old(queue.queues) && forall c :: c in old(view).owner ==> c.sent == old(c.sent)
      ensures TargetAgent(dest).Some? ==>
        var id, msg' := TargetAgent(dest).value, msg.(sender := sender, senderNs := "/net/" + sender);
        && queue.queues ==
             (if id in agents.agents then old(queue.queues)
              else Enqueued(old(queue.queues), id, msg', now))
        && forall c :: c in old(view).owner ==>
             c.sent == if HasLive(id) && agents.agents[id].tx == Some(c) then old(c.sent) + [msg'] else old(c.sent)
    {
      steps := [];
      var target := TargetAgent(dest);
      if target.Some? {
        steps := SendWebsocket(target.value, Signed(msg, sender), now);
      }
    }

    method SendWebsocket(id: string, msg: Message, now: int) returns (ghost steps: seq<Step<Channel>>)
      requires Valid()
      modifies this`view, this`history, queue, view.owner.Keys
      ensures Valid() && history == old(history) + steps && Sends(old(view), steps, Websocket, id, msg, now)
      ensures queue.queues ==
        if id in agents.agents then old(queue.queues)
        else Enqueued(old(queue.queues), id, msg, now)
      ensures forall c :: c in old(view).owner ==>
        c.sent == if HasLive(id) && agents.agents[id].tx == Some(c) then old(c.sent) + [msg] else old(c.sent)
    {
      hide Exec, Legal, SentOn, Sends, Enqueued;
      OwnRegistration(id);
      var ok := false;
      var found := agents.Get(id);
      if found.Some? {
        if found.value.tx.Some? {
          ok := found.value.tx.value.Send(msg);
        }
      } else {
        queue.Enqueue(id, msg, now);
      }
      steps := RecordSend(Websocket, id, msg, now, ok);
      forall c | c in view.owner ensures (c in view.open <==> c.open) && c.sent == SentOn(view, c) {
        if found.None? || found.value.tx != Some(c) {
          assert c.sent == old(c.sent) && c.open == old(c.open);
        }
      }
    }

    /** The REST API delivers like a websocket: a failure to push is ignored. */
    method DeliverApi(dest: string, msg: Message, now: int) returns (ghost steps: seq<Step<Channel>>)
      requires Valid()
      modifies this`view, this`history, queue, view.owner.Keys
      ensures Valid() && history == old(history) + steps
      ensures match TargetAgent(dest)
        case None => steps == []
        case Some(id) => Sends(old(view), steps, Websocket, id, msg, now)
      // A destination outside of all namespaces is nobody's: nothing moves.
      ensures !("/net/" <= dest) ==>
        queue.queues == old(queue.queues) && forall c :: c in old(view).owner ==> c.sent == old(c.sent)
      ensures TargetAgent(dest).Some? ==>
        var id, msg' := TargetAgent(dest).value, msg;
        && queue.queues ==
             (if id in agents.agents then old(queue.queues)
              else Enqueued(old(queue.queues), id, msg', now))
        && forall c :: c in old(view).owner ==>
             c.sent == if HasLive(id) && agents.agents[id].tx == Some(c) then old(c.sent) + [msg'] else old(c.sent)
    {
      steps := [];
      var target := TargetAgent(dest);
      if target.Some? {
        steps := SendWebsocket(target.value, msg, now);
      }
    }

    method PruneQueue(maxAge: int, now: int)
      requires Valid()
      modifies this`view, this`history, queue
      ensures Valid() && history == old(history) + [Prune(maxAge, now)]
      ensures queue.queues == Pruned(old(queue.queues), now, maxAge)
    {
      queue.PruneOld(maxAge, now);
      RecordQuiet(Prune(maxAge, now));
    }
  }

  function Unregistrations<C>(ids: seq<string>): seq<Step<C>>
  {
    if ids == [] then [] else [Unregister(ids[0])] + Unregistrations(ids[1..])
  }

  lemma {:induction false} UnregistrationsAppend<C>(ids: seq<string>, id: string)
    ensures Unregistrations<C>(ids + [id]) == Unregistrations<C>(ids) + [Unregister(id)]
  {
    if ids == [] {
      assert ids + [id] == [id];
    } else {
      assert (ids + [id])[1..] == ids[1..] + [id];
      UnregistrationsAppend<C>(ids[1..], id);
    }
  }
}
