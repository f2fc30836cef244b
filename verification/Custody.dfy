/** Who holds a message: the protocol by which agents connect, say hello, are superseded, go stale and
    tear down, while messages for them are pushed into the live channel or parked in a queue
    (src/net/transport.rs, src/daemon.rs, src/queue.rs, src/agent.rs). What the program does with several
    operations on its maps is there as one step and as the steps of which it consists.

    A state carries the registry, the queues and the channels that still have a receiver, the sends under
    way, and a ledger of what was accepted for each agent and what became of it. Connections are values of
    a type `C`.
 */
module Custody {
  import opened Options
  import opened Messages
  import opened Queue

  // ---------------------------------------------------------------- ledgers

  /** A message that is lost was dropped on arrival or has grown too old, or it was swept away with a queue
      thought to be empty. */
  datatype Loss = Safe | Lost | Swept

  datatype Entry<C> = Entry(msg: Message, loss: Loss, via: Option<C>)

  /** `accepted` lists every message accepted for an agent, marked lost when it was dropped on arrival.
      `settled` lists, in order, every message that left the hub's custody: handed over via a connection,
      or lost to pruning, for its age or swept away. */
  datatype Ledger<C> = Ledger(accepted: seq<Entry<C>>, settled: seq<Entry<C>>)

  function All<C>(log: seq<Entry<C>>): seq<Message>
  {
    if log == [] then [] else [log[0].msg] + All(log[1..])
  }

  function Select<C>(log: seq<Entry<C>>, lost: bool): seq<Message>
  {
    if log == [] then []
    else if (log[0].loss != Safe) == lost then [log[0].msg] + Select(log[1..], lost)
    else Select(log[1..], lost)
  }

  /** What was lost that way. */
  function LostBy<C>(log: seq<Entry<C>>, loss: Loss): seq<Message>
  {
    if log == [] then []
    else if log[0].loss == loss then [log[0].msg] + LostBy(log[1..], loss)
    else LostBy(log[1..], loss)
  }

  function Entries<C>(ms: seq<Message>, loss: Loss, via: Option<C>): seq<Entry<C>>
  {
    if ms == [] then [] else [Entry(ms[0], loss, via)] + Entries(ms[1..], loss, via)
  }

  /** What was handed over via one connection. */
  function Through<C(==)>(log: seq<Entry<C>>, c: C): seq<Message>
  {
    if log == [] then []
    else if log[0].via == Some(c) then [log[0].msg] + Through(log[1..], c)
    else Through(log[1..], c)
  }

  function Kept<C>(l: Ledger<C>): seq<Message> { Select(l.accepted, false) }
  function Dropped<C>(l: Ledger<C>): seq<Message> { Select(l.accepted, true) }
  function Handed<C>(l: Ledger<C>): seq<Message> { Select(l.settled, false) }
  function PrunedAway<C>(l: Ledger<C>): seq<Message> { LostBy(l.settled, Lost) }
  function SweptAway<C>(l: Ledger<C>): seq<Message> { LostBy(l.settled, Swept) }

  lemma {:induction false} SelectSplits<C>(a: seq<Entry<C>>, b: seq<Entry<C>>, lost: bool)
    ensures Select(a + b, lost) == Select(a, lost) + Select(b, lost)
  {
    if a == [] {
      assert a + b == b;
    } else {
      assert (a + b)[1..] == a[1..] + b;
      SelectSplits(a[1..], b, lost);
    }
  }

  lemma {:induction false} AllSplits<C>(a: seq<Entry<C>>, b: seq<Entry<C>>)
    ensures All(a + b) == All(a) + All(b)
  {
    if a == [] {
      assert a + b == b;
    } else {
      assert (a + b)[1..] == a[1..] + b;
      AllSplits(a[1..], b);
    }
  }

  lemma {:induction false} AllEntries<C>(ms: seq<Message>, loss: Loss, via: Option<C>)
    ensures All(Entries(ms, loss, via)) == ms
    ensures forall e :: e in Entries(ms, loss, via) ==> e.loss == loss
  {
    if ms != [] {
      AllEntries(ms[1..], loss, via);
    }
  }

  lemma {:induction false} ThroughSplits<C>(a: seq<Entry<C>>, b: seq<Entry<C>>, c: C)
    ensures Through(a + b, c) == Through(a, c) + Through(b, c)
  {
    if a == [] {
      assert a + b == b;
    } else {
      assert (a + b)[1..] == a[1..] + b;
      ThroughSplits(a[1..], b, c);
    }
  }

  lemma {:induction false} ThroughEntries<C>(ms: seq<Message>, loss: Loss, via: Option<C>, c: C)
    ensures Through(Entries(ms, loss, via), c) == if via == Some(c) then ms else []
  {
    if ms != [] {
      ThroughEntries(ms[1..], loss, via, c);
    }
  }

  lemma {:induction false} LostBySplits<C>(a: seq<Entry<C>>, b: seq<Entry<C>>, loss: Loss)
    ensures LostBy(a + b, loss) == LostBy(a, loss) + LostBy(b, loss)
  {
    if a == [] {
      assert a + b == b;
    } else {
      assert (a + b)[1..] == a[1..] + b;
      LostBySplits(a[1..], b, loss);
    }
  }

  lemma {:induction false} LostByEntries<C>(ms: seq<Message>, how: Loss, via: Option<C>, loss: Loss)
    ensures LostBy(Entries(ms, how, via), loss) == if how == loss then ms else []
  {
    if ms != [] {
      LostByEntries(ms[1..], how, via, loss);
    }
  }

  lemma {:induction false} SelectUniform<C>(log: seq<Entry<C>>, lost: bool)
    requires forall e :: e in log ==> (e.loss != Safe) == lost
    ensures Select(log, lost) == All(log) && Select(log, !lost) == []
  {
    if log != [] {
      SelectUniform(log[1..], lost);
    }
  }

  lemma {:induction false} SelectPartitions<C>(log: seq<Entry<C>>)
    ensures multiset(All(log)) == multiset(Select(log, false)) + multiset(Select(log, true))
  {
    if log != [] {
      SelectPartitions(log[1..]);
      assert All(log) == [log[0].msg] + All(log[1..]);
    }
  }

  lemma {:induction false} LossPartitions<C>(log: seq<Entry<C>>)
    ensures multiset(All(log)) ==
      multiset(Select(log, false)) + multiset(LostBy(log, Lost)) + multiset(LostBy(log, Swept))
  {
    if log != [] {
      LossPartitions(log[1..]);
      assert All(log) == [log[0].msg] + All(log[1..]);
    }
  }

  // ---------------------------------------------------------------- states and steps

  datatype State<C(==)> = State(
    registry: map<string, Option<C>>,
    queues: Queues,
    open: set<C>,
    owner: map<C, string>,
    draining: set<C>,
    leaving: set<C>,
    torn: set<C>,
    marked: multiset<string>,
    flights: seq<Flight<C>>,
    ledger: map<string, Ledger<C>>,
    clock: int)

  /** `/msg`; the gRPC endpoint; and the senders that ignore a failure to push: a message that arrives over a
      websocket or through the REST API. */
  datatype Sender = Http | Grpc | Websocket

  /** A send under way: its sender looked the agent up and `found` nobody, or an entry with or without a
      channel. It acts on that, whatever the registry says by then, and may have to enqueue after that. */
  datatype Flight<C> = Flight(sender: Sender, agent: string, msg: Message, found: Option<Option<C>>, phase: Phase)

  datatype Phase = Looked | Parking | Done

  datatype Step<C(==)> =
    | Connect(conn: C, agent: string)
    | Close(conn: C)
    | Register(conn: C)
    | Drain(conn: C, sent: nat)
    | Hello(conn: C, sent: nat)
    | Teardown(conn: C)
    | Leave(conn: C)
    | Evict(conn: C)
    | Unregister(agent: string)
    | Send(sender: Sender, agent: string, msg: Message, at: int)
    | Look(sender: Sender, agent: string, msg: Message)
    | Act(flight: nat)
    | Enqueue(flight: nat, at: int)
    | Prune(maxAge: int, at: int)
    | Sift(agent: string, maxAge: int, at: int)
    | Mark(agent: string)
    | Sweep(agent: string)

  function Init<C>(clock: int): State<C>
  {
    State(map[], map[], {}, map[], {}, {}, {}, multiset{}, [], map[], clock)
  }

  function LedgerOf<C(==)>(s: State<C>, id: string): Ledger<C>
  {
    if id in s.ledger then s.ledger[id] else Ledger([], [])
  }

  function Accept<C(==)>(s: State<C>, id: string, msg: Message, loss: Loss): State<C>
  {
    var l := LedgerOf(s, id);
    s.(ledger := s.ledger[id := l.(accepted := l.accepted + [Entry(msg, loss, None)])])
  }

  function Settle<C(==)>(s: State<C>, id: string, log: seq<Entry<C>>): State<C>
  {
    var l := LedgerOf(s, id);
    s.(ledger := s.ledger[id := l.(settled := l.settled + log)])
  }

  /** What becomes of a message sent to an agent. */
  datatype Delivery = Push | Park | Drop

  function Found<C(==)>(s: State<C>, id: string): Option<Option<C>>
  {
    if id in s.registry then Some(s.registry[id]) else None
  }

  /** A sender's choice by what it found. */
  function Fate<C(==)>(s: State<C>, sender: Sender, found: Option<Option<C>>): Delivery
  {
    if found.None? then Park
    else if found.value.None? then (if sender == Grpc then Park else Drop)
    else if found.value.value in s.open then Push
    else if sender == Websocket then Drop
    else Park
  }

  function Deliver<C(==)>(s: State<C>, sender: Sender, id: string): Delivery { Fate(s, sender, Found(s, id)) }

  function Via<C>(found: Option<Option<C>>): Option<C> { if found.Some? then found.value else None }

  /** A message gets where it was decided it should go. */
  function Taken<C(==)>(s: State<C>, id: string, msg: Message, fate: Delivery, via: Option<C>, at: int): State<C>
  {
    match fate
    case Push => Settle(Accept(s, id, msg, Safe), id, [Entry(msg, Safe, via)])
    case Park => Accept(s, id, msg, Safe).(queues := Enqueued(s.queues, id, msg, at))
    case Drop => Accept(s, id, msg, Lost)
  }

  /** A send whose look-up, push and enqueueing nothing comes between. */
  function AfterSend<C(==)>(s: State<C>, sender: Sender, id: string, msg: Message, at: int): State<C>
  {
    Taken(s, id, msg, Deliver(s, sender, id), Via(Found(s, id)), at)
  }

  function AfterLook<C(==)>(s: State<C>, sender: Sender, id: string, msg: Message): State<C>
  {
    s.(flights := s.flights + [Flight(sender, id, msg, Found(s, id), Looked)])
  }

  function Moved<C(==)>(s: State<C>, i: nat, phase: Phase): State<C>
    requires i < |s.flights|
  {
    s.(flights := s.flights[i := s.flights[i].(phase := phase)])
  }

  /** The sender pushes into the channel it found, or drops the message, or will have to enqueue it. */
  function AfterAct<C(==)>(s: State<C>, i: nat): State<C>
    requires i < |s.flights|
  {
    var f := s.flights[i];
    var fate := Fate(s, f.sender, f.found);
    if fate == Park then Moved(s, i, Parking)
    else Moved(Taken(s, f.agent, f.msg, fate, Via(f.found), s.clock), i, Done)
  }

  function AfterEnqueue<C(==)>(s: State<C>, i: nat, at: int): State<C>
    requires i < |s.flights|
  {
    Moved(Taken(s, s.flights[i].agent, s.flights[i].msg, Park, None, at), i, Done)
  }

  function AfterRegister<C(==)>(s: State<C>, c: C): State<C>
    requires c in s.owner
  {
    var id := s.owner[c];
    s.(registry := s.registry[id := Some(c)], draining := s.draining + {c})
  }

  /** The drain loop pops and sends `sent` messages. It goes on until the queue is exhausted or the receiver
      is found gone; nothing here holds others off meanwhile. */
  function AfterDrain<C(==)>(s: State<C>, c: C, sent: nat): State<C>
    requires c in s.owner && sent <= |QueueOf(s.queues, s.owner[c])|
  {
    var id := s.owner[c];
    var q := QueueOf(s.queues, id);
    Settle(s, id, Entries(Bodies(q[..sent]), Safe, Some(c)))
      .(queues := Drained(s.queues, id, sent),
        draining := if sent < |q| && c in s.open then s.draining else s.draining - {c})
  }

  /** A hello that nothing comes between: if it cannot send everything, the receiver went away under it. */
  function AfterHello<C(==)>(s: State<C>, c: C, sent: nat): State<C>
    requires c in s.owner && sent <= |QueueOf(s.queues, s.owner[c])|
  {
    var emptied := sent == |QueueOf(s.queues, s.owner[c])|;
    AfterDrain(AfterRegister(s, c), c, sent)
      .(open := if emptied then s.open else s.open - {c}, draining := s.draining - {c})
  }

  predicate Current<C(==)>(s: State<C>, c: C)
  {
    c in s.owner && s.owner[c] in s.registry && s.registry[s.owner[c]] == Some(c)
  }

  /** A connection that was superseded leaves the registry alone. */
  function AfterTeardown<C(==)>(s: State<C>, c: C): State<C>
  {
    s.(registry := if Current(s, c) then s.registry - {s.owner[c]} else s.registry, torn := s.torn + {c})
  }

  /** The teardown finds its connection registered, or it is superseded and done. */
  function AfterLeave<C(==)>(s: State<C>, c: C): State<C>
  {
    if Current(s, c) then s.(leaving := s.leaving + {c}) else s.(torn := s.torn + {c})
  }

  /** Its second half removes the agent's entry, whosever that is by now. */
  function AfterEvict<C(==)>(s: State<C>, c: C): State<C>
    requires c in s.owner
  {
    s.(registry := s.registry - {s.owner[c]}, leaving := s.leaving - {c}, torn := s.torn + {c})
  }

  function Discarded(q: seq<QueuedMessage>, now: int, maxAge: int): seq<QueuedMessage>
  {
    if q == [] then []
    else if Young(q[0], now, maxAge) then Discarded(q[1..], now, maxAge)
    else [q[0]] + Discarded(q[1..], now, maxAge)
  }

  function AfterPrune<C(==)>(s: State<C>, maxAge: int, now: int): State<C>
  {
    s.(queues := Pruned(s.queues, now, maxAge),
       ledger := map id | id in s.ledger.Keys + s.queues.Keys ::
         var l := LedgerOf(s, id);
         l.(settled := l.settled + Entries(Bodies(Discarded(QueueOf(s.queues, id), now, maxAge)), Lost, None)))
  }

  /** Pruning passes over one queue. What it empties stays in the map for the time being. */
  function AfterSift<C(==)>(s: State<C>, id: string, maxAge: int, now: int): State<C>
    requires id in s.queues
  {
    Settle(s, id, Entries(Bodies(Discarded(s.queues[id], now, maxAge)), Lost, None))
      .(queues := s.queues[id := Retained(s.queues[id], now, maxAge)])
  }

  /** It removes a queue that it found empty before, with whatever is in it by now. */
  function AfterSweep<C(==)>(s: State<C>, id: string): State<C>
  {
    Settle(s, id, Entries(Bodies(QueueOf(s.queues, id)), Swept, None))
      .(queues := s.queues - {id}, marked := s.marked - multiset{id})
  }

  function Ticked<C(==)>(s: State<C>, at: int): State<C> { if at > s.clock then s.(clock := at) else s }

  /** One connection's messages are handled one after the other: it neither says hello again nor tears
      down between registering and draining, and after its teardown begins it is not heard of again. */
  predicate Serving<C(==)>(s: State<C>, c: C)
  {
    c in s.owner && c !in s.torn && c !in s.draining && c !in s.leaving
  }

  predicate Enabled<C(==)>(s: State<C>, step: Step<C>)
  {
    match step
    case Connect(c, _) => c !in s.owner
    case Close(c) => c in s.owner
    case Register(c) => Serving(s, c)
    case Drain(c, k) => c in s.owner && c in s.draining && DrainsTo(s, c, k)
    case Hello(c, k) => Serving(s, c) && DrainsTo(s, c, k)
    case Teardown(c) => Serving(s, c)
    case Leave(c) => Serving(s, c)
    case Evict(c) => c in s.owner && c in s.leaving
    case Unregister(_) => true
    case Send(_, _, _, _) => true
    case Look(_, _, _) => true
    case Act(i) => i < |s.flights| && s.flights[i].phase == Looked
    case Enqueue(i, _) => i < |s.flights| && s.flights[i].phase == Parking
    case Prune(_, _) => true
    case Sift(id, _, _) => id in s.queues
    case Mark(id) => id in s.queues && s.queues[id] == []
    case Sweep(id) => id in s.marked
  }

  predicate DrainsTo<C(==)>(s: State<C>, c: C, sent: nat)
    requires c in s.owner
  {
    sent <= |QueueOf(s.queues, s.owner[c])| && (sent > 0 ==> c in s.open)
  }

  function Next<C(==)>(s: State<C>, step: Step<C>): State<C>
    requires Enabled(s, step)
  {
    match step
    case Connect(c, id) => s.(owner := s.owner[c := id], open := s.open + {c})
    case Close(c) => s.(open := s.open - {c})
    case Register(c) => AfterRegister(s, c)
    case Drain(c, k) => AfterDrain(s, c, k)
    case Hello(c, k) => AfterHello(s, c, k)
    case Teardown(c) => AfterTeardown(s, c)
    case Leave(c) => AfterLeave(s, c)
    case Evict(c) => AfterEvict(s, c)
    case Unregister(id) => s.(registry := s.registry - {id})
    case Send(sender, id, msg, at) => Ticked(AfterSend(s, sender, id, msg, at), at)
    case Look(sender, id, msg) => AfterLook(s, sender, id, msg)
    case Act(i) => AfterAct(s, i)
    case Enqueue(i, at) => Ticked(AfterEnqueue(s, i, at), at)
    case Prune(maxAge, at) => Ticked(AfterPrune(s, maxAge, at), at)
    case Sift(id, maxAge, at) => AfterSift(s, id, maxAge, at)
    case Mark(id) => s.(marked := s.marked + multiset{id})
    case Sweep(id) => AfterSweep(s, id)
  }

  // ---------------------------------------------------------------- runs

  predicate Legal<C(==)>(s: State<C>, run: seq<Step<C>>)
    decreases run
  {
    run == [] || (Enabled(s, run[0]) && Legal(Next(s, run[0]), run[1..]))
  }

  function Exec<C(==)>(s: State<C>, run: seq<Step<C>>): State<C>
    requires Legal(s, run)
    decreases run
  {
    if run == [] then s else Exec(Next(s, run[0]), run[1..])
  }

  /** The step takes the time of day. (The pieces of a pruning go by a time taken before them.) */
  predicate Reads<C(==)>(step: Step<C>) { step.Send? || step.Enqueue? || step.Prune? }

  /** Clock readings never go back. */
  ghost predicate Timely<C>(clock: int, run: seq<Step<C>>)
    decreases run
  {
    run == [] ||
    (if Reads(run[0]) then clock <= run[0].at && Timely(run[0].at, run[1..]) else Timely(clock, run[1..]))
  }

  /** No hello is split into registering and draining. */
  ghost predicate Atomic<C>(run: seq<Step<C>>)
  {
    forall i :: 0 <= i < |run| ==> !run[i].Register? && !run[i].Drain?
  }

  /** No send is split into look-up, push and enqueueing. */
  ghost predicate Whole<C>(run: seq<Step<C>>)
  {
    forall i :: 0 <= i < |run| ==> !run[i].Look? && !run[i].Act? && !run[i].Enqueue?
  }

  ghost predicate Unsplit<C>(run: seq<Step<C>>) { Atomic(run) && Whole(run) }

  lemma ExecHead<C>(s: State<C>, step: Step<C>, rest: seq<Step<C>>)
    requires Enabled(s, step) && Legal(Next(s, step), rest)
    ensures Legal(s, [step] + rest) && Exec(s, [step] + rest) == Exec(Next(s, step), rest)
  {
    hide Enabled, Next;
    assert ([step] + rest)[1..] == rest;
  }

  lemma {:induction false} ExecSplits<C>(s: State<C>, xs: seq<Step<C>>, ys: seq<Step<C>>)
    requires Legal(s, xs) && Legal(Exec(s, xs), ys)
    ensures Legal(s, xs + ys) && Exec(s, xs + ys) == Exec(Exec(s, xs), ys)
    decreases xs
  {
    hide Next, Enabled;
    if xs == [] {
      assert xs + ys == ys;
    } else {
      ExecSplits(Next(s, xs[0]), xs[1..], ys);
      ExecHead(s, xs[0], xs[1..] + ys);
      assert [xs[0]] + (xs[1..] + ys) == xs + ys;
    }
  }
}
