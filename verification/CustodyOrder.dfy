/** Conservation and order of the messages in the custody protocol. */
module CustodyOrder {
  import opened Options
  import opened Clock
  import opened Messages
  import opened Queue
  import opened Custody
  import opened Sequences

  /** Everything kept for an agent, in the order it left or will leave: what was settled, then the queue. */
  function Outcome<C(==)>(s: State<C>, id: string): seq<Message>
  {
    All(LedgerOf(s, id).settled) + Bodies(QueueOf(s.queues, id))
  }

  function Accepted<C(==)>(s: State<C>, id: string): seq<Message>
  {
    Kept(LedgerOf(s, id))
  }

  // ---------------------------------------------------------------- pruning

  /** Queued messages are in the order of their arrival times, none later than the clock. */
  ghost predicate Ordered(q: seq<QueuedMessage>, clock: int)
  {
    && (forall i :: 0 <= i < |q| ==> q[i].enqueuedAt <= clock)
    && (forall i, j :: 0 <= i < j < |q| ==> q[i].enqueuedAt <= q[j].enqueuedAt)
  }

  lemma {:induction false} RetainedPartition(q: seq<QueuedMessage>, now: int, maxAge: int)
    ensures multiset(Bodies(q)) ==
      multiset(Bodies(Discarded(q, now, maxAge))) + multiset(Bodies(Retained(q, now, maxAge)))
  {
    if q != [] {
      var discarded, retained := Discarded(q[1..], now, maxAge), Retained(q[1..], now, maxAge);
      RetainedPartition(q[1..], now, maxAge);
      BodiesCons(q[0], discarded);
      BodiesCons(q[0], retained);
      ConsBalances(q[0].msg, Bodies(q[1..]), Bodies(discarded), Bodies(retained));
    }
  }

  lemma BodiesCons(head: QueuedMessage, tail: seq<QueuedMessage>)
    ensures Bodies([head] + tail) == [head.msg] + Bodies(tail)
  {
    assert ([head] + tail)[1..] == tail;
  }

  lemma ConsBalances<T>(x: T, all: seq<T>, a: seq<T>, b: seq<T>)
    requires multiset(all) == multiset(a) + multiset(b)
    ensures multiset([x] + all) == multiset([x] + a) + multiset(b) == multiset(a) + multiset([x] + b)
  {
  }

  lemma {:induction false} YoungStay(q: seq<QueuedMessage>, now: int, maxAge: int)
    requires forall i :: 0 <= i < |q| ==> Young(q[i], now, maxAge)
    ensures Retained(q, now, maxAge) == q && Discarded(q, now, maxAge) == []
  {
    if q != [] {
      YoungStay(q[1..], now, maxAge);
    }
  }

  /** In an ordered queue pruning cuts off the front. */
  lemma {:induction false} PruneCutsFront(q: seq<QueuedMessage>, clock: int, now: int, maxAge: int)
    requires Ordered(q, clock)
    ensures Discarded(q, now, maxAge) + Retained(q, now, maxAge) == q
  {
    hide WholeSeconds;
    if q != [] {
      if Young(q[0], now, maxAge) {
        forall i | 0 <= i < |q| ensures Young(q[i], now, maxAge) {
          WholeSecondsOrder(now - q[i].enqueuedAt, now - q[0].enqueuedAt);
        }
        YoungStay(q, now, maxAge);
      } else {
        PruneCutsFront(q[1..], clock, now, maxAge);
      }
    }
  }

  lemma {:induction false} RetainedOrdered(q: seq<QueuedMessage>, clock: int, now: int, maxAge: int)
    requires Ordered(q, clock)
    ensures Ordered(Retained(q, now, maxAge), clock)
    ensures forall e :: e in Retained(q, now, maxAge) ==> e in q
  {
    if q != [] {
      RetainedOrdered(q[1..], clock, now, maxAge);
      var r := Retained(q[1..], now, maxAge);
      forall i | 0 <= i < |r| ensures q[0].enqueuedAt <= r[i].enqueuedAt {
        assert r[i] in q[1..];
      }
    }
  }

  // ---------------------------------------------------------------- one step, one agent

  lemma PrunedQueue(m: Queues, now: int, maxAge: int, id: string)
    ensures QueueOf(Pruned(m, now, maxAge), id) == Retained(QueueOf(m, id), now, maxAge)
  {
  }

  lemma DrainedQueue(m: Queues, id: string, k: nat, other: string)
    requires k <= |QueueOf(m, id)|
    ensures QueueOf(Drained(m, id, k), other) == if other == id then QueueOf(m, id)[k..] else QueueOf(m, other)
  {
  }

  /** What pruning does to one agent's messages, in passing over its queue alone or over all of them. */
  ghost predicate Thinned<C>(s: State<C>, s': State<C>, id: string, maxAge: int, now: int)
  {
    var q := QueueOf(s.queues, id);
    && LedgerOf(s', id).accepted == LedgerOf(s, id).accepted
    && LedgerOf(s', id).settled == LedgerOf(s, id).settled + Entries(Bodies(Discarded(q, now, maxAge)), Lost, None)
    && QueueOf(s'.queues, id) == Retained(q, now, maxAge)
  }

  predicate Thins<C(==)>(step: Step<C>, id: string) { step.Prune? || (step.Sift? && step.agent == id) }

  lemma PruneThins<C>(s: State<C>, id: string, maxAge: int, at: int)
    ensures Thinned(s, AfterPrune(s, maxAge, at), id, maxAge, at)
  {
    PrunedQueue(s.queues, at, maxAge, id);
    if id !in s.ledger && id !in s.queues {
      assert LedgerOf(s, id).settled + Entries(Bodies([]), Lost, None) == [];
    }
  }

  lemma SiftThins<C>(s: State<C>, id: string, maxAge: int, at: int)
    requires id in s.queues
    ensures Thinned(s, AfterSift(s, id, maxAge, at), id, maxAge, at)
  {
    hide Discarded, Retained, Entries, Bodies;
  }

  lemma StepThins<C>(s: State<C>, step: Step<C>, id: string)
    requires Enabled(s, step) && Thins(step, id)
    ensures Thinned(s, Next(s, step), id, step.maxAge, step.at)
  {
    hide AfterPrune, AfterSift, Discarded, Retained, Entries, Bodies;
    if step.Prune? {
      PruneThins(s, id, step.maxAge, step.at);
    } else {
      SiftThins(s, id, step.maxAge, step.at);
    }
  }

  predicate Sweeps<C(==)>(step: Step<C>, id: string) { step.Sweep? && step.agent == id }

  lemma SweepSettles<C>(s: State<C>, id: string)
    ensures var s' := AfterSweep(s, id);
      && LedgerOf(s', id).accepted == LedgerOf(s, id).accepted
      && LedgerOf(s', id).settled == LedgerOf(s, id).settled + Entries(Bodies(QueueOf(s.queues, id)), Swept, None)
      && QueueOf(s'.queues, id) == []
  {
  }

  lemma SweepKeepsOrder<C>(s: State<C>, id: string)
    ensures Outcome(AfterSweep(s, id), id) == Outcome(s, id)
  {
    SweepSettles(s, id);
    AllExtended(LedgerOf(s, id).settled, Bodies(QueueOf(s.queues, id)), Swept, None);
  }

  lemma DrainSettles<C>(s: State<C>, c: C, sent: nat, id: string)
    requires c in s.owner && DrainsTo(s, c, sent)
    ensures LedgerOf(AfterDrain(s, c, sent), id).accepted == LedgerOf(s, id).accepted
    ensures Outcome(AfterDrain(s, c, sent), id) == Outcome(s, id)
  {
    var s' := AfterDrain(s, c, sent);
    DrainedQueue(s.queues, s.owner[c], sent, id);
    if s.owner[c] == id {
      var q := QueueOf(s.queues, id);
      assert LedgerOf(s', id).settled == LedgerOf(s, id).settled + Entries(Bodies(q[..sent]), Safe, Some(c));
      Transfer(LedgerOf(s, id).settled, q, sent, Some(c));
    } else {
      assert LedgerOf(s', id) == LedgerOf(s, id);
    }
  }

  lemma Transfer<C>(settled: seq<Entry<C>>, q: seq<QueuedMessage>, sent: nat, via: Option<C>)
    requires sent <= |q|
    ensures All(settled + Entries(Bodies(q[..sent]), Safe, via)) + Bodies(q[sent..]) == All(settled) + Bodies(q)
  {
    var front, back := q[..sent], q[sent..];
    assert q == front + back;
    BodiesSplit(front, back);
    AllExtended(settled, Bodies(front), Safe, via);
    assert All(settled) + Bodies(front) + Bodies(back) == All(settled) + (Bodies(front) + Bodies(back));
  }

  /** The message a step takes into custody, or drops: none for a look-up, nor for an act that is left with
      a message to enqueue. */
  datatype Arrival<C> = Nothing | Arrival(agent: string, msg: Message, fate: Delivery, via: Option<C>, at: int)

  function ArrivalOf<C(==)>(s: State<C>, step: Step<C>): Arrival<C>
    requires Enabled(s, step)
  {
    match step
    case Send(sender, id, msg, at) => Arrival(id, msg, Deliver(s, sender, id), Via(Found(s, id)), at)
    case Act(i) =>
      var f := s.flights[i];
      var fate := Fate(s, f.sender, f.found);
      if fate == Park then Nothing else Arrival(f.agent, f.msg, fate, Via(f.found), s.clock)
    case Enqueue(i, at) => Arrival(s.flights[i].agent, s.flights[i].msg, Park, None, at)
    case _ => Nothing
  }

  /** The step takes or drops a message for `id`. */
  predicate Arrives<C(==)>(s: State<C>, step: Step<C>, id: string)
    requires Enabled(s, step)
  {
    ArrivalOf(s, step).Arrival? && ArrivalOf(s, step).agent == id
  }

  /** What a step does to the order of one agent's messages: an arrival extends both sequences unless the
      message is dropped, and pushing puts it before whatever is queued; nothing else accepts, drops or
      reorders anything, save that pruning may take messages from inside a queue that is not ordered. */
  lemma StepEffect<C>(s: State<C>, step: Step<C>, id: string)
    requires Enabled(s, step)
    ensures var s', a := Next(s, step), ArrivalOf(s, step);
      if Arrives(s, step, id) then
        match a.fate
        case Push =>
          && Accepted(s', id) == Accepted(s, id) + [a.msg]
          && Outcome(s', id) == All(LedgerOf(s, id).settled) + [a.msg] + Bodies(QueueOf(s.queues, id))
        case Park =>
          Accepted(s', id) == Accepted(s, id) + [a.msg] && Outcome(s', id) == Outcome(s, id) + [a.msg]
        case Drop => Accepted(s', id) == Accepted(s, id) && Outcome(s', id) == Outcome(s, id)
      else
        && Accepted(s', id) == Accepted(s, id)
        && (Outcome(s', id) == Outcome(s, id) || (Thins(step, id) && !Ordered(QueueOf(s.queues, id), s.clock)))
  {
    var a := ArrivalOf(s, step);
    if a.Arrival? {
      ArrivalEffect(s, a.agent, a.msg, a.fate, a.via, a.at, id);
      ArrivalNext(s, step);
      Unrecorded(Taken(s, a.agent, a.msg, a.fate, a.via, a.at), Next(s, step), id);
    } else {
      QuietEffect(s, step, id);
    }
  }

  /** An arrival changes the ledger and the queues, and the sends under way. */
  lemma ArrivalNext<C>(s: State<C>, step: Step<C>)
    requires Enabled(s, step) && ArrivalOf(s, step).Arrival?
    ensures var s', a := Next(s, step), ArrivalOf(s, step);
      var t := Taken(s, a.agent, a.msg, a.fate, a.via, a.at);
      && s'.ledger == t.ledger && s'.queues == t.queues
      && s'.registry == s.registry && s'.open == s.open && s'.owner == s.owner
  {
    hide Taken, Fate;
    var a := ArrivalOf(s, step);
    TakenFrame(s, a.agent, a.msg, a.fate, a.via, a.at);
  }

  lemma TakenFrame<C>(s: State<C>, id: string, msg: Message, fate: Delivery, via: Option<C>, at: int)
    ensures var t := Taken(s, id, msg, fate, via, at);
      && t.registry == s.registry && t.open == s.open && t.owner == s.owner && t.flights == s.flights
      && t.draining == s.draining && t.leaving == s.leaving && t.torn == s.torn && t.marked == s.marked
      && t.clock == s.clock
  {
  }

  /** The steps that move messages. Of all else they touch the registry, by a hello, the receivers, where one is
      found gone, the sends under way and the queues collected. */
  predicate MovesMessages<C(==)>(step: Step<C>)
  {
    || step.Send? || step.Act? || step.Enqueue? || step.Drain? || step.Hello?
    || step.Prune? || step.Sift? || step.Sweep?
  }

  lemma MessageFrame<C>(s: State<C>, step: Step<C>)
    requires Enabled(s, step) && MovesMessages(step)
    ensures var s' := Next(s, step);
      && s'.owner == s.owner && s'.torn == s.torn && s'.leaving == s.leaving && s'.open <= s.open
      && s'.registry == (if step.Hello? then s.registry[s.owner[step.conn] := Some(step.conn)] else s.registry)
      && (step.Act? || step.Enqueue? || s'.flights == s.flights)
      && s'.marked == if step.Sweep? then s.marked - multiset{step.agent} else s.marked
  {
    hide AfterSend, AfterAct, AfterEnqueue, AfterDrain, AfterHello, AfterPrune, AfterSift, AfterSweep;
    match step {
      case Send(_, _, _, _) => DeliveryFrame(s, step);
      case Act(_) => DeliveryFrame(s, step);
      case Enqueue(_, _) => DeliveryFrame(s, step);
      case Drain(c, k) => DrainFrame(s, c, k);
      case Hello(c, k) => HelloFrame(s, c, k);
      case Prune(maxAge, at) => PruneFrame(s, maxAge, at);
      case Sift(id, maxAge, at) => SiftFrame(s, id, maxAge, at);
      case Sweep(id) => SweepFrame(s, id);
      case _ =>
    }
  }

  lemma DeliveryFrame<C>(s: State<C>, step: Step<C>)
    requires Enabled(s, step) && (step.Send? || step.Act? || step.Enqueue?)
    ensures var s' := Next(s, step);
      && s' == s.(queues := s'.queues, ledger := s'.ledger, flights := s'.flights, clock := s'.clock)
      && (step.Send? ==> s'.flights == s.flights)
  {
    hide Taken, Fate, LedgerOf, Enqueued;
    if step.Send? {
      var id := step.agent;
      TakenFrame(s, id, step.msg, Deliver(s, step.sender, id), Via(Found(s, id)), step.at);
    } else {
      var f := s.flights[step.flight];
      if step.Act? {
        TakenFrame(s, f.agent, f.msg, Fate(s, f.sender, f.found), Via(f.found), s.clock);
      } else {
        TakenFrame(s, f.agent, f.msg, Park, None, step.at);
      }
    }
  }

  lemma DrainFrame<C>(s: State<C>, c: C, sent: nat)
    requires c in s.owner && sent <= |QueueOf(s.queues, s.owner[c])|
    ensures var s' := AfterDrain(s, c, sent);
      s' == s.(queues := s'.queues, ledger := s'.ledger, draining := s'.draining)
  {
    hide Drained, Bodies, Entries;
  }

  lemma HelloFrame<C>(s: State<C>, c: C, sent: nat)
    requires c in s.owner && sent <= |QueueOf(s.queues, s.owner[c])|
    ensures var s' := AfterHello(s, c, sent);
      && s' == s.(queues := s'.queues, ledger := s'.ledger, registry := s.registry[s.owner[c] := Some(c)],
                  open := s'.open, draining := s.draining - {c})
      && s'.open == if sent == |QueueOf(s.queues, s.owner[c])| then s.open else s.open - {c}
  {
    hide AfterDrain;
    DrainFrame(AfterRegister(s, c), c, sent);
  }

  lemma PruneFrame<C>(s: State<C>, maxAge: int, at: int)
    ensures var s' := AfterPrune(s, maxAge, at); s' == s.(queues := s'.queues, ledger := s'.ledger)
  {
    hide Discarded, Bodies, Entries;
  }

  lemma SiftFrame<C>(s: State<C>, id: string, maxAge: int, at: int)
    requires id in s.queues
    ensures var s' := AfterSift(s, id, maxAge, at); s' == s.(queues := s'.queues, ledger := s'.ledger)
  {
    hide Discarded, Retained, Bodies, Entries;
  }

  lemma SweepFrame<C>(s: State<C>, id: string)
    ensures var s' := AfterSweep(s, id);
      s' == s.(queues := s'.queues, ledger := s'.ledger, marked := s.marked - multiset{id})
  {
    hide Bodies, Entries;
  }

  lemma Unrecorded<C>(s: State<C>, s': State<C>, id: string)
    requires s'.ledger == s.ledger && s'.queues == s.queues
    ensures LedgerOf(s', id) == LedgerOf(s, id)
    ensures Accepted(s', id) == Accepted(s, id) && Outcome(s', id) == Outcome(s, id)
  {
  }

  lemma QuietEffect<C>(s: State<C>, step: Step<C>, id: string)
    requires Enabled(s, step) && ArrivalOf(s, step).Nothing?
    ensures Accepted(Next(s, step), id) == Accepted(s, id)
    ensures
      Outcome(Next(s, step), id) == Outcome(s, id) || (Thins(step, id) && !Ordered(QueueOf(s.queues, id), s.clock))
  {
    hide Taken, Fate, LedgerOf, Ordered, Drained, Next, Enabled, AfterDrain, AfterSweep, Thinned;
    if DrainsFor(s, step, id) {
      StepDrains(s, step, id);
    } else if Thins(step, id) {
      StepThins(s, step, id);
      if Ordered(QueueOf(s.queues, id), s.clock) {
        ThinnedKeepsOrder(s, Next(s, step), step.maxAge, step.at, id);
      }
      ThinnedAccepts(s, Next(s, step), step.maxAge, step.at, id);
    } else if Sweeps(step, id) {
      StepSweeps(s, step, id);
    } else {
      StillStep(s, step, id);
    }
  }

  lemma StepDrains<C>(s: State<C>, step: Step<C>, id: string)
    requires Enabled(s, step) && DrainsFor(s, step, id)
    ensures Outcome(Next(s, step), id) == Outcome(s, id)
    ensures LedgerOf(Next(s, step), id).accepted == LedgerOf(s, id).accepted
  {
    var mid := if step.Hello? then AfterRegister(s, step.conn) else s;
    Unrecorded(s, mid, id);
    DrainSettles(mid, step.conn, step.sent, id);
    Unrecorded(AfterDrain(mid, step.conn, step.sent), Next(s, step), id);
  }

  lemma StepSweeps<C>(s: State<C>, step: Step<C>, id: string)
    requires Enabled(s, step) && Sweeps(step, id)
    ensures Outcome(Next(s, step), id) == Outcome(s, id)
    ensures LedgerOf(Next(s, step), id).accepted == LedgerOf(s, id).accepted
  {
    SweepKeepsOrder(s, id);
    SweepSettles(s, id);
  }

  lemma ThinnedAccepts<C>(s: State<C>, s': State<C>, maxAge: int, at: int, id: string)
    requires Thinned(s, s', id, maxAge, at)
    ensures Accepted(s', id) == Accepted(s, id)
  {
  }

  /** Whoever a step is not about keeps its ledger and its queue. */
  lemma StillStep<C>(s: State<C>, step: Step<C>, id: string)
    requires Enabled(s, step) && ArrivalOf(s, step).Nothing?
    requires !DrainsFor(s, step, id) && !Thins(step, id) && !Sweeps(step, id)
    ensures LedgerOf(Next(s, step), id) == LedgerOf(s, id) && QueueOf(Next(s, step).queues, id) == QueueOf(s.queues, id)
    ensures Accepted(Next(s, step), id) == Accepted(s, id) && Outcome(Next(s, step), id) == Outcome(s, id)
  {
    hide Next, Accepted, Outcome, LedgerOf, QueueOf;
    if step.Drain? || step.Hello? {
      DrainElsewhere(s, step, id);
    } else if step.Sift? || step.Sweep? {
      PruneElsewhere(s, step, id);
    } else {
      MovesNothing(s, step);
      Unrecorded(s, Next(s, step), id);
    }
    SameOutcome(s, Next(s, step), id);
  }

  /** A step without an arrival that neither drains nor prunes. */
  lemma MovesNothing<C>(s: State<C>, step: Step<C>)
    requires Enabled(s, step) && ArrivalOf(s, step).Nothing? && !step.Drain? && !step.Hello?
    requires !step.Prune? && !step.Sift? && !step.Sweep?
    ensures Next(s, step).ledger == s.ledger && Next(s, step).queues == s.queues
  {
    hide Taken, Fate, AfterDrain, AfterHello, AfterPrune, AfterSift, AfterSweep, AfterSend, AfterEnqueue;
  }

  lemma PruneElsewhere<C>(s: State<C>, step: Step<C>, id: string)
    requires Enabled(s, step) && (step.Sift? || step.Sweep?) && step.agent != id
    ensures LedgerOf(Next(s, step), id) == LedgerOf(s, id) && QueueOf(Next(s, step).queues, id) == QueueOf(s.queues, id)
  {
    hide AfterSift, AfterSweep;
    if step.Sift? {
      SiftElsewhere(s, step.agent, step.maxAge, step.at, id);
    } else {
      SweepElsewhere(s, step.agent, id);
    }
  }

  lemma SweepElsewhere<C>(s: State<C>, agent: string, id: string)
    requires agent != id
    ensures var s' := AfterSweep(s, agent);
      LedgerOf(s', id) == LedgerOf(s, id) && QueueOf(s'.queues, id) == QueueOf(s.queues, id)
  {
    hide Bodies, Entries;
  }

  lemma DrainElsewhere<C>(s: State<C>, step: Step<C>, id: string)
    requires Enabled(s, step) && (step.Drain? || step.Hello?) && s.owner[step.conn] != id
    ensures LedgerOf(Next(s, step), id) == LedgerOf(s, id) && QueueOf(Next(s, step).queues, id) == QueueOf(s.queues, id)
  {
    hide Drained, Bodies, Entries;
    DrainedQueue(s.queues, s.owner[step.conn], step.sent, id);
  }

  lemma SiftElsewhere<C>(s: State<C>, agent: string, maxAge: int, now: int, id: string)
    requires agent in s.queues && agent != id
    ensures var s' := AfterSift(s, agent, maxAge, now);
      LedgerOf(s', id) == LedgerOf(s, id) && QueueOf(s'.queues, id) == QueueOf(s.queues, id)
  {
    hide Discarded, Retained, Bodies, Entries;
  }

  lemma SameOutcome<C>(s: State<C>, s': State<C>, id: string)
    requires LedgerOf(s', id) == LedgerOf(s, id) && QueueOf(s'.queues, id) == QueueOf(s.queues, id)
    ensures Accepted(s', id) == Accepted(s, id) && Outcome(s', id) == Outcome(s, id)
  {
  }

  /** What a step adds to the messages of `id` that have left custody. */
  function SettledBy<C(==)>(s: State<C>, step: Step<C>, id: string): seq<Entry<C>>
    requires Enabled(s, step)
  {
    var q, a := QueueOf(s.queues, id), ArrivalOf(s, step);
    if a.Arrival? then (if a.agent == id && a.fate == Push then [Entry(a.msg, Safe, a.via)] else [])
    else if DrainsFor(s, step, id) then Entries(Bodies(q[..step.sent]), Safe, Some(step.conn))
    else if Thins(step, id) then Entries(Bodies(Discarded(q, step.at, step.maxAge)), Lost, None)
    else if Sweeps(step, id) then Entries(Bodies(q), Swept, None)
    else []
  }

  lemma StepSettles<C>(s: State<C>, step: Step<C>, id: string)
    requires Enabled(s, step)
    ensures LedgerOf(Next(s, step), id).settled == LedgerOf(s, id).settled + SettledBy(s, step, id)
  {
    hide Taken, Fate, Thins, Sweeps, Next, Enabled, Entries, Bodies, Discarded, LedgerOf, Found, Via;
    var a := ArrivalOf(s, step);
    if a.Arrival? {
      ArrivalNext(s, step);
      TakenSettles(s, a.agent, a.msg, a.fate, a.via, a.at, id);
      Unrecorded(Taken(s, a.agent, a.msg, a.fate, a.via, a.at), Next(s, step), id);
    } else if DrainsFor(s, step, id) {
      DrainStepSettles(s, step, id);
    } else if Thins(step, id) {
      StepThins(s, step, id);
    } else if Sweeps(step, id) {
      SweepStepSettles(s, step, id);
    } else {
      StillStep(s, step, id);
    }
  }

  lemma DrainStepSettles<C>(s: State<C>, step: Step<C>, id: string)
    requires Enabled(s, step) && DrainsFor(s, step, id)
    ensures LedgerOf(Next(s, step), id).settled ==
      LedgerOf(s, id).settled + Entries(Bodies(QueueOf(s.queues, id)[..step.sent]), Safe, Some(step.conn))
  {
    hide Entries, Bodies, Drained;
  }

  lemma SweepStepSettles<C>(s: State<C>, step: Step<C>, id: string)
    requires Enabled(s, step) && Sweeps(step, id)
    ensures LedgerOf(Next(s, step), id).settled ==
      LedgerOf(s, id).settled + Entries(Bodies(QueueOf(s.queues, id)), Swept, None)
  {
    SweepSettles(s, id);
  }

  lemma TakenSettles<C>(s: State<C>, agent: string, msg: Message, fate: Delivery, via: Option<C>, at: int, id: string)
    ensures LedgerOf(Taken(s, agent, msg, fate, via, at), id).settled ==
      LedgerOf(s, id).settled + if agent == id && fate == Push then [Entry(msg, Safe, via)] else []
  {
  }

  lemma ThinnedOutcome<C>(s: State<C>, s': State<C>, maxAge: int, at: int, id: string)
    requires Thinned(s, s', id, maxAge, at)
    ensures var q := QueueOf(s.queues, id);
      Outcome(s', id) ==
        All(LedgerOf(s, id).settled) + Bodies(Discarded(q, at, maxAge)) + Bodies(Retained(q, at, maxAge))
  {
    AllExtended(LedgerOf(s, id).settled, Bodies(Discarded(QueueOf(s.queues, id), at, maxAge)), Lost, None);
  }

  lemma AllExtended<C>(log: seq<Entry<C>>, ms: seq<Message>, loss: Loss, via: Option<C>)
    ensures All(log + Entries(ms, loss, via)) == All(log) + ms
  {
    AllSplits(log, Entries(ms, loss, via));
    AllEntries(ms, loss, via);
  }

  lemma ThinnedKeepsOrder<C>(s: State<C>, s': State<C>, maxAge: int, at: int, id: string)
    requires Thinned(s, s', id, maxAge, at) && Ordered(QueueOf(s.queues, id), s.clock)
    ensures Outcome(s', id) == Outcome(s, id)
  {
    var q := QueueOf(s.queues, id);
    ThinnedOutcome(s, s', maxAge, at, id);
    PruneCutsFront(q, s.clock, at, maxAge);
    BodiesSplit(Discarded(q, at, maxAge), Retained(q, at, maxAge));
    Regroup(All(LedgerOf(s, id).settled), Bodies(Discarded(q, at, maxAge)), Bodies(Retained(q, at, maxAge)));
  }

  lemma ThinnedConserves<C>(s: State<C>, s': State<C>, maxAge: int, at: int, id: string)
    requires Thinned(s, s', id, maxAge, at)
    ensures multiset(Outcome(s', id)) == multiset(Outcome(s, id))
  {
    ThinnedOutcome(s, s', maxAge, at, id);
    RetainedPartition(QueueOf(s.queues, id), at, maxAge);
  }

  lemma InsertionBalances<T>(ms: seq<T>, a: seq<T>, b: seq<T>, x: T)
    requires multiset(ms) == multiset(a + b)
    ensures multiset(ms + [x]) == multiset(a + [x] + b) == multiset(a + b + [x])
  {
  }

  lemma ArrivalEffect<C>(s: State<C>, agent: string, msg: Message, fate: Delivery, via: Option<C>, at: int, id: string)
    ensures var s' := Taken(s, agent, msg, fate, via, at);
      if agent != id then Accepted(s', id) == Accepted(s, id) && Outcome(s', id) == Outcome(s, id)
      else match fate
        case Push =>
          && Accepted(s', id) == Accepted(s, id) + [msg]
          && Outcome(s', id) == All(LedgerOf(s, id).settled) + [msg] + Bodies(QueueOf(s.queues, id))
        case Park => Accepted(s', id) == Accepted(s, id) + [msg] && Outcome(s', id) == Outcome(s, id) + [msg]
        case Drop => Accepted(s', id) == Accepted(s, id) && Outcome(s', id) == Outcome(s, id)
  {
    if agent == id {
      match fate {
        case Push => PushEffect(s, id, msg, via);
        case Park => ParkEffect(s, id, msg, at);
        case Drop => SelectAppends(LedgerOf(s, id).accepted, msg, Lost);
      }
    }
  }

  lemma PushEffect<C>(s: State<C>, id: string, msg: Message, via: Option<C>)
    ensures var s' := Settle(Accept(s, id, msg, Safe), id, [Entry(msg, Safe, via)]);
      && Accepted(s', id) == Accepted(s, id) + [msg]
      && Outcome(s', id) == All(LedgerOf(s, id).settled) + [msg] + Bodies(QueueOf(s.queues, id))
  {
    var l := LedgerOf(s, id);
    SelectAppends(l.accepted, msg, Safe);
    AllSplits(l.settled, [Entry(msg, Safe, via)]);
  }

  lemma ParkEffect<C>(s: State<C>, id: string, msg: Message, at: int)
    ensures var s' := Accept(s, id, msg, Safe).(queues := Enqueued(s.queues, id, msg, at));
      && Accepted(s', id) == Accepted(s, id) + [msg]
      && Outcome(s', id) == Outcome(s, id) + [msg]
  {
    var l, q := LedgerOf(s, id), QueueOf(s.queues, id);
    SelectAppends(l.accepted, msg, Safe);
    BodiesSplit(q, [QueuedMessage(msg, at, 0)]);
    Regroup(All(l.settled), Bodies(q), [msg]);
  }

  lemma SelectAppends<C>(log: seq<Entry<C>>, msg: Message, loss: Loss)
    ensures Select(log + [Entry(msg, loss, None)], false) == Select(log, false) + if loss == Safe then [msg] else []
  {
    SelectSplits(log, [Entry(msg, loss, None)], false);
  }

  /** The step drains the queue of `id`. */
  predicate DrainsFor<C(==)>(s: State<C>, step: Step<C>, id: string)
  {
    (step.Drain? || step.Hello?) && step.conn in s.owner && s.owner[step.conn] == id
  }

  lemma QueueEffect<C>(s: State<C>, step: Step<C>, id: string)
    requires Enabled(s, step)
    ensures var q, a := QueueOf(s.queues, id), ArrivalOf(s, step);
      QueueOf(Next(s, step).queues, id) ==
        if Arrives(s, step, id) && a.fate == Park then q + [QueuedMessage(a.msg, a.at, 0)]
        else if DrainsFor(s, step, id) then q[step.sent..]
        else if Thins(step, id) then Retained(q, step.at, step.maxAge)
        else if Sweeps(step, id) then []
        else q
  {
    hide Taken, Fate, Drained, Pruned, AfterTeardown, AfterLeave, AfterEvict, AfterPrune, AfterSift;
    var a := ArrivalOf(s, step);
    if a.Arrival? {
      ArrivalNext(s, step);
      TakenQueue(s, a.agent, a.msg, a.fate, a.via, a.at, id);
    } else if step.Drain? || step.Hello? {
      DrainedQueue(s.queues, s.owner[step.conn], step.sent, id);
    } else if Thins(step, id) {
      StepThins(s, step, id);
    } else if !Sweeps(step, id) {
      StillStep(s, step, id);
    }
  }

  lemma TakenQueue<C>(s: State<C>, agent: string, msg: Message, fate: Delivery, via: Option<C>, at: int, id: string)
    ensures QueueOf(Taken(s, agent, msg, fate, via, at).queues, id) ==
      QueueOf(s.queues, id) + if agent == id && fate == Park then [QueuedMessage(msg, at, 0)] else []
  {
  }

  // ---------------------------------------------------------------- conservation

  /** In every run no message is lost track of, whatever is taken apart. */
  lemma {:induction false} Conservation<C>(s: State<C>, run: seq<Step<C>>, id: string)
    requires Legal(s, run) && Balanced(s, id)
    ensures Balanced(Exec(s, run), id)
    decreases run
  {
    if run != [] {
      StepBalances(s, run[0], id);
      Conservation(Next(s, run[0]), run[1..], id);
    }
  }

  ghost predicate Balanced<C>(s: State<C>, id: string)
  {
    multiset(Accepted(s, id)) == multiset(Outcome(s, id))
  }

  lemma StepBalances<C>(s: State<C>, step: Step<C>, id: string)
    requires Enabled(s, step) && Balanced(s, id)
    ensures Balanced(Next(s, step), id)
  {
    hide Next, Thinned;
    if Thins(step, id) {
      StepThins(s, step, id);
      ThinnedAccepts(s, Next(s, step), step.maxAge, step.at, id);
      ThinnedConserves(s, Next(s, step), step.maxAge, step.at, id);
    } else {
      StepEffect(s, step, id);
      if Arrives(s, step, id) {
        InsertionBalances(Accepted(s, id), All(LedgerOf(s, id).settled), Bodies(QueueOf(s.queues, id)),
          ArrivalOf(s, step).msg);
      }
    }
  }

  /** Conservation in every reachable state, whatever is taken apart: what was accepted for an agent is what was
      handed to its channels, is queued, was pruned, was swept away or was dropped, each message as often. */
  lemma AllConserved<C>(clock: int, run: seq<Step<C>>, id: string)
    requires Legal(Init(clock), run)
    ensures var s := Exec(Init(clock), run);
      var l := LedgerOf(s, id);
      multiset(All(l.accepted)) ==
        multiset(Handed(l)) + multiset(Bodies(QueueOf(s.queues, id))) +
        multiset(PrunedAway(l)) + multiset(SweptAway(l)) + multiset(Dropped(l))
  {
    assert Balanced<C>(Init(clock), id);
    Conservation(Init(clock), run, id);
    var s := Exec(Init(clock), run);
    SelectPartitions(LedgerOf(s, id).accepted);
    LossPartitions(LedgerOf(s, id).settled);
  }

  /** The messages that senders have for an agent, and those of them under way. */
  function Offered<C(==)>(run: seq<Step<C>>, id: string): seq<Message>
  {
    if run == [] then []
    else if Offers(run[0], id) then [run[0].msg] + Offered(run[1..], id)
    else Offered(run[1..], id)
  }

  function InFlight<C>(flights: seq<Flight<C>>, id: string): seq<Message>
  {
    if flights == [] then []
    else if flights[0].agent == id && flights[0].phase != Done then [flights[0].msg] + InFlight(flights[1..], id)
    else InFlight(flights[1..], id)
  }

  lemma {:induction false} InFlightSplits<C>(a: seq<Flight<C>>, b: seq<Flight<C>>, id: string)
    ensures InFlight(a + b, id) == InFlight(a, id) + InFlight(b, id)
  {
    if a == [] {
      assert a + b == b;
    } else {
      assert (a + b)[1..] == a[1..] + b;
      InFlightSplits(a[1..], b, id);
    }
  }

  /** A send that moves on is under way until it is done. */
  lemma MovedInFlight<C>(flights: seq<Flight<C>>, i: nat, phase: Phase, id: string)
    requires i < |flights| && flights[i].phase != Done
    ensures var f := flights[i];
      multiset(InFlight(flights, id)) == multiset(InFlight(flights[i := f.(phase := phase)], id)) +
        if f.agent == id && phase == Done then multiset{f.msg} else multiset{}
  {
    var f, front, back := flights[i], flights[..i], flights[i + 1..];
    var f' := f.(phase := phase);
    assert flights == front + [f] + back && flights[i := f'] == front + [f'] + back;
    InFlightAround(front, f, back, id);
    InFlightAround(front, f', back, id);
  }

  lemma InFlightAround<C>(front: seq<Flight<C>>, f: Flight<C>, back: seq<Flight<C>>, id: string)
    ensures multiset(InFlight(front + [f] + back, id)) ==
      multiset(InFlight(front, id)) + multiset(InFlight(back, id)) +
      if f.agent == id && f.phase != Done then multiset{f.msg} else multiset{}
  {
    InFlightSplits(front + [f], back, id);
    InFlightSplits(front, [f], id);
    InFlightOne(f, id);
  }

  lemma InFlightOne<C>(f: Flight<C>, id: string)
    ensures InFlight([f], id) == if f.agent == id && f.phase != Done then [f.msg] else []
  {
    assert [f][1..] == [];
  }

  lemma AcceptedAppends<C>(s: State<C>, agent: string, msg: Message, fate: Delivery, via: Option<C>, at: int,
                           id: string)
    ensures All(LedgerOf(Taken(s, agent, msg, fate, via, at), id).accepted) ==
      All(LedgerOf(s, id).accepted) + if agent == id then [msg] else []
  {
    AllSplits(LedgerOf(s, id).accepted, [Entry(msg, if fate == Drop then Lost else Safe, None)]);
  }

  lemma QuietAccepts<C>(s: State<C>, step: Step<C>, id: string)
    requires Enabled(s, step) && ArrivalOf(s, step).Nothing?
    ensures LedgerOf(Next(s, step), id).accepted == LedgerOf(s, id).accepted
  {
    hide Next, Thins, Sweeps, LedgerOf;
    if DrainsFor(s, step, id) {
      StepDrains(s, step, id);
    } else if Thins(step, id) {
      StepThins(s, step, id);
    } else if Sweeps(step, id) {
      StepSweeps(s, step, id);
    } else {
      StillStep(s, step, id);
    }
  }

  /** What arrives is what is accepted, dropped or not. */
  lemma StepAccepts<C>(s: State<C>, step: Step<C>, id: string)
    requires Enabled(s, step)
    ensures All(LedgerOf(Next(s, step), id).accepted) ==
      All(LedgerOf(s, id).accepted) + if Arrives(s, step, id) then [ArrivalOf(s, step).msg] else []
  {
    hide Taken;
    var a := ArrivalOf(s, step);
    if a.Arrival? {
      AcceptedAppends(s, a.agent, a.msg, a.fate, a.via, a.at, id);
      ArrivalNext(s, step);
      Unrecorded(Taken(s, a.agent, a.msg, a.fate, a.via, a.at), Next(s, step), id);
    } else {
      QuietAccepts(s, step, id);
    }
  }

  /** With whole sends, what senders have for an agent is taken at once, in their order. */
  lemma {:induction false} WholeAccepts<C>(s: State<C>, run: seq<Step<C>>, id: string)
    requires Legal(s, run) && Whole(run)
    ensures All(LedgerOf(Exec(s, run), id).accepted) == All(LedgerOf(s, id).accepted) + Offered(run, id)
    decreases run
  {
    hide Next, LedgerOf, All;
    if run != [] {
      StepAccepts(s, run[0], id);
      assert !run[0].Look? && !run[0].Act? && !run[0].Enqueue?;
      WholeAccepts(Next(s, run[0]), run[1..], id);
      if Offers(run[0], id) {
        assert Offered(run, id) == [run[0].msg] + Offered(run[1..], id);
      }
    }
  }

  predicate Offers<C(==)>(step: Step<C>, id: string) { (step.Send? || step.Look?) && step.agent == id }

  /** What a step takes off the sends under way, or adds to them. */
  ghost predicate FlightsBalance<C>(s: State<C>, step: Step<C>, id: string)
    requires Enabled(s, step)
  {
    multiset(InFlight(Next(s, step).flights, id)) +
        (if Arrives(s, step, id) then multiset{ArrivalOf(s, step).msg} else multiset{}) ==
      multiset(InFlight(s.flights, id)) + if Offers(step, id) then multiset{step.msg} else multiset{}
  }

  lemma StepFlights<C>(s: State<C>, step: Step<C>, id: string)
    requires Enabled(s, step)
    ensures FlightsBalance(s, step, id)
  {
    hide FlightsBalance, Enabled;
    match step {
      case Look(sender, agent, msg) => LookBalances(s, sender, agent, msg, id);
      case Act(i) => ActBalances(s, i, id);
      case Enqueue(i, at) => EnqueueBalances(s, i, at, id);
      case _ => OtherBalances(s, step, id);
    }
  }

  lemma LookBalances<C>(s: State<C>, sender: Sender, agent: string, msg: Message, id: string)
    ensures FlightsBalance(s, Look(sender, agent, msg), id)
  {
    hide InFlight, AfterLook;
    LookFlights(s, sender, agent, msg, id);
  }

  lemma ActBalances<C>(s: State<C>, i: nat, id: string)
    requires Enabled(s, Act(i))
    ensures FlightsBalance(s, Act(i), id)
  {
    hide InFlight, AfterAct, Fate;
    var f := s.flights[i];
    ActFlights(s, i);
    MovedInFlight(s.flights, i, if Fate(s, f.sender, f.found) == Park then Parking else Done, id);
  }

  lemma EnqueueBalances<C>(s: State<C>, i: nat, at: int, id: string)
    requires Enabled(s, Step.Enqueue(i, at))
    ensures FlightsBalance(s, Step.Enqueue(i, at), id)
  {
    hide InFlight, AfterEnqueue;
    EnqueueFlights(s, i, at);
    MovedInFlight(s.flights, i, Done, id);
  }

  lemma OtherBalances<C>(s: State<C>, step: Step<C>, id: string)
    requires Enabled(s, step) && !step.Look? && !step.Act? && !step.Enqueue?
    ensures FlightsBalance(s, step, id)
  {
    hide Next, InFlight;
    OtherFlights(s, step);
  }

  lemma LookFlights<C>(s: State<C>, sender: Sender, agent: string, msg: Message, id: string)
    ensures multiset(InFlight(AfterLook(s, sender, agent, msg).flights, id)) ==
      multiset(InFlight(s.flights, id)) + if agent == id then multiset{msg} else multiset{}
  {
    hide InFlight;
    var f := Flight(sender, agent, msg, Found(s, agent), Looked);
    InFlightSplits(s.flights, [f], id);
    InFlightOne(f, id);
  }

  lemma ActFlights<C>(s: State<C>, i: nat)
    requires i < |s.flights|
    ensures var f := s.flights[i];
      AfterAct(s, i).flights ==
        s.flights[i := f.(phase := if Fate(s, f.sender, f.found) == Park then Parking else Done)]
  {
    hide Taken;
    var f := s.flights[i];
    TakenFrame(s, f.agent, f.msg, Fate(s, f.sender, f.found), Via(f.found), s.clock);
  }

  lemma EnqueueFlights<C>(s: State<C>, i: nat, at: int)
    requires i < |s.flights|
    ensures AfterEnqueue(s, i, at).flights == s.flights[i := s.flights[i].(phase := Done)]
  {
    hide Taken;
    TakenFrame(s, s.flights[i].agent, s.flights[i].msg, Park, None, at);
  }

  lemma OtherFlights<C>(s: State<C>, step: Step<C>)
    requires Enabled(s, step) && !step.Look? && !step.Act? && !step.Enqueue?
    ensures Next(s, step).flights == s.flights
  {
    hide AfterSend, AfterAct, AfterEnqueue, AfterDrain, AfterHello, AfterPrune, AfterSift, AfterSweep;
    if MovesMessages(step) {
      MessageFrame(s, step);
    }
  }

  /** What is accepted or still under way. */
  function Held<C(==)>(s: State<C>, id: string): multiset<Message>
  {
    multiset(All(LedgerOf(s, id).accepted)) + multiset(InFlight(s.flights, id))
  }

  lemma StepHolds<C>(s: State<C>, step: Step<C>, id: string)
    requires Enabled(s, step)
    ensures Held(Next(s, step), id) == Held(s, id) + if Offers(step, id) then multiset{step.msg} else multiset{}
  {
    hide Next, ArrivalOf, LedgerOf, InFlight, All;
    StepAccepts(s, step, id);
    StepFlights(s, step, id);
    var arrived := if Arrives(s, step, id) then [ArrivalOf(s, step).msg] else [];
    var offered := if Offers(step, id) then multiset{step.msg} else multiset{};
    assert multiset(arrived) == if Arrives(s, step, id) then multiset{ArrivalOf(s, step).msg} else multiset{};
    ExchangeBalances(All(LedgerOf(s, id).accepted), arrived, multiset(InFlight(s.flights, id)),
      multiset(InFlight(Next(s, step).flights, id)), offered);
  }

  lemma ExchangeBalances<T>(log: seq<T>, arrived: seq<T>, f: multiset<T>, f': multiset<T>, offered: multiset<T>)
    requires f' + multiset(arrived) == f + offered
    ensures multiset(log + arrived) + f' == multiset(log) + f + offered
  {
    var sum, balance := multiset(log + arrived) + f', multiset(log) + f + offered;
    forall x | x in sum + balance ensures sum[x] == balance[x] {
      assert (f' + multiset(arrived))[x] == (f + offered)[x];
    }
  }

  lemma {:induction false} OffersHeld<C>(s: State<C>, run: seq<Step<C>>, id: string)
    requires Legal(s, run)
    ensures Held(Exec(s, run), id) == Held(s, id) + multiset(Offered(run, id))
    decreases run
  {
    hide Next, Held;
    if run != [] {
      StepHolds(s, run[0], id);
      OffersHeld(Next(s, run[0]), run[1..], id);
    }
  }

  /** Nothing vanishes between a look-up and what it leads to: every message some sender had for an agent is
      still under way, or was handed over, is queued, was pruned, was swept away or was dropped, each as often. */
  lemma EverythingAccounted<C>(clock: int, run: seq<Step<C>>, id: string)
    requires Legal(Init(clock), run)
    ensures var s := Exec(Init(clock), run);
      var l := LedgerOf(s, id);
      multiset(Offered(run, id)) == multiset(InFlight(s.flights, id)) +
        (multiset(Handed(l)) + multiset(Bodies(QueueOf(s.queues, id))) +
         multiset(PrunedAway(l)) + multiset(SweptAway(l)) + multiset(Dropped(l)))
  {
    hide Exec, Offered, Bodies, Select, LostBy, InFlight;
    OffersHeld(Init(clock), run, id);
    AllConserved(clock, run, id);
    NothingHeld<C>(clock, id);
    var s := Exec(Init(clock), run);
    assert multiset(Offered(run, id)) == Held(s, id);
    assert Held(s, id) == multiset(InFlight(s.flights, id)) + multiset(All(LedgerOf(s, id).accepted));
  }

  lemma NothingHeld<C>(clock: int, id: string)
    ensures Held<C>(Init(clock), id) == multiset{}
  {
  }

  /** A whole send is its pieces with nothing in between. */
  lemma SendIsItsPieces<C>(s: State<C>, sender: Sender, id: string, msg: Message, at: int)
    ensures var i, s1 := |s.flights|, AfterLook(s, sender, id, msg);
      && Enabled(s1, Act(i))
      && var s2 := Next(s1, Act(i));
      && (s2.flights[i].phase == Parking ==> Enabled(s2, Step.Enqueue(i, at)))
      && var s3 := if s2.flights[i].phase == Parking then Next(s2, Step.Enqueue(i, at)) else Ticked(s2, at);
      && s3.(flights := s.flights) == Next(s, Send(sender, id, msg, at))
  {
    hide Taken;
    var i, s1 := |s.flights|, AfterLook(s, sender, id, msg);
    var f := Flight(sender, id, msg, Found(s, id), Looked);
    assert s1.flights[i] == f;
    assert Fate(s1, sender, f.found) == Deliver(s, sender, id);
    ActFlights(s1, i);
    TakenFrame(s, id, msg, Deliver(s, sender, id), Via(f.found), at);
    if Deliver(s, sender, id) == Park {
      var s2 := Moved(s1, i, Parking);
      assert Next(s1, Act(i)) == s2 && s2 == s.(flights := s2.flights) && s2.flights[i] == f.(phase := Parking);
      TakenAside(s, s2.flights, id, msg, Park, None, at, Via(f.found), at);
    } else {
      assert s1 == s.(flights := s1.flights);
      TakenAside(s, s1.flights, id, msg, Deliver(s, sender, id), Via(f.found), s.clock, Via(f.found), at);
    }
  }

  /** An arrival has nothing to do with the sends under way, and only what is pushed with a connection and only
      what is parked with the time. */
  lemma TakenAside<C>(s: State<C>, flights: seq<Flight<C>>, id: string, msg: Message, fate: Delivery,
                      via: Option<C>, at: int, via': Option<C>, at': int)
    requires (fate == Push ==> via == via') && (fate == Park ==> at == at')
    ensures Taken(s.(flights := flights), id, msg, fate, via, at) ==
      Taken(s, id, msg, fate, via', at').(flights := flights)
  {
    hide Enqueued;
  }

}
