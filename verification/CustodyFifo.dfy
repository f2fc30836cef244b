/** When, and exactly when, the custody protocol hands messages over in the order it accepted them. */
module CustodyFifo {
  import opened Options
  import opened Messages
  import opened Queue
  import opened Custody
  import opened CustodyOrder

  /** First in, first out: what was handed over or pruned, followed by the queue, is what was kept. */
  ghost predicate Fifo<C>(s: State<C>, id: string)
  {
    Accepted(s, id) == Outcome(s, id)
  }

  /** The step pushes a message into a live channel past messages still queued for the agent. */
  predicate Overtakes<C(==)>(s: State<C>, step: Step<C>, id: string)
    requires Enabled(s, step)
  {
    Arrives(s, step, id) && ArrivalOf(s, step).fate == Push && QueueOf(s.queues, id) != []
  }

  ghost predicate EverOvertakes<C>(s: State<C>, run: seq<Step<C>>, id: string)
    requires Legal(s, run)
    decreases run
  {
    run != [] && (Overtakes(s, run[0], id) || EverOvertakes(Next(s, run[0]), run[1..], id))
  }

  // ---------------------------------------------------------------- queues stay ordered

  ghost predicate AllOrdered<C>(s: State<C>)
  {
    forall id :: Ordered(QueueOf(s.queues, id), s.clock)
  }

  lemma StepOrdered<C>(s: State<C>, step: Step<C>)
    requires Enabled(s, step) && AllOrdered(s) && Timely(s.clock, [step])
    ensures AllOrdered(Next(s, step)) && s.clock <= Next(s, step).clock
  {
    hide Next;
    ClockAdvances(s, step);
    forall id ensures Ordered(QueueOf(Next(s, step).queues, id), Next(s, step).clock) {
      assert Ordered(QueueOf(s.queues, id), s.clock);
      QueueStaysOrdered(s, step, id);
    }
  }

  lemma QueueStaysOrdered<C>(s: State<C>, step: Step<C>, id: string)
    requires Enabled(s, step) && Ordered(QueueOf(s.queues, id), s.clock) && s.clock <= Next(s, step).clock
    requires Reads(step) ==> Next(s, step).clock == step.at
    requires step.Act? ==> ArrivalOf(s, step).Nothing? || ArrivalOf(s, step).fate != Park
    ensures Ordered(QueueOf(Next(s, step).queues, id), Next(s, step).clock)
  {
    hide Next, Retained;
    QueueEffect(s, step, id);
    if Thins(step, id) {
      RetainedOrdered(QueueOf(s.queues, id), s.clock, step.at, step.maxAge);
    }
  }

  lemma ClockAdvances<C>(s: State<C>, step: Step<C>)
    requires Enabled(s, step) && Timely(s.clock, [step])
    ensures s.clock <= Next(s, step).clock
    ensures Reads(step) ==> Next(s, step).clock == step.at
  {
    hide Taken;
    if step.Act? {
      var f := s.flights[step.flight];
      TakenFrame(s, f.agent, f.msg, Fate(s, f.sender, f.found), Via(f.found), s.clock);
    } else if step.Enqueue? {
      var f := s.flights[step.flight];
      TakenFrame(s, f.agent, f.msg, Park, None, step.at);
    } else if step.Send? {
      TakenFrame(s, step.agent, step.msg, Deliver(s, step.sender, step.agent), Via(Found(s, step.agent)), step.at);
    }
  }

  lemma TimelyHead<C>(clock: int, s: State<C>, run: seq<Step<C>>)
    requires run != [] && s.clock == clock && Timely(clock, run) && Enabled(s, run[0])
    ensures Timely(clock, [run[0]]) && Timely(Next(s, run[0]).clock, run[1..])
  {
    hide Next, Enabled;
    assert [run[0]][1..] == [];
    if Reads(run[0]) {
      ClockAdvances(s, run[0]);
    } else {
      ClockStands(s, run[0]);
    }
  }

  lemma ClockStands<C>(s: State<C>, step: Step<C>)
    requires Enabled(s, step) && !Reads(step)
    ensures Next(s, step).clock == s.clock
  {
    hide Taken;
    if step.Act? {
      var f := s.flights[step.flight];
      TakenFrame(s, f.agent, f.msg, Fate(s, f.sender, f.found), Via(f.found), s.clock);
    }
  }

  // ---------------------------------------------------------------- order kept

  lemma StepKeepsOrder<C>(s: State<C>, step: Step<C>, id: string)
    requires Enabled(s, step) && Fifo(s, id) && !Overtakes(s, step, id)
    requires Thins(step, id) ==> Ordered(QueueOf(s.queues, id), s.clock)
    ensures Fifo(Next(s, step), id)
  {
    StepEffect(s, step, id);
    if Arrives(s, step, id) && ArrivalOf(s, step).fate == Push {
      assert Bodies(QueueOf(s.queues, id)) == [];
    }
  }

  lemma {:induction false} OrderKept<C>(s: State<C>, run: seq<Step<C>>, id: string)
    requires Legal(s, run) && Timely(s.clock, run) && AllOrdered(s) && Fifo(s, id)
    requires !EverOvertakes(s, run, id)
    ensures Fifo(Exec(s, run), id)
    decreases run
  {
    if run != [] {
      TimelyHead(s.clock, s, run);
      StepOrdered(s, run[0]);
      assert Ordered(QueueOf(s.queues, id), s.clock);
      StepKeepsOrder(s, run[0], id);
      OrderKept(Next(s, run[0]), run[1..], id);
    }
  }

  ghost predicate Unpruned<C>(run: seq<Step<C>>)
  {
    forall i :: 0 <= i < |run| ==> !run[i].Prune? && !run[i].Sift?
  }

  /** Where nothing is pruned the clock may do as it likes. */
  lemma {:induction false} OrderKeptUnpruned<C>(s: State<C>, run: seq<Step<C>>, id: string)
    requires Legal(s, run) && Unpruned(run) && Fifo(s, id) && !EverOvertakes(s, run, id)
    ensures Fifo(Exec(s, run), id)
    decreases run
  {
    if run != [] {
      StepKeepsOrder(s, run[0], id);
      OrderKeptUnpruned(Next(s, run[0]), run[1..], id);
    }
  }

  // ---------------------------------------------------------------- order lost for good

  /** Two messages accepted in one order leave in the other: `i` before `j`, but at `a` after `b`. */
  ghost predicate InvertedAt<T>(kept: seq<T>, out: seq<T>, i: int, j: int, a: int, b: int)
  {
    0 <= i < j < |kept| && 0 <= b < a < |out| && kept[i] == out[a] && kept[j] == out[b]
  }

  ghost predicate Inverted<T>(kept: seq<T>, out: seq<T>)
  {
    exists i, j, a, b :: InvertedAt(kept, out, i, j, a, b)
  }

  lemma InversionSurvives<T>(kept: seq<T>, front: seq<T>, back: seq<T>, x: T)
    requires Inverted(kept, front + back)
    ensures Inverted(kept + [x], front + [x] + back)
  {
    var i, j, a, b :| InvertedAt(kept, front + back, i, j, a, b);
    var a', b' := if a < |front| then a else a + 1, if b < |front| then b else b + 1;
    assert InvertedAt(kept + [x], front + [x] + back, i, j, a', b');
  }

  /** A message pushed past the head of the queue. */
  lemma OvertakingInverts<T>(front: seq<T>, back: seq<T>, x: T)
    requires back != []
    ensures Inverted(front + back + [x], front + [x] + back)
  {
    assert InvertedAt(front + back + [x], front + [x] + back, |front|, |front + back|, |front| + 1, |front|);
  }

  ghost predicate Distinct<T>(s: seq<T>)
  {
    forall i, j :: 0 <= i < j < |s| ==> s[i] != s[j]
  }

  lemma OutcomeIs<C>(s: State<C>, id: string)
    ensures Outcome(s, id) == All(LedgerOf(s, id).settled) + Bodies(QueueOf(s.queues, id))
  {
  }

  lemma StepKeepsInversion<C>(s: State<C>, step: Step<C>, id: string)
    requires Enabled(s, step) && AllOrdered(s) && Inverted(Accepted(s, id), Outcome(s, id))
    ensures Inverted(Accepted(Next(s, step), id), Outcome(Next(s, step), id))
  {
    hide Next, Inverted, Accepted, Outcome, Bodies, All;
    StepEffect(s, step, id);
    assert Ordered(QueueOf(s.queues, id), s.clock);
    if Arrives(s, step, id) {
      assert Outcome(s, id) == All(LedgerOf(s, id).settled) + Bodies(QueueOf(s.queues, id)) by { OutcomeIs(s, id); }
      var msg := ArrivalOf(s, step).msg;
      var settled, queue := All(LedgerOf(s, id).settled), Bodies(QueueOf(s.queues, id));
      InversionSurvives(Accepted(s, id), settled, queue, msg);
      assert settled + queue + [] == settled + queue;
      InversionSurvives(Accepted(s, id), settled + queue, [], msg);
      assert settled + queue + [msg] + [] == settled + queue + [msg];
    }
  }

  lemma {:induction false} InversionPersists<C>(s: State<C>, run: seq<Step<C>>, id: string)
    requires Legal(s, run) && Timely(s.clock, run) && AllOrdered(s)
    requires Inverted(Accepted(s, id), Outcome(s, id))
    ensures Inverted(Accepted(Exec(s, run), id), Outcome(Exec(s, run), id))
    decreases run
  {
    if run != [] {
      TimelyHead(s.clock, s, run);
      StepOrdered(s, run[0]);
      StepKeepsInversion(s, run[0], id);
      InversionPersists(Next(s, run[0]), run[1..], id);
    }
  }

  lemma {:induction false} OrderLost<C>(s: State<C>, run: seq<Step<C>>, id: string)
    requires Legal(s, run) && Timely(s.clock, run) && AllOrdered(s) && Fifo(s, id)
    requires EverOvertakes(s, run, id)
    ensures Inverted(Accepted(Exec(s, run), id), Outcome(Exec(s, run), id))
    decreases run
  {
    TimelyHead(s.clock, s, run);
    StepOrdered(s, run[0]);
    if Overtakes(s, run[0], id) {
      StepEffect(s, run[0], id);
      OvertakingInverts(All(LedgerOf(s, id).settled), Bodies(QueueOf(s.queues, id)), ArrivalOf(s, run[0]).msg);
      InversionPersists(Next(s, run[0]), run[1..], id);
    } else {
      StepKeepsOrder(s, run[0], id);
      OrderLost(Next(s, run[0]), run[1..], id);
    }
  }

  /** The exact condition, for every run, hellos and sends taken apart or not, with a clock that never goes back: an
      agent's messages leave in the order they were accepted if and only if no push ever overtook its
      queue. (The "only if" needs messages to be told apart, as their identifiers do.) */
  lemma FifoExactlyWithoutOvertaking<C>(clock: int, run: seq<Step<C>>, id: string)
    requires Legal(Init(clock), run) && Timely(clock, run)
    ensures !EverOvertakes(Init(clock), run, id) ==> Fifo(Exec(Init(clock), run), id)
    ensures Distinct(Accepted(Exec(Init(clock), run), id)) ==>
      (Fifo(Exec(Init(clock), run), id) <==> !EverOvertakes(Init(clock), run, id))
  {
    assert AllOrdered<C>(Init(clock)) && Fifo<C>(Init(clock), id);
    if EverOvertakes(Init(clock), run, id) {
      OrderLost(Init(clock), run, id);
    } else {
      OrderKept(Init(clock), run, id);
    }
  }

  // ---------------------------------------------------------------- when nothing overtakes

  /** A registered agent whose channel has a receiver has nothing queued; the registered connection is the
      agent's own, and a registration always carries a channel. */
  ghost predicate DeliversTo<C>(s: State<C>, id: string)
  {
    id in s.registry ==>
      && s.registry[id].Some?
      && s.registry[id].value in s.owner && s.owner[s.registry[id].value] == id
      && (s.registry[id].value in s.open ==> QueueOf(s.queues, id) == [])
  }

  /** A sender's look-up is out of date, and it matters: the sender enqueues although the agent has a live
      channel now, or pushes into a channel that is not the agent's registered one any more. */
  ghost predicate Disturbed<C>(s: State<C>, step: Step<C>, id: string)
    requires Enabled(s, step)
  {
    Arrives(s, step, id) &&
    ((step.Enqueue? && id in s.registry && s.registry[id].Some? && s.registry[id].value in s.open) ||
     (step.Act? && ArrivalOf(s, step).fate == Push && Found(s, id) != s.flights[step.flight].found))
  }

  ghost predicate EverDisturbed<C>(s: State<C>, run: seq<Step<C>>, id: string)
    requires Legal(s, run)
    decreases run
  {
    run != [] && (Disturbed(s, run[0], id) || EverDisturbed(Next(s, run[0]), run[1..], id))
  }

  lemma {:induction false} WholeUndisturbed<C>(s: State<C>, run: seq<Step<C>>, id: string)
    requires Legal(s, run) && Whole(run)
    ensures !EverDisturbed(s, run, id)
    decreases run
  {
    if run != [] {
      WholeUndisturbed(Next(s, run[0]), run[1..], id);
    }
  }

  /** The step is a hello of a connection that speaks for `id`. */
  predicate HelloOf<C(==)>(s: State<C>, step: Step<C>, id: string)
  {
    (step.Register? || step.Hello?) && step.conn in s.owner && s.owner[step.conn] == id
  }

  /** The step ends the registration of `id`: by request or for staleness, by the teardown of the registered
      connection, or by the late removal of a teardown, whoever is registered by then. */
  predicate Deregisters<C(==)>(s: State<C>, step: Step<C>, id: string)
    requires Enabled(s, step)
  {
    || (step.Unregister? && step.agent == id)
    || (step.Teardown? && s.owner[step.conn] == id && Current(s, step.conn))
    || (step.Evict? && s.owner[step.conn] == id)
  }

  /** Only a hello puts an entry into the registry, and only these steps remove one. */
  lemma RegistryEffect<C>(s: State<C>, step: Step<C>, id: string)
    requires Enabled(s, step)
    ensures Found(Next(s, step), id) ==
      if HelloOf(s, step, id) then Some(Some(step.conn)) else if Deregisters(s, step, id) then None else Found(s, id)
  {
    hide AfterSend, AfterAct, AfterEnqueue, AfterDrain, AfterHello, AfterPrune, AfterSift, AfterSweep;
    if MovesMessages(step) {
      MessageFrame(s, step);
    }
  }

  /** Connections keep their agent, and a receiver that is gone never comes back. */
  lemma ChannelEffect<C>(s: State<C>, step: Step<C>)
    requires Enabled(s, step)
    ensures var s' := Next(s, step);
      if step.Connect? then s'.owner == s.owner[step.conn := step.agent] && s'.open == s.open + {step.conn}
      else s'.owner == s.owner && s'.open <= s.open
  {
    hide AfterSend, AfterAct, AfterEnqueue, AfterDrain, AfterHello, AfterPrune, AfterSift, AfterSweep;
    if MovesMessages(step) {
      MessageFrame(s, step);
    }
  }

  lemma StepDelivers<C>(s: State<C>, step: Step<C>, id: string)
    requires Enabled(s, step) && !step.Register? && !step.Drain? && DeliversTo(s, id) && !Disturbed(s, step, id)
    ensures DeliversTo(Next(s, step), id) && !Overtakes(s, step, id)
  {
    hide Next;
    QueueEffect(s, step, id);
    RegistryEffect(s, step, id);
    ChannelEffect(s, step);
    HelloDrains(s, step, id);
  }

  /** After a whole hello, what is not drained has no receiver to go to. */
  lemma HelloDrains<C>(s: State<C>, step: Step<C>, id: string)
    requires Enabled(s, step)
    ensures step.Hello? && s.owner[step.conn] == id && step.conn in Next(s, step).open ==>
      step.sent == |QueueOf(s.queues, id)|
  {
  }

  /** With whole hellos and no look-up out of date, an agent with a live channel never has anything queued,
      so nothing is overtaken. */
  lemma {:induction false} AtomicNeverOvertakes<C>(s: State<C>, run: seq<Step<C>>, id: string)
    requires Legal(s, run) && Atomic(run) && DeliversTo(s, id) && !EverDisturbed(s, run, id)
    ensures !EverOvertakes(s, run, id) && DeliversTo(Exec(s, run), id)
    decreases run
  {
    if run != [] {
      StepDelivers(s, run[0], id);
      AtomicNeverOvertakes(Next(s, run[0]), run[1..], id);
    }
  }

  /** End-to-end custody in order: over every run with whole hellos and a clock that never goes back, in
      which no sender acts on a look-up out of date, with pruning and every sender allowed, what was handed
      to an agent's channels or pruned, followed by its queue, is what was accepted for it and not dropped. */
  lemma FifoCustody<C>(clock: int, run: seq<Step<C>>, id: string)
    requires Legal(Init(clock), run) && Timely(clock, run) && Atomic(run) && !EverDisturbed(Init(clock), run, id)
    ensures var s := Exec(Init(clock), run);
      Kept(LedgerOf(s, id)) == All(LedgerOf(s, id).settled) + Bodies(QueueOf(s.queues, id))
  {
    AtomicNeverOvertakes(Init(clock), run, id);
    FifoExactlyWithoutOvertaking(clock, run, id);
  }

  // ---------------------------------------------------------------- every loss

  ghost predicate AllFound<C>(log: seq<Entry<C>>) { forall i :: 0 <= i < |log| ==> log[i].loss == Safe }

  ghost predicate LostNothing<C>(s: State<C>, id: string)
  {
    AllFound(LedgerOf(s, id).accepted) && AllFound(LedgerOf(s, id).settled)
  }

  /** The step drops a message for `id`, prunes one, or removes a queue that is not empty any more. */
  predicate Loses<C(==)>(s: State<C>, step: Step<C>, id: string)
    requires Enabled(s, step)
  {
    || (Arrives(s, step, id) && ArrivalOf(s, step).fate == Drop)
    || (Thins(step, id) && Discarded(QueueOf(s.queues, id), step.at, step.maxAge) != [])
    || (Sweeps(step, id) && QueueOf(s.queues, id) != [])
  }

  ghost predicate EverLoses<C>(s: State<C>, run: seq<Step<C>>, id: string)
    requires Legal(s, run)
    decreases run
  {
    run != [] && (Loses(s, run[0], id) || EverLoses(Next(s, run[0]), run[1..], id))
  }

  lemma EntriesFound<C>(ms: seq<Message>, loss: Loss, via: Option<C>)
    ensures AllFound(Entries(ms, loss, via)) <==> ms == [] || loss == Safe
  {
    AllEntries(ms, loss, via);
    var log := Entries(ms, loss, via);
    assert forall i :: 0 <= i < |log| ==> log[i] in log;
  }

  lemma FoundSplits<C>(a: seq<Entry<C>>, b: seq<Entry<C>>)
    ensures AllFound(a + b) <==> AllFound(a) && AllFound(b)
  {
    if AllFound(a + b) {
      assert forall i :: 0 <= i < |a| ==> a[i] == (a + b)[i];
      assert forall i :: 0 <= i < |b| ==> b[i] == (a + b)[|a| + i];
    }
  }

  /** What a step accepts for `id`, dropped or not. */
  lemma StepAdmits<C>(s: State<C>, step: Step<C>, id: string)
    requires Enabled(s, step)
    ensures var log := LedgerOf(s, id).accepted;
      LedgerOf(Next(s, step), id).accepted ==
        if Arrives(s, step, id)
        then log + [Entry(ArrivalOf(s, step).msg, if ArrivalOf(s, step).fate == Drop then Lost else Safe, None)]
        else log
  {
    hide Taken;
    var a := ArrivalOf(s, step);
    if a.Arrival? {
      ArrivalNext(s, step);
      TakenAdmits(s, a.agent, a.msg, a.fate, a.via, a.at, id);
      Unrecorded(Taken(s, a.agent, a.msg, a.fate, a.via, a.at), Next(s, step), id);
    } else {
      QuietAccepts(s, step, id);
    }
  }

  lemma TakenAdmits<C>(s: State<C>, agent: string, msg: Message, fate: Delivery, via: Option<C>, at: int, id: string)
    ensures LedgerOf(Taken(s, agent, msg, fate, via, at), id).accepted == LedgerOf(s, id).accepted +
      if agent == id then [Entry(msg, if fate == Drop then Lost else Safe, None)] else []
  {
  }

  lemma StepLosesExactly<C>(s: State<C>, step: Step<C>, id: string)
    requires Enabled(s, step)
    ensures LostNothing(Next(s, step), id) <==> LostNothing(s, id) && !Loses(s, step, id)
  {
    hide Next, Entries, Bodies, LedgerOf, Discarded, AllFound;
    StepSettles(s, step, id);
    StepAdmits(s, step, id);
    var l, added := LedgerOf(s, id), SettledBy(s, step, id);
    FoundSplits(l.settled, added);
    NothingFound<C>();
    var a, q := ArrivalOf(s, step), QueueOf(s.queues, id);
    if a.Arrival? {
      OneFound<C>(Entry(a.msg, if a.fate == Drop then Lost else Safe, None));
      OneFound(Entry(a.msg, Safe, a.via));
      FoundSplits(l.accepted, [Entry(a.msg, if a.fate == Drop then Lost else Safe, None)]);
    } else if DrainsFor(s, step, id) {
      EntriesFound(Bodies(q[..step.sent]), Safe, Some(step.conn));
    } else if Thins(step, id) {
      EntriesFound<C>(Bodies(Discarded(q, step.at, step.maxAge)), Lost, None);
      EmptyBodies(Discarded(q, step.at, step.maxAge));
    } else if Sweeps(step, id) {
      EntriesFound<C>(Bodies(q), Swept, None);
      EmptyBodies(q);
    }
  }

  lemma NothingFound<C>()
    ensures AllFound<C>([])
  {
  }

  lemma OneFound<C>(e: Entry<C>)
    ensures AllFound([e]) <==> e.loss == Safe
  {
    assert [e][0] == e;
  }

  lemma EmptyBodies(q: seq<QueuedMessage>)
    ensures Bodies(q) == [] <==> q == []
  {
  }

  /** Over every run, whatever is taken apart: no message of an agent is lost if and only if no sender that
      ignores failures meets a channel without receiver, no pruning finds a message too old, and no queue
      found empty is removed after something was enqueued. */
  lemma {:induction false} NothingLostExactly<C>(s: State<C>, run: seq<Step<C>>, id: string)
    requires Legal(s, run)
    ensures LostNothing(Exec(s, run), id) <==> LostNothing(s, id) && !EverLoses(s, run, id)
    decreases run
  {
    hide Next, LostNothing, Loses;
    if run != [] {
      StepLosesExactly(s, run[0], id);
      NothingLostExactly(Next(s, run[0]), run[1..], id);
    }
  }

  // ---------------------------------------------------------------- nothing dropped, nothing pruned

  /** The sender queues what it cannot push, and nothing is pruned. */
  ghost predicate ReliableStep<C>(step: Step<C>)
  {
    && !step.Prune? && !step.Sift? && !step.Sweep?
    && (step.Send? || step.Look? ==> step.sender != Websocket)
  }

  ghost predicate Reliable<C>(run: seq<Step<C>>)
  {
    forall i :: 0 <= i < |run| ==> ReliableStep(run[i])
  }

  /** Every sender under way queues what it cannot push. */
  ghost predicate ReliableFlights<C>(s: State<C>)
  {
    forall i :: 0 <= i < |s.flights| ==>
      s.flights[i].sender != Websocket && (s.flights[i].found.Some? ==> s.flights[i].found.value.Some?)
  }

  ghost predicate Registered<C>(s: State<C>) { forall id :: id in s.registry ==> s.registry[id].Some? }

  /** Hellos and sends may be taken apart: reliable senders lose nothing either way. */
  lemma {:induction false} NothingLost<C>(s: State<C>, run: seq<Step<C>>, id: string)
    requires Legal(s, run) && Reliable(run) && ReliableFlights(s) && Registered(s) && LostNothing(s, id)
    ensures LostNothing(Exec(s, run), id)
    decreases run
  {
    if run != [] {
      hide LostNothing, Next;
      StepStaysReliable(s, run[0]);
      StepLosesNothing(s, run[0], id);
      StepLosesExactly(s, run[0], id);
      NothingLost(Next(s, run[0]), run[1..], id);
    }
  }

  lemma StepStaysReliable<C>(s: State<C>, step: Step<C>)
    requires Enabled(s, step) && ReliableStep(step) && ReliableFlights(s) && Registered(s)
    ensures ReliableFlights(Next(s, step)) && Registered(Next(s, step))
  {
    hide Taken;
    forall id | id in Next(s, step).registry ensures Next(s, step).registry[id].Some? {
      RegistryEffect(s, step, id);
    }
    if step.Act? {
      ActFlights(s, step.flight);
    } else if step.Enqueue? {
      EnqueueFlights(s, step.flight, step.at);
    } else if !step.Look? {
      OtherFlights(s, step);
    }
  }

  lemma StepLosesNothing<C>(s: State<C>, step: Step<C>, id: string)
    requires Enabled(s, step) && ReliableStep(step) && ReliableFlights(s) && Registered(s)
    ensures !Loses(s, step, id)
  {
  }

  /** With senders that queue on failure and no pruning, whatever the clock: everything accepted for an agent
      is what was handed to its channels, across all its connections, followed by its queue, in order. */
  lemma EndToEndFifo<C>(clock: int, run: seq<Step<C>>, id: string)
    requires Legal(Init(clock), run) && Atomic(run) && Reliable(run) && !EverDisturbed(Init(clock), run, id)
    ensures var s := Exec(Init(clock), run);
      All(LedgerOf(s, id).accepted) == Handed(LedgerOf(s, id)) + Bodies(QueueOf(s.queues, id))
  {
    AtomicNeverOvertakes(Init(clock), run, id);
    OrderKeptUnpruned(Init(clock), run, id);
    NothingLost(Init(clock), run, id);
    var l := LedgerOf(Exec(Init(clock), run), id);
    SelectUniform(l.accepted, false);
    SelectUniform(l.settled, false);
  }
}
