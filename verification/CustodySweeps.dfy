/** What is lost, and exactly when: above all to a pruning that collects the empty queues first and removes
    them later, without looking again. */
module CustodySweeps {
  import opened Clock
  import opened Options
  import opened Messages
  import opened Queue
  import opened Custody
  import opened CustodyOrder
  import opened CustodyFifo

  // ---------------------------------------------------------------- what goes in and out of a queue

  /** What is enqueued for `id`. */
  function ParkedBy<C(==)>(s: State<C>, step: Step<C>, id: string): seq<Message>
    requires Enabled(s, step)
  {
    if Arrives(s, step, id) && ArrivalOf(s, step).fate == Park then [ArrivalOf(s, step).msg] else []
  }

  function Parked<C(==)>(s: State<C>, run: seq<Step<C>>, id: string): seq<Message>
    requires Legal(s, run)
    decreases run
  {
    if run == [] then [] else ParkedBy(s, run[0], id) + Parked(Next(s, run[0]), run[1..], id)
  }

  /** What is taken off the queue of `id`: sent, pruned or swept away. */
  function RemovedBy<C(==)>(s: State<C>, step: Step<C>, id: string): seq<Message>
    requires Enabled(s, step)
  {
    var q := QueueOf(s.queues, id);
    if DrainsFor(s, step, id) then Bodies(q[..step.sent])
    else if Thins(step, id) then Bodies(Discarded(q, step.at, step.maxAge))
    else if Sweeps(step, id) then Bodies(q)
    else []
  }

  function Removed<C(==)>(s: State<C>, run: seq<Step<C>>, id: string): seq<Message>
    requires Legal(s, run)
    decreases run
  {
    if run == [] then [] else RemovedBy(s, run[0], id) + Removed(Next(s, run[0]), run[1..], id)
  }

  /** What was there and what came in is what went out and what is there now, each as often; and if nothing
      went out, in order. */
  ghost predicate Flows<T>(before: seq<T>, into: seq<T>, out: seq<T>, after: seq<T>)
  {
    && multiset(before) + multiset(into) == multiset(out) + multiset(after)
    && (out == [] ==> after == before + into)
  }

  lemma FlowsAdd<T>(q: seq<T>, into: seq<T>, out: seq<T>, mid: seq<T>, into': seq<T>, out': seq<T>, after: seq<T>)
    requires Flows(q, into, out, mid) && Flows(mid, into', out', after)
    ensures Flows(q, into + into', out + out', after)
  {
    var all := multiset(q) + multiset(into + into') + (multiset(out + out') + multiset(after));
    forall x | x in all
      ensures (multiset(q) + multiset(into + into'))[x] == (multiset(out + out') + multiset(after))[x]
    {
      assert (multiset(q) + multiset(into))[x] == (multiset(out) + multiset(mid))[x];
      assert (multiset(mid) + multiset(into'))[x] == (multiset(out') + multiset(after))[x];
    }
  }

  lemma StepInAndOut<C>(s: State<C>, step: Step<C>, id: string)
    requires Enabled(s, step)
    ensures Flows(Bodies(QueueOf(s.queues, id)), ParkedBy(s, step, id), RemovedBy(s, step, id),
      Bodies(QueueOf(Next(s, step).queues, id)))
  {
    hide Next, Bodies, Retained, Discarded, ArrivalOf, QueueOf;
    var q := QueueOf(s.queues, id);
    QueueEffect(s, step, id);
    NoneTaken(s, step, id);
    if Arrives(s, step, id) && ArrivalOf(s, step).fate == Park {
      Appended(q, ArrivalOf(s, step).msg, ArrivalOf(s, step).at);
    } else if DrainsFor(s, step, id) {
      FrontSent(q, step.sent);
    } else if Thins(step, id) {
      RetainedPartition(q, step.at, step.maxAge);
      NoneDiscarded(q, step.at, step.maxAge);
    } else if Sweeps(step, id) {
      NoBodies([]);
    }
  }

  /** No step puts a message into a queue and takes one off it. */
  lemma NoneTaken<C>(s: State<C>, step: Step<C>, id: string)
    requires Enabled(s, step)
    ensures Arrives(s, step, id) ==> !DrainsFor(s, step, id) && !Thins(step, id) && !Sweeps(step, id)
  {
  }

  lemma Appended(q: seq<QueuedMessage>, msg: Message, at: int)
    ensures Bodies(q + [QueuedMessage(msg, at, 0)]) == Bodies(q) + [msg]
  {
    BodiesSplit(q, [QueuedMessage(msg, at, 0)]);
    OneBody(msg, at);
  }

  lemma FrontSent(q: seq<QueuedMessage>, sent: nat)
    requires sent <= |q|
    ensures Bodies(q) == Bodies(q[..sent]) + Bodies(q[sent..])
  {
    assert q == q[..sent] + q[sent..];
    BodiesSplit(q[..sent], q[sent..]);
  }

  lemma OneBody(msg: Message, at: int)
    ensures Bodies([QueuedMessage(msg, at, 0)]) == [msg]
  {
    assert [QueuedMessage(msg, at, 0)][1..] == [];
  }

  lemma {:induction false} NoneDiscarded(q: seq<QueuedMessage>, now: int, maxAge: int)
    ensures Bodies(Discarded(q, now, maxAge)) == [] ==> Retained(q, now, maxAge) == q
  {
    if q != [] {
      NoneDiscarded(q[1..], now, maxAge);
    }
  }

  /** Over every run nothing else gets into a queue or out of it. */
  lemma {:induction false} InAndOut<C>(s: State<C>, run: seq<Step<C>>, id: string)
    requires Legal(s, run)
    ensures Flows(Bodies(QueueOf(s.queues, id)), Parked(s, run, id), Removed(s, run, id),
      Bodies(QueueOf(Exec(s, run).queues, id)))
    decreases run
  {
    hide Next, QueueOf, Bodies, ParkedBy, RemovedBy, Flows;
    if run != [] {
      var s' := Next(s, run[0]);
      StepInAndOut(s, run[0], id);
      InAndOut(s', run[1..], id);
      FlowsAdd(Bodies(QueueOf(s.queues, id)), ParkedBy(s, run[0], id), RemovedBy(s, run[0], id),
        Bodies(QueueOf(s'.queues, id)), Parked(s', run[1..], id), Removed(s', run[1..], id),
        Bodies(QueueOf(Exec(s, run).queues, id)));
    } else {
      NothingFlows(Bodies(QueueOf(s.queues, id)));
    }
  }

  lemma NothingFlows<T>(q: seq<T>)
    ensures Flows(q, [], [], q)
  {
    assert q + [] == q;
  }

  // ---------------------------------------------------------------- sweeping

  lemma MarkEffect<C>(s: State<C>, step: Step<C>, id: string)
    requires Enabled(s, step) && step != Mark(id)
    ensures id in Next(s, step).marked ==> id in s.marked
  {
    hide AfterSend, AfterAct, AfterEnqueue, AfterDrain, AfterHello, AfterPrune, AfterSift, AfterSweep;
    if MovesMessages(step) {
      MessageFrame(s, step);
    }
  }

  /** A run in which a pruning finds the queue of `id` empty after `before`, and does not see what comes
      `between`. */
  ghost predicate Collects<C>(s: State<C>, before: seq<Step<C>>, id: string, between: seq<Step<C>>)
  {
    && Legal(s, before) && Enabled(Exec(s, before), Mark(id))
    && Legal(Next(Exec(s, before), Mark(id)), between)
  }

  /** No queue is removed that was not found empty before. */
  lemma {:induction false} RemovedWasCollected<C>(s: State<C>, run: seq<Step<C>>, id: string)
    requires Legal(s, run) && id !in s.marked && id in Exec(s, run).marked
    ensures exists before, between :: run == before + ([Mark(id)] + between) && Collects(s, before, id, between)
    decreases run
  {
    hide Next, Enabled;
    if run[0] == Mark(id) {
      assert run == [] + ([Mark(id)] + run[1..]);
      assert Collects(s, [], id, run[1..]);
    } else {
      MarkEffect(s, run[0], id);
      RemovedWasCollected(Next(s, run[0]), run[1..], id);
      var before, between :|
        run[1..] == before + ([Mark(id)] + between) && Collects(Next(s, run[0]), before, id, between);
      ExecHead(s, run[0], before);
      assert run == [run[0]] + run[1..] == ([run[0]] + before) + ([Mark(id)] + between);
      assert Collects(s, [run[0]] + before, id, between);
    }
  }

  lemma SweepStepLoses<C>(s: State<C>, step: Step<C>, id: string)
    requires Enabled(s, step)
    ensures SweptAway(LedgerOf(Next(s, step), id)) ==
      SweptAway(LedgerOf(s, id)) + if Sweeps(step, id) then Bodies(QueueOf(s.queues, id)) else []
  {
    hide Next, Entries, Bodies, LedgerOf, Discarded;
    StepSettles(s, step, id);
    LostBySplits(LedgerOf(s, id).settled, SettledBy(s, step, id), Swept);
    if !Arrives(s, step, id) {
      if DrainsFor(s, step, id) {
        LostByEntries(Bodies(QueueOf(s.queues, id)[..step.sent]), Safe, Some(step.conn), Swept);
      } else if Thins(step, id) {
        LostByEntries<C>(Bodies(Discarded(QueueOf(s.queues, id), step.at, step.maxAge)), Lost, None, Swept);
      } else if Sweeps(step, id) {
        LostByEntries<C>(Bodies(QueueOf(s.queues, id)), Swept, None, Swept);
      }
    }
  }

  /** What the removal of a queue found empty earlier loses: what was enqueued since then and has not been
      taken off the queue since, each message as often; all of it, in order, if nothing has been taken off. */
  lemma SweepLosesLateArrivals<C>(s: State<C>, before: seq<Step<C>>, id: string, between: seq<Step<C>>)
    requires Collects(s, before, id, between)
    requires Enabled(Exec(Next(Exec(s, before), Mark(id)), between), Sweep(id))
    ensures var s0 := Next(Exec(s, before), Mark(id));
      var s1 := Exec(s0, between);
      var late, taken, lost := Parked(s0, between, id), Removed(s0, between, id), Bodies(QueueOf(s1.queues, id));
      && SweptAway(LedgerOf(Next(s1, Sweep(id)), id)) == SweptAway(LedgerOf(s1, id)) + lost
      && multiset(late) == multiset(taken) + multiset(lost)
      && (taken == [] ==> lost == late)
  {
    var s0 := Next(Exec(s, before), Mark(id));
    assert Bodies(QueueOf(s0.queues, id)) == [];
    InAndOut(s0, between, id);
    SweepStepLoses(Exec(s0, between), Sweep(id), id);
  }

  /** Over every run: each removal of a queue goes back to a moment when the queue was found empty, and what it
      loses is exactly what was enqueued since then and not taken off. */
  lemma SweptExactly<C>(clock: int, run: seq<Step<C>>, id: string)
    requires Legal(Init(clock), run) && Enabled(Exec(Init(clock), run), Sweep(id))
    ensures exists before, between ::
      && run == before + ([Mark(id)] + between) && Collects(Init(clock), before, id, between)
      && var s0, s := Next(Exec(Init(clock), before), Mark(id)), Exec(Init(clock), run);
         && multiset(Parked(s0, between, id)) ==
              multiset(Removed(s0, between, id)) + multiset(Bodies(QueueOf(s.queues, id)))
         && SweptAway(LedgerOf(Next(s, Sweep(id)), id)) ==
              SweptAway(LedgerOf(s, id)) + Bodies(QueueOf(s.queues, id))
  {
    hide Next, Enabled, Parked, Removed, Exec, Legal;
    assert id !in Init<C>(clock).marked;
    SweepNeedsMark(Exec(Init(clock), run), id);
    RemovedWasCollected(Init(clock), run, id);
    var before, between :| run == before + ([Mark(id)] + between) && Collects(Init(clock), before, id, between);
    CollectedThere(Init(clock), before, id, between);
    SweepLosesLateArrivals(Init(clock), before, id, between);
  }

  lemma SweepNeedsMark<C>(s: State<C>, id: string)
    requires Enabled(s, Sweep(id))
    ensures id in s.marked
  {
  }

  lemma CollectedThere<C>(s: State<C>, before: seq<Step<C>>, id: string, between: seq<Step<C>>)
    requires Collects(s, before, id, between)
    ensures var run := before + ([Mark(id)] + between);
      Legal(s, run) && Exec(s, run) == Exec(Next(Exec(s, before), Mark(id)), between)
  {
    ExecHead(Exec(s, before), Mark(id), between);
    ExecSplits(s, before, [Mark(id)] + between);
  }

  /** Everything swept away, over a whole run. */
  function SweptIn<C(==)>(s: State<C>, run: seq<Step<C>>, id: string): seq<Message>
    requires Legal(s, run)
    decreases run
  {
    if run == [] then []
    else (if Sweeps(run[0], id) then Bodies(QueueOf(s.queues, id)) else []) + SweptIn(Next(s, run[0]), run[1..], id)
  }

  lemma {:induction false} SweptAwayIn<C>(s: State<C>, run: seq<Step<C>>, id: string)
    requires Legal(s, run)
    ensures SweptAway(LedgerOf(Exec(s, run), id)) == SweptAway(LedgerOf(s, id)) + SweptIn(s, run, id)
    decreases run
  {
    hide Next, LedgerOf, SweptAway, Sweeps;
    if run != [] {
      SweepStepLoses(s, run[0], id);
      SweptAwayIn(Next(s, run[0]), run[1..], id);
    }
  }

  // ---------------------------------------------------------------- and it does happen

  /** A message is queued and grows too old; pruning discards it and finds the queue empty; a second message
      is enqueued; the queue is removed. The sender queues what it cannot push. */
  function SplitPrune<C>(id: string, first: Message, second: Message, maxAge: int, at: int): seq<Step<C>>
  {
    [Send(Http, id, first, 0)] + ([Sift(id, maxAge, at)] + ([Mark(id)]
      + ([Send(Http, id, second, at)] + ([Sweep(id)] + []))))
  }

  /** The second message is gone, though it was enqueued at the instant by which pruning goes. */
  lemma SplitPruneLosesNew<C>(id: string, first: Message, second: Message, maxAge: int, at: int)
    requires 0 <= at && 0 < maxAge <= WholeSeconds(at)
    ensures var run := SplitPrune<C>(id, first, second, maxAge, at);
      && Legal(Init(0), run) && Timely(0, run) && Atomic(run) && Whole(run)
      && var s := Exec(Init(0), run);
         SweptAway(LedgerOf(s, id)) == [second] && QueueOf(s.queues, id) == []
  {
    hide Legal, Exec, Next, Enabled, Timely, WholeSeconds, LedgerOf, SweptAway, Atomic, Whole;
    SplitPruneUnsplit<C>(id, first, second, maxAge, at);
    var s0 := Init<C>(0);
    NothingSwept<C>(id);
    Queues(s0, id, first, 0);
    var s1 := Next(s0, Send(Http, id, first, 0));
    Outdates(s1, id, first, maxAge, at);
    var s2 := Next(s1, Sift(id, maxAge, at));
    FoundEmpty(s2, id);
    var s3 := Next(s2, Mark(id));
    Queues(s3, id, second, at);
    var s4 := Next(s3, Send(Http, id, second, at));
    SweepsAway(s4, id, second, at);
    var s5 := Next(s4, Sweep(id));
    Ends(s5, at);
    Precedes(s4, Sweep(id), [], at, at);
    var run4: seq<Step<C>> := [Sweep(id)] + [];
    Precedes(s3, Send(Http, id, second, at), run4, 0, at);
    var run3 := [Send(Http, id, second, at)] + run4;
    Precedes(s2, Mark(id), run3, 0, 0);
    var run2 := [Mark(id)] + run3;
    Precedes(s1, Sift(id, maxAge, at), run2, 0, 0);
    var run1 := [Sift(id, maxAge, at)] + run2;
    Precedes(s0, Send(Http, id, first, 0), run1, 0, 0);
    assert SplitPrune<C>(id, first, second, maxAge, at) == [Send(Http, id, first, 0)] + run1;
  }

  lemma SplitPruneUnsplit<C>(id: string, first: Message, second: Message, maxAge: int, at: int)
    ensures var run := SplitPrune<C>(id, first, second, maxAge, at); Atomic(run) && Whole(run)
  {
  }

  /** What matters of a state on the way. */
  ghost predicate At<C>(s: State<C>, id: string, q: seq<QueuedMessage>, collected: multiset<string>)
  {
    && s.registry == map[] && id in s.queues && s.queues[id] == q && s.marked == collected
    && SweptAway(LedgerOf(s, id)) == []
  }

  lemma NothingSwept<C>(id: string)
    ensures SweptAway(LedgerOf<C>(Init(0), id)) == []
  {
  }

  lemma Queues<C>(s: State<C>, id: string, msg: Message, at: int)
    requires s.registry == map[] && QueueOf(s.queues, id) == [] && SweptAway(LedgerOf(s, id)) == []
    ensures Enabled(s, Send(Http, id, msg, at))
    ensures At(Next(s, Send(Http, id, msg, at)), id, [QueuedMessage(msg, at, 0)], s.marked)
  {
  }

  lemma Outdates<C>(s: State<C>, id: string, msg: Message, maxAge: int, at: int)
    requires At(s, id, [QueuedMessage(msg, 0, 0)], multiset{}) && maxAge <= WholeSeconds(at)
    ensures Enabled(s, Sift(id, maxAge, at)) && At(Next(s, Sift(id, maxAge, at)), id, [], multiset{})
  {
    hide WholeSeconds;
    var q := [QueuedMessage(msg, 0, 0)];
    assert at - q[0].enqueuedAt == at && q[1..] == [];
    assert !Young(q[0], at, maxAge);
    SweepStepLoses(s, Sift(id, maxAge, at), id);
    assert Next(s, Sift(id, maxAge, at)).queues[id] == Retained(q, at, maxAge) == [];
  }

  lemma FoundEmpty<C>(s: State<C>, id: string)
    requires At(s, id, [], multiset{})
    ensures Enabled(s, Mark(id)) && At(Next(s, Mark(id)), id, [], multiset{id})
  {
  }

  lemma SweepsAway<C>(s: State<C>, id: string, msg: Message, at: int)
    requires At(s, id, [QueuedMessage(msg, at, 0)], multiset{id})
    ensures Enabled(s, Sweep(id))
    ensures var s' := Next(s, Sweep(id)); SweptAway(LedgerOf(s', id)) == [msg] && QueueOf(s'.queues, id) == []
  {
    SweepStepLoses(s, Sweep(id), id);
    OneBody(msg, at);
  }

  lemma Ends<C>(s: State<C>, clock: int)
    ensures Legal(s, []) && Exec(s, []) == s && Timely<C>(clock, [])
  {
  }

  lemma Precedes<C>(s: State<C>, step: Step<C>, rest: seq<Step<C>>, clock: int, later: int)
    requires Enabled(s, step) && Legal(Next(s, step), rest) && Timely(later, rest)
    requires if Reads(step) then clock <= step.at == later else clock == later
    ensures var run := [step] + rest;
      Legal(s, run) && Exec(s, run) == Exec(Next(s, step), rest) && Timely(clock, run)
  {
    hide Next, Enabled;
    ExecHead(s, step, rest);
    assert ([step] + rest)[1..] == rest;
  }
}
