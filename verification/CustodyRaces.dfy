/** Sends taken apart: what may come between a sender's look-up and what it does with the message. */
module CustodyRaces {
  import opened Options
  import opened Messages
  import opened Queue
  import opened Custody
  import opened CustodyOrder
  import opened CustodyFifo
  import opened CustodyRegistry

  /** The step may change whom the registry names for `id`. */
  predicate Moves<C(==)>(s: State<C>, step: Step<C>, id: string)
    requires Enabled(s, step)
  {
    HelloOf(s, step, id) || Deregisters(s, step, id)
  }

  lemma RegistrationStands<C>(s: State<C>, step: Step<C>, id: string)
    requires Enabled(s, step) && !Moves(s, step, id)
    ensures Found(Next(s, step), id) == Found(s, id)
  {
    RegistryEffect(s, step, id);
  }

  /** It does so while a sender is between its look-up and its act, or between its act and its enqueueing. */
  ghost predicate Interrupts<C>(s: State<C>, step: Step<C>, id: string)
    requires Enabled(s, step)
  {
    Moves(s, step, id) && exists i :: 0 <= i < |s.flights| && s.flights[i].agent == id && s.flights[i].phase != Done
  }

  ghost predicate EverInterrupted<C>(s: State<C>, run: seq<Step<C>>, id: string)
    requires Legal(s, run)
    decreases run
  {
    run != [] && (Interrupts(s, run[0], id) || EverInterrupted(Next(s, run[0]), run[1..], id))
  }

  /** What senders under way found is what they would find now. */
  ghost predicate UpToDate<C>(s: State<C>, id: string)
  {
    forall i :: 0 <= i < |s.flights| && s.flights[i].agent == id && s.flights[i].phase != Done ==>
      s.flights[i].found == Found(s, id)
  }

  lemma UpToDateUndisturbed<C>(s: State<C>, step: Step<C>, id: string)
    requires Enabled(s, step) && UpToDate(s, id) && Grounded(s, id)
    ensures !Disturbed(s, step, id)
  {
  }

  lemma StepStaysUpToDate<C>(s: State<C>, step: Step<C>, id: string)
    requires Enabled(s, step) && UpToDate(s, id) && !Interrupts(s, step, id)
    ensures UpToDate(Next(s, step), id)
  {
    hide Taken;
    if Moves(s, step, id) {
      OtherFlights(s, step);
    } else {
      RegistrationStands(s, step, id);
      if step.Act? {
        ActFlights(s, step.flight);
      } else if step.Enqueue? {
        EnqueueFlights(s, step.flight, step.at);
      } else if !step.Look? {
        OtherFlights(s, step);
      }
    }
  }

  /** No sender acts on a look-up out of date unless the agent says hello, is unregistered or is torn down
      while one is under way. */
  lemma {:induction false} UndisturbedUnlessInterrupted<C>(s: State<C>, run: seq<Step<C>>, id: string)
    requires Legal(s, run) && !EverInterrupted(s, run, id) && UpToDate(s, id) && Grounded(s, id) && Live(s, id)
    ensures !EverDisturbed(s, run, id)
    decreases run
  {
    if run != [] {
      hide Next;
      UpToDateUndisturbed(s, run[0], id);
      StepStaysUpToDate(s, run[0], id);
      StepStaysGrounded(s, run[0], id);
      StepStaysLive(s, run[0], id);
      UndisturbedUnlessInterrupted(Next(s, run[0]), run[1..], id);
    }
  }

  /** Order over every run with whole hellos whose sends may be taken apart, provided the registration of the
      agent does not move while one is under way. */
  lemma FifoUnlessInterrupted<C>(clock: int, run: seq<Step<C>>, id: string)
    requires Legal(Init(clock), run) && Timely(clock, run) && Atomic(run) && !EverInterrupted(Init(clock), run, id)
    ensures Fifo(Exec(Init(clock), run), id)
  {
    UndisturbedUnlessInterrupted(Init(clock), run, id);
    FifoCustody(clock, run, id);
  }

  // ---------------------------------------------------------------- what the interruption was

  lemma {:induction false} FlightStays<C>(s: State<C>, run: seq<Step<C>>, i: nat)
    requires Legal(s, run) && i < |s.flights|
    ensures var s' := Exec(s, run);
      i < |s'.flights| && s'.flights[i].found == s.flights[i].found && s'.flights[i].agent == s.flights[i].agent
    decreases run
  {
    if run != [] {
      hide Next;
      StepKeepsFlight(s, run[0], i);
      FlightStays(Next(s, run[0]), run[1..], i);
    }
  }

  lemma StepKeepsFlight<C>(s: State<C>, step: Step<C>, i: nat)
    requires Enabled(s, step) && i < |s.flights|
    ensures var s' := Next(s, step);
      i < |s'.flights| && s'.flights[i].found == s.flights[i].found && s'.flights[i].agent == s.flights[i].agent
  {
    hide Taken;
    if step.Act? {
      ActFlights(s, step.flight);
    } else if step.Enqueue? {
      EnqueueFlights(s, step.flight, step.at);
    } else if !step.Look? {
      OtherFlights(s, step);
    }
  }

  lemma {:induction false} StaysGrounded<C>(s: State<C>, run: seq<Step<C>>, id: string)
    requires Legal(s, run) && Live(s, id) && Grounded(s, id)
    ensures Live(Exec(s, run), id) && Grounded(Exec(s, run), id)
    decreases run
  {
    if run != [] {
      hide Next;
      StepStaysGrounded(s, run[0], id);
      StepStaysLive(s, run[0], id);
      StaysGrounded(Next(s, run[0]), run[1..], id);
    }
  }

  /** A sender that enqueues past a live channel looked the agent up before the hello that made it live. */
  lemma LateEnqueueFollowsHello<C>(s: State<C>, sender: Sender, id: string, msg: Message, run: seq<Step<C>>, at: int)
    requires Live(s, id) && Grounded(s, id) && Legal(AfterLook(s, sender, id, msg), run)
    requires var s' := Exec(AfterLook(s, sender, id, msg), run);
      var step := Step.Enqueue(|s.flights|, at);
      Enabled(s', step) && Disturbed(s', step, id)
    ensures LatestHello(AfterLook(s, sender, id, msg), run, id).Some?
  {
    var looked := AfterLook(s, sender, id, msg);
    StepStaysGrounded(s, Look(sender, id, msg), id);
    StepStaysLive(s, Look(sender, id, msg), id);
    StaysGrounded(looked, run, id);
    FlightStays(looked, run, |s.flights|);
    RegisteredIsLatest(looked, run, id);
  }

  ghost predicate EverMoves<C>(s: State<C>, run: seq<Step<C>>, id: string)
    requires Legal(s, run)
    decreases run
  {
    run != [] && (Moves(s, run[0], id) || EverMoves(Next(s, run[0]), run[1..], id))
  }

  lemma {:induction false} RegistrationStays<C>(s: State<C>, run: seq<Step<C>>, id: string)
    requires Legal(s, run) && !EverMoves(s, run, id)
    ensures Found(Exec(s, run), id) == Found(s, id)
    decreases run
  {
    if run != [] {
      hide Next;
      RegistrationStands(s, run[0], id);
      RegistrationStays(Next(s, run[0]), run[1..], id);
    }
  }

  /** A sender that pushes into a channel that is not the registered one looked it up before the agent was
      unregistered, torn down or said hello again. */
  lemma LatePushFollowsMove<C>(s: State<C>, sender: Sender, id: string, msg: Message, run: seq<Step<C>>)
    requires Legal(AfterLook(s, sender, id, msg), run)
    requires var s' := Exec(AfterLook(s, sender, id, msg), run);
      var step := Act(|s.flights|);
      Enabled(s', step) && Disturbed(s', step, id)
    ensures EverMoves(AfterLook(s, sender, id, msg), run, id)
  {
    var looked := AfterLook(s, sender, id, msg);
    FlightStays(looked, run, |s.flights|);
    if !EverMoves(looked, run, id) {
      RegistrationStays(looked, run, id);
    }
  }

  // ---------------------------------------------------------------- and that it does harm

  /** A sender finds nobody; the agent says hello, which finds nothing to drain; the sender enqueues. The next
      message is pushed past it, though every hello is whole. */
  function SplitSend(id: string, first: Message, second: Message): seq<Step<int>>
  {
    [Connect(0, id)] + ([Look(Http, id, first)] + ([Hello(0, 0)] + ([Act(0)] + ([Step.Enqueue(0, 0)]
      + ([Send(Http, id, second, 0)] + [])))))
  }

  lemma SplitSendBreaksFifo(id: string, first: Message, second: Message)
    requires first != second
    ensures var run := SplitSend(id, first, second);
      && Legal(Init(0), run) && Timely(0, run) && Atomic(run) && Reliable(run)
      && !Fifo(Exec(Init(0), run), id)
  {
    hide Legal, Exec, Timely, EverOvertakes, Accepted, Fifo;
    SplitSendRuns(id, first, second);
    OutOfOrder(SplitSend(id, first, second), id, first, second);
  }

  lemma SplitSendRuns(id: string, first: Message, second: Message)
    ensures var run := SplitSend(id, first, second);
      && Legal(Init(0), run) && Timely(0, run) && EverOvertakes(Init(0), run, id)
      && Accepted(Exec(Init(0), run), id) == [first, second]
  {
    hide Next, Enabled, Takes, Overtakes, Runs;
    var s0: State<int> := Init(0);
    SplitSendSteps(id, first, second);
    var s1 := Next(s0, Connect(0, id));
    var s2 := Next(s1, Look(Http, id, first));
    var s3 := Next(s2, Hello(0, 0));
    var s4 := Next(s3, Act(0));
    var s5 := Next(s4, Step.Enqueue(0, 0));
    var s6 := Next(s5, Send(Http, id, second, 0));
    RunsOut(s6, id);
    var run6: seq<Step<int>> := [];
    RunsOn(s5, Send(Http, id, second, 0), run6, id, [second], false, []);
    assert [second] + [] == [second];
    var run5 := [Send(Http, id, second, 0)] + run6;
    RunsOn(s4, Step.Enqueue(0, 0), run5, id, [first], true, [second]);
    assert [first] + [second] == [first, second];
    var run4 := [Step.Enqueue(0, 0)] + run5;
    RunsOn(s3, Act(0), run4, id, [], true, [first, second]);
    assert [] + [first, second] == [first, second];
    var run3 := [Act(0)] + run4;
    RunsOn(s2, Hello(0, 0), run3, id, [], true, [first, second]);
    assert [] + [first, second] == [first, second];
    var run2 := [Hello(0, 0)] + run3;
    RunsOn(s1, Look(Http, id, first), run2, id, [], true, [first, second]);
    assert [] + [first, second] == [first, second];
    var run1 := [Look(Http, id, first)] + run2;
    RunsOn(s0, Connect(0, id), run1, id, [], true, [first, second]);
    assert [] + [first, second] == [first, second];
    var run0 := [Connect(0, id)] + run1;
    StartsRun(run0, id, [first, second]);
  }

  /** Step by step: all are enabled, and which messages they take. */
  lemma SplitSendSteps(id: string, first: Message, second: Message)
    ensures var s0: State<int> := Init(0);
      Takes(s0, Connect(0, id), id, []) &&
      var s1 := Next(s0, Connect(0, id));
      Takes(s1, Look(Http, id, first), id, []) &&
      var s2 := Next(s1, Look(Http, id, first));
      Takes(s2, Hello(0, 0), id, []) &&
      var s3 := Next(s2, Hello(0, 0));
      Takes(s3, Act(0), id, []) &&
      var s4 := Next(s3, Act(0));
      Takes(s4, Step.Enqueue(0, 0), id, [first]) &&
      var s5 := Next(s4, Step.Enqueue(0, 0));
      Takes(s5, Send(Http, id, second, 0), id, [second]) && Overtakes(s5, Send(Http, id, second, 0), id)
  {
    var s2 := Next(Next(Init(0), Connect(0, id)), Look(Http, id, first));
    HelloFinds(s2, id);
    var s3 := Next(s2, Hello(0, 0));
    LateEnqueue(s3, id, first);
    PushPast(Next(Next(s3, Act(0)), Step.Enqueue(0, 0)), id, second);
  }

  /** A hello that finds nothing queued. */
  lemma HelloFinds(s: State<int>, id: string)
    requires s.owner == map[0 := id] && s.open == {0} && s.queues == map[] && Serving(s, 0)
    ensures Takes(s, Hello(0, 0), id, [])
    ensures var s' := Next(s, Hello(0, 0));
      && s'.registry == s.registry[id := Some(0)] && s'.open == {0} && QueueOf(s'.queues, id) == []
      && s'.owner == s.owner && s'.flights == s.flights && s'.clock == s.clock
  {
  }

  lemma LateEnqueue(s: State<int>, id: string, first: Message)
    requires s.flights == [Flight(Http, id, first, None, Looked)]
    requires id in s.registry && s.registry[id] == Some(0) && s.open == {0}
    ensures Takes(s, Act(0), id, [])
    ensures var s' := Next(s, Act(0));
      Takes(s', Step.Enqueue(0, 0), id, [first]) &&
      var s'' := Next(s', Step.Enqueue(0, 0));
      QueueOf(s''.queues, id) != [] && s''.registry == s.registry && s''.open == s.open
  {
  }

  lemma PushPast(s: State<int>, id: string, msg: Message)
    requires id in s.registry && s.registry[id] == Some(0) && s.open == {0} && QueueOf(s.queues, id) != []
    ensures Takes(s, Send(Http, id, msg, 0), id, [msg]) && Overtakes(s, Send(Http, id, msg, 0), id)
  {
  }

  /** Or a sender finds the agent; the agent is unregistered as stale; another message is queued; and the first
      sender pushes into the channel it found. */
  function LatePush(id: string, first: Message, second: Message): seq<Step<int>>
  {
    [Connect(0, id)] + ([Hello(0, 0)] + ([Look(Http, id, second)] + ([Unregister(id)]
      + ([Send(Http, id, first, 0)] + ([Act(0)] + [])))))
  }

  lemma LatePushBreaksFifo(id: string, first: Message, second: Message)
    requires first != second
    ensures var run := LatePush(id, first, second);
      && Legal(Init(0), run) && Timely(0, run) && Atomic(run) && Reliable(run)
      && !Fifo(Exec(Init(0), run), id)
  {
    hide Legal, Exec, Timely, EverOvertakes, Accepted, Fifo;
    LatePushRuns(id, first, second);
    OutOfOrder(LatePush(id, first, second), id, first, second);
  }

  lemma LatePushRuns(id: string, first: Message, second: Message)
    ensures var run := LatePush(id, first, second);
      && Legal(Init(0), run) && Timely(0, run) && EverOvertakes(Init(0), run, id)
      && Accepted(Exec(Init(0), run), id) == [first, second]
  {
    hide Next, Enabled, Takes, Overtakes, Runs;
    var s0: State<int> := Init(0);
    LatePushSteps(id, first, second);
    var s1 := Next(s0, Connect(0, id));
    var s2 := Next(s1, Hello(0, 0));
    var s3 := Next(s2, Look(Http, id, second));
    var s4 := Next(s3, Unregister(id));
    var s5 := Next(s4, Send(Http, id, first, 0));
    var s6 := Next(s5, Act(0));
    RunsOut(s6, id);
    var run6: seq<Step<int>> := [];
    RunsOn(s5, Act(0), run6, id, [second], false, []);
    assert [second] + [] == [second];
    var run5 := [Act(0)] + run6;
    RunsOn(s4, Send(Http, id, first, 0), run5, id, [first], true, [second]);
    assert [first] + [second] == [first, second];
    var run4 := [Send(Http, id, first, 0)] + run5;
    RunsOn(s3, Unregister(id), run4, id, [], true, [first, second]);
    assert [] + [first, second] == [first, second];
    var run3 := [Unregister(id)] + run4;
    RunsOn(s2, Look(Http, id, second), run3, id, [], true, [first, second]);
    assert [] + [first, second] == [first, second];
    var run2 := [Look(Http, id, second)] + run3;
    RunsOn(s1, Hello(0, 0), run2, id, [], true, [first, second]);
    assert [] + [first, second] == [first, second];
    var run1 := [Hello(0, 0)] + run2;
    RunsOn(s0, Connect(0, id), run1, id, [], true, [first, second]);
    assert [] + [first, second] == [first, second];
    var run0 := [Connect(0, id)] + run1;
    StartsRun(run0, id, [first, second]);
  }

  /** Step by step: all are enabled, and which messages they take. */
  lemma LatePushSteps(id: string, first: Message, second: Message)
    ensures var s0: State<int> := Init(0);
      Takes(s0, Connect(0, id), id, []) &&
      var s1 := Next(s0, Connect(0, id));
      Takes(s1, Hello(0, 0), id, []) &&
      var s2 := Next(s1, Hello(0, 0));
      Takes(s2, Look(Http, id, second), id, []) &&
      var s3 := Next(s2, Look(Http, id, second));
      Takes(s3, Unregister(id), id, []) &&
      var s4 := Next(s3, Unregister(id));
      Takes(s4, Send(Http, id, first, 0), id, [first]) &&
      var s5 := Next(s4, Send(Http, id, first, 0));
      Takes(s5, Act(0), id, [second]) && Overtakes(s5, Act(0), id)
  {
    var s1 := Next(Init(0), Connect(0, id));
    HelloFinds(s1, id);
    var s2 := Next(s1, Hello(0, 0));
    LookThenGone(s2, id, second);
    PushPastQueue(Next(Next(s2, Look(Http, id, second)), Unregister(id)), id, first, second);
  }

  lemma LookThenGone(s: State<int>, id: string, msg: Message)
    requires s.flights == [] && id in s.registry && s.registry[id] == Some(0) && s.open == {0}
    ensures Takes(s, Look(Http, id, msg), id, [])
    ensures var s' := Next(s, Look(Http, id, msg));
      Takes(s', Unregister(id), id, []) &&
      var s'' := Next(s', Unregister(id));
      id !in s''.registry && s''.open == {0} && s''.flights == [Flight(Http, id, msg, Some(Some(0)), Looked)]
  {
  }

  lemma PushPastQueue(s: State<int>, id: string, first: Message, second: Message)
    requires id !in s.registry && s.open == {0} && s.flights == [Flight(Http, id, second, Some(Some(0)), Looked)]
    ensures Takes(s, Send(Http, id, first, 0), id, [first])
    ensures var s' := Next(s, Send(Http, id, first, 0));
      Takes(s', Act(0), id, [second]) && Overtakes(s', Act(0), id)
  {
  }
}
