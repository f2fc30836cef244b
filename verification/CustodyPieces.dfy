/** What the program does with several operations on its maps is, with nothing in between, the one step that
    stands for it: a hello that drains in any portions, and a pruning that visits the queues in any order. */
module CustodyPieces {
  import opened Options
  import opened Messages
  import opened Queue
  import opened Custody
  import opened CustodyOrder
  import opened CustodyFifo
  import opened Sequences

  // ---------------------------------------------------------------- hellos

  /** Two portions of a drain loop are one. */
  lemma DrainsAdd<C>(s: State<C>, c: C, j: nat, k: nat)
    requires Enabled(s, Drain(c, j)) && c in s.open && j < |QueueOf(s.queues, s.owner[c])|
    requires Enabled(Next(s, Drain(c, j)), Drain(c, k))
    ensures Enabled(s, Drain(c, j + k)) && Next(Next(s, Drain(c, j)), Drain(c, k)) == Next(s, Drain(c, j + k))
  {
    hide Drained, Entries, Bodies, Settle;
    var id := s.owner[c];
    var q := QueueOf(s.queues, id);
    DrainedQueue(s.queues, id, j, id);
    SettleFrame(s, id, Entries(Bodies(q[..j]), Safe, Some(c)));
    SettleFrame(Next(s, Drain(c, j)), id, Entries(Bodies(q[j..j + k]), Safe, Some(c)));
    SettleFrame(s, id, Entries(Bodies(q[..j + k]), Safe, Some(c)));
    DrainedTwice(s.queues, id, j, k);
    assert q[j..][..k] == q[j..j + k] && q[..j + k] == q[..j] + q[j..j + k];
    BodiesSplit(q[..j], q[j..j + k]);
    EntriesSplit(Bodies(q[..j]), Bodies(q[j..j + k]), Safe, Some(c));
    SettleTwice(s, id, Drained(s.queues, id, j), Entries(Bodies(q[..j]), Safe, Some(c)),
      Entries(Bodies(q[j..j + k]), Safe, Some(c)));
  }

  lemma DrainedTwice(m: Queues, id: string, j: nat, k: nat)
    requires j + k <= |QueueOf(m, id)| && k <= |QueueOf(Drained(m, id, j), id)|
    ensures Drained(Drained(m, id, j), id, k) == Drained(m, id, j + k)
  {
    if id in m {
      assert m[id][j..][k..] == m[id][j + k..];
    }
  }

  lemma SettleTwice<C>(s: State<C>, id: string, queues: Queues, a: seq<Entry<C>>, b: seq<Entry<C>>)
    ensures Settle(Settle(s, id, a).(queues := queues), id, b).ledger == Settle(s, id, a + b).ledger
  {
    Regroup(LedgerOf(s, id).settled, a, b);
  }

  lemma SettleFrame<C>(s: State<C>, id: string, log: seq<Entry<C>>)
    ensures Settle(s, id, log) == s.(ledger := Settle(s, id, log).ledger)
  {
  }

  lemma SettlesNothing<C>(s: State<C>, id: string)
    requires id in s.ledger
    ensures Settle(s, id, []) == s
  {
    var l := s.ledger[id];
    assert l.settled + [] == l.settled;
    assert s.ledger[id := l] == s.ledger;
  }

  lemma {:induction false} EntriesSplit<C>(a: seq<Message>, b: seq<Message>, loss: Loss, via: Option<C>)
    ensures Entries(a + b, loss, via) == Entries(a, loss, via) + Entries(b, loss, via)
  {
    if a == [] {
      assert a + b == b;
    } else {
      assert (a + b)[1..] == a[1..] + b;
      EntriesSplit(a[1..], b, loss, via);
    }
  }

  /** What a whole hello does after registering: it drains, and if the receiver goes away under it, it puts the
      rest back and stops. */
  function Rest<C(==)>(s: State<C>, c: C, sent: nat): seq<Step<C>>
    requires c in s.owner
  {
    if sent == |QueueOf(s.queues, s.owner[c])| || c !in s.open then [Drain(c, sent)]
    else [Drain(c, sent), Close(c), Drain(c, 0)]
  }

  lemma HelloIsItsPieces<C>(s: State<C>, c: C, sent: nat)
    requires Enabled(s, Hello(c, sent))
    ensures var run := [Register(c)] + Rest(s, c, sent);
      Legal(s, run) && Exec(s, run) == Next(s, Hello(c, sent))
  {
    hide AfterDrain;
    var s1, last := Next(s, Register(c)), Drain(c, sent);
    assert s.draining + {c} - {c} == s.draining;
    if Rest(s, c, sent) == [last] {
      ExecHead(s1, last, []);
      assert [last] + [] == [last];
      DrainKeeps(s1, c, sent);
    } else {
      HelloBreaksOff(s1, c, sent);
      DrainKeeps(s1, c, sent);
    }
    ExecHead(s, Register(c), Rest(s, c, sent));
  }

  lemma DrainKeeps<C>(s: State<C>, c: C, sent: nat)
    requires c in s.owner && sent <= |QueueOf(s.queues, s.owner[c])|
    ensures var s' := AfterDrain(s, c, sent);
      && s'.open == s.open && s'.owner == s.owner && s.owner[c] in s'.ledger
      && s'.draining ==
           (if sent < |QueueOf(s.queues, s.owner[c])| && c in s.open then s.draining else s.draining - {c})
      && QueueOf(s'.queues, s.owner[c]) == QueueOf(s.queues, s.owner[c])[sent..]
  {
    DrainedQueue(s.queues, s.owner[c], sent, s.owner[c]);
  }

  lemma HelloBreaksOff<C>(s: State<C>, c: C, sent: nat)
    requires Enabled(s, Drain(c, sent)) && c in s.open && sent < |QueueOf(s.queues, s.owner[c])|
    ensures var run := [Drain(c, sent), Close(c), Drain(c, 0)];
      && Legal(s, run)
      && Exec(s, run) == Next(s, Drain(c, sent)).(open := s.open - {c}, draining := s.draining - {c})
  {
    hide AfterDrain;
    DrainKeeps(s, c, sent);
    var s1 := Next(s, Drain(c, sent));
    var s2 := Next(s1, Close(c));
    DrainsNothing(s2, c);
    ExecHead(s2, Drain(c, 0), []);
    ExecHead(s1, Close(c), [Drain(c, 0)] + []);
    ExecHead(s, Drain(c, sent), [Close(c)] + ([Drain(c, 0)] + []));
    assert [Drain(c, sent)] + ([Close(c)] + ([Drain(c, 0)] + [])) == [Drain(c, sent), Close(c), Drain(c, 0)];
  }

  lemma DrainsNothing<C>(s: State<C>, c: C)
    requires c in s.owner && s.owner[c] in s.ledger && QueueOf(s.queues, s.owner[c]) != []
    ensures AfterDrain(s, c, 0) == s.(draining := if c in s.open then s.draining else s.draining - {c})
  {
    var id := s.owner[c];
    NoBodies(QueueOf(s.queues, id));
    assert Entries<C>([], Safe, Some(c)) == [];
    SettlesNothing(s, id);
    assert Drained(s.queues, id, 0) == s.queues;
  }

  // ---------------------------------------------------------------- prunings

  function Sifts<C>(ids: seq<string>, maxAge: int, at: int): seq<Step<C>>
  {
    if ids == [] then [] else [Sift(ids[0], maxAge, at)] + Sifts(ids[1..], maxAge, at)
  }

  function Marks<C>(ids: seq<string>): seq<Step<C>>
  {
    if ids == [] then [] else [Mark(ids[0])] + Marks(ids[1..])
  }

  function Removals<C>(ids: seq<string>): seq<Step<C>>
  {
    if ids == [] then [] else [Sweep(ids[0])] + Removals(ids[1..])
  }

  ghost predicate Lists(ids: seq<string>, all: set<string>)
  {
    Distinct(ids) && forall id :: id in ids <==> id in all
  }

  lemma ListsTail(ids: seq<string>, all: set<string>)
    requires Lists(ids, all) && ids != []
    ensures ids[0] in all && Lists(ids[1..], all - {ids[0]})
  {
    forall id ensures id in ids[1..] <==> id in all - {ids[0]} {
      if id in all - {ids[0]} {
        var k :| 0 <= k < |ids| && ids[k] == id;
        assert ids[1..][k - 1] == id;
      }
    }
  }

  /** Some of the queues have been passed over. */
  function Sifted<C(==)>(s: State<C>, ids: set<string>, maxAge: int, at: int): State<C>
  {
    s.(queues := map id | id in s.queues :: if id in ids then Retained(s.queues[id], at, maxAge) else s.queues[id],
       ledger := map id | id in s.ledger.Keys + ids ::
         if id in ids then ThinnedLedger(s, id, maxAge, at) else LedgerOf(s, id))
  }

  function ThinnedLedger<C(==)>(s: State<C>, id: string, maxAge: int, at: int): Ledger<C>
  {
    var l := LedgerOf(s, id);
    l.(settled := l.settled + Entries(Bodies(Discarded(QueueOf(s.queues, id), at, maxAge)), Lost, None))
  }

  lemma SiftedQueues<C>(s: State<C>, id: string, ids: set<string>, maxAge: int, at: int)
    requires id in ids && ids <= s.queues.Keys
    ensures Sifted(AfterSift(s, id, maxAge, at), ids - {id}, maxAge, at).queues == Sifted(s, ids, maxAge, at).queues
  {
    hide Retained, Discarded, Bodies, Entries, LedgerOf, ThinnedLedger;
  }

  lemma SiftedLedgers<C>(s: State<C>, id: string, ids: set<string>, maxAge: int, at: int)
    requires id in ids && ids <= s.queues.Keys
    ensures Sifted(AfterSift(s, id, maxAge, at), ids - {id}, maxAge, at).ledger == Sifted(s, ids, maxAge, at).ledger
  {
    hide Retained, Discarded, Bodies, Entries, ThinnedLedger, AfterSift, LedgerOf;
    var s' := AfterSift(s, id, maxAge, at);
    SiftLedger(s, id, maxAge, at);
    var a, b := Sifted(s', ids - {id}, maxAge, at).ledger, Sifted(s, ids, maxAge, at).ledger;
    forall x | x in a ensures a[x] == b[x] {
      if x != id {
        ElsewhereThinned(s, s', x, maxAge, at);
      }
    }
  }

  lemma SiftLedger<C>(s: State<C>, id: string, maxAge: int, at: int)
    requires id in s.queues
    ensures var s' := AfterSift(s, id, maxAge, at);
      && s'.ledger == s.ledger[id := ThinnedLedger(s, id, maxAge, at)]
      && LedgerOf(s', id) == ThinnedLedger(s, id, maxAge, at)
      && forall x :: x != id ==> LedgerOf(s', x) == LedgerOf(s, x) && QueueOf(s'.queues, x) == QueueOf(s.queues, x)
  {
    hide Retained, Discarded, Bodies, Entries;
  }

  lemma ElsewhereThinned<C>(s: State<C>, s': State<C>, id: string, maxAge: int, at: int)
    requires LedgerOf(s', id) == LedgerOf(s, id) && QueueOf(s'.queues, id) == QueueOf(s.queues, id)
    ensures ThinnedLedger(s', id, maxAge, at) == ThinnedLedger(s, id, maxAge, at)
  {
  }

  lemma SiftedStep<C>(s: State<C>, id: string, ids: set<string>, maxAge: int, at: int)
    requires id in ids && ids <= s.queues.Keys
    ensures Sifted(AfterSift(s, id, maxAge, at), ids - {id}, maxAge, at) == Sifted(s, ids, maxAge, at)
  {
    hide Retained, Discarded, Bodies, Entries;
    SiftedLedgers(s, id, ids, maxAge, at);
    SiftedQueues(s, id, ids, maxAge, at);
  }

  lemma {:induction false} SiftsRun<C>(s: State<C>, ids: seq<string>, all: set<string>, maxAge: int, at: int)
    requires Lists(ids, all) && all <= s.queues.Keys
    ensures Legal(s, Sifts(ids, maxAge, at)) && Exec(s, Sifts(ids, maxAge, at)) == Sifted(s, all, maxAge, at)
    decreases ids
  {
    hide AfterSift;
    if ids == [] {
      assert all == {};
      assert Sifted(s, {}, maxAge, at) == s;
    } else {
      var id, run := ids[0], Sifts<C>(ids, maxAge, at);
      ListsTail(ids, all);
      var s' := AfterSift(s, id, maxAge, at);
      assert run[0] == Sift(id, maxAge, at) && run[1..] == Sifts(ids[1..], maxAge, at) && Next(s, run[0]) == s';
      SiftKeys(s, id, maxAge, at);
      SiftsRun(s', ids[1..], all - {id}, maxAge, at);
      SiftedStep(s, id, all, maxAge, at);
    }
  }

  lemma SiftKeys<C>(s: State<C>, id: string, maxAge: int, at: int)
    requires id in s.queues
    ensures AfterSift(s, id, maxAge, at).queues.Keys == s.queues.Keys
  {
  }

  lemma RunsEmpty<C>(s: State<C>)
    ensures Legal(s, []) && Exec(s, []) == s
  {
  }

  lemma {:induction false} MarksRun<C>(s: State<C>, ids: seq<string>)
    requires forall i :: 0 <= i < |ids| ==> ids[i] in s.queues && s.queues[ids[i]] == []
    ensures Legal(s, Marks(ids)) && Exec(s, Marks(ids)) == s.(marked := s.marked + multiset(ids))
    decreases ids
  {
    hide Legal, Exec;
    if ids == [] {
      RunsEmpty(s);
    } else {
      var s' := s.(marked := s.marked + multiset{ids[0]});
      MarksRun(s', ids[1..]);
      ExecHead(s, Mark(ids[0]), Marks(ids[1..]));
      assert ids == [ids[0]] + ids[1..];
    }
  }

  lemma SweepsNothing<C>(s: State<C>, id: string)
    requires id in s.ledger && id in s.queues && s.queues[id] == []
    ensures AfterSweep(s, id) == s.(queues := s.queues - {id}, marked := s.marked - multiset{id})
  {
    assert Entries<C>([], Swept, None) == [];
    SettlesNothing(s, id);
  }

  lemma WithoutHead(m: multiset<string>, ids: seq<string>)
    requires ids != [] && multiset(ids) <= m
    ensures ids[0] in m && multiset(ids[1..]) <= m - multiset{ids[0]}
    ensures m - multiset{ids[0]} - multiset(ids[1..]) == m - multiset(ids)
  {
    assert ids == [ids[0]] + ids[1..];
    assert multiset(ids) == multiset{ids[0]} + multiset(ids[1..]);
  }

  /** What collecting the empty queues leaves behind. */
  function Removed<C(==)>(s: State<C>, ids: seq<string>, all: set<string>): State<C>
  {
    s.(queues := s.queues - all, marked := s.marked - multiset(ids))
  }

  ghost predicate Removable<C>(s: State<C>, all: set<string>)
  {
    forall id :: id in all ==> id in s.ledger && id in s.queues && s.queues[id] == []
  }

  lemma RemovedHead<C>(s: State<C>, ids: seq<string>, all: set<string>)
    requires Lists(ids, all) && ids != [] && multiset(ids) <= s.marked && Removable(s, all)
    ensures Enabled(s, Sweep(ids[0]))
    ensures var s' := Next(s, Sweep(ids[0]));
      && multiset(ids[1..]) <= s'.marked && Removable(s', all - {ids[0]})
      && Removed(s', ids[1..], all - {ids[0]}) == Removed(s, ids, all)
  {
    hide AfterSweep, Distinct;
    ListsTail(ids, all);
    SweepsNothing(s, ids[0]);
    WithoutHead(s.marked, ids);
    assert s.queues - {ids[0]} - (all - {ids[0]}) == s.queues - all;
  }

  lemma {:induction false} RemovalsRun<C>(s: State<C>, ids: seq<string>, all: set<string>)
    requires Lists(ids, all) && multiset(ids) <= s.marked && Removable(s, all)
    ensures Legal(s, Removals(ids)) && Exec(s, Removals(ids)) == Removed(s, ids, all)
    decreases ids
  {
    hide Next, Legal, Exec, Distinct, Removable, Removed, Enabled;
    if ids == [] {
      RunsEmpty(s);
      NothingRemoved(s, all);
    } else {
      ListsTail(ids, all);
      RemovedHead(s, ids, all);
      RemovalsRun(Next(s, Sweep(ids[0])), ids[1..], all - {ids[0]});
      ExecHead(s, Sweep(ids[0]), Removals(ids[1..]));
    }
  }

  lemma NothingRemoved<C>(s: State<C>, all: set<string>)
    requires Lists([], all)
    ensures Removed(s, [], all) == s
  {
    assert all == {} && s.queues - {} == s.queues && s.marked - multiset([]) == s.marked;
  }

  /** A whole pruning is its pieces with nothing in between, in whatever order the queues are visited: all
      are passed over, those left empty are collected, and they are removed. */
  lemma PruneIsItsPieces<C>(s: State<C>, ids: seq<string>, empty: seq<string>, maxAge: int, at: int)
    requires Lists(ids, s.queues.Keys) && Lists(empty, EmptyIds(RetainedAll(s.queues, at, maxAge)))
    ensures var run := Sifts(ids, maxAge, at) + (Marks(empty) + Removals(empty));
      Legal(s, run) && Ticked(Exec(s, run), at) == Next(s, Prune(maxAge, at))
  {
    hide Exec, Legal, Enabled, Lists, Sifted, Removed, Removable, AfterPrune, EmptyIds, RetainedAll, Retained;
    hide Sifts, Marks, Removals, AfterDrain, AfterHello, AfterTeardown, AfterSend, AfterAct, AfterEnqueue, AfterSift;
    hide AfterSweep, AfterLeave, AfterEvict, AfterLook, AfterRegister;
    var gone := EmptyIds(RetainedAll(s.queues, at, maxAge));
    SiftsRun(s, ids, s.queues.Keys, maxAge, at);
    var s1 := Sifted(s, s.queues.Keys, maxAge, at);
    CollectsEmpty(s, empty, maxAge, at);
    MarksRun(s1, empty);
    var s2 := s1.(marked := s1.marked + multiset(empty));
    RemovalsRun(s2, empty, gone);
    ExecSplits(s1, Marks(empty), Removals(empty));
    ExecSplits(s, Sifts(ids, maxAge, at), Marks(empty) + Removals(empty));
    SiftedIsPruned(s, empty, maxAge, at);
  }

  lemma CollectsEmpty<C>(s: State<C>, empty: seq<string>, maxAge: int, at: int)
    requires Lists(empty, EmptyIds(RetainedAll(s.queues, at, maxAge)))
    ensures var s1 := Sifted(s, s.queues.Keys, maxAge, at);
      && (forall i :: 0 <= i < |empty| ==> empty[i] in s1.queues && s1.queues[empty[i]] == [])
      && Removable(s1.(marked := s1.marked + multiset(empty)), EmptyIds(RetainedAll(s.queues, at, maxAge)))
  {
    hide Retained;
    assert forall i :: 0 <= i < |empty| ==> empty[i] in EmptyIds(RetainedAll(s.queues, at, maxAge));
  }

  lemma SiftedIsPruned<C>(s: State<C>, empty: seq<string>, maxAge: int, at: int)
    ensures var s1 := Sifted(s, s.queues.Keys, maxAge, at);
      Removed(s1.(marked := s1.marked + multiset(empty)), empty, EmptyIds(RetainedAll(s.queues, at, maxAge))) ==
        AfterPrune(s, maxAge, at)
  {
    hide Retained;
    var s1 := Sifted(s, s.queues.Keys, maxAge, at);
    assert s1.queues == RetainedAll(s.queues, at, maxAge);
    assert s1.marked + multiset(empty) - multiset(empty) == s.marked;
    SiftedLedger(s, maxAge, at);
  }

  lemma SiftedLedger<C>(s: State<C>, maxAge: int, at: int)
    ensures Sifted(s, s.queues.Keys, maxAge, at).ledger == AfterPrune(s, maxAge, at).ledger
  {
    hide Retained, Discarded, Bodies, Entries;
    var a, b := Sifted(s, s.queues.Keys, maxAge, at).ledger, AfterPrune(s, maxAge, at).ledger;
    forall id | id in a ensures a[id] == b[id] {
      if id !in s.queues {
        NothingDiscarded<C>(maxAge, at);
        assert LedgerOf(s, id).settled + [] == LedgerOf(s, id).settled;
      }
    }
  }

  lemma NothingDiscarded<C>(maxAge: int, at: int)
    ensures Entries<C>(Bodies(Discarded([], at, maxAge)), Lost, None) == []
  {
  }
}
