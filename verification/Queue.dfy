/** Per-agent queues of undelivered messages (src/queue.rs) and the channels they drain into. */
module Queue {
  import opened Clock
  import opened Messages

  datatype QueuedMessage = QueuedMessage(msg: Message, enqueuedAt: int, retries: nat)

  type Queues = map<string, seq<QueuedMessage>>

  function QueueOf(m: Queues, id: string): seq<QueuedMessage> { if id in m then m[id] else [] }

  function Bodies(q: seq<QueuedMessage>): seq<Message>
  {
    if q == [] then [] else [q[0].msg] + Bodies(q[1..])
  }

  lemma {:induction false} BodiesSplit(a: seq<QueuedMessage>, b: seq<QueuedMessage>)
    ensures Bodies(a + b) == Bodies(a) + Bodies(b)
  {
    if a == [] {
      assert a + b == b;
    } else {
      assert (a + b)[1..] == a[1..] + b;
      BodiesSplit(a[1..], b);
    }
  }

  // ---------------------------------------------------------------- specification

  function Enqueued(m: Queues, id: string, msg: Message, now: int): Queues
  {
    m[id := QueueOf(m, id) + [QueuedMessage(msg, now, 0)]]
  }

  /** An empty queue leaves the map. */
  function Trimmed(m: Queues, id: string): Queues
  {
    if id in m && m[id] == [] then m - {id} else m
  }

  /** The first `k` messages have gone. */
  function Drained(m: Queues, id: string, k: nat): Queues
    requires k <= |QueueOf(m, id)|
  {
    if id in m then Trimmed(m[id := m[id][k..]], id) else m
  }

  predicate Young(q: QueuedMessage, now: int, maxAge: int)
  {
    WholeSeconds(now - q.enqueuedAt) < maxAge
  }

  function Retained(q: seq<QueuedMessage>, now: int, maxAge: int): seq<QueuedMessage>
  {
    if q == [] then []
    else if Young(q[0], now, maxAge) then [q[0]] + Retained(q[1..], now, maxAge)
    else Retained(q[1..], now, maxAge)
  }

  /** Pruning keeps a message, each as often as it was there, exactly while it is younger than so many seconds. */
  lemma {:induction false} RetainedExactly(q: seq<QueuedMessage>, now: int, maxAge: int, e: QueuedMessage)
    requires maxAge > 0
    ensures multiset(Retained(q, now, maxAge))[e] ==
      if now - e.enqueuedAt < maxAge * TICKS_PER_SECOND then multiset(q)[e] else 0
  {
    hide WholeSeconds;
    if q != [] {
      RetainedExactly(q[1..], now, maxAge, e);
      WholeSecondsExactly(now - q[0].enqueuedAt, maxAge);
      assert q == [q[0]] + q[1..];
    }
  }

  /** It treats every part of a queue alike, so what it keeps stays in order. */
  lemma {:induction false} RetainedSplits(a: seq<QueuedMessage>, b: seq<QueuedMessage>, now: int, maxAge: int)
    ensures Retained(a + b, now, maxAge) == Retained(a, now, maxAge) + Retained(b, now, maxAge)
  {
    if a == [] {
      assert a + b == b;
    } else {
      assert (a + b)[1..] == a[1..] + b;
      RetainedSplits(a[1..], b, now, maxAge);
    }
  }

  function RetainedAll(m: Queues, now: int, maxAge: int): Queues
  {
    map id | id in m :: Retained(m[id], now, maxAge)
  }

  function EmptyIds(m: Queues): set<string>
  {
    set id | id in m && m[id] == []
  }

  function Pruned(m: Queues, now: int, maxAge: int): Queues
  {
    RetainedAll(m, now, maxAge) - EmptyIds(RetainedAll(m, now, maxAge))
  }

  // ---------------------------------------------------------------- the channel

  /** The sending half of an unbounded channel. Its receiver may go away at any moment, and for good. */
  class Channel {
    var open: bool
    var sent: seq<Message>

    constructor ()
      ensures open && sent == []
    {
      open := true;
      sent := [];
    }

    method Send(msg: Message) returns (ok: bool)
      modifies this
      ensures ok == open && (open ==> old(open))
      ensures sent == if ok then old(sent) + [msg] else old(sent)
    {
      if * {
        open := false;
      }
      if open {
        sent := sent + [msg];
      }
      ok := open;
    }
  }

  lemma SentGrows(base: seq<Message>, q: seq<QueuedMessage>, k: nat)
    requires k < |q|
    ensures base + Bodies(q[..k]) + [q[k].msg] == base + Bodies(q[..k + 1])
  {
    assert q[..k + 1] == q[..k] + [q[k]];
    BodiesSplit(q[..k], [q[k]]);
  }

  lemma NoBodies(q: seq<QueuedMessage>)
    ensures q[..0] == [] && Bodies(q[..0]) == [] && q[0..] == q
  {
  }

  lemma FrontAndRest(q: seq<QueuedMessage>, k: nat)
    requires k < |q|
    ensures q[k..][0] == q[k] && q[k..][1..] == q[k + 1..] && [q[k]] + q[k + 1..] == q[k..]
  {
  }

  // ---------------------------------------------------------------- the queue

  /** Messages are popped and sent until a send fails; the one that failed goes back to the front. */
  method SendAll(q: seq<QueuedMessage>, tx: Channel) returns (entry: seq<QueuedMessage>, delivered: nat)
    modifies tx
    ensures delivered <= |q| && entry == q[delivered..]
    ensures tx.sent == old(tx.sent) + Bodies(q[..delivered])
    ensures tx.open == (old(tx.open) && entry == []) && (delivered > 0 ==> old(tx.open))
  {
    hide Bodies;
    entry, delivered := q, 0;
    NoBodies(q);
    while entry != []
      invariant delivered <= |q| && entry == q[delivered..]
      invariant tx.sent == old(tx.sent) + Bodies(q[..delivered])
      invariant tx.open == old(tx.open) && (delivered > 0 ==> old(tx.open))
      decreases |entry|
    {
      var qm := entry[0];
      FrontAndRest(q, delivered);
      SentGrows(old(tx.sent), q, delivered);
      entry := entry[1..];
      var ok := tx.Send(qm.msg);
      if !ok {
        entry := [qm] + entry;
        break;
      }
      delivered := delivered + 1;
    }
  }

  class MessageQueue {
    var queues: Queues

    constructor ()
      ensures queues == map[]
    {
      queues := map[];
    }

    method Enqueue(id: string, msg: Message, now: int)
      modifies this
      ensures queues == Enqueued(old(queues), id, msg, now)
      ensures queues ==
        old(queues)[id := (if id in old(queues) then old(queues)[id] else []) + [QueuedMessage(msg, now, 0)]]
    {
      if id !in queues {
        queues := queues[id := []];
      }
      queues := queues[id := queues[id] + [QueuedMessage(msg, now, 0)]];
    }

    /** Whatever moment sends begin to fail, what was sent followed by what remains is the queue. */
    method DrainTo(id: string, tx: Channel) returns (delivered: nat)
      modifies this, tx
      ensures delivered <= |QueueOf(old(queues), id)|
      ensures tx.sent == old(tx.sent) + Bodies(QueueOf(old(queues), id)[..delivered])
      ensures queues == Drained(old(queues), id, delivered)
      ensures tx.open == (old(tx.open) && delivered == |QueueOf(old(queues), id)|)
      ensures delivered > 0 ==> old(tx.open)
      ensures id !in old(queues) ==> delivered == 0 && queues == old(queues)
      ensures id in old(queues) ==>
        && delivered <= |old(queues)[id]|
        && tx.sent == old(tx.sent) + Bodies(old(queues)[id][..delivered])
        && queues == if delivered == |old(queues)[id]| then old(queues) - {id}
                     else old(queues)[id := old(queues)[id][delivered..]]
    {
      hide Bodies;
      delivered := 0;
      NoBodies(QueueOf(queues, id));
      if id in queues {
        var entry;
        entry, delivered := SendAll(queues[id], tx);
        queues := queues[id := entry];
        if entry == [] {
          queues := queues - {id};
        }
      }
    }

    method PruneOld(maxAge: int, now: int)
      modifies this
      ensures queues == Pruned(old(queues), now, maxAge)
      ensures forall id :: id in queues ==> id in old(queues) && queues[id] != []
      ensures maxAge > 0 ==> forall id, e: QueuedMessage :: id in old(queues) ==>
        multiset(if id in queues then queues[id] else [])[e] ==
          if now - e.enqueuedAt < maxAge * TICKS_PER_SECOND then multiset(old(queues)[id])[e] else 0
    {
      hide Retained, RetainedAll, EmptyIds, Pruned;
      ghost var was := queues;
      RetainYoung(maxAge, now);
      DropEmpty();
      assert queues == Pruned(was, now, maxAge) by { PrunedIs(was, now, maxAge); }
      PrunedExactly(was, now, maxAge);
    }

    /** The first pass: every queue is thinned out, in whatever order the table yields them. */
    method RetainYoung(maxAge: int, now: int)
      modifies this
      ensures queues == RetainedAll(old(queues), now, maxAge)
    {
      hide Retained;
      var todo := queues.Keys;
      while todo != {}
        invariant todo <= queues.Keys == old(queues).Keys
        invariant forall id :: id in queues ==>
          queues[id] == if id in todo then old(queues)[id] else Retained(old(queues)[id], now, maxAge)
        decreases todo
      {
        var id :| id in todo;
        queues := queues[id := Retained(queues[id], now, maxAge)];
        todo := todo - {id};
      }
    }

    /** The second: the empty queues are collected, and then removed one by one. */
    method DropEmpty()
      modifies this
      ensures queues == old(queues) - EmptyIds(old(queues))
    {
      var empty := set id | id in queues && queues[id] == [];
      while empty != {}
        invariant empty <= queues.Keys <= old(queues).Keys
        invariant forall id :: id in old(queues) ==> (id in queues <==> old(queues)[id] != [] || id in empty)
        invariant forall id :: id in queues ==> queues[id] == old(queues)[id]
        decreases empty
      {
        var id :| id in empty;
        queues := queues - {id};
        empty := empty - {id};
      }
    }
  }

  lemma PrunedIs(m: Queues, now: int, maxAge: int)
    ensures Pruned(m, now, maxAge) == RetainedAll(m, now, maxAge) - EmptyIds(RetainedAll(m, now, maxAge))
  {
  }

  lemma PrunedExactly(m: Queues, now: int, maxAge: int)
    ensures var m' := Pruned(m, now, maxAge);
      && (forall id :: id in m' ==> id in m && m'[id] != [])
      && (maxAge > 0 ==> forall id, e: QueuedMessage :: id in m ==>
            multiset(if id in m' then m'[id] else [])[e] ==
              if now - e.enqueuedAt < maxAge * TICKS_PER_SECOND then multiset(m[id])[e] else 0)
  {
    var m' := Pruned(m, now, maxAge);
    forall id, e: QueuedMessage | maxAge > 0 && id in m
      ensures multiset(if id in m' then m'[id] else [])[e] ==
        if now - e.enqueuedAt < maxAge * TICKS_PER_SECOND then multiset(m[id])[e] else 0
    {
      RetainedExactly(m[id], now, maxAge, e);
    }
  }

  // ---------------------------------------------------------------- draining with the guard dropped

  function EnqueuedAll(m: Queues, id: string, arrivals: seq<(Message, int)>): (r: Queues)
    decreases arrivals
  {
    if arrivals == [] then m else EnqueuedAll(Enqueued(m, id, arrivals[0].0, arrivals[0].1), id, arrivals[1..])
  }

  function Arrived(arrivals: seq<(Message, int)>): seq<QueuedMessage>
  {
    if arrivals == [] then [] else [QueuedMessage(arrivals[0].0, arrivals[0].1, 0)] + Arrived(arrivals[1..])
  }

  lemma {:induction false} EnqueuedAllAppends(m: Queues, id: string, arrivals: seq<(Message, int)>)
    ensures QueueOf(EnqueuedAll(m, id, arrivals), id) == QueueOf(m, id) + Arrived(arrivals)
    ensures forall other :: other != id ==>
      QueueOf(EnqueuedAll(m, id, arrivals), other) == QueueOf(m, other) &&
      (other in EnqueuedAll(m, id, arrivals) <==> other in m)
    decreases arrivals
  {
    if arrivals != [] {
      var next := Enqueued(m, id, arrivals[0].0, arrivals[0].1);
      EnqueuedAllAppends(next, id, arrivals[1..]);
      assert QueueOf(next, id) == QueueOf(m, id) + [QueuedMessage(arrivals[0].0, arrivals[0].1, 0)];
    }
  }

  /** A drain that sends `k` messages, drops its guard, lets other senders enqueue and only then removes
      an empty queue: every message not sent is still queued, in order, and every queue is what it would
      be had the senders run after the whole drain. */
  lemma SplitDrainLosesNothing(m: Queues, id: string, k: nat, arrivals: seq<(Message, int)>, other: string)
    requires k <= |QueueOf(m, id)|
    ensures var mid := if id in m then m[id := m[id][k..]] else m;
      var end := Trimmed(EnqueuedAll(mid, id, arrivals), id);
      && QueueOf(end, id) == QueueOf(m, id)[k..] + Arrived(arrivals)
      && QueueOf(end, other) == QueueOf(EnqueuedAll(Drained(m, id, k), id, arrivals), other)
      && (id in end <==> QueueOf(end, id) != [])
  {
    var mid := if id in m then m[id := m[id][k..]] else m;
    EnqueuedAllAppends(mid, id, arrivals);
    EnqueuedAllAppends(Drained(m, id, k), id, arrivals);
    assert QueueOf(mid, id) == QueueOf(m, id)[k..];
    if arrivals == [] {
      assert Arrived(arrivals) == [];
      assert EnqueuedAll(mid, id, arrivals) == mid;
    }
  }

  /** Pruning removes the queues it found empty without looking again: a sender that gets in between
      loses its messages unless it found a queue that was kept. */
  lemma SplitPruneLoses(m: Queues, now: int, maxAge: int, id: string, arrivals: seq<(Message, int)>)
    requires arrivals != []
    ensures var kept := RetainedAll(m, now, maxAge);
      var end := EnqueuedAll(kept, id, arrivals) - EmptyIds(kept);
      QueueOf(end, id) == QueueOf(kept, id) + Arrived(arrivals) <==> id !in EmptyIds(kept)
  {
    var kept := RetainedAll(m, now, maxAge);
    EnqueuedAllAppends(kept, id, arrivals);
    var all := EnqueuedAll(kept, id, arrivals);
    assert |QueueOf(all, id)| > 0 && id in all;
  }
}
