/** Content routing by prioritised rules (src/plumber.rs). Patterns are whatever the regex library takes
    them to be: which compile, and which texts they match. */
module Plumber {
  import opened Messages
  import opened Options
  import opened Sequences

  /** The regex library. */
  datatype Regex = Regex(compiles: string -> bool, isMatch: (string, string) -> bool)

  datatype Rule = Rule(
    name: string,
    pattern: string,
    destination: string,
    priority: int,
    headerMatch: Option<map<string, string>>)

  const DEFAULT_DESTINATION := "/proc/log"

  // ---------------------------------------------------------------- matching and order

  function Haystack(msg: Message): string
  {
    "type:" + msg.msgType + " sender:" + msg.sender + " path:" + msg.path + " data:" + msg.data
  }

  predicate Matches(regex: Regex, rule: Rule, msg: Message)
  {
    && regex.isMatch(rule.pattern, Haystack(msg))
    && (rule.headerMatch.Some? ==>
      forall k :: k in rule.headerMatch.value ==> k in msg.headers && msg.headers[k] == rule.headerMatch.value[k])
  }

  /** The pattern is found in the message's text, and each header the rule asks for is among the message's. */
  lemma MatchesExactly(regex: Regex, rule: Rule, msg: Message)
    ensures Matches(regex, rule, msg) <==>
      && regex.isMatch(rule.pattern,
           "type:" + msg.msgType + " sender:" + msg.sender + " path:" + msg.path + " data:" + msg.data)
      && (rule.headerMatch.Some? ==> rule.headerMatch.value.Items <= msg.headers.Items)
  {
    if rule.headerMatch.Some? && rule.headerMatch.value.Items <= msg.headers.Items {
      forall k | k in rule.headerMatch.value ensures k in msg.headers && msg.headers[k] == rule.headerMatch.value[k] {
        assert (k, rule.headerMatch.value[k]) in rule.headerMatch.value.Items;
      }
    }
  }

  /** Higher priorities come first. */
  ghost predicate Descending(rules: seq<Rule>)
  {
    forall i, j :: 0 <= i < j < |rules| ==> rules[i].priority >= rules[j].priority
  }

  /** The rules of one priority, in order. */
  function AtLevel(rules: seq<Rule>, p: int): seq<Rule>
  {
    if rules == [] then []
    else (if rules[0].priority == p then [rules[0]] else []) + AtLevel(rules[1..], p)
  }

  /** The same rules at every priority, in the same order. */
  ghost predicate SameLevels(a: seq<Rule>, b: seq<Rule>) { forall p :: AtLevel(a, p) == AtLevel(b, p) }

  /** `sorted` is the stable sort of `rules` by descending priority. */
  ghost predicate StableSort(sorted: seq<Rule>, rules: seq<Rule>)
  {
    Descending(sorted) && SameLevels(sorted, rules)
  }

  /** Insertion after every rule of the same or a higher priority. */
  function InsertRule(rules: seq<Rule>, x: Rule): seq<Rule>
  {
    if rules == [] || rules[0].priority < x.priority then [x] + rules
    else [rules[0]] + InsertRule(rules[1..], x)
  }

  /** The sort that the standard library's stable sort by key computes. */
  function Ranked(rules: seq<Rule>): seq<Rule>
  {
    if rules == [] then [] else InsertRule(Ranked(rules[..|rules| - 1]), rules[|rules| - 1])
  }

  lemma {:induction false} LevelsSplit(xs: seq<Rule>, ys: seq<Rule>, p: int)
    ensures AtLevel(xs + ys, p) == AtLevel(xs, p) + AtLevel(ys, p)
  {
    if xs == [] {
      assert xs + ys == ys;
    } else {
      assert (xs + ys)[1..] == xs[1..] + ys;
      LevelsSplit(xs[1..], ys, p);
      Regroup(if xs[0].priority == p then [xs[0]] else [], AtLevel(xs[1..], p), AtLevel(ys, p));
    }
  }

  lemma {:induction false} LevelEmpty(rules: seq<Rule>, p: int)
    ensures AtLevel(rules, p) == [] <==> forall i :: 0 <= i < |rules| ==> rules[i].priority != p
  {
    if rules != [] {
      LevelEmpty(rules[1..], p);
    }
  }

  lemma {:induction false} InsertSorts(rules: seq<Rule>, x: Rule)
    requires Descending(rules)
    ensures Descending(InsertRule(rules, x)) && |InsertRule(rules, x)| == |rules| + 1
    ensures forall y :: y in InsertRule(rules, x) <==> y in rules || y == x
  {
    if rules != [] && rules[0].priority >= x.priority {
      InsertSorts(rules[1..], x);
      var rest := InsertRule(rules[1..], x);
      forall i | 0 <= i < |rest| ensures rules[0].priority >= rest[i].priority {
        assert rest[i] in rest;
      }
    }
  }

  lemma {:induction false} InsertLevels(rules: seq<Rule>, x: Rule, p: int)
    requires Descending(rules)
    ensures AtLevel(InsertRule(rules, x), p) == AtLevel(rules + [x], p)
  {
    if rules == [] || rules[0].priority < x.priority {
      LevelsSplit([x], rules, p);
      LevelsSplit(rules, [x], p);
      if p == x.priority {
        LevelEmpty(rules, p);
      }
    } else {
      InsertLevels(rules[1..], x, p);
      assert (rules + [x])[1..] == rules[1..] + [x];
    }
  }

  lemma {:induction false} RankedSorts(rules: seq<Rule>)
    ensures StableSort(Ranked(rules), rules)
  {
    if rules != [] {
      var front, last := rules[..|rules| - 1], rules[|rules| - 1];
      assert rules == front + [last];
      RankedSorts(front);
      InsertSorts(Ranked(front), last);
      forall p ensures AtLevel(Ranked(rules), p) == AtLevel(rules, p) {
        InsertLevels(Ranked(front), last, p);
        LevelsSplit(Ranked(front), [last], p);
        LevelsSplit(front, [last], p);
      }
    }
  }

  /** There is only one stable sort. */
  lemma {:induction false} SortUnique(a: seq<Rule>, b: seq<Rule>)
    requires Descending(a) && Descending(b) && SameLevels(a, b)
    ensures a == b
  {
    hide AtLevel, SameLevels;
    if a == [] || b == [] {
      SameEmpty(a, b);
    } else {
      SameHead(a, b);
      SameTail(a, b);
      SortUnique(a[1..], b[1..]);
    }
  }

  lemma SameEmpty(a: seq<Rule>, b: seq<Rule>)
    requires SameLevels(a, b) && (a == [] || b == [])
    ensures a == b
  {
    hide AtLevel;
    var p := if a != [] then a[0].priority else if b != [] then b[0].priority else 0;
    LevelEmpty(a, p);
    LevelEmpty(b, p);
  }

  lemma SameHead(a: seq<Rule>, b: seq<Rule>)
    requires a != [] && b != [] && Descending(a) && Descending(b) && SameLevels(a, b)
    ensures a[0] == b[0]
  {
    hide AtLevel;
    TopOf(a, b);
    TopOf(b, a);
    LevelHead(a);
    LevelHead(b);
  }

  lemma LevelHead(a: seq<Rule>)
    requires a != []
    ensures var level := AtLevel(a, a[0].priority); level != [] && level[0] == a[0]
  {
  }

  lemma SameTail(a: seq<Rule>, b: seq<Rule>)
    requires a != [] && b != [] && a[0] == b[0] && SameLevels(a, b)
    ensures SameLevels(a[1..], b[1..])
  {
    hide AtLevel;
    forall q ensures AtLevel(a[1..], q) == AtLevel(b[1..], q) {
      LevelsSplit([a[0]], a[1..], q);
      LevelsSplit([a[0]], b[1..], q);
      assert a == [a[0]] + a[1..] && b == [a[0]] + b[1..];
      SameRest(AtLevel([a[0]], q), AtLevel(a[1..], q), AtLevel(b[1..], q));
    }
  }

  lemma SameRest<T>(h: seq<T>, x: seq<T>, y: seq<T>)
    requires h + x == h + y
    ensures x == y
  {
    assert x == (h + x)[|h|..] && y == (h + y)[|h|..];
  }

  lemma TopOf(a: seq<Rule>, b: seq<Rule>)
    requires a != [] && Descending(b) && AtLevel(a, a[0].priority) == AtLevel(b, a[0].priority)
    ensures b != [] && b[0].priority >= a[0].priority
  {
    hide AtLevel;
    var p := a[0].priority;
    LevelEmpty(a, p);
    LevelEmpty(b, p);
    var j :| 0 <= j < |b| && b[j].priority == p;
  }

  /** Sorting after every addition gives the sort of everything that was added. */
  lemma SortAgain(rules: seq<Rule>, more: seq<Rule>)
    ensures Ranked(Ranked(rules) + more) == Ranked(rules + more)
  {
    RankedSorts(rules);
    RankedSorts(Ranked(rules) + more);
    RankedSorts(rules + more);
    forall p ensures AtLevel(Ranked(Ranked(rules) + more), p) == AtLevel(Ranked(rules + more), p) {
      LevelsSplit(Ranked(rules), more, p);
      LevelsSplit(rules, more, p);
    }
    SortUnique(Ranked(Ranked(rules) + more), Ranked(rules + more));
  }

  // ---------------------------------------------------------------- filtering

  function Keep(rules: seq<Rule>, wanted: Rule -> bool): seq<Rule>
  {
    if rules == [] then []
    else (if wanted(rules[0]) then [rules[0]] else []) + Keep(rules[1..], wanted)
  }

  lemma {:induction false} KeepSplits(xs: seq<Rule>, ys: seq<Rule>, wanted: Rule -> bool)
    ensures Keep(xs + ys, wanted) == Keep(xs, wanted) + Keep(ys, wanted)
  {
    if xs == [] {
      assert xs + ys == ys;
    } else {
      assert (xs + ys)[1..] == xs[1..] + ys;
      KeepSplits(xs[1..], ys, wanted);
      Regroup(if wanted(xs[0]) then [xs[0]] else [], Keep(xs[1..], wanted), Keep(ys, wanted));
    }
  }

  lemma {:induction false} KeepIs(rules: seq<Rule>, wanted: Rule -> bool)
    ensures forall r :: r in Keep(rules, wanted) <==> r in rules && wanted(r)
    ensures Descending(rules) ==> Descending(Keep(rules, wanted))
  {
    if rules != [] {
      var rest := rules[1..];
      KeepIs(rest, wanted);
      assert forall r :: r in rules <==> r == rules[0] || r in rest;
      if Descending(rules) {
        var kept := Keep(rest, wanted);
        forall i | 0 <= i < |kept| ensures rules[0].priority >= kept[i].priority {
          assert kept[i] in kept;
          var j :| 0 <= j < |rest| && rest[j] == kept[i];
          assert rules[j + 1] == kept[i];
        }
      }
    }
  }

  lemma {:induction false} KeepLevels(rules: seq<Rule>, wanted: Rule -> bool, p: int)
    ensures AtLevel(Keep(rules, wanted), p) == Keep(AtLevel(rules, p), wanted)
  {
    if rules != [] {
      KeepLevels(rules[1..], wanted, p);
      var head := if wanted(rules[0]) then [rules[0]] else [];
      LevelsSplit(head, Keep(rules[1..], wanted), p);
      KeepSplits(if rules[0].priority == p then [rules[0]] else [], AtLevel(rules[1..], p), wanted);
    }
  }

  /** Filtering commutes with sorting. */
  lemma KeepRanked(rules: seq<Rule>, wanted: Rule -> bool)
    ensures Keep(Ranked(rules), wanted) == Ranked(Keep(rules, wanted))
  {
    var a, b := Keep(Ranked(rules), wanted), Ranked(Keep(rules, wanted));
    RankedSorts(rules);
    RankedSorts(Keep(rules, wanted));
    KeepIs(Ranked(rules), wanted);
    forall p ensures AtLevel(a, p) == AtLevel(b, p) {
      KeepLevels(Ranked(rules), wanted, p);
      KeepLevels(rules, wanted, p);
      assert AtLevel(Ranked(rules), p) == AtLevel(rules, p);
    }
    SortUnique(a, b);
  }

  /** The first rule of the sort has the highest priority, and was added before its peers. */
  lemma {:induction false} FirstRanked(rules: seq<Rule>) returns (i: nat)
    requires rules != []
    ensures Foremost(rules, i) && Ranked(rules) != [] && Ranked(rules)[0] == rules[i]
  {
    hide AtLevel, Foremost;
    var front, last := rules[..|rules| - 1], rules[|rules| - 1];
    if front == [] {
      i := 0;
      ForemostOnly(rules);
    } else {
      i := FirstRanked(front);
      ForemostThen(rules, i);
      if rules[i].priority < last.priority {
        i := |front|;
      }
    }
  }

  lemma ForemostOnly(rules: seq<Rule>)
    requires |rules| == 1
    ensures Foremost(rules, 0)
  {
  }

  /** One more rule comes foremost exactly if its priority is higher than that of all before it. */
  lemma ForemostThen(rules: seq<Rule>, i: nat)
    requires |rules| > 1 && Foremost(rules[..|rules| - 1], i)
    ensures i < |rules| - 1 && rules[..|rules| - 1][i] == rules[i]
    ensures var n := |rules| - 1; Foremost(rules, if rules[i].priority < rules[n].priority then n else i)
  {
    var n := |rules| - 1;
    var k := if rules[i].priority < rules[n].priority then n else i;
    forall j | 0 <= j < |rules|
      ensures rules[j].priority < rules[k].priority || (rules[j].priority == rules[k].priority && k <= j)
    {
      if j < n {
        assert rules[j] == rules[..n][j];
      }
    }
  }

  ghost predicate Foremost(rules: seq<Rule>, i: nat)
  {
    i < |rules| && forall j :: 0 <= j < |rules| ==>
      rules[j].priority < rules[i].priority || (rules[j].priority == rules[i].priority && i <= j)
  }

  // ---------------------------------------------------------------- routing

  function Destinations(rules: seq<Rule>): seq<string>
  {
    if rules == [] then [] else [rules[0].destination] + Destinations(rules[1..])
  }

  lemma {:induction false} DestinationsSplit(xs: seq<Rule>, ys: seq<Rule>)
    ensures Destinations(xs + ys) == Destinations(xs) + Destinations(ys)
  {
    if xs == [] {
      assert xs + ys == ys;
    } else {
      assert (xs + ys)[1..] == xs[1..] + ys;
      DestinationsSplit(xs[1..], ys);
      Regroup([xs[0].destination], Destinations(xs[1..]), Destinations(ys));
    }
  }

  function Matching(regex: Regex, msg: Message): Rule -> bool { r => Matches(regex, r, msg) }

  /** What a plumber to which `added` were added, in that order, makes of a message. */
  function Routed(regex: Regex, added: seq<Rule>, msg: Message): (to: seq<string>)
    ensures to != []
  {
    var to := Destinations(Ranked(Keep(added, Matching(regex, msg))));
    if to == [] then [DEFAULT_DESTINATION] else to
  }

  /** A rule that does not match never changes a route, wherever it stands. */
  lemma NonMatchingIgnored(regex: Regex, before: seq<Rule>, rule: Rule, after: seq<Rule>, msg: Message)
    requires !Matches(regex, rule, msg)
    ensures Routed(regex, before + [rule] + after, msg) == Routed(regex, before + after, msg)
  {
    var wanted := Matching(regex, msg);
    KeepSplits(before + [rule], after, wanted);
    KeepSplits(before, [rule], wanted);
    KeepSplits(before, after, wanted);
    assert Keep([rule], wanted) == [] && Keep(before, wanted) + [] == Keep(before, wanted);
  }

  // ---------------------------------------------------------------- routes in so many words

  /** A rule fires for a message: its pattern is found in the message's text, and the message has its headers. */
  ghost predicate Fires(regex: Regex, rule: Rule, msg: Message)
  {
    && regex.isMatch(rule.pattern,
         "type:" + msg.msgType + " sender:" + msg.sender + " path:" + msg.path + " data:" + msg.data)
    && (rule.headerMatch.Some? ==> rule.headerMatch.value.Items <= msg.headers.Items)
  }

  /** The order of service: higher priorities first, and of equal ones the rule added earlier. */
  ghost predicate Before(added: seq<Rule>, i: nat, j: nat)
    requires i < |added| && j < |added|
  {
    added[i].priority > added[j].priority || (added[i].priority == added[j].priority && i < j)
  }

  /** The positions of the wanted rules, each once, in the order of service. */
  ghost predicate Queues(added: seq<Rule>, wanted: Rule -> bool, at: seq<nat>)
  {
    && (forall k :: 0 <= k < |at| ==> at[k] < |added| && wanted(added[at[k]]))
    && (forall i :: 0 <= i < |added| && wanted(added[i]) ==> i in at)
    && (forall k, l :: 0 <= k < l < |at| ==> Before(added, at[k], at[l]))
  }

  ghost predicate Within(added: seq<Rule>, at: seq<nat>) { forall l :: 0 <= l < |at| ==> at[l] < |added| }

  /** The rules at those positions. */
  function RulesAt(added: seq<Rule>, at: seq<nat>): seq<Rule>
    requires Within(added, at)
  {
    if at == [] then [] else [added[at[0]]] + RulesAt(added, at[1..])
  }

  lemma {:induction false} RulesAtIs(added: seq<Rule>, at: seq<nat>)
    requires Within(added, at)
    ensures |RulesAt(added, at)| == |at| && forall k :: 0 <= k < |at| ==> RulesAt(added, at)[k] == added[at[k]]
  {
    if at != [] {
      RulesAtIs(added, at[1..]);
    }
  }

  lemma {:induction false} DestinationsAre(rules: seq<Rule>)
    ensures |Destinations(rules)| == |rules|
    ensures forall i :: 0 <= i < |rules| ==> Destinations(rules)[i] == rules[i].destination
  {
    if rules != [] {
      DestinationsAre(rules[1..]);
    }
  }

  /** One more rule takes its place behind all that go before it. */
  function PlaceOf(added: seq<Rule>, at: seq<nat>, i: nat): (k: nat)
    requires i < |added| && Within(added, at)
    ensures k <= |at|
    ensures forall l :: 0 <= l < k ==> added[at[l]].priority >= added[i].priority
    ensures k < |at| ==> added[at[k]].priority < added[i].priority
  {
    if at == [] || added[at[0]].priority < added[i].priority then 0 else 1 + PlaceOf(added, at[1..], i)
  }

  /** A queue with one more rule in its place. */
  function Admit(added: seq<Rule>, at: seq<nat>, i: nat): (r: seq<nat>)
    requires i < |added| && Within(added, at)
    ensures Within(added, r)
  {
    if at == [] || added[at[0]].priority < added[i].priority then [i] + at
    else [at[0]] + Admit(added, at[1..], i)
  }

  lemma {:induction false} AdmitIs(added: seq<Rule>, at: seq<nat>, i: nat)
    requires i < |added| && Within(added, at)
    ensures Admit(added, at, i) == at[..PlaceOf(added, at, i)] + [i] + at[PlaceOf(added, at, i)..]
    decreases at
  {
    if PlaceOf(added, at, i) > 0 {
      AdmitIs(added, at[1..], i);
    }
  }

  lemma {:induction false} AdmitRules(added: seq<Rule>, at: seq<nat>, i: nat)
    requires i < |added| && Within(added, at)
    ensures InsertRule(RulesAt(added, at), added[i]) == RulesAt(added, Admit(added, at, i))
    decreases at
  {
    if at == [] || added[at[0]].priority < added[i].priority {
      RulesHead(added, i, at);
    } else {
      AdmitRules(added, at[1..], i);
      RulesHead(added, at[0], Admit(added, at[1..], i));
      InsertsLater(added[at[0]], RulesAt(added, at[1..]), added[i]);
    }
  }

  lemma InsertedAt(added: seq<Rule>, at: seq<nat>, i: nat)
    requires i < |added| && Within(added, at)
    ensures var k := PlaceOf(added, at, i);
      && Within(added, at[..k] + [i] + at[k..])
      && InsertRule(RulesAt(added, at), added[i]) == RulesAt(added, at[..k] + [i] + at[k..])
  {
    hide *;
    AdmitIs(added, at, i);
    AdmitRules(added, at, i);
  }

  lemma RulesHead(added: seq<Rule>, x: nat, at: seq<nat>)
    requires x < |added| && Within(added, at)
    ensures RulesAt(added, [x] + at) == [added[x]] + RulesAt(added, at)
  {
    assert ([x] + at)[1..] == at;
  }

  lemma InsertsLater(head: Rule, rest: seq<Rule>, x: Rule)
    requires head.priority >= x.priority
    ensures InsertRule([head] + rest, x) == [head] + InsertRule(rest, x)
  {
    assert ([head] + rest)[1..] == rest;
  }

  /** The stable sort of the wanted rules serves them in that order. */
  lemma {:induction false} RankedQueues(added: seq<Rule>, wanted: Rule -> bool) returns (at: seq<nat>)
    ensures Queues(added, wanted, at) && Ranked(Keep(added, wanted)) == RulesAt(added, at)
  {
    hide Queues, Ranked, Keep, RulesAt, Placed, PlaceOf, InsertRule;
    if added == [] {
      at := [];
      NothingQueues(added, wanted);
    } else {
      var n := |added| - 1;
      var front, last := added[..n], added[n];
      assert added == front + [last];
      at := RankedQueues(front, wanted);
      QueuesWithin(front, wanted, at);
      SameRules(front, last, at);
      KeepSplits(front, [last], wanted);
      KeepOne(last, wanted);
      if wanted(last) {
        var k := PlaceOf(added, at, n);
        PlaceIs(added, at, n);
        RankedMore(Keep(front, wanted), last);
        InsertedAt(added, at, n);
        QueuesMore(added, wanted, at, k);
        at := at[..k] + [n] + at[k..];
      } else {
        assert Keep(front, wanted) + [] == Keep(front, wanted);
        QueuesSame(added, wanted, at);
      }
    }
  }

  lemma NothingQueues(added: seq<Rule>, wanted: Rule -> bool)
    requires added == []
    ensures Queues(added, wanted, []) && Ranked(Keep(added, wanted)) == RulesAt(added, [])
  {
  }

  lemma QueuesWithin(added: seq<Rule>, wanted: Rule -> bool, at: seq<nat>)
    requires Queues(added, wanted, at)
    ensures Within(added, at)
  {
  }

  lemma KeepOne(r: Rule, wanted: Rule -> bool)
    ensures Keep([r], wanted) == if wanted(r) then [r] else []
  {
    assert [r][1..] == [];
  }

  lemma PlaceIs(added: seq<Rule>, at: seq<nat>, i: nat)
    requires i < |added| && Within(added, at)
    ensures Placed(added, at, i, PlaceOf(added, at, i))
  {
  }

  lemma RankedMore(rules: seq<Rule>, x: Rule)
    ensures Ranked(rules + [x]) == InsertRule(Ranked(rules), x)
  {
    assert (rules + [x])[..|rules|] == rules;
  }

  lemma {:induction false} SameRules(front: seq<Rule>, last: Rule, at: seq<nat>)
    requires Within(front, at)
    ensures RulesAt(front + [last], at) == RulesAt(front, at)
  {
    if at != [] {
      SameRules(front, last, at[1..]);
    }
  }

  lemma QueuesMore(added: seq<Rule>, wanted: Rule -> bool, at: seq<nat>, k: nat)
    requires added != [] && Queues(added[..|added| - 1], wanted, at) && wanted(added[|added| - 1])
    requires k <= |at| && Placed(added, at, |added| - 1, k)
    ensures Queues(added, wanted, at[..k] + [|added| - 1] + at[k..])
  {
    hide *;
    QueuesWithin(added[..|added| - 1], wanted, at);
    MoreWanted(added, wanted, at, k);
    AllWanted(added, wanted, at, k);
    MoreBefore(added, wanted, at, k);
    MakesQueue(added, wanted, at[..k] + [|added| - 1] + at[k..]);
  }

  lemma MoreBefore(added: seq<Rule>, wanted: Rule -> bool, at: seq<nat>, k: nat)
    requires added != [] && Queues(added[..|added| - 1], wanted, at) && k <= |at| && Placed(added, at, |added| - 1, k)
    ensures var at' := at[..k] + [|added| - 1] + at[k..];
      forall l, r :: 0 <= l < r < |at'| ==> at'[l] < |added| && at'[r] < |added| && Before(added, at'[l], at'[r])
  {
    hide Placed, Before, Queues;
    var n := |added| - 1;
    var at' := at[..k] + [n] + at[k..];
    QueuesWithin(added[..n], wanted, at);
    forall l, r | 0 <= l < r < |at| ensures Before(added, at[l], at[r]) {
      QueuesBefore(added, wanted, at, l, r);
    }
    forall l, r | 0 <= l < r < |at'|
      ensures at'[l] < |added| && at'[r] < |added| && Before(added, at'[l], at'[r])
    {
      PlacedBefore(added, at, k, l, r);
    }
  }

  lemma MakesQueue(added: seq<Rule>, wanted: Rule -> bool, at: seq<nat>)
    requires forall k :: 0 <= k < |at| ==> at[k] < |added| && wanted(added[at[k]])
    requires forall i :: 0 <= i < |added| && wanted(added[i]) ==> i in at
    requires forall k, l :: 0 <= k < l < |at| ==> Before(added, at[k], at[l])
    ensures Queues(added, wanted, at)
  {
  }

  lemma MoreWanted(added: seq<Rule>, wanted: Rule -> bool, at: seq<nat>, k: nat)
    requires added != [] && Queues(added[..|added| - 1], wanted, at) && wanted(added[|added| - 1]) && k <= |at|
    ensures var at' := at[..k] + [|added| - 1] + at[k..];
      forall l :: 0 <= l < |at'| ==> at'[l] < |added| && wanted(added[at'[l]])
  {
    hide Before;
    var front := added[..|added| - 1];
    assert forall l :: 0 <= l < |at| ==> front[at[l]] == added[at[l]];
  }

  lemma AllWanted(added: seq<Rule>, wanted: Rule -> bool, at: seq<nat>, k: nat)
    requires added != [] && Queues(added[..|added| - 1], wanted, at) && k <= |at|
    ensures forall i :: 0 <= i < |added| && wanted(added[i]) ==> i in at[..k] + [|added| - 1] + at[k..]
  {
    hide Before;
    var n := |added| - 1;
    var front, at' := added[..n], at[..k] + [n] + at[k..];
    forall i | 0 <= i < |added| && wanted(added[i]) ensures i in at' {
      if i == n {
        assert at'[k] == n;
      } else {
        assert front[i] == added[i] && i in at;
        assert at == at[..k] + at[k..];
      }
    }
  }

  lemma QueuesBefore(added: seq<Rule>, wanted: Rule -> bool, at: seq<nat>, l: nat, r: nat)
    requires added != [] && Queues(added[..|added| - 1], wanted, at) && l < r < |at|
    ensures at[l] < |added| && at[r] < |added| && Before(added, at[l], at[r])
  {
    assert Before(added[..|added| - 1], at[l], at[r]);
    StillBefore(added, at[l], at[r]);
  }

  lemma StillBefore(added: seq<Rule>, i: nat, j: nat)
    requires added != [] && i < |added| - 1 && j < |added| - 1 && Before(added[..|added| - 1], i, j)
    ensures Before(added, i, j)
  {
  }

  /** The place of rule `i` in a queue. */
  ghost predicate Placed(added: seq<Rule>, at: seq<nat>, i: nat, k: nat)
    requires i < |added|
  {
    && k <= |at| && (forall l :: 0 <= l < |at| ==> at[l] < |added|)
    && (forall l :: 0 <= l < k ==> added[at[l]].priority >= added[i].priority)
    && (k < |at| ==> added[at[k]].priority < added[i].priority)
  }

  lemma PlacedBefore(added: seq<Rule>, at: seq<nat>, k: nat, l: nat, r: nat)
    requires added != [] && Placed(added, at, |added| - 1, k) && l < r <= |at|
    requires forall j :: 0 <= j < |at| ==> at[j] < |added| - 1
    requires forall a, b :: 0 <= a < b < |at| ==> Before(added, at[a], at[b])
    ensures var n := |added| - 1;
      var x := if l < k then at[l] else if l == k then n else at[l - 1];
      var y := if r < k then at[r] else if r == k then n else at[r - 1];
      Before(added, x, y)
  {
    if l == k && r - 1 > k {
      assert Before(added, at[k], at[r - 1]);
    }
  }

  lemma QueuesSame(added: seq<Rule>, wanted: Rule -> bool, at: seq<nat>)
    requires added != [] && Queues(added[..|added| - 1], wanted, at) && !wanted(added[|added| - 1])
    ensures Queues(added, wanted, at)
  {
    var front := added[..|added| - 1];
    forall k, l | 0 <= k < l < |at| ensures Before(added, at[k], at[l]) {
      assert Before(front, at[k], at[l]);
    }
    forall i | 0 <= i < |added| && wanted(added[i]) ensures i in at {
      assert front[i] == added[i];
    }
  }

  /** A route, in so many words: the destinations of the rules that fire, one for each, in the order of service;
      and where none fires, the log alone. */
  ghost predicate Serves(regex: Regex, added: seq<Rule>, msg: Message, to: seq<string>)
  {
    if forall i :: 0 <= i < |added| ==> !Fires(regex, added[i], msg) then to == ["/proc/log"]
    else exists at: seq<nat> :: Queues(added, r => Fires(regex, r, msg), at) && LeadsTo(added, at, to)
  }

  ghost predicate LeadsTo(added: seq<Rule>, at: seq<nat>, to: seq<string>)
  {
    |to| == |at| && forall k :: 0 <= k < |at| ==> at[k] < |added| && to[k] == added[at[k]].destination
  }

  lemma RoutedServes(regex: Regex, added: seq<Rule>, msg: Message)
    ensures Serves(regex, added, msg, Routed(regex, added, msg))
  {
    hide Matches, Ranked;
    var wanted, fires := Matching(regex, msg), r => Fires(regex, r, msg);
    var at := RankedQueues(added, wanted);
    forall r ensures wanted(r) <==> Fires(regex, r, msg) {
      MatchesExactly(regex, r, msg);
    }
    RulesAtIs(added, at);
    DestinationsAre(RulesAt(added, at));
    if at == [] {
      forall i | 0 <= i < |added| ensures !Fires(regex, added[i], msg) {
        assert wanted(added[i]) ==> i in at;
      }
    } else {
      assert Fires(regex, added[at[0]], msg);
      assert Queues(added, fires, at) && LeadsTo(added, at, Routed(regex, added, msg));
    }
  }

  lemma ServesAll(regex: Regex, added: seq<Rule>, msg: Message, to: seq<string>)
    requires Serves(regex, added, msg, to)
    ensures forall d :: d in to ==>
      d == "/proc/log" || exists r :: r in added && r.destination == d && Fires(regex, r, msg)
    ensures forall r :: r in added && Fires(regex, r, msg) ==> r.destination in to
  {
    hide Fires, Before, Queues, LeadsTo;
    var fires := r => Fires(regex, r, msg);
    if forall i :: 0 <= i < |added| ==> !Fires(regex, added[i], msg) {
      forall r | r in added ensures !Fires(regex, r, msg) {
        var i :| 0 <= i < |added| && added[i] == r;
      }
    } else {
      var at: seq<nat> :| Queues(added, fires, at) && LeadsTo(added, at, to);
      forall r | r in added && Fires(regex, r, msg) ensures r.destination in to {
        ServesRule(added, fires, at, to, r);
      }
      forall d | d in to ensures exists r :: r in added && r.destination == d && Fires(regex, r, msg) {
        var r := ServedBy(added, fires, at, to, d);
      }
    }
  }

  lemma ServesRule(added: seq<Rule>, wanted: Rule -> bool, at: seq<nat>, to: seq<string>, r: Rule)
    requires Queues(added, wanted, at) && LeadsTo(added, at, to) && r in added && wanted(r)
    ensures r.destination in to
  {
    hide Before;
    var i :| 0 <= i < |added| && added[i] == r;
    assert i in at;
    var k :| 0 <= k < |at| && at[k] == i;
    assert to[k] == r.destination;
  }

  lemma ServedBy(added: seq<Rule>, wanted: Rule -> bool, at: seq<nat>, to: seq<string>, d: string) returns (r: Rule)
    requires Queues(added, wanted, at) && LeadsTo(added, at, to) && d in to
    ensures r in added && wanted(r) && r.destination == d
  {
    hide Before;
    var k :| 0 <= k < |to| && to[k] == d;
    r := added[at[k]];
  }

  /** The rules before the first that does not compile. */
  function Compiling(regex: Regex, config: seq<Rule>): seq<Rule>
  {
    if config == [] || !regex.compiles(config[0].pattern) then []
    else [config[0]] + Compiling(regex, config[1..])
  }

  /** The first `n` patterns compile, and the next one, if there is one, does not. */
  ghost predicate UpToBad(regex: Regex, config: seq<Rule>, n: int)
  {
    && 0 <= n <= |config| && (forall i :: 0 <= i < n ==> regex.compiles(config[i].pattern))
    && (n < |config| ==> !regex.compiles(config[n].pattern))
  }

  lemma {:induction false} CompilingIs(regex: Regex, config: seq<Rule>, n: nat)
    requires n <= |config| && forall i :: 0 <= i < n ==> regex.compiles(config[i].pattern)
    requires n < |config| ==> !regex.compiles(config[n].pattern)
    ensures Compiling(regex, config) == config[..n]
    decreases n
  {
    if n > 0 {
      CompilingIs(regex, config[1..], n - 1);
      assert config[..n] == [config[0]] + config[1..][..n - 1];
    }
  }

  class Plumber {
    const regex: Regex
    var rules: seq<Rule>
    /** Every rule that compiled, in the order of the calls. */
    ghost var added: seq<Rule>

    ghost predicate Valid()
      reads this
    {
      rules == Ranked(added)
    }

    constructor (regex: Regex)
      ensures Valid() && this.regex == regex && added == []
    {
      this.regex := regex;
      rules := [];
      added := [];
    }

    /** A pattern that does not compile changes nothing. */
    method AddRule(name: string, pattern: string, destination: string, priority: int,
                   headerMatch: Option<map<string, string>>)
      returns (ok: bool)
      requires Valid()
      modifies this`rules, this`added
      ensures Valid()
      ensures ok == regex.compiles(pattern)
      ensures added ==
        if ok then old(added) + [Rule(name, pattern, destination, priority, headerMatch)] else old(added)
    {
      ok := regex.compiles(pattern);
      if ok {
        var rule := Rule(name, pattern, destination, priority, headerMatch);
        SortAgain(added, [rule]);
        rules := Ranked(rules + [rule]);
        added := added + [rule];
      }
    }

    /** The first pattern that does not compile ends the load; what came before it stays. */
    method LoadFromConfig(config: seq<Rule>) returns (ok: bool)
      requires Valid()
      modifies this`rules, this`added
      ensures Valid()
      ensures ok <==> forall i :: 0 <= i < |config| ==> regex.compiles(config[i].pattern)
      ensures added == old(added) + Compiling(regex, config)
      ensures exists n :: UpToBad(regex, config, n) && added == old(added) + config[..n]
    {
      ghost var was, n := added, 0;
      ok, n := LoadUpTo(config);
      CompilingIs(regex, config, n);
      assert UpToBad(regex, config, n) && added == was + config[..n];
    }

    /** The loop itself, and how far it gets. */
    method LoadUpTo(config: seq<Rule>) returns (ok: bool, ghost n: nat)
      requires Valid()
      modifies this`rules, this`added
      ensures Valid() && UpToBad(regex, config, n) && added == old(added) + config[..n]
      ensures ok <==> n == |config|
    {
      hide Ranked, InsertRule;
      n := 0;
      for i := 0 to |config|
        invariant Valid() && n == i && added == old(added) + config[..i]
        invariant forall j :: 0 <= j < i ==> regex.compiles(config[j].pattern)
      {
        var r := config[i];
        ok := AddRule(r.name, r.pattern, r.destination, r.priority, r.headerMatch);
        if !ok {
          return;
        }
        assert config[..i + 1] == config[..i] + [r];
        Regroup(old(added), config[..i], [r]);
        n := n + 1;
      }
      ok := true;
    }

    method Route(msg: Message) returns (to: seq<string>)
      requires Valid()
      ensures to == Routed(regex, added, msg)
      ensures Serves(regex, added, msg, to)
      ensures forall d :: d in to ==>
        d == "/proc/log" || exists r :: r in added && r.destination == d && Fires(regex, r, msg)
      ensures forall r :: r in added && Fires(regex, r, msg) ==> r.destination in to
    {
      ghost var wanted := Matching(regex, msg);
      to := [];
      for i := 0 to |rules|
        invariant to == Destinations(Keep(rules[..i], wanted))
      {
        assert rules[..i + 1] == rules[..i] + [rules[i]];
        KeepSplits(rules[..i], [rules[i]], wanted);
        DestinationsSplit(Keep(rules[..i], wanted), Keep([rules[i]], wanted));
        if Matches(regex, rules[i], msg) {
          to := to + [rules[i].destination];
        }
      }
      assert rules[..|rules|] == rules;
      KeepRanked(added, wanted);
      if to == [] {
        to := [DEFAULT_DESTINATION];
      }
      RoutedServes(regex, added, msg);
      ServesAll(regex, added, msg, to);
    }
  }
}
