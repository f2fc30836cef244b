/** Exactly when cached and scanned listings part ways, for every registry, path, node and run. */
module VfsExact {
  import opened Options
  import opened Paths
  import opened PathLaws
  import opened Vfs
  import opened VfsAgreement
  import opened VfsMount

  // ---------------------------------------------------------------- the two names of a key

  /** The name under which a scan of a directory finds a key; `Given` is the one the directory caches. */
  function Seen(key: string, d: string): set<string>
  {
    if ChildName(d, key).Some? then {ChildName(d, key).value} else {}
  }

  lemma ScanPlus(m: Nodes, m': Nodes, key: string, d: string)
    requires m'.Keys == m.Keys + {key}
    ensures Scan(m', d) == Scan(m, d) + Seen(key, d)
  {
    hide ChildName;
    forall n ensures n in Scan(m', d) <==> n in Scan(m, d) + Seen(key, d) {
      if n in Scan(m', d) {
        var k :| k in m' && ChildName(d, k).Some? && ChildName(d, k).value == n;
        assert k in m || k == key;
      }
      if n in Scan(m, d) {
        var k :| k in m && ChildName(d, k).Some? && ChildName(d, k).value == n;
        assert k in m';
      }
      if n in Seen(key, d) {
        assert key in m';
      }
    }
  }

  /** No string is its own parent, or its own child. */
  lemma NeverOwnParent(k: string)
    ensures ParentPath(k) != Some(k)
  {
    hide Parts;
    ParentDropsLast(k);
    PartsClean(k);
    var parts := Parts(k);
    if parts != [] && k == Render(parts[..|parts| - 1]) {
      SlashedEnd(parts);
      RenderShape(parts[..|parts| - 1]);
      TrimShrinks(k);
      NormalizeShrinks(k);
    }
  }

  lemma NeverOwnChild(k: string)
    ensures ChildName(k, k) == None
  {
    hide ChildName, Parts;
    ChildAddsOne(k, k);
  }

  /** What adding a node does to a directory, whatever the key. */
  lemma AddedAnywhere(m: Nodes, key: string, node: Vnode, d: string)
    requires d == key || d in m
    ensures Added(m, key, node).Keys == m.Keys + {key}
    ensures Added(m, key, node)[d] ==
      if d == key then node
      else if ParentPath(key) == Some(d) && m[d].Dir? && LinkName(key) !in m[d].children
      then m[d].(children := m[d].children + [LinkName(key)])
      else m[d]
  {
    hide ParentPath, LinkName;
    NeverOwnParent(key);
  }

  /** The names agree at a directory, or make no difference there. */
  ghost predicate SameNames(m: Nodes, key: string, d: string)
  {
    Scan(m, d) + Given(key, d) == Scan(m, d) + Seen(key, d)
  }

  lemma AddedAgreesAt(m: Nodes, key: string, node: Vnode, d: string)
    requires d in m && d != key && Agrees(m[d], Scan(m, d))
    ensures var m' := Added(m, key, node);
      d in m' && (Agrees(m'[d], Scan(m', d)) <==> (m[d].Dir? ==> SameNames(m, key, d)))
  {
    hide ParentPath, LinkName, ChildName, Scan, Added;
    var m' := Added(m, key, node);
    AddedAnywhere(m, key, node, d);
    ScanPlus(m, m', key, d);
    if m[d].Dir? {
      var names := m[d].children;
      CachedPlus(names, Scan(m, d), Given(key, d), m'[d].children);
      assert forall n :: n in m'[d].children <==> n in Scan(m, d) + Given(key, d);
    }
  }

  /** A cache gains a name once. */
  lemma CachedPlus(names: seq<string>, scan: set<string>, given: set<string>, names': seq<string>)
    requires NoRepeats(names) && forall n :: n in names <==> n in scan
    requires
      || (names' == names && given <= scan)
      || exists x :: given == {x} && x !in names && names' == names + [x]
    ensures NoRepeats(names') && forall n :: n in names' <==> n in scan + given
  {
  }

  ghost predicate AddFits(m: Nodes, key: string, node: Vnode)
  {
    Agrees(node, Scan(m, key)) && forall d :: d in m && d != key && m[d].Dir? ==> SameNames(m, key, d)
  }

  /** For every agreeing registry and every key, steady or not: an added node leaves it agreeing exactly when
      the node itself does and no directory caches the key under a name that a scan does not find. */
  lemma AddAgreesExactly(m: Nodes, key: string, node: Vnode)
    requires AllAgree(m)
    ensures AllAgree(Added(m, key, node)) <==> AddFits(m, key, node)
  {
    hide ParentPath, LinkName, ChildName, Scan, Added, Agrees, SameNames;
    var m' := Added(m, key, node);
    AddedAnywhere(m, key, node, key);
    ScanPlus(m, m', key, key);
    NeverOwnChild(key);
    assert Scan(m', key) == Scan(m, key);
    forall d | d in m && d != key
      ensures d in m' && (Agrees(m'[d], Scan(m', d)) <==> (m[d].Dir? ==> SameNames(m, key, d)))
    {
      AddedAgreesAt(m, key, node, d);
    }
  }

  /** The name that a directory's cache loses with a key is not found by another key, and the name that a scan
      loses is, or is lost by the cache too. */
  ghost predicate RemoveFits(m: Nodes, key: string)
  {
    forall d :: d in m && d != key && m[d].Dir? ==> LosesAlike(m, key, d)
  }

  ghost predicate LosesAlike(m: Nodes, key: string, d: string)
  {
    Given(key, d) !! Scan(m - {key}, d) && Seen(key, d) <= Scan(m - {key}, d) + Given(key, d)
  }

  lemma RemovedAgreesAt(m: Nodes, key: string, d: string)
    requires key in m && d in m && d != key && Agrees(m[d], Scan(m, d))
    ensures var m' := Cut(m, {key});
      d in m' && (Agrees(m'[d], Scan(m', d)) <==> (m[d].Dir? ==> LosesAlike(m, key, d)))
  {
    hide ParentPath, LinkName, ChildName, Scan;
    var m', rest := Cut(m, {key}), m - {key};
    NamesInOne(key, d);
    ScanPlus(rest, m, key, d);
    SameScan(m', rest, d);
    if m[d].Dir? {
      WithoutKeeps(m[d].children, Given(key, d));
      assert m'[d].children == Without(m[d].children, Given(key, d));
    }
  }

  lemma SameScan(a: Nodes, b: Nodes, d: string)
    requires a.Keys == b.Keys
    ensures Scan(a, d) == Scan(b, d)
  {
    hide ChildName;
    forall n ensures n in Scan(a, d) <==> n in Scan(b, d) {
      if n in Scan(a, d) {
        var k :| k in a && ChildName(d, k).Some? && ChildName(d, k).value == n;
        assert k in b.Keys;
      }
      if n in Scan(b, d) {
        var k :| k in b && ChildName(d, k).Some? && ChildName(d, k).value == n;
        assert k in a.Keys;
      }
    }
  }

  lemma RemoveAgreesExactly(m: Nodes, key: string)
    requires AllAgree(m) && key in m
    ensures AllAgree(Cut(m, {key})) <==> RemoveFits(m, key)
  {
    hide ParentPath, LinkName, ChildName, Scan, Agrees, LosesAlike;
    var m' := Cut(m, {key});
    forall d | d in m && d != key
      ensures d in m' && (Agrees(m'[d], Scan(m', d)) <==> (m[d].Dir? ==> LosesAlike(m, key, d)))
    {
      RemovedAgreesAt(m, key, d);
    }
  }

  // ---------------------------------------------------------------- every run

  ghost predicate StepFits(m: Nodes, op: Op)
  {
    var key := Normalize(op.path);
    match op
    case Mkdir(_) => AddFits(m, key, Dir(key, []))
    case AddNode(_, node) => AddFits(m, key, node)
    case Remove(_) => key in m ==> RemoveFits(m, key)
  }

  ghost predicate AlwaysFits(m: Nodes, ops: seq<Op>)
    decreases ops
  {
    ops == [] || (StepFits(m, ops[0]) && AlwaysFits(Apply(m, ops[0]), ops[1..]))
  }

  lemma StepAgreesExactly(m: Nodes, op: Op)
    requires AllAgree(m)
    ensures AllAgree(Apply(m, op)) <==> StepFits(m, op)
  {
    hide Normalize, AllAgree, Added, Cut, AddFits, RemoveFits;
    var key := Normalize(op.path);
    match op {
      case Mkdir(_) => AddAgreesExactly(m, key, Dir(key, []));
      case AddNode(_, node) => AddAgreesExactly(m, key, node);
      case Remove(_) =>
        if key in m {
          RemoveAgreesExactly(m, key);
        }
    }
  }

  /** Over every run from every agreeing registry, with any paths and any nodes, the listings agree at every
      point if and only if every operation fits. */
  lemma {:induction false} ListingsAgreeExactly(m: Nodes, ops: seq<Op>)
    requires AllAgree(m)
    ensures AlwaysAgrees(m, ops) <==> AlwaysFits(m, ops)
    decreases ops
  {
    hide Apply, AllAgree, StepFits;
    if ops != [] {
      StepAgreesExactly(m, ops[0]);
      if AllAgree(Apply(m, ops[0])) {
        ListingsAgreeExactly(Apply(m, ops[0]), ops[1..]);
      }
    }
  }

  // ---------------------------------------------------------------- names that are not there

  /** No directory comes to cache a name that a scan does not find. */
  ghost predicate AddCovers(m: Nodes, key: string, node: Vnode)
  {
    && Covers(node, Scan(m, key))
    && forall d :: d in m && d != key && m[d].Dir? ==> Given(key, d) <= Scan(m, d) + Seen(key, d)
  }

  lemma AddedCoversAt(m: Nodes, key: string, node: Vnode, d: string)
    requires d in m && d != key && Covers(m[d], Scan(m, d))
    ensures var m' := Added(m, key, node);
      d in m' && (Covers(m'[d], Scan(m', d)) <==> (m[d].Dir? ==> Given(key, d) <= Scan(m, d) + Seen(key, d)))
  {
    hide ParentPath, LinkName, ChildName, Scan, Added;
    AddedAnywhere(m, key, node, d);
    ScanPlus(m, Added(m, key, node), key, d);
    if ParentPath(key) == Some(d) && m[d].Dir? {
      Appended(m[d].children, LinkName(key));
    }
  }

  lemma AddCoversExactly(m: Nodes, key: string, node: Vnode)
    requires AllCover(m)
    ensures AllCover(Added(m, key, node)) <==> AddCovers(m, key, node)
  {
    hide ParentPath, LinkName, ChildName, Scan, Added, Covers, Given, Seen;
    var m' := Added(m, key, node);
    AddedAnywhere(m, key, node, key);
    ScanPlus(m, m', key, key);
    NeverOwnChild(key);
    assert Scan(m', key) == Scan(m, key) by { SeenNothing(key); }
    forall d | d in m && d != key
      ensures d in m' &&
        (Covers(m'[d], Scan(m', d)) <==> (m[d].Dir? ==> Given(key, d) <= Scan(m, d) + Seen(key, d)))
    {
      AddedCoversAt(m, key, node, d);
    }
  }

  lemma SeenNothing(key: string)
    ensures Seen(key, key) == {}
  {
    NeverOwnChild(key);
  }

  /** What a scan loses with the key, the cache loses too, or never had. */
  ghost predicate RemoveCovers(m: Nodes, key: string)
  {
    forall d :: d in m && d != key && m[d].Dir? ==> LosesCached(m, key, d)
  }

  ghost predicate LosesCached(m: Nodes, key: string, d: string)
    requires d in m && m[d].Dir?
  {
    forall n :: n in m[d].children && n in Seen(key, d) ==> n in Scan(m - {key}, d) || n in Given(key, d)
  }

  lemma RemovedCoversAt(m: Nodes, key: string, d: string)
    requires key in m && d in m && d != key && Covers(m[d], Scan(m, d))
    ensures var m' := Cut(m, {key});
      d in m' && (Covers(m'[d], Scan(m', d)) <==> (m[d].Dir? ==> LosesCached(m, key, d)))
  {
    hide ParentPath, LinkName, ChildName, Scan;
    var m', rest := Cut(m, {key}), m - {key};
    NamesInOne(key, d);
    ScanPlus(rest, m, key, d);
    SameScan(m', rest, d);
    if m[d].Dir? {
      WithoutKeeps(m[d].children, Given(key, d));
      assert m'[d].children == Without(m[d].children, Given(key, d));
    }
  }

  lemma RemoveCoversExactly(m: Nodes, key: string)
    requires AllCover(m) && key in m
    ensures AllCover(Cut(m, {key})) <==> RemoveCovers(m, key)
  {
    hide ParentPath, LinkName, ChildName, Scan, Covers, LosesCached;
    var m' := Cut(m, {key});
    forall d | d in m && d != key
      ensures d in m' && (Covers(m'[d], Scan(m', d)) <==> (m[d].Dir? ==> LosesCached(m, key, d)))
    {
      RemovedCoversAt(m, key, d);
    }
  }

  ghost predicate StepCovers(m: Nodes, op: Op)
  {
    var key := Normalize(op.path);
    match op
    case Mkdir(_) => AddCovers(m, key, Dir(key, []))
    case AddNode(_, node) => AddCovers(m, key, node)
    case Remove(_) => key in m ==> RemoveCovers(m, key)
  }

  ghost predicate AlwaysCovers(m: Nodes, ops: seq<Op>)
    decreases ops
  {
    ops == [] || (StepCovers(m, ops[0]) && AlwaysCovers(Apply(m, ops[0]), ops[1..]))
  }

  ghost predicate CoveredThroughout(m: Nodes, ops: seq<Op>)
    decreases ops
  {
    AllCover(m) && (ops == [] || CoveredThroughout(Apply(m, ops[0]), ops[1..]))
  }

  lemma StepCoversExactly(m: Nodes, op: Op)
    requires AllCover(m)
    ensures AllCover(Apply(m, op)) <==> StepCovers(m, op)
  {
    hide Normalize, AllCover, Added, Cut, AddCovers, RemoveCovers;
    var key := Normalize(op.path);
    match op {
      case Mkdir(_) => AddCoversExactly(m, key, Dir(key, []));
      case AddNode(_, node) => AddCoversExactly(m, key, node);
      case Remove(_) =>
        if key in m {
          RemoveCoversExactly(m, key);
        }
    }
  }

  /** Over every run, with any paths and any nodes: no directory ever caches a name twice, or one that a scan
      does not find, if and only if every operation meets this. */
  lemma {:induction false} ListingsCoveredExactly(m: Nodes, ops: seq<Op>)
    requires AllCover(m)
    ensures CoveredThroughout(m, ops) <==> AlwaysCovers(m, ops)
    decreases ops
  {
    hide Apply, AllCover, StepCovers;
    if ops != [] {
      StepCoversExactly(m, ops[0]);
      if AllCover(Apply(m, ops[0])) {
        ListingsCoveredExactly(Apply(m, ops[0]), ops[1..]);
      }
    }
  }

  // ---------------------------------------------------------------- while all keys are steady

  /** The parent, if it is a directory, caches the key under the name a scan finds. */
  ghost predicate NamedAlike(m: Nodes, key: string)
  {
    match ParentPath(key)
    case None => true
    case Some(p) => p in m && m[p].Dir? ==> ChildName(p, key) == Some(LinkName(key))
  }

  /** A scan of steady keys finds no name that ends in space. */
  lemma ScannedNames(m: Nodes, d: string, n: string)
    requires AllCanonical(m) && Canonical(d) && n in Scan(m, d)
    ensures !EndsInSpace(n)
  {
    hide ParentPath, LinkName, ChildName, Scan, Parts;
    InScan(m, d, n);
    var k :| k in m && ParentPath(k) == Some(d) && LinkName(k) == n;
    assert Canonical(k);
    NormalizeTwice(k);
    PartsClean(k);
    LinkNameIsLast(Parts(k));
    ParentDropsLast(k);
  }

  /** The name under which an unsteady normal form is cached ends in space. */
  lemma UnsteadyName(path: string)
    requires !Canonical(Normalize(path))
    ensures EndsInSpace(LinkName(Normalize(path)))
  {
    hide LinkName, Parts;
    NormalizeTwice(path);
    PartsClean(path);
    LinkNameIsLast(Parts(path));
  }

  /** A steady directory in which a scan finds a key is the key's parent. */
  lemma SeenByParent(key: string, d: string)
    requires Canonical(d)
    ensures ChildName(d, key).Some? <==> ParentPath(key) == Some(d)
  {
    hide ParentPath, ChildName, Parts;
    ParentIff(d, key);
    if ChildName(d, key).Some? {
      ChildIff(d, key, ChildName(d, key).value);
    }
    if ParentPath(key) == Some(d) {
      var parts := Parts(key);
      assert parts == Parts(d) + [parts[|parts| - 1]];
      ChildIff(d, key, parts[|parts| - 1]);
    }
  }

  lemma SameNamesSteady(m: Nodes, path: string, d: string)
    requires AllCanonical(m) && Canonical(d)
    ensures var key := Normalize(path);
      SameNames(m, key, d) <==> (ParentPath(key) == Some(d) ==> ChildName(d, key) == Some(LinkName(key)))
  {
    hide ParentPath, LinkName, ChildName, Scan, Parts;
    var key := Normalize(path);
    SeenByParent(key, d);
    if ParentPath(key) == Some(d) {
      var seen := ChildName(d, key).value;
      if SameNames(m, key, d) && seen != LinkName(key) {
        assert LinkName(key) in Scan(m, d) + Given(key, d);
        assert LinkName(key) in Scan(m, d);
        ScannedNames(m, d, LinkName(key));
        if Canonical(key) {
          ParentsAndChildren(d, key);
        } else {
          UnsteadyName(path);
        }
      }
    }
  }

  /** While all keys are steady, only the parent matters: an operation on any path leaves the registry agreeing
      exactly when the node it adds does and the parent caches the key under the name a scan finds. */
  lemma AddAgreesSteady(m: Nodes, path: string, node: Vnode)
    requires AllCanonical(m) && AllAgree(m)
    ensures var key := Normalize(path);
      AllAgree(Added(m, key, node)) <==> Agrees(node, Scan(m, key)) && NamedAlike(m, key)
  {
    hide ParentPath, LinkName, ChildName, Scan, Normalize, Agrees, SameNames, Added, AllAgree;
    var key := Normalize(path);
    AddAgreesExactly(m, key, node);
    NeverOwnParent(key);
    forall d | d in m
      ensures SameNames(m, key, d) <==> (ParentPath(key) == Some(d) ==> ChildName(d, key) == Some(LinkName(key)))
    {
      CanonicalKey(m, d);
      SameNamesSteady(m, path, d);
    }
  }

  /** What an operation must meet while all keys are steady. */
  ghost predicate Harmless(m: Nodes, op: Op)
  {
    var key := Normalize(op.path);
    match op
    case Mkdir(_) => Scan(m, key) == {} && NamedAlike(m, key)
    case AddNode(_, node) => Agrees(node, Scan(m, key)) && NamedAlike(m, key)
    case Remove(_) => true
  }

  lemma HarmlessExactly(m: Nodes, op: Op)
    requires AllCanonical(m) && AllAgree(m)
    ensures AllAgree(Apply(m, op)) <==> Harmless(m, op)
  {
    hide Normalize, AllAgree, Added, Cut, NamedAlike, Scan;
    var key := Normalize(op.path);
    match op {
      case Mkdir(path) =>
        AddAgreesSteady(m, path, Dir(key, []));
        if Agrees(Dir(key, []), Scan(m, key)) {
          assert Scan(m, key) == {};
        }
      case AddNode(path, node) => AddAgreesSteady(m, path, node);
      case Remove(_) =>
        if key in m {
          CutKeeps(m, {key});
        }
    }
  }

  /** Up to and including the first operation on an unsteady path, or with a directory for a node: agreement
      lasts exactly until a directory is made over live children or that operation does harm. */
  lemma FirstUnsteady(m: Nodes, ops: seq<Op>, op: Op)
    requires AllCanonical(m) && AllAgree(m) && Steady(ops) && Plain(ops)
    ensures AlwaysAgrees(m, ops + [op]) <==> !Clobbers(m, ops) && Harmless(RunOps(m, ops), op)
  {
    hide Normalize, Scan, Apply, AllAgree, AllCanonical, Harmless;
    ListingsAgree(m, ops);
    AgreesThen(m, ops, op);
    SteadyRun(m, ops);
    if AlwaysAgrees(m, ops) {
      AgreesLast(m, ops);
      HarmlessExactly(RunOps(m, ops), op);
    }
  }

  lemma {:induction false} AgreesThen(m: Nodes, ops: seq<Op>, op: Op)
    ensures AlwaysAgrees(m, ops + [op]) <==> AlwaysAgrees(m, ops) && AllAgree(Apply(RunOps(m, ops), op))
    decreases ops
  {
    hide Apply, AllAgree;
    if ops == [] {
      assert ops + [op] == [op] && [op][1..] == [];
    } else {
      assert (ops + [op])[1..] == ops[1..] + [op];
      AgreesThen(Apply(m, ops[0]), ops[1..], op);
    }
  }

  lemma {:induction false} AgreesLast(m: Nodes, ops: seq<Op>)
    requires AlwaysAgrees(m, ops)
    ensures AllAgree(RunOps(m, ops))
    decreases ops
  {
    hide Apply, AllAgree;
    if ops != [] {
      AgreesLast(Apply(m, ops[0]), ops[1..]);
    }
  }

  lemma {:induction false} SteadyRun(m: Nodes, ops: seq<Op>)
    requires AllCanonical(m) && Steady(ops)
    ensures AllCanonical(RunOps(m, ops))
    decreases ops
  {
    hide Normalize, Apply, AllCanonical;
    if ops != [] {
      assert Canonical(Normalize(ops[0].path));
      StaysCanonical(m, ops[0]);
      SteadyRun(Apply(m, ops[0]), ops[1..]);
    }
  }

  // ---------------------------------------------------------------- and it happens

  /** In a registry as new, a directory made at `/net/a /` is cached as `a ` and scanned as `a`. */
  lemma SeededUnsteady()
    ensures var m := RunOps(map[], SeedOps() + [Mkdir("/net/a /")]);
      "/net" in m && m["/net"].Dir? && "a " in m["/net"].children && Scan(m, "/net") == {"a"} && !AllAgree(m)
  {
    hide ParentPath, LinkName, ChildName, Normalize, Scan, RunOps, Agrees, AllCanonical, SeedOps;
    var seeded, key := RunOps(map[], SeedOps()), "/net/a ";
    RunThen(map[], SeedOps(), Mkdir("/net/a /"));
    SeededNet();
    UnsteadyNames();
    var m := Added(seeded, key, Dir(key, []));
    assert m == RunOps(map[], SeedOps() + [Mkdir("/net/a /")]);
    AddedAnywhere(seeded, key, Dir(key, []), "/net");
    ScanPlus(seeded, m, key, "/net");
    CachedUnseen(m);
  }

  lemma CachedUnseen(m: Nodes)
    requires "/net" in m && m["/net"].Dir? && m["/net"].children == ["a "] && Scan(m, "/net") == {"a"}
    ensures !AllAgree(m) && "a " in m["/net"].children
  {
    hide Scan;
    assert m["/net"].children[0] == "a ";
    assert !Agrees(m["/net"], Scan(m, "/net"));
  }

  /** A new registry has nothing below `/net`. */
  lemma SeededNet()
    ensures var m := RunOps(map[], SeedOps());
      "/net" in m && m["/net"].Dir? && m["/net"].children == [] && Scan(m, "/net") == {}
  {
    hide ParentPath, LinkName, ChildName, Normalize, Added, RunOps, GivenBy;
    var ops, m := SeedOps(), RunOps(map[], SeedOps());
    SeedSplit(0);
    SeedPaths();
    var after, first := ops[1..], Apply(map[], ops[0]);
    Unroll(map[], ops, 0);
    assert ops[0..] == ops && ops[0].path == "/net";
    SeedNothingGiven();
    AddedHere(map[], "/net", Dir("/net", []));
    AddStaysCanonical(map[], "/net", Dir("/net", []));
    AddedKeys(map[], "/net", Dir("/net", []));
    Gathers(first, after, "/net");
    if m["/net"].children != [] {
      FirstIsThere(m["/net"].children);
    }
  }

  lemma FirstIsThere<T>(s: seq<T>)
    requires s != []
    ensures s[0] in s
  {
  }

  lemma SeedNothingGiven()
    ensures GivenBy(SeedOps()[1..], "/net") == {}
  {
    hide ParentPath, Normalize, GivenBy;
    SeedPaths();
    var ops := SeedOps();
    forall i | 0 <= i < |ops[1..]| ensures ParentPath(Normalize(ops[1..][i].path)) != Some("/net") {
      assert ops[1..][i] == ops[i + 1];
      SeedParents(i + 1);
    }
    GivenNone(ops[1..], "/net");
  }

  lemma SeedParents(i: nat)
    requires 1 <= i < 9
    ensures ParentPath(SeedOps()[i].path) != Some("/net")
  {
    hide ParentPath, Normalize;
    SeedPaths();
    assert SeedOps()[4].path != "/net" && SeedOps()[5].path != "/net";
  }

  lemma UnsteadyNames()
    ensures Normalize("/net/a /") == "/net/a "
    ensures ParentPath("/net/a ") == Some("/net") && LinkName("/net/a ") == "a "
    ensures ChildName("/net", "/net/a ") == Some("a")
  {
    hide ParentPath, LinkName, ChildName, Parts, Render, Resolve, Components;
    NetParts();
    UnsteadyParts();
    ParentDropsLast("/net/a ");
    assert ["net", "a"][..1] == ["net"] && ["net", "a"] == ["net"] + ["a"];
    ChildIff("/net", "/net/a ", "a");
    LinkNameIsLast(["net", "a "]);
  }

  lemma NetParts()
    ensures Parts("/net") == ["net"] && Render(["net"]) == "/net" && Render(["net", "a "]) == "/net/a "
  {
    hide Parts;
    SlashedOne("net");
    assert "/" + "net" == "/net";
    RenderStable(["net"]);
    SlashedAppend(["net"], "a ");
    assert ["net"] + ["a "] == ["net", "a "] && "/net" + "/" + "a " == "/net/a ";
  }

  /** The components of the path as given, and of its normal form. */
  lemma UnsteadyParts()
    ensures Parts("/net/a /") == ["net", "a "] && Parts("/net/a ") == ["net", "a"]
  {
    hide Parts, Render, Resolve, Components, TrimEnd;
    NetParts();
    assert Normalize("/net") == "/net";
    PartsOfNormalJoined("/net", "a /");
    PartsOfNormalJoined("/net", "a ");
    Endings();
    ResolveOne(["net"], "a ");
    ResolveOne(["net"], "a");
    assert "/net" + "/" + "a /" == "/net/a /" && "/net" + "/" + "a " == "/net/a ";
    assert Step(["net"], "a ") == ["net", "a "] && Step(["net"], "a") == ["net", "a"];
  }

  lemma Endings()
    ensures Components(TrimEnd("a /")) == ["a "] && Components(TrimEnd("a ")) == ["a"]
  {
    hide Components;
    assert TrimEnd("a /") == "a /" && TrimEnd("a ") == "a" by {
      assert "a "[..1] == "a" && TrimEnd("a") == "a";
    }
    ComponentsOfPiece("a");
    ComponentsOfPiece("a ");
    ComponentsOfPiece("");
    ComponentsJoined("a ", "");
    assert "a " + "/" + "" == "a /" && ["a "] + [] == ["a "];
  }
}
