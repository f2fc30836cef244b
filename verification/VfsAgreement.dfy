/** When the children a directory caches are the children a scan of the registry finds. */
module VfsAgreement {
  import opened Options
  import opened Paths
  import opened PathLaws
  import opened Vfs

  ghost predicate AllCanonical(m: Nodes) { forall k :: k in m ==> Canonical(k) }

  ghost predicate NoRepeats(names: seq<string>)
  {
    forall i, j :: 0 <= i < j < |names| ==> names[i] != names[j]
  }

  /** A directory caches each of its children once and nothing else. */
  ghost predicate Agrees(node: Vnode, scan: set<string>)
  {
    node.Dir? ==> NoRepeats(node.children) && forall n :: n in node.children <==> n in scan
  }

  /** A directory caches no name twice, and only names of its children. */
  ghost predicate Covers(node: Vnode, scan: set<string>)
  {
    node.Dir? ==> NoRepeats(node.children) && forall n :: n in node.children ==> n in scan
  }

  ghost predicate AllAgree(m: Nodes) { forall d :: d in m ==> Agrees(m[d], Scan(m, d)) }
  ghost predicate AllCover(m: Nodes) { forall d :: d in m ==> Covers(m[d], Scan(m, d)) }

  // ---------------------------------------------------------------- what a scan finds

  lemma InScan(m: Nodes, d: string, n: string)
    requires AllCanonical(m) && Canonical(d)
    ensures n in Scan(m, d) <==> exists k :: k in m && ParentPath(k) == Some(d) && LinkName(k) == n
  {
    hide ParentPath, LinkName, ChildName, Normalize;
    forall k | k in m ensures ChildName(d, k) == if ParentPath(k) == Some(d) then Some(LinkName(k)) else None {
      assert Canonical(k);
      ParentsAndChildren(d, k);
    }
    if n in Scan(m, d) {
      var k :| k in m && ChildName(d, k).Some? && ChildName(d, k).value == n;
      assert ParentPath(k) == Some(d) && LinkName(k) == n;
    }
    if k :| k in m && ParentPath(k) == Some(d) && LinkName(k) == n {
      assert ChildName(d, k).Some? && ChildName(d, k).value == n;
    }
  }

  /** Parent and name identify a key. */
  lemma SameParentAndName(a: string, b: string)
    requires Canonical(a) && Canonical(b) && ParentPath(a).Some? && ParentPath(a) == ParentPath(b)
    requires LinkName(a) == LinkName(b)
    ensures a == b
  {
    hide ParentPath, LinkName;
    ParentAndNameRebuild(a);
    ParentAndNameRebuild(b);
  }

  /** No path is its own parent. */
  lemma NotOwnParent(k: string)
    requires Canonical(k)
    ensures ParentPath(k) != Some(k)
  {
    hide ParentPath, Normalize, Parts;
    ParentIff(k, k);
  }

  /** The name a key gives its parent, as a set. */
  function Given(key: string, d: string): set<string> { if ParentPath(key) == Some(d) then {LinkName(key)} else {} }

  lemma ScanGrows(m: Nodes, m': Nodes, key: string, d: string)
    requires AllCanonical(m) && Canonical(key) && Canonical(d) && m'.Keys == m.Keys + {key}
    ensures Scan(m', d) == Scan(m, d) + Given(key, d)
  {
    hide ParentPath, LinkName, ChildName, Normalize, Scan;
    assert AllCanonical(m');
    forall n ensures n in Scan(m', d) <==> n in Scan(m, d) + Given(key, d) {
      InScan(m, d, n);
      InScan(m', d, n);
      if n in Scan(m', d) {
        var k :| k in m' && ParentPath(k) == Some(d) && LinkName(k) == n;
        assert k in m || k == key;
      }
      if n in Scan(m, d) {
        var k :| k in m && ParentPath(k) == Some(d) && LinkName(k) == n;
        assert k in m';
      }
      if n in Given(key, d) {
        assert key in m';
      }
    }
  }

  lemma ScanShrinks(m: Nodes, m': Nodes, gone: set<string>, d: string)
    requires AllCanonical(m) && Canonical(d) && m'.Keys == m.Keys - gone && gone <= m.Keys
    ensures Scan(m', d) == Scan(m, d) - NamesIn(gone, d)
  {
    hide ParentPath, LinkName, ChildName, Normalize, Scan;
    assert AllCanonical(m');
    forall n ensures n in Scan(m', d) <==> n in Scan(m, d) - NamesIn(gone, d) {
      InScan(m, d, n);
      InScan(m', d, n);
      if n in Scan(m', d) {
        var k :| k in m' && ParentPath(k) == Some(d) && LinkName(k) == n;
        assert k in m;
        if n in NamesIn(gone, d) {
          var g :| g in gone && ParentPath(g) == Some(d) && LinkName(g) == n;
          SameParentAndName(g, k);
        }
      }
      if n in Scan(m, d) - NamesIn(gone, d) {
        var k :| k in m && ParentPath(k) == Some(d) && LinkName(k) == n;
        assert k !in gone;
        assert k in m';
      }
    }
  }

  // ---------------------------------------------------------------- adding and removing

  /** What adding a node does to a directory: only the parent changes, by at most one name. */
  lemma AddedAt(m: Nodes, key: string, node: Vnode, d: string)
    requires Canonical(key) && (d == key || d in m)
    ensures Added(m, key, node).Keys == m.Keys + {key}
    ensures Added(m, key, node)[d] ==
      if d == key then node
      else if ParentPath(key) == Some(d) && m[d].Dir? && LinkName(key) !in m[d].children
      then m[d].(children := m[d].children + [LinkName(key)])
      else m[d]
  {
    hide ParentPath, LinkName, Normalize;
    NotOwnParent(key);
  }

  /** The listing of every other directory stays as true as it was. */
  lemma AddedElsewhere(m: Nodes, key: string, node: Vnode, d: string)
    requires AllCanonical(m) && Canonical(key) && d in m && d != key
    ensures var m' := Added(m, key, node);
      && (Agrees(m[d], Scan(m, d)) ==> Agrees(m'[d], Scan(m', d)))
      && (Covers(m[d], Scan(m, d)) ==> Covers(m'[d], Scan(m', d)))
  {
    hide ParentPath, LinkName, ChildName, Normalize, Scan, Added;
    AddedAt(m, key, node, d);
    ScanGrows(m, Added(m, key, node), key, d);
    var m', name := Added(m, key, node), LinkName(key);
    if m[d].Dir? && ParentPath(key) == Some(d) && name !in m[d].children {
      var names := m[d].children;
      assert m'[d].children == names + [name];
      assert forall n :: n in names + [name] <==> n in names || n == name;
    }
  }

  lemma AddedHere(m: Nodes, key: string, node: Vnode)
    requires AllCanonical(m) && Canonical(key)
    ensures var m' := Added(m, key, node); m'[key] == node && Scan(m', key) == Scan(m, key)
  {
    hide ParentPath, LinkName, ChildName, Normalize, Scan;
    AddedAt(m, key, node, key);
    NotOwnParent(key);
    ScanGrows(m, Added(m, key, node), key, key);
  }

  /** Adding a node to an agreeing registry keeps it agreeing exactly when the node is not a directory or
      already caches the children found below its key. */
  lemma AddKeepsAgreement(m: Nodes, key: string, node: Vnode)
    requires AllCanonical(m) && Canonical(key) && AllAgree(m)
    ensures AllCanonical(Added(m, key, node))
    ensures AllAgree(Added(m, key, node)) <==> Agrees(node, Scan(m, key))
  {
    hide ParentPath, LinkName, ChildName, Normalize, Scan, Added, Agrees;
    AddedHere(m, key, node);
    AddedAt(m, key, node, key);
    var m' := Added(m, key, node);
    forall d | d in m' && d != key ensures Agrees(m'[d], Scan(m', d)) {
      AddedElsewhere(m, key, node, d);
    }
    forall d | d in m' ensures Canonical(d) {
    }
  }

  /** Making a directory keeps an agreeing registry agreeing exactly when nothing lives directly below it. */
  lemma MkdirKeepsAgreement(m: Nodes, path: string)
    requires AllCanonical(m) && Canonical(Normalize(path)) && AllAgree(m)
    ensures AllAgree(Apply(m, Mkdir(path))) <==> Scan(m, Normalize(path)) == {}
  {
    hide ParentPath, LinkName, ChildName, Normalize, Scan, Added;
    var key := Normalize(path);
    AddKeepsAgreement(m, key, Dir(key, []));
    if Agrees(Dir(key, []), Scan(m, key)) {
      assert Scan(m, key) == {};
    }
  }

  lemma AddKeepsCover(m: Nodes, key: string, node: Vnode)
    requires AllCanonical(m) && Canonical(key) && AllCover(m) && Covers(node, Scan(m, key))
    ensures AllCanonical(Added(m, key, node)) && AllCover(Added(m, key, node))
  {
    hide ParentPath, LinkName, ChildName, Normalize, Scan, Added, Covers;
    AddedHere(m, key, node);
    AddedAt(m, key, node, key);
    var m' := Added(m, key, node);
    forall d | d in m' ensures Covers(m'[d], Scan(m', d)) && Canonical(d) {
      if d != key {
        AddedElsewhere(m, key, node, d);
      }
    }
  }

  lemma {:induction false} WithoutKeeps(names: seq<string>, gone: set<string>)
    ensures forall n :: n in Without(names, gone) <==> n in names && n !in gone
    ensures NoRepeats(names) ==> NoRepeats(Without(names, gone))
  {
    if names != [] {
      WithoutKeeps(names[1..], gone);
      assert names == [names[0]] + names[1..];
      assert forall n :: n in names <==> n == names[0] || n in names[1..];
      if NoRepeats(names) {
        assert NoRepeats(names[1..]);
        assert names[0] !in names[1..];
      }
    }
  }

  /** Removing keys, one or many, keeps every remaining listing as true as it was. */
  lemma CutKeeps(m: Nodes, gone: set<string>)
    requires AllCanonical(m) && gone <= m.Keys
    ensures AllCanonical(Cut(m, gone))
    ensures AllAgree(m) ==> AllAgree(Cut(m, gone))
    ensures AllCover(m) ==> AllCover(Cut(m, gone))
  {
    hide ParentPath, LinkName, ChildName, Normalize, Scan, NamesIn;
    var m' := Cut(m, gone);
    assert m'.Keys == m.Keys - gone;
    forall d | d in m'
      ensures Agrees(m[d], Scan(m, d)) ==> Agrees(m'[d], Scan(m', d))
      ensures Covers(m[d], Scan(m, d)) ==> Covers(m'[d], Scan(m', d))
    {
      ScanShrinks(m, m', gone, d);
      if m[d].Dir? {
        WithoutKeeps(m[d].children, NamesIn(gone, d));
      }
    }
  }

  // ---------------------------------------------------------------- runs

  /** The path stays where it is when normalized once more: its last component does not end in space. */
  ghost predicate Steady(ops: seq<Op>) { forall i :: 0 <= i < |ops| ==> Canonical(Normalize(ops[i].path)) }

  /** Only nodes that are not directories are added. */
  ghost predicate Plain(ops: seq<Op>) { forall i :: 0 <= i < |ops| ==> ops[i].AddNode? ==> !ops[i].node.Dir? }

  /** Some directory is made over live children. */
  ghost predicate Clobbers(m: Nodes, ops: seq<Op>)
    decreases ops
  {
    ops != [] &&
    ((ops[0].Mkdir? && Scan(m, Normalize(ops[0].path)) != {}) || Clobbers(Apply(m, ops[0]), ops[1..]))
  }

  ghost predicate AlwaysAgrees(m: Nodes, ops: seq<Op>)
    decreases ops
  {
    AllAgree(m) && (ops == [] || AlwaysAgrees(Apply(m, ops[0]), ops[1..]))
  }

  lemma StepKeeps(m: Nodes, op: Op)
    requires AllCanonical(m) && Canonical(Normalize(op.path)) && (op.AddNode? ==> !op.node.Dir?)
    ensures AllCanonical(Apply(m, op))
    ensures AllCover(m) ==> AllCover(Apply(m, op))
    ensures AllAgree(m) ==> (AllAgree(Apply(m, op)) <==> !(op.Mkdir? && Scan(m, Normalize(op.path)) != {}))
  {
    hide ParentPath, LinkName, ChildName, Normalize, Scan, Added, Cut, AllAgree, AllCover;
    var key := Normalize(op.path);
    match op {
      case Mkdir(path) =>
        AddStaysCanonical(m, key, Dir(key, []));
        if AllAgree(m) { MkdirKeepsAgreement(m, path); }
        if AllCover(m) { AddKeepsCover(m, key, Dir(key, [])); }
      case AddNode(path, node) =>
        AddStaysCanonical(m, key, node);
        if AllAgree(m) { AddKeepsAgreement(m, key, node); }
        if AllCover(m) { AddKeepsCover(m, key, node); }
      case Remove(path) =>
        if key in m { CutKeeps(m, {key}); }
    }
  }

  lemma AddStaysCanonical(m: Nodes, key: string, node: Vnode)
    requires AllCanonical(m) && Canonical(key)
    ensures AllCanonical(Added(m, key, node))
  {
    hide ParentPath, LinkName, Normalize, Added;
    AddedKeys(m, key, node);
    forall k | k in Added(m, key, node) ensures Canonical(k) {
    }
  }

  lemma AddedKeys(m: Nodes, key: string, node: Vnode)
    ensures Added(m, key, node).Keys == m.Keys + {key}
  {
    hide ParentPath, LinkName;
  }

  /** Over every run of steady operations without directories for nodes, from any registry that agrees, cached
      and scanned listings agree at every point if and only if no directory is ever made over live children. */
  lemma {:induction false} ListingsAgree(m: Nodes, ops: seq<Op>)
    requires AllCanonical(m) && AllAgree(m) && Steady(ops) && Plain(ops)
    ensures AlwaysAgrees(m, ops) <==> !Clobbers(m, ops)
    decreases ops
  {
    hide Normalize, Scan, Apply, AllAgree, AllCanonical;
    if ops != [] {
      assert Canonical(Normalize(ops[0].path));
      StepKeeps(m, ops[0]);
      if AllAgree(Apply(m, ops[0])) {
        ListingsAgree(Apply(m, ops[0]), ops[1..]);
      }
    }
  }

  /** Without that restriction, a directory still never caches a name twice nor one that is not there. */
  lemma {:induction false} ListingsCovered(m: Nodes, ops: seq<Op>)
    requires AllCanonical(m) && AllCover(m) && Steady(ops) && Plain(ops)
    ensures AllCanonical(RunOps(m, ops)) && AllCover(RunOps(m, ops))
    decreases ops
  {
    hide Normalize, Scan, Apply, AllCover, AllCanonical;
    if ops != [] {
      assert Canonical(Normalize(ops[0].path));
      StepKeeps(m, ops[0]);
      ListingsCovered(Apply(m, ops[0]), ops[1..]);
    }
  }

  /** Steadiness is needed: a directory name that ends in space is cached as given but scanned trimmed. */
  lemma UnsteadyDisagrees()
    ensures var m := RunOps(map[], [Mkdir("/"), Mkdir("/a /")]);
      "/" in m && m["/"] == Dir("/", ["a "]) && Scan(m, "/") == {"a"}
  {
    hide ParentPath, LinkName, ChildName, Normalize;
    var root, made := Mkdir("/"), Mkdir("/a /");
    var m := Apply(map[], root);
    UnsteadyPaths();
    assert m == map["/" := Dir("/", [])];
    var m', ops := Apply(m, made), [root, made];
    Unroll(map[], ops, 0);
    Unroll(m, ops, 1);
    RunNothing(m');
    assert ops[0..] == ops && ops[2..] == [];
    assert m'.Keys == {"/", "/a "};
    assert Scan(m', "/") == {"a"} by {
      assert ChildName("/", "/a ").Some?;
    }
  }

  lemma UnsteadyPaths()
    ensures Normalize("/") == "/" && ParentPath("/") == None && ChildName("/", "/") == None
    ensures Normalize("/a /") == "/a " && ParentPath("/a ") == Some("/") && LinkName("/a ") == "a "
    ensures ChildName("/", "/a ") == Some("a")
  {
    hide ParentPath, LinkName, ChildName, Normalize, Parts, Render;
    NormalizeTwiceFails();
    RootParts();
    PartsOfA();
    ParentDropsLast("/");
    ParentDropsLast("/a ");
    assert Parts("/a ") == [] + ["a"] && Parts("/a ")[..0] == [];
    ChildIff("/", "/a ", "a");
    ChildAddsOne("/", "/");
    LinkNameOfA();
  }

  lemma RootParts()
    ensures Parts("/") == [] && Render([]) == "/" && Normalize("/") == "/"
  {
    RenderStable([]);
  }

  lemma PartsOfA()
    ensures Parts("/a ") == ["a"]
  {
    hide Parts;
    NormalizeTwiceFails();
    PartsClean("/a ");
    SlashedOne("a");
    RenderInjective(Parts("/a "), ["a"]);
  }

  lemma LinkNameOfA()
    ensures LinkName("/a ") == "a "
  {
    LastSlash("", "a ");
    assert "" + "/" + "a " == "/a ";
  }
}
