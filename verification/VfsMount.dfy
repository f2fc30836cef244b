/** Mounting and unmounting an agent's namespace (src/fs/registry.rs). */
module VfsMount {
  import opened Options
  import opened Paths
  import opened PathLaws
  import opened Vfs
  import opened VfsAgreement

  // ---------------------------------------------------------------- paths at or below a base

  /** Everything strictly below a base has its parent at or below it. */
  lemma BelowIsClosed(k: string, base: string)
    requires Canonical(k) && AtOrBelow(k, base) && k != base && base != "/" && base != ""
    ensures ParentPath(k).Some? && AtOrBelow(ParentPath(k).value, base)
  {
    hide ParentPath, LinkName, Render, Parts;
    ParentDropsLast(k);
    PartsClean(k);
    LinkNameIsLast(Parts(k));
    NotTheRoot(k, base);
    ParentAndNameRebuild(k);
    var p := ParentPath(k).value;
    SlashWithin(if p == "/" then "" else p, LinkName(k), base);
  }

  lemma NotTheRoot(k: string, base: string)
    requires Canonical(k) && base != "" && base + "/" <= k
    ensures Parts(k) != []
  {
    assert |k| >= |base| + 1;
  }

  lemma SlashWithin(front: string, piece: string, base: string)
    requires NoSlash(piece) && base + "/" <= front + "/" + piece
    ensures AtOrBelow(front, base)
  {
    var s := front + "/" + piece;
    forall i | |front| < i < |s| ensures s[i] != '/' {
      assert s[i] == piece[i - |front| - 1];
    }
    assert s[|base|] == '/' && s[..|base|] == base;
    if |base| == |front| {
      assert s[..|front|] == front;
    } else {
      assert s[..|base| + 1] == front[..|base| + 1];
    }
  }

  /** And the parent of the base is not at or below it. */
  lemma ParentIsOutside(base: string)
    requires Canonical(base) && ParentPath(base).Some?
    ensures !AtOrBelow(ParentPath(base).value, base)
  {
    hide ParentPath, LinkName, Normalize, Parts;
    ParentAndNameRebuild(base);
    NotOwnParent(base);
  }

  /** Every component of the path survives as written. */
  ghost predicate Rendered(path: string) { AllClean(Components(path)) && Render(Components(path)) == path }

  lemma CanonicalRendered(path: string)
    requires Canonical(path)
    ensures Rendered(path) && Components(path) == Parts(path)
  {
    PartsClean(path);
    ComponentsOfRender(Parts(path));
  }

  // ---------------------------------------------------------------- unmounting

  /** The registry without the tree at a base, and without its name in the parent. */
  function Outside(m: Nodes, base: string): Nodes
  {
    map d | d in m && !AtOrBelow(d, base) ::
      if ParentPath(base) == Some(d) then Unlinked(m[d], {LinkName(base)}) else m[d]
  }

  /** A base that is not there is not cached by its parent either. */
  ghost predicate Tidy(m: Nodes, base: string)
  {
    base !in m ==>
      match ParentPath(base)
      case None => true
      case Some(p) => p in m && m[p].Dir? ==> LinkName(base) !in m[p].children
  }

  lemma CoveredIsTidy(m: Nodes, base: string)
    requires AllCanonical(m) && Canonical(base) && AllCover(m)
    ensures Tidy(m, base)
  {
    hide ParentPath, LinkName, Normalize, Scan;
    match ParentPath(base) {
      case None =>
      case Some(p) =>
        if base !in m && p in m && m[p].Dir? && LinkName(base) in m[p].children {
          assert Covers(m[p], Scan(m, p)) && Canonical(p);
          InScan(m, p, LinkName(base));
          var k :| k in m && ParentPath(k) == Some(p) && LinkName(k) == LinkName(base);
          SameParentAndName(k, base);
        }
    }
  }

  lemma {:induction false} WithoutAbsent(names: seq<string>, gone: set<string>)
    requires forall n :: n in names ==> n !in gone
    ensures Without(names, gone) == names
  {
    if names != [] {
      assert names[0] in names;
      assert forall n :: n in names[1..] ==> n in names;
      WithoutAbsent(names[1..], gone);
    }
  }

  lemma {:induction false} WithoutAppended(names: seq<string>, x: string, gone: set<string>)
    requires x in gone
    ensures Without(names + [x], gone) == Without(names, gone)
  {
    if names == [] {
      assert names + [x] == [x];
    } else {
      assert (names + [x])[1..] == names[1..] + [x];
      WithoutAppended(names[1..], x, gone);
    }
  }

  /** What an unmount unlinks from a directory outside: the base from its parent, nothing else. */
  lemma NamesOutside(m: Nodes, base: string, d: string)
    requires AllCanonical(m) && Canonical(base) && base != "/" && !AtOrBelow(d, base)
    ensures NamesIn(Subtree(m, base), d) == if base in m then Given(base, d) else {}
  {
    hide ParentPath, LinkName, Normalize;
    BaseNotEmpty(base);
    var gone := Subtree(m, base);
    forall n ensures n in NamesIn(gone, d) <==> base in m && n in Given(base, d) {
      if n in NamesIn(gone, d) {
        var k :| k in gone && ParentPath(k) == Some(d) && LinkName(k) == n;
        if k != base {
          BelowIsClosed(k, base);
        }
      }
      if base in m && n in Given(base, d) {
        assert base in gone;
      }
    }
  }

  lemma BaseNotEmpty(base: string)
    requires Canonical(base)
    ensures base != ""
  {
    PartsClean(base);
    RenderShape(Parts(base));
  }

  /** Unmounting removes the tree at the base and leaves all else as it was. */
  lemma UnmountIsOutside(m: Nodes, base: string)
    requires AllCanonical(m) && Canonical(base) && base != "/" && Tidy(m, base)
    ensures Cut(m, Subtree(m, base)) == Outside(m, base)
  {
    hide ParentPath, LinkName, Normalize;
    var gone := Subtree(m, base);
    forall d | d in m && !AtOrBelow(d, base) ensures Cut(m, gone)[d] == Outside(m, base)[d] {
      NamesOutside(m, base, d);
      if m[d].Dir? {
        if base !in m && ParentPath(base) == Some(d) {
          WithoutAbsent(m[d].children, {LinkName(base)});
        }
        WithoutAbsent(m[d].children, {});
      }
    }
  }

  /** An operation at or below the base changes nothing outside. */
  lemma OutsideUnchanged(m: Nodes, op: Op, base: string)
    requires Canonical(base) && base != "/" && Canonical(Normalize(op.path)) && AtOrBelow(Normalize(op.path), base)
    requires Tidy(m, base)
    ensures Outside(Apply(m, op), base) == Outside(m, base) && Tidy(Apply(m, op), base)
  {
    hide ParentPath, LinkName, Normalize;
    var key := Normalize(op.path);
    BaseNotEmpty(base);
    if key != base {
      BelowIsClosed(key, base);
    }
    if ParentPath(base).Some? {
      ParentIsOutside(base);
    }
    match op {
      case Mkdir(path) => OutsideAdded(m, key, Dir(key, []), base);
      case AddNode(path, node) => OutsideAdded(m, key, node, base);
      case Remove(path) => OutsideRemoved(m, key, base);
    }
  }

  /** Where a key at or below the base is linked. */
  ghost predicate LinksInside(key: string, base: string)
  {
    && AtOrBelow(key, base)
    && (key != base ==> ParentPath(key).Some? && AtOrBelow(ParentPath(key).value, base))
    && (ParentPath(base).Some? ==> !AtOrBelow(ParentPath(base).value, base))
  }

  lemma OutsideAdded(m: Nodes, key: string, node: Vnode, base: string)
    requires LinksInside(key, base) && Tidy(m, base)
    ensures Outside(Added(m, key, node), base) == Outside(m, base) && Tidy(Added(m, key, node), base)
  {
    hide ParentPath, LinkName;
    if key == base && ParentPath(base).Some? {
      var p := ParentPath(base).value;
      if p in m && m[p].Dir? {
        WithoutAppended(m[p].children, LinkName(base), {LinkName(base)});
      }
    }
  }

  lemma OutsideRemoved(m: Nodes, key: string, base: string)
    requires LinksInside(key, base) && Tidy(m, base)
    ensures Outside(Removed(m, key), base) == Outside(m, base) && Tidy(Removed(m, key), base)
  {
    hide ParentPath, LinkName, Cut;
    CutOne(m, key);
    if key == base && key in m && ParentPath(base).Some? {
      var p, name := ParentPath(base).value, LinkName(base);
      if p in m && m[p].Dir? {
        WithoutKeeps(m[p].children, {name});
        WithoutTwice(m[p].children, {name}, {name});
        assert {name} + {name} == {name};
      }
    }
  }

  ghost predicate AllBelow(ops: seq<Op>, base: string)
  {
    forall i :: 0 <= i < |ops| ==> AtOrBelow(Normalize(ops[i].path), base)
  }

  /** Whatever is done at or below the base, an unmount leaves the registry as if it had not been done. */
  lemma {:induction false} UnmountForgets(m: Nodes, ops: seq<Op>, base: string)
    requires AllCanonical(m) && Canonical(base) && base != "/" && Tidy(m, base) && Steady(ops) && AllBelow(ops, base)
    ensures var m' := RunOps(m, ops); Cut(m', Subtree(m', base)) == Outside(m, base)
    decreases ops
  {
    hide ParentPath, LinkName, Normalize, Apply, Cut, Subtree, Outside, Tidy, AllCanonical, AtOrBelow;
    if ops == [] {
      UnmountIsOutside(m, base);
    } else {
      assert Canonical(Normalize(ops[0].path)) && AtOrBelow(Normalize(ops[0].path), base);
      OutsideUnchanged(m, ops[0], base);
      StaysCanonical(m, ops[0]);
      UnmountForgets(Apply(m, ops[0]), ops[1..], base);
    }
  }

  lemma StaysCanonical(m: Nodes, op: Op)
    requires AllCanonical(m) && Canonical(Normalize(op.path))
    ensures AllCanonical(Apply(m, op))
  {
    hide Normalize, Added, Cut;
    var key := Normalize(op.path);
    match op {
      case Mkdir(path) => AddStaysCanonical(m, key, Dir(key, []));
      case AddNode(path, node) => AddStaysCanonical(m, key, node);
      case Remove(path) =>
        if key in m {
          CutKeeps(m, {key});
        }
    }
  }

  lemma NothingInside(m: Nodes, base: string)
    requires Tidy(m, base) && Subtree(m, base) == {}
    ensures Outside(m, base) == m
  {
    hide ParentPath, LinkName;
    assert base in m ==> base in Subtree(m, base);
    forall d | d in m ensures !AtOrBelow(d, base) && Outside(m, base)[d] == m[d] {
      assert d !in Subtree(m, base);
      if ParentPath(base) == Some(d) && m[d].Dir? {
        WithoutAbsent(m[d].children, {LinkName(base)});
      }
    }
  }

  // ---------------------------------------------------------------- mounting

  /** A name below a path whose components survive as written. */
  lemma ChildPath(p: string, name: string)
    requires Rendered(p) && p != "/" && Clean(name) && !EndsInSpace(name)
    ensures Canonical(p + "/" + name) && ParentPath(p + "/" + name) == Some(p) && LinkName(p + "/" + name) == name
  {
    hide ParentPath, LinkName, Parts, Components, Resolve;
    var k, parts := p + "/" + name, Components(p);
    RenderShape(parts);
    assert TrimEnd(name) == name && TrimStart(p) == p;
    PartsJoined(p, name);
    ComponentsOfPiece(name);
    ResolveKeepsClean([], parts);
    assert [] + parts == parts;
    ResolveOne(parts, name);
    assert Parts(k) == parts + [name];
    SlashedAppend(parts, name);
    ParentDropsLast(k);
    PartsClean(k);
    LinkNameIsLast(Parts(k));
    assert Parts(k)[..|Parts(k)| - 1] == parts;
  }

  function Base(id: string): string { "/net/" + id }

  /** Where a mount puts its nodes: at the base with its components resolved but, as other components follow,
      nothing trimmed. Only the directory made for the base itself is at the base's normal form. */
  function Spot(id: string): string { Render(Resolve([], Components(Base(id)))) }

  lemma SpotRendered(id: string)
    ensures Rendered(Spot(id)) && Components(Spot(id)) == Resolve([], Components(Base(id)))
  {
    hide Resolve, Render;
    SplitPieces(Base(id));
    NonEmptyPieces(Split(Base(id)));
    ResolveCleans([], Components(Base(id)));
    ComponentsOfRender(Resolve([], Components(Base(id))));
  }

  /** What is mounted below the base has its normal form below the spot. */
  lemma SpotPath(id: string, rest: string)
    ensures Normalize(Base(id) + "/" + rest) == Normalize(Spot(id) + "/" + rest)
  {
    hide Resolve, Components, Render;
    var parts := Components(Spot(id));
    SpotRendered(id);
    RenderShape(parts);
    assert TrimStart(Base(id)) == Base(id) && TrimStart(Spot(id)) == Spot(id);
    PartsJoined(Base(id), rest);
    PartsJoined(Spot(id), rest);
    ResolveKeepsClean([], parts);
    assert [] + parts == parts;
  }

  /** The paths of a mount, and where they lead. */
  lemma MountPaths(id: string, hostname: string)
    requires Spot(id) != "/"
    ensures var ops, base := MountOps(id, hostname), Spot(id);
      && Normalize(ops[0].path) == Normalize(Base(id))
      && Normalize(ops[1].path) == base + "/ctl" && Normalize(ops[2].path) == base + "/msg"
      && Normalize(ops[3].path) == base + "/hostname"
      && Normalize(ops[4].path) == base + "/ctl/status" && Normalize(ops[5].path) == base + "/ctl/capabilities"
      && Normalize(ops[6].path) == base + "/msg/inbox" && Normalize(ops[7].path) == base + "/msg/outbox"
      && forall i :: 1 <= i < 8 ==> Canonical(Normalize(ops[i].path))
  {
    hide ParentPath, LinkName, Normalize, Spot;
    SpotRendered(id);
    MountTree(Spot(id));
    SpotLeads(id, "/ctl");
    SpotLeads(id, "/msg");
    SpotLeads(id, "/hostname");
    SpotLeads(id, "/ctl/status");
    SpotLeads(id, "/ctl/capabilities");
    SpotLeads(id, "/msg/inbox");
    SpotLeads(id, "/msg/outbox");
  }

  lemma SpotLeads(id: string, rest: string)
    requires rest != "" && rest[0] == '/'
    ensures Canonical(Spot(id) + rest) ==> Normalize(Base(id) + rest) == Spot(id) + rest
  {
    hide Normalize, Spot;
    SpotPath(id, rest[1..]);
    assert rest == "/" + rest[1..];
    assert Base(id) + "/" + rest[1..] == Base(id) + rest && Spot(id) + "/" + rest[1..] == Spot(id) + rest;
  }

  /** A base that is its own normal form is the spot, and everything is mounted at or below it. */
  lemma CanonicalPaths(id: string, hostname: string)
    requires Canonical(Base(id))
    ensures var ops := MountOps(id, hostname);
      Spot(id) == Base(id) && Base(id) != "/" && Steady(ops) && AllBelow(ops, Base(id))
  {
    hide ParentPath, LinkName, Normalize, Spot;
    CanonicalRendered(Base(id));
    RenderedSpot(id);
    MountPaths(id, hostname);
    var ops := MountOps(id, hostname);
    forall i | 0 <= i < 8 ensures Canonical(Normalize(ops[i].path)) && AtOrBelow(Normalize(ops[i].path), Base(id)) {
      if i == 0 {
        assert Normalize(ops[0].path) == Base(id);
      } else {
        assert Normalize(ops[i].path)[..|Base(id)| + 1] == Base(id) + "/";
      }
    }
  }

  lemma RenderedSpot(id: string)
    ensures Rendered(Base(id)) <==> Spot(id) == Base(id)
  {
    hide Resolve, Components, Render;
    SpotRendered(id);
    if Rendered(Base(id)) {
      ResolveKeepsClean([], Components(Base(id)));
      assert [] + Components(Base(id)) == Components(Base(id));
    }
  }

  /** The namespace below a base: every path with its parent and its name. */
  lemma MountTree(base: string)
    requires Rendered(base) && base != "/"
    ensures InTree(base, base + "/ctl", "ctl") && InTree(base, base + "/msg", "msg")
    ensures InTree(base, base + "/hostname", "hostname")
    ensures InTree(base + "/ctl", base + "/ctl/status", "status")
    ensures InTree(base + "/ctl", base + "/ctl/capabilities", "capabilities")
    ensures InTree(base + "/msg", base + "/msg/inbox", "inbox")
    ensures InTree(base + "/msg", base + "/msg/outbox", "outbox")
  {
    hide ParentPath, LinkName, Normalize;
    TreeTop(base);
    CanonicalRendered(base + "/ctl");
    CanonicalRendered(base + "/msg");
    TreeCtl(base);
    TreeMsg(base);
  }

  lemma TreeTop(base: string)
    requires Rendered(base) && base != "/"
    ensures InTree(base, base + "/ctl", "ctl") && InTree(base, base + "/msg", "msg")
    ensures InTree(base, base + "/hostname", "hostname")
  {
    hide ParentPath, LinkName, Normalize;
    ChildPath(base, "ctl");
    ChildPath(base, "msg");
    ChildPath(base, "hostname");
    assert base + "/" + "ctl" == base + "/ctl";
    assert base + "/" + "msg" == base + "/msg";
    assert base + "/" + "hostname" == base + "/hostname";
  }

  lemma TreeCtl(base: string)
    requires Rendered(base + "/ctl")
    ensures InTree(base + "/ctl", base + "/ctl/status", "status")
    ensures InTree(base + "/ctl", base + "/ctl/capabilities", "capabilities")
  {
    hide ParentPath, LinkName, Normalize;
    ChildPath(base + "/ctl", "status");
    ChildPath(base + "/ctl", "capabilities");
    assert base + "/ctl" + "/" + "status" == base + "/ctl/status";
    assert base + "/ctl" + "/" + "capabilities" == base + "/ctl/capabilities";
  }

  lemma TreeMsg(base: string)
    requires Rendered(base + "/msg")
    ensures InTree(base + "/msg", base + "/msg/inbox", "inbox")
    ensures InTree(base + "/msg", base + "/msg/outbox", "outbox")
  {
    hide ParentPath, LinkName, Normalize;
    ChildPath(base + "/msg", "inbox");
    ChildPath(base + "/msg", "outbox");
    assert base + "/msg" + "/" + "inbox" == base + "/msg/inbox";
    assert base + "/msg" + "/" + "outbox" == base + "/msg/outbox";
  }

  ghost predicate InTree(p: string, k: string, name: string)
  {
    Canonical(k) && ParentPath(k) == Some(p) && LinkName(k) == name
  }

  // ---------------------------------------------------------------- mounting and unmounting

  /** The registry outside of a path, as it is. */
  function Elsewhere(m: Nodes, base: string): Nodes { map k | k in m && !AtOrBelow(k, base) :: m[k] }

  /** Whatever lies at or below a path has its parent there too. */
  ghost predicate ClosedBelow(m: Nodes, base: string)
  {
    forall k :: k in m && AtOrBelow(k, base) ==> LinkedBelow(k, base)
  }

  ghost predicate LinkedBelow(k: string, base: string)
  {
    AtOrBelow(k, base) && ParentPath(k).Some? && AtOrBelow(ParentPath(k).value, base)
  }

  lemma AddedBelow(m: Nodes, key: string, node: Vnode, base: string)
    requires ClosedBelow(m, base) && LinkedBelow(key, base)
    ensures Elsewhere(Added(m, key, node), base) == Elsewhere(m, base) && ClosedBelow(Added(m, key, node), base)
  {
    hide ParentPath, LinkName, AtOrBelow;
  }

  lemma {:induction false} AddsBelow(m: Nodes, ops: seq<Op>, base: string)
    requires ClosedBelow(m, base) && NoRemoves(ops)
    requires forall i :: 0 <= i < |ops| ==> LinkedBelow(Normalize(ops[i].path), base)
    ensures Elsewhere(RunOps(m, ops), base) == Elsewhere(m, base) && ClosedBelow(RunOps(m, ops), base)
    decreases ops
  {
    hide Normalize, Added, Elsewhere, ClosedBelow, LinkedBelow;
    if ops != [] {
      assert LinkedBelow(Normalize(ops[0].path), base) && !ops[0].Remove?;
      AddedBelow(m, Normalize(ops[0].path), AddedNode(ops[0]), base);
      AddsBelow(Apply(m, ops[0]), ops[1..], base);
    }
  }

  lemma CutIsElsewhere(m: Nodes, base: string)
    requires ClosedBelow(m, base)
    ensures Cut(m, Subtree(m, base)) == Elsewhere(m, base)
  {
    hide ParentPath, LinkName, AtOrBelow;
    var gone := Subtree(m, base);
    forall d | d in m && !AtOrBelow(d, base) ensures d !in gone && Cut(m, gone)[d] == m[d] {
      assert NamesIn(gone, d) == {};
      if m[d].Dir? {
        WithoutNothing(m[d].children);
      }
    }
  }

  /** What is mounted for an agent whose path ends in whitespace lies at or below that path, but for the
      directory of the path itself. */
  lemma MountedBelow(id: string, hostname: string)
    requires Rendered(Base(id))
    ensures forall i :: 1 <= i < 8 ==> LinkedBelow(Normalize(MountOps(id, hostname)[i].path), Base(id))
  {
    hide ParentPath, LinkName, Normalize, Spot;
    RenderedSpot(id);
    MountPaths(id, hostname);
    MountTree(Base(id));
    var base := Base(id);
    Below(base, "/ctl");
    Below(base, "/msg");
    Below(base, "/hostname");
    Below(base, "/ctl/status");
    Below(base, "/ctl/capabilities");
    Below(base, "/msg/inbox");
    Below(base, "/msg/outbox");
  }

  lemma Below(base: string, rest: string)
    requires rest != "" && rest[0] == '/'
    ensures AtOrBelow(base + rest, base) && AtOrBelow(base, base)
  {
    assert (base + rest)[..|base| + 1] == base + "/";
  }

  /** An unsteady base leaves its own directory behind, at its normal form, and nothing else. */
  lemma StrayBase(m: Nodes, id: string, hostname: string)
    requires Rendered(Base(id)) && !Canonical(Base(id)) && Subtree(m, Base(id)) == {}
    ensures var m', key := RunOps(m, MountOps(id, hostname)), Normalize(Base(id));
      Cut(m', Subtree(m', Base(id))) == Added(m, key, Dir(key, []))
  {
    hide ParentPath, LinkName, Normalize, Added, RunOps, ClosedBelow, LinkedBelow, Cut, Elsewhere, Subtree;
    var base, ops, key := Base(id), MountOps(id, hostname), Normalize(Base(id));
    var m1 := Apply(m, ops[0]);
    assert m1 == Added(m, key, Dir(key, []));
    MountedBelow(id, hostname);
    NotBelow(id);
    NothingBelow(m, m1, key, base);
    assert forall i :: 0 <= i < 7 ==> ops[1..][i] == ops[i + 1];
    AddsBelow(m1, ops[1..], base);
    Unroll(m, ops, 0);
    assert ops[0..] == ops;
    CutIsElsewhere(RunOps(m, ops), base);
  }

  lemma NotBelow(id: string)
    requires !Canonical(Base(id))
    ensures !AtOrBelow(Normalize(Base(id)), Base(id))
  {
    hide Normalize;
    TrimShrinks(Base(id));
    NormalizeShrinks(Base(id));
  }

  lemma NothingBelow(m: Nodes, m1: Nodes, key: string, base: string)
    requires Subtree(m, base) == {} && !AtOrBelow(key, base) && m1 == Added(m, key, Dir(key, []))
    ensures ClosedBelow(m1, base) && Elsewhere(m1, base) == m1
  {
    hide ParentPath, LinkName, AtOrBelow, Added;
    AddedKeys(m, key, Dir(key, []));
    forall k | k in m1 ensures !AtOrBelow(k, base) {
      assert k in m ==> k !in Subtree(m, base);
    }
  }

  /** The key is cached by its parent, if there is a directory to cache it. */
  ghost predicate Linked(m: Nodes, key: string)
  {
    match ParentPath(key)
    case None => true
    case Some(p) => p in m && m[p].Dir? ==> LinkName(key) in m[p].children
  }

  lemma AddsNothing(m: Nodes, key: string, node: Vnode)
    requires AllCanonical(m)
    ensures Added(m, key, node) == m <==> key in m && m[key] == node && Linked(m, key)
  {
    hide ParentPath, LinkName, Normalize;
    AddedKeys(m, key, node);
    if key in m {
      NotOwnParent(key);
      if ParentPath(key).Some? && ParentPath(key).value in m {
        var p := ParentPath(key).value;
        if m[p].Dir? && LinkName(key) !in m[p].children {
          assert |Added(m, key, node)[p].children| == |m[p].children| + 1;
        }
      }
    }
  }

  // ---------------------------------------------------------------- bases that name another place

  lemma {:induction false} SplitOfSlashed(parts: seq<string>)
    requires AllClean(parts)
    ensures Split(Slashed(parts)) == [""] + parts
  {
    hide Split;
    if parts == [] {
      SplitNothing();
    } else {
      SplitOfSlashed(parts[1..]);
      assert parts == [parts[0]] + parts[1..];
      SplitPieceThenRest(parts[0], Slashed(parts[1..]), parts[1..]);
      assert [""] + ([parts[0]] + parts[1..]) == [""] + parts;
    }
  }

  lemma SplitNothing()
    ensures Split("") == [""]
  {
  }

  lemma SplitPieceThenRest(part: string, rest: string, parts: seq<string>)
    requires NoSlash(part) && Split(rest) == [""] + parts && (rest == "" || rest[0] == '/')
    ensures Split("/" + part + rest) == [""] + ([part] + parts)
  {
    hide Split;
    SplitCons('/', part + rest);
    assert "/" + part + rest == ['/'] + (part + rest);
    ComponentsOfPiece(part);
    if rest == "" {
      SplitNothing();
      assert parts == ([""] + parts)[1..] == [];
      assert part + rest == part && [part] + parts == [part];
    } else {
      SplitCons('/', rest[1..]);
      assert rest == ['/'] + rest[1..];
      SplitJoined(part, rest[1..]);
      assert part + rest == part + "/" + rest[1..];
      assert Split(rest[1..]) == ([""] + Split(rest[1..]))[1..] == ([""] + parts)[1..] == parts;
    }
  }

  /** What is at or below a path written with empty, dot or dot-dot components is never a normal form. */
  lemma RenderedBelow(k: string, base: string)
    requires Rendered(k) && base != "" && base[0] == '/' && AtOrBelow(k, base)
    ensures Rendered(base)
  {
    hide Split, Components, Slashed;
    if k != base {
      var parts, rest := Components(k), k[|base| + 1..];
      assert k == base + "/" + rest;
      assert parts != [] by {
        assert |k| >= 2;
      }
      SplitOfSlashed(parts);
      SplitJoined(base, rest);
      SplitStarts(base);
      var front := Split(base)[1..];
      assert front == ([""] + parts)[1..|Split(base)|] == parts[..|Split(base)| - 1];
      SplitRebuilds(base);
      SlashedEmpty(front);
      assert Split(base) == [""] + front;
      assert Slashed(front) == ("/" + Slashed(front))[1..] == ("/" + base)[1..] == base;
      SlashedNothing(front);
      ComponentsOfRender(front);
    }
  }

  lemma SplitStarts(s: string)
    requires s != "" && s[0] == '/'
    ensures Split(s)[0] == ""
  {
  }

  lemma SlashedEmpty(parts: seq<string>)
    ensures Slashed([""] + parts) == "/" + Slashed(parts)
  {
    assert ([""] + parts)[1..] == parts;
  }

  lemma SlashedNothing(parts: seq<string>)
    ensures Slashed(parts) == "" <==> parts == []
  {
  }

  ghost predicate AllRendered(m: Nodes) { forall k :: k in m ==> Rendered(k) }

  lemma NormalIsRendered(path: string)
    ensures Rendered(Normalize(path))
  {
    PartsClean(path);
    ComponentsOfRender(Parts(path));
  }

  lemma {:induction false} RunRendered(m: Nodes, ops: seq<Op>)
    requires AllRendered(m) && NoRemoves(ops)
    ensures AllRendered(RunOps(m, ops))
    decreases ops
  {
    hide Normalize, Added, Rendered;
    if ops != [] {
      assert !ops[0].Remove?;
      NormalIsRendered(ops[0].path);
      AddedKeys(m, Normalize(ops[0].path), AddedNode(ops[0]));
      RunRendered(Apply(m, ops[0]), ops[1..]);
    }
  }

  /** Unmounting an id with an empty, dot or dot-dot component removes nothing, whatever was mounted for it. */
  lemma UnmountMisses(m: Nodes, id: string)
    requires AllRendered(m) && !Rendered(Base(id))
    ensures Cut(m, Subtree(m, Base(id))) == m
  {
    hide AtOrBelow, Rendered;
    forall k | k in m ensures !AtOrBelow(k, Base(id)) {
      if AtOrBelow(k, Base(id)) {
        RenderedBelow(k, Base(id));
      }
    }
    assert Subtree(m, Base(id)) == {};
    CutNone(m);
  }

  /** For every agent id: mounting the agent where nothing is, and unmounting it, restores the registry (nodes
      and cached children) exactly when the agent's path is its own normal form, or ends in whitespace and has
      an empty directory, cached by its parent, at its normal form already. Where the path has an empty, dot or
      dot-dot component the unmount removes nothing, so the mount must have changed nothing. */
  lemma MountThenUnmount(m: Nodes, id: string, hostname: string)
    requires AllCanonical(m) && AllCover(m) && Subtree(m, Base(id)) == {}
    ensures var m', key := RunOps(m, MountOps(id, hostname)), Normalize(Base(id));
      Cut(m', Subtree(m', Base(id))) == m <==>
        if Rendered(Base(id)) then key == Base(id) || (key in m && m[key] == Dir(key, []) && Linked(m, key))
        else m' == m
  {
    hide ParentPath, LinkName, Normalize, AllCover, AllCanonical, Outside, Tidy, RunOps, Subtree, Cut, Added;
    hide Rendered, Linked, MountOps;
    var base, ops := Base(id), MountOps(id, hostname);
    var key := Normalize(base);
    if Canonical(base) {
      CanonicalRendered(base);
      CoveredIsTidy(m, base);
      CanonicalPaths(id, hostname);
      UnmountForgets(m, ops, base);
      NothingInside(m, base);
    } else if Rendered(base) {
      StrayBase(m, id, hostname);
      AddsNothing(m, key, Dir(key, []));
    } else {
      CanonicalsRendered(m);
      MountAdds(id, hostname);
      RunRendered(m, ops);
      UnmountMisses(RunOps(m, ops), id);
    }
  }

  lemma MountAdds(id: string, hostname: string)
    ensures NoRemoves(MountOps(id, hostname))
  {
  }

  lemma CanonicalsRendered(m: Nodes)
    requires AllCanonical(m)
    ensures AllRendered(m)
  {
    hide Normalize, Rendered;
    forall k | k in m ensures Rendered(k) {
      assert Canonical(k);
      CanonicalRendered(k);
    }
  }

  lemma TrimShrinks(path: string)
    requires path != "" && path[0] == '/'
    ensures |Trim(path)| <= |path|
  {
    TrimEndShape(path);
  }

  ghost predicate NoRemoves(ops: seq<Op>) { forall i :: 0 <= i < |ops| ==> !ops[i].Remove? }

  // ---------------------------------------------------------------- mounting again

  /** The names that the operations link into a directory. */
  function GivenBy(ops: seq<Op>, d: string): set<string>
  {
    if ops == [] then {} else Given(Normalize(ops[0].path), d) + GivenBy(ops[1..], d)
  }

  function AddedNode(op: Op): Vnode
    requires !op.Remove?
  {
    if op.Mkdir? then Dir(Normalize(op.path), []) else op.node
  }

  ghost predicate Sparing(ops: seq<Op>, d: string) { forall i :: 0 <= i < |ops| ==> Normalize(ops[i].path) != d }

  /** What a directory gathers while others are added: in its cache and in a scan alike. */
  lemma {:induction false} Gathers(m: Nodes, ops: seq<Op>, d: string)
    requires AllCanonical(m) && Canonical(d) && Steady(ops) && NoRemoves(ops) && Sparing(ops, d)
    requires d in m && m[d].Dir? && NoRepeats(m[d].children)
    ensures var m' := RunOps(m, ops);
      && d in m' && m'[d].Dir? && NoRepeats(m'[d].children)
      && (forall n :: n in m'[d].children <==> n in m[d].children || n in GivenBy(ops, d))
      && Scan(m', d) == Scan(m, d) + GivenBy(ops, d)
    decreases ops
  {
    hide ParentPath, LinkName, ChildName, Normalize, Scan, Added, AllCanonical;
    if ops != [] {
      var key, node, rest := Normalize(ops[0].path), AddedNode(ops[0]), ops[1..];
      assert !ops[0].Remove? && Canonical(key) && key != d;
      var m' := Added(m, key, node);
      AddedAt(m, key, node, d);
      ScanGrows(m, m', key, d);
      AddStaysCanonical(m, key, node);
      Appended(m[d].children, LinkName(key));
      Gathers(m', rest, d);
    }
  }

  lemma Appended(names: seq<string>, x: string)
    requires NoRepeats(names)
    ensures x !in names ==> NoRepeats(names + [x])
    ensures forall n :: n in names + [x] <==> n in names || n == x
  {
  }

  /** A directory made in the middle of a mount agrees in the end exactly when what was found below it
      before is among what the mount puts below it afterwards. */
  lemma MadeAgrees(m: Nodes, before: seq<Op>, path: string, after: seq<Op>)
    requires AllCanonical(m) && Steady(before) && Steady(after) && NoRemoves(before) && NoRemoves(after)
    requires Canonical(Normalize(path)) && Sparing(after, Normalize(path))
    ensures var m', d := RunOps(RunOps(m, before + [Mkdir(path)]), after), Normalize(path);
      && d in m' && m'[d].Dir? && NoRepeats(m'[d].children)
      && (forall n :: n in m'[d].children <==> n in GivenBy(after, d))
      && (Agrees(m'[d], Scan(m', d)) <==> Scan(m, d) + GivenBy(before, d) <= GivenBy(after, d))
  {
    hide ParentPath, LinkName, ChildName, Normalize, Scan, Added, AllCanonical, RunOps, GivenBy;
    var d := Normalize(path);
    var m1, m2 := RunOps(m, before), RunOps(m, before + [Mkdir(path)]);
    Scans(m, before, d);
    RunThen(m, before, Mkdir(path));
    assert m2 == Added(m1, d, Dir(d, []));
    AddedHere(m1, d, Dir(d, []));
    AddStaysCanonical(m1, d, Dir(d, []));
    AddedKeys(m1, d, Dir(d, []));
    Gathers(m2, after, d);
  }

  lemma {:induction false} Scans(m: Nodes, ops: seq<Op>, d: string)
    requires AllCanonical(m) && Canonical(d) && Steady(ops) && NoRemoves(ops)
    ensures AllCanonical(RunOps(m, ops)) && Scan(RunOps(m, ops), d) == Scan(m, d) + GivenBy(ops, d)
    decreases ops
  {
    hide ParentPath, LinkName, ChildName, Normalize, Scan, Added, AllCanonical;
    if ops != [] {
      var key, node := Normalize(ops[0].path), AddedNode(ops[0]);
      assert !ops[0].Remove? && Canonical(key);
      AddedKeys(m, key, node);
      ScanGrows(m, Added(m, key, node), key, d);
      AddStaysCanonical(m, key, node);
      Scans(Added(m, key, node), ops[1..], d);
    }
  }

  lemma {:induction false} RunThen(m: Nodes, ops: seq<Op>, op: Op)
    ensures RunOps(m, ops + [op]) == Apply(RunOps(m, ops), op)
    decreases ops
  {
    hide Apply;
    if ops == [] {
      assert ops + [op] == [op] && [op][1..] == [];
    } else {
      assert (ops + [op])[1..] == ops[1..] + [op];
      RunThen(Apply(m, ops[0]), ops[1..], op);
    }
  }

  /** The listing of a path at which no directory is made stays true. */
  lemma {:induction false} OthersAgree(m: Nodes, ops: seq<Op>, d: string)
    requires AllCanonical(m) && Steady(ops) && NoRemoves(ops) && Plain(ops) && Canonical(d)
    requires forall i :: 0 <= i < |ops| && ops[i].Mkdir? ==> Normalize(ops[i].path) != d
    requires d in m ==> Agrees(m[d], Scan(m, d))
    ensures var m' := RunOps(m, ops); d in m' ==> Agrees(m'[d], Scan(m', d))
    decreases ops
  {
    hide ParentPath, LinkName, ChildName, Normalize, Scan, Added, AllCanonical;
    if ops != [] {
      var key, node := Normalize(ops[0].path), AddedNode(ops[0]);
      assert !ops[0].Remove? && Canonical(key);
      AddedKeys(m, key, node);
      AddStaysCanonical(m, key, node);
      if key == d {
        AddedHere(m, key, node);
      } else if d in m {
        AddedElsewhere(m, key, node, d);
      }
      OthersAgree(Added(m, key, node), ops[1..], d);
    }
  }

  lemma {:induction false} RunSplits(m: Nodes, xs: seq<Op>, ys: seq<Op>)
    ensures RunOps(m, xs + ys) == RunOps(RunOps(m, xs), ys)
    decreases xs
  {
    hide Apply;
    if xs == [] {
      assert xs + ys == ys;
    } else {
      assert (xs + ys)[1..] == xs[1..] + ys;
      RunSplits(Apply(m, xs[0]), xs[1..], ys);
    }
  }

  /** The normal form of the base is the spot, or shorter. */
  lemma NormalShorter(id: string)
    ensures |Normalize(Base(id))| <= |Spot(id)|
  {
    hide Components, Resolve;
    var path := Base(id);
    var slash, front, piece := LastPiece(path);
    assert slash by {
      assert path[0] == '/';
    }
    var stack, cut := Resolve([], Components(front)), TrimEnd(piece);
    assert TrimStart(path) == path;
    TrimEndJoined(front, piece);
    PieceResolves(front, piece);
    PieceResolves(front, cut);
    TrimEndShape(piece);
    if piece != cut {
      ComponentsOfPiece(piece);
      ComponentsOfPiece(cut);
      StepsDiffer(stack, piece, cut);
      SizeSplits(stack, [piece]);
      SizeOfResolve(stack, Components(cut));
      SizeOfSlashed(stack + [piece]);
      SizeOfSlashed(Resolve(stack, Components(cut)));
    }
  }

  lemma ParentShorter(k: string)
    requires Canonical(k) && ParentPath(k).Some?
    ensures |ParentPath(k).value| < |k|
  {
    hide ParentPath, LinkName, Parts, Render;
    ParentAndNameRebuild(k);
    ParentDropsLast(k);
    PartsClean(k);
    LinkNameIsLast(Parts(k));
  }

  /** What a mount links below its three directories, before and after they are made. */
  lemma MountGives(id: string, hostname: string)
    requires Canonical(Normalize(Base(id))) && Spot(id) != "/"
    ensures var base, ops := Normalize(Base(id)), MountOps(id, hostname);
      var ctl, msg := Spot(id) + "/ctl", Spot(id) + "/msg";
      && GivenBy(ops[..0], base) == {}
      && GivenBy(ops[1..], base) == (if base == Spot(id) then {"ctl", "msg", "hostname"} else {})
      && GivenBy(ops[..1], ctl) == {} && GivenBy(ops[2..], ctl) == {"status", "capabilities"}
      && GivenBy(ops[..2], msg) == {} && GivenBy(ops[3..], msg) == {"inbox", "outbox"}
  {
    hide ParentPath, LinkName, Normalize, Spot;
    var base, spot, ops := Normalize(Base(id)), Spot(id), MountOps(id, hostname);
    var ctl, msg := spot + "/ctl", spot + "/msg";
    MountPaths(id, hostname);
    SpotRendered(id);
    MountTree(spot);
    MountApart(id);
    GivenLast(ops, base);
    GivenLast(ops, ctl);
    GivenLast(ops, msg);
    GivenBefore(ops, ctl);
    GivenBefore(ops, msg);
  }

  /** The directory of the base is not one of those below the spot, nor below them. */
  lemma MountApart(id: string)
    requires Canonical(Normalize(Base(id)))
    ensures var base, ctl, msg := Normalize(Base(id)), Spot(id) + "/ctl", Spot(id) + "/msg";
      && base != ctl && base != msg && ctl != msg && Spot(id) != ctl && Spot(id) != msg
      && ParentPath(base) != Some(ctl) && ParentPath(base) != Some(msg)
  {
    hide ParentPath, LinkName, Normalize, Spot;
    var spot := Spot(id);
    NormalShorter(id);
    if ParentPath(Normalize(Base(id))).Some? {
      ParentShorter(Normalize(Base(id)));
    }
    assert (spot + "/ctl")[|spot| + 1] == 'c' && (spot + "/msg")[|spot| + 1] == 'm';
  }

  lemma GivenBefore(ops: seq<Op>, d: string)
    requires |ops| == 8
    ensures GivenBy(ops[..1], d) == Given(Normalize(ops[0].path), d)
    ensures GivenBy(ops[..2], d) == Given(Normalize(ops[0].path), d) + Given(Normalize(ops[1].path), d)
  {
    hide ParentPath, LinkName, Normalize, Given, GivenBy;
    assert ops[..1] == [ops[0]] && ops[..2] == [ops[0]] + [ops[1]];
    GivenOne(ops[0], d);
    GivenOne(ops[1], d);
    GivenSplits([ops[0]], [ops[1]], d);
  }

  lemma GivenOne(op: Op, d: string)
    ensures GivenBy([op], d) == Given(Normalize(op.path), d)
  {
    hide ParentPath, LinkName, Normalize, Given;
    assert [op][1..] == [];
  }

  lemma {:induction false} GivenSplits(xs: seq<Op>, ys: seq<Op>, d: string)
    ensures GivenBy(xs + ys, d) == GivenBy(xs, d) + GivenBy(ys, d)
  {
    hide ParentPath, LinkName, Normalize, Given;
    if xs == [] {
      assert xs + ys == ys;
    } else {
      assert (xs + ys)[1..] == xs[1..] + ys;
      GivenSplits(xs[1..], ys, d);
    }
  }

  lemma GivenLast(ops: seq<Op>, d: string)
    requires |ops| == 8
    ensures GivenBy(ops[3..], d) == Given(Normalize(ops[3].path), d) + (Given(Normalize(ops[4].path), d)
      + (Given(Normalize(ops[5].path), d) + (Given(Normalize(ops[6].path), d) + Given(Normalize(ops[7].path), d))))
    ensures GivenBy(ops[2..], d) == Given(Normalize(ops[2].path), d) + GivenBy(ops[3..], d)
    ensures GivenBy(ops[1..], d) == Given(Normalize(ops[1].path), d) + GivenBy(ops[2..], d)
  {
    hide ParentPath, LinkName, Normalize, Given, GivenBy;
    for i := 1 to 8
      invariant forall j :: 1 <= j < i ==>
        GivenBy(ops[j..], d) == Given(Normalize(ops[j].path), d) + GivenBy(ops[j + 1..], d)
    {
      GivenFirst(ops, i, d);
    }
    assert ops[8..] == [];
    GivenOne(ops[7], d);
    assert ops[7..] == [ops[7]];
  }

  lemma GivenFirst(ops: seq<Op>, i: nat, d: string)
    requires i < |ops|
    ensures GivenBy(ops[i..], d) == Given(Normalize(ops[i].path), d) + GivenBy(ops[i + 1..], d)
  {
    hide ParentPath, LinkName, Normalize, Given;
    assert ops[i..][1..] == ops[i + 1..];
  }

  /** Mounting over whatever is there, when all other listings are true, makes every listing true exactly
      when only the names of a mount were found below its three directories. Where the path ends in whitespace,
      the directory made for it is not the one that gets the names. */
  lemma MountAgrees(m: Nodes, id: string, hostname: string)
    requires AllCanonical(m) && Canonical(Normalize(Base(id))) && Spot(id) != "/"
    requires forall d :: d in m && d !in MountDirs(id) ==> Agrees(m[d], Scan(m, d))
    ensures AllAgree(RunOps(m, MountOps(id, hostname))) <==>
      && Scan(m, Normalize(Base(id))) <=
           (if Normalize(Base(id)) == Spot(id) then {"ctl", "msg", "hostname"} else {})
      && Scan(m, Spot(id) + "/ctl") <= {"status", "capabilities"}
      && Scan(m, Spot(id) + "/msg") <= {"inbox", "outbox"}
  {
    hide ParentPath, LinkName, ChildName, Normalize, Scan, RunOps, GivenBy, AllCanonical, Agrees, Spot;
    var ops := MountOps(id, hostname);
    var m' := RunOps(m, ops);
    MountPaths(id, hostname);
    MountGives(id, hostname);
    MountMade(m, id, hostname, 0);
    MountMade(m, id, hostname, 1);
    MountMade(m, id, hostname, 2);
    assert forall d :: Scan(m, d) + {} == Scan(m, d);
    MountSteady(id, hostname);
    Scans(m, ops, Normalize(Base(id)));
    forall d | d in m' && d !in MountDirs(id) ensures Agrees(m'[d], Scan(m', d)) {
      CanonicalKey(m', d);
      OthersAgree(m, ops, d);
    }
  }

  lemma MountSteady(id: string, hostname: string)
    requires Canonical(Normalize(Base(id))) && Spot(id) != "/"
    ensures Steady(MountOps(id, hostname))
  {
    hide Normalize, Spot;
    MountPaths(id, hostname);
  }

  function MountDirs(id: string): set<string> { {Normalize(Base(id)), Spot(id) + "/ctl", Spot(id) + "/msg"} }

  lemma CanonicalKey(m: Nodes, d: string)
    requires AllCanonical(m) && d in m
    ensures Canonical(d)
  {
  }

  lemma MountMade(m: Nodes, id: string, hostname: string, i: nat)
    requires AllCanonical(m) && Canonical(Normalize(Base(id))) && Spot(id) != "/" && i < 3
    ensures var ops := MountOps(id, hostname);
      var m', d := RunOps(m, ops), Normalize(ops[i].path);
      && d in m' && m'[d].Dir? && NoRepeats(m'[d].children)
      && (forall n :: n in m'[d].children <==> n in GivenBy(ops[i + 1..], d))
      && (Agrees(m'[d], Scan(m', d)) <==> Scan(m, d) + GivenBy(ops[..i], d) <= GivenBy(ops[i + 1..], d))
  {
    hide ParentPath, LinkName, ChildName, Normalize, Scan, RunOps, GivenBy, AllCanonical, Agrees, Spot;
    var ops := MountOps(id, hostname);
    MountSteady(id, hostname);
    var before, after := ops[..i], ops[i + 1..];
    assert ops == (before + [ops[i]]) + after;
    RunSplits(m, before + [ops[i]], after);
    assert Sparing(after, Normalize(ops[i].path)) by {
      hide *;
      DistinctPaths(id, hostname);
    }
    MadeAgrees(m, before, ops[i].path, after);
  }

  /** The three directories cache what was put into them, each name once. */
  lemma MountCaches(m: Nodes, id: string, hostname: string)
    requires AllCanonical(m) && Canonical(Normalize(Base(id))) && Spot(id) != "/"
    ensures var m', base, ctl, msg := RunOps(m, MountOps(id, hostname)), Normalize(Base(id)), Spot(id) + "/ctl",
          Spot(id) + "/msg";
      && {base, ctl, msg} <= m'.Keys && m'[base].Dir? && m'[ctl].Dir? && m'[msg].Dir?
      && NoRepeats(m'[base].children) && NoRepeats(m'[ctl].children) && NoRepeats(m'[msg].children)
      && (forall n :: n in m'[base].children <==> base == Spot(id) && n in {"ctl", "msg", "hostname"})
      && (forall n :: n in m'[ctl].children <==> n in {"status", "capabilities"})
      && (forall n :: n in m'[msg].children <==> n in {"inbox", "outbox"})
  {
    hide ParentPath, LinkName, ChildName, Normalize, Scan, RunOps, GivenBy, AllCanonical, Agrees, Spot, NoRepeats;
    MountPaths(id, hostname);
    MountGives(id, hostname);
    MountMade(m, id, hostname, 0);
    MountMade(m, id, hostname, 1);
    MountMade(m, id, hostname, 2);
  }

  lemma DistinctPaths(id: string, hostname: string)
    requires Spot(id) != "/"
    ensures var ops := MountOps(id, hostname);
      forall i, j :: 0 <= i < 3 && i < j < 8 ==> Normalize(ops[i].path) != Normalize(ops[j].path)
  {
    hide ParentPath, LinkName, Normalize, Spot;
    MountPaths(id, hostname);
    NormalShorter(id);
    var n := |Spot(id)|;
    var ops := MountOps(id, hostname);
    assert |Normalize(ops[0].path)| <= n && |Normalize(ops[1].path)| == |Normalize(ops[2].path)| == n + 4;
    assert Normalize(ops[1].path)[n + 1] == 'c' && Normalize(ops[2].path)[n + 1] == 'm';
  }

  // ---------------------------------------------------------------- what is there afterwards

  /** A directory goes by its name; its children come and go. */
  ghost predicate Like(a: Vnode, b: Vnode) { if b.Dir? then a.Dir? && a.name == b.name else a == b }

  lemma AddedLike(m: Nodes, key: string, node: Vnode, k: string)
    requires k == key || k in m
    ensures k in Added(m, key, node) && Like(Added(m, key, node)[k], if k == key then node else m[k])
  {
    hide ParentPath, LinkName;
    if ParentPath(key) == Some(key) {
      ParentDropsLast(key);
    }
  }

  lemma {:induction false} NodeStays(m: Nodes, ops: seq<Op>, key: string)
    requires key in m && NoRemoves(ops) && Sparing(ops, key)
    ensures key in RunOps(m, ops) && Like(RunOps(m, ops)[key], m[key])
    decreases ops
  {
    hide Normalize, Added;
    if ops != [] {
      assert !ops[0].Remove? && Normalize(ops[0].path) != key;
      AddedLike(m, Normalize(ops[0].path), AddedNode(ops[0]), key);
      NodeStays(Apply(m, ops[0]), ops[1..], key);
    }
  }

  lemma {:induction false} RunKeys(m: Nodes, ops: seq<Op>)
    requires NoRemoves(ops)
    ensures RunOps(m, ops).Keys == m.Keys + (set i | 0 <= i < |ops| :: Normalize(ops[i].path))
    decreases ops
  {
    hide Normalize, Added;
    var keys := set i | 0 <= i < |ops| :: Normalize(ops[i].path);
    if ops != [] {
      assert !ops[0].Remove?;
      AddedKeys(m, Normalize(ops[0].path), AddedNode(ops[0]));
      RunKeys(Apply(m, ops[0]), ops[1..]);
      var later := set i | 0 <= i < |ops[1..]| :: Normalize(ops[1..][i].path);
      forall k ensures k in keys <==> k in later || k == Normalize(ops[0].path) {
        if k in keys && k != Normalize(ops[0].path) {
          var i :| 0 <= i < |ops| && Normalize(ops[i].path) == k;
          assert ops[1..][i - 1] == ops[i];
        }
        if k in later {
          var i :| 0 <= i < |ops[1..]| && Normalize(ops[1..][i].path) == k;
          assert ops[i + 1] == ops[1..][i];
        }
      }
    }
  }

  /** What an operation puts somewhere is there in the end if no later one puts anything there. */
  lemma PutStays(m: Nodes, ops: seq<Op>, i: nat)
    requires i < |ops| && NoRemoves(ops) && Sparing(ops[i + 1..], Normalize(ops[i].path))
    ensures var m', key := RunOps(m, ops), Normalize(ops[i].path);
      key in m' && Like(m'[key], AddedNode(ops[i]))
  {
    hide Normalize, Added;
    var key, m1 := Normalize(ops[i].path), RunOps(m, ops[..i]);
    assert ops == ops[..i] + ops[i..];
    RunSplits(m, ops[..i], ops[i..]);
    Unroll(m1, ops, i);
    AddedLike(m1, key, AddedNode(ops[i]), key);
    NodeStays(Apply(m1, ops[i]), ops[i + 1..], key);
  }

  /** What a mount leaves: three directories and five files, whatever was there, and nothing else that was not
      there before. */
  lemma MountHolds(m: Nodes, id: string, hostname: string)
    requires Spot(id) != "/"
    ensures var m', base, spot := RunOps(m, MountOps(id, hostname)), Normalize(Base(id)), Spot(id);
      && m'.Keys == m.Keys + {base, spot + "/ctl", spot + "/msg", spot + "/hostname", spot + "/ctl/status",
                              spot + "/ctl/capabilities", spot + "/msg/inbox", spot + "/msg/outbox"}
      && m'[base].Dir? && m'[base].name == base
      && m'[spot + "/ctl"].Dir? && m'[spot + "/ctl"].name == spot + "/ctl"
      && m'[spot + "/msg"].Dir? && m'[spot + "/msg"].name == spot + "/msg"
      && m'[spot + "/hostname"] == File("hostname", hostname)
      && m'[spot + "/ctl/status"] == Ctl("status", "connected")
      && m'[spot + "/ctl/capabilities"] == File("capabilities", "[]")
      && m'[spot + "/msg/inbox"] == File("inbox", "") && m'[spot + "/msg/outbox"] == File("outbox", "")
  {
    hide Normalize, Spot, RunOps;
    var ops := MountOps(id, hostname);
    MountPaths(id, hostname);
    MountAdds(id, hostname);
    RunKeys(m, ops);
    forall i | 0 <= i < 8 ensures var key := Normalize(ops[i].path);
      key in RunOps(m, ops) && Like(RunOps(m, ops)[key], AddedNode(ops[i]))
    {
      MountSpares(id, hostname, i);
      PutStays(m, ops, i);
    }
    MountKeys(id, hostname);
  }

  lemma MountSpares(id: string, hostname: string, i: nat)
    requires Spot(id) != "/" && i < 8
    ensures Sparing(MountOps(id, hostname)[i + 1..], Normalize(MountOps(id, hostname)[i].path))
  {
    hide Normalize, Spot;
    var ops := MountOps(id, hostname);
    var rest := ops[i + 1..];
    forall j | 0 <= j < |rest| ensures Normalize(rest[j].path) != Normalize(ops[i].path) {
      assert rest[j] == ops[i + 1 + j];
      MountDiffers(id, hostname, i, i + 1 + j);
    }
  }

  lemma MountDiffers(id: string, hostname: string, i: nat, j: nat)
    requires Spot(id) != "/" && i < j < 8
    ensures var ops := MountOps(id, hostname); Normalize(ops[i].path) != Normalize(ops[j].path)
  {
    hide Normalize, Spot;
    if i < 3 {
      DistinctPaths(id, hostname);
    } else {
      MountPaths(id, hostname);
      var n, x, y := |Spot(id)|, Normalize(MountOps(id, hostname)[i].path), Normalize(MountOps(id, hostname)[j].path);
      assert |x| > n + 1 && |y| > n + 1;
      assert x[n..] == MountSuffix(i) && y[n..] == MountSuffix(j);
      SuffixesDiffer(i, j);
    }
  }

  function MountSuffix(i: nat): string
    requires i < 8
  {
    ["", "/ctl", "/msg", "/hostname", "/ctl/status", "/ctl/capabilities", "/msg/inbox", "/msg/outbox"][i]
  }

  lemma SuffixesDiffer(i: nat, j: nat)
    requires i < j < 8
    ensures MountSuffix(i) != MountSuffix(j)
  {
    assert MountSuffix(6)[5] == 'i' && MountSuffix(7)[5] == 'o';
  }

  lemma MountKeys(id: string, hostname: string)
    requires Spot(id) != "/"
    ensures var ops, spot := MountOps(id, hostname), Spot(id);
      (set i | 0 <= i < |ops| :: Normalize(ops[i].path)) ==
        {Normalize(Base(id)), spot + "/ctl", spot + "/msg", spot + "/hostname", spot + "/ctl/status",
         spot + "/ctl/capabilities", spot + "/msg/inbox", spot + "/msg/outbox"}
  {
    hide Normalize, Spot;
    MountPaths(id, hostname);
    var ops := MountOps(id, hostname);
    var keys := set i | 0 <= i < |ops| :: Normalize(ops[i].path);
    assert forall i :: 0 <= i < 8 ==> Normalize(ops[i].path) in keys;
  }

  // ---------------------------------------------------------------- the registry at its start

  lemma TopPath(name: string)
    requires Clean(name) && !EndsInSpace(name)
    ensures Canonical("/" + name) && ParentPath("/" + name) == Some("/")
  {
    hide ParentPath, LinkName;
    var k := "/" + name;
    SlashedOne(name);
    assert k == Render([name]);
    RenderStable([name]);
    ParentDropsLast(k);
  }

  lemma {:induction false} GivenNone(ops: seq<Op>, d: string)
    requires forall i :: 0 <= i < |ops| ==> ParentPath(Normalize(ops[i].path)) != Some(d)
    ensures GivenBy(ops, d) == {}
  {
    hide ParentPath, LinkName, Normalize;
    if ops != [] {
      GivenNone(ops[1..], d);
    }
  }

  /** The core tree, with its parents. */
  lemma SeedPaths()
    ensures var ops := SeedOps();
      && Steady(ops) && (forall i :: 0 <= i < 9 ==> Normalize(ops[i].path) == ops[i].path)
      && (forall i :: 0 <= i < 6 ==> ParentPath(ops[i].path) == Some("/"))
      && (forall i :: 6 <= i < 9 ==> ParentPath(ops[i].path) == Some(ops[if i < 8 then 5 else 4].path))
  {
    hide ParentPath, LinkName, Normalize;
    SeedTop();
    assert SeedOps()[4].path == "/plumber" && SeedOps()[5].path == "/ctl";
    SeedFiles();
  }

  lemma SeedTop()
    ensures forall i :: 0 <= i < 6 ==> Canonical(SeedOps()[i].path) && ParentPath(SeedOps()[i].path) == Some("/")
  {
    hide ParentPath, LinkName, Normalize;
    TopPath("net");
    TopPath("ai");
    TopPath("proc");
    TopPath("msg");
    TopPath("plumber");
    TopPath("ctl");
    assert "/" + "net" == "/net" && "/" + "ai" == "/ai" && "/" + "proc" == "/proc";
    assert "/" + "msg" == "/msg" && "/" + "plumber" == "/plumber" && "/" + "ctl" == "/ctl";
  }

  lemma SeedFiles()
    requires Canonical("/ctl") && Canonical("/plumber")
    ensures InTree("/ctl", "/ctl/status", "status") && InTree("/ctl", "/ctl/shutdown", "shutdown")
    ensures InTree("/plumber", "/plumber/rules", "rules")
  {
    hide ParentPath, LinkName, Normalize, InTree;
    SeedStatus();
    SeedShutdown();
    SeedRules();
  }

  lemma SeedStatus()
    requires Canonical("/ctl")
    ensures InTree("/ctl", "/ctl/status", "status")
  {
    hide ParentPath, LinkName, Normalize, InTree;
    assert "/ctl" + "/" + "status" == "/ctl/status";
    SeedFile("/ctl", "status");
  }

  lemma SeedShutdown()
    requires Canonical("/ctl")
    ensures InTree("/ctl", "/ctl/shutdown", "shutdown")
  {
    hide ParentPath, LinkName, Normalize, InTree;
    assert "/ctl" + "/" + "shutdown" == "/ctl/shutdown";
    SeedFile("/ctl", "shutdown");
  }

  lemma SeedRules()
    requires Canonical("/plumber")
    ensures InTree("/plumber", "/plumber/rules", "rules")
  {
    hide ParentPath, LinkName, Normalize, InTree;
    assert "/plumber" + "/" + "rules" == "/plumber/rules";
    SeedFile("/plumber", "rules");
  }

  lemma SeedFile(p: string, name: string)
    requires Canonical(p) && p != "/" && Word(name)
    ensures InTree(p, p + "/" + name, name)
  {
    hide ParentPath, LinkName, Normalize, Rendered;
    CanonicalRendered(p);
    ChildPath(p, name);
  }

  /** Lower-case letters. */
  predicate Word(s: string) { |s| > 2 && forall i :: 0 <= i < |s| ==> 'a' <= s[i] <= 'z' }

  /** A new registry lists every directory truly, so ListingsAgree and MountThenUnmount speak of every run
      from there. */
  lemma SeededAgrees()
    ensures AllCanonical(RunOps(map[], SeedOps())) && AllAgree(RunOps(map[], SeedOps()))
  {
    hide ParentPath, LinkName, ChildName, Normalize, RunOps, GivenBy, Agrees;
    var ops := SeedOps();
    var m' := RunOps(map[], ops);
    SeedPaths();
    assert Canonical(ops[0].path);
    Scans(map[], ops, ops[0].path);
    forall d | d in m' ensures Agrees(m'[d], Scan(m', d)) {
      CanonicalKey(m', d);
      if i :| 0 <= i < 6 && Normalize(ops[i].path) == d {
        SeedMade(i);
      } else {
        OthersAgree(map[], ops, d);
      }
    }
  }

  /** What a new registry holds. */
  lemma SeededHolds()
    ensures var m := RunOps(map[], SeedOps());
      && m.Keys == {"/net", "/ai", "/proc", "/msg", "/plumber", "/ctl", "/ctl/status", "/ctl/shutdown",
                    "/plumber/rules"}
      && (forall d :: d in {"/net", "/ai", "/proc", "/msg", "/plumber", "/ctl"} ==> m[d].Dir? && m[d].name == d)
      && m["/ctl/status"] == Ctl("status", "ok") && m["/ctl/shutdown"] == Ctl("shutdown", "write 1 to shutdown")
      && m["/plumber/rules"] == File("rules", "[]")
  {
    hide Normalize, RunOps, SeedOps;
    SeededKeys();
    SeededDirs();
    SeededFiles();
  }

  lemma SeededKeys()
    ensures RunOps(map[], SeedOps()).Keys ==
      {"/net", "/ai", "/proc", "/msg", "/plumber", "/ctl", "/ctl/status", "/ctl/shutdown", "/plumber/rules"}
  {
    hide Normalize, RunOps, SeedOps;
    SeedKinds();
    SeedPaths();
    SeedLiterally();
    RunKeys(map[], SeedOps());
    NineKeys(SeedOps());
  }

  lemma NineKeys(ops: seq<Op>)
    requires |ops| == 9
    ensures (set i | 0 <= i < |ops| :: Normalize(ops[i].path)) ==
      {Normalize(ops[0].path), Normalize(ops[1].path), Normalize(ops[2].path), Normalize(ops[3].path),
       Normalize(ops[4].path), Normalize(ops[5].path), Normalize(ops[6].path), Normalize(ops[7].path),
       Normalize(ops[8].path)}
  {
    hide Normalize;
    var keys := set i | 0 <= i < |ops| :: Normalize(ops[i].path);
    assert forall i :: 0 <= i < 9 ==> Normalize(ops[i].path) in keys;
  }

  lemma SeededDirs()
    ensures var m := RunOps(map[], SeedOps());
      forall d :: d in {"/net", "/ai", "/proc", "/msg", "/plumber", "/ctl"} ==> d in m && m[d].Dir? && m[d].name == d
  {
    hide Normalize, RunOps, SeedOps;
    SeedPaths();
    SeedLiterally();
    forall i | 0 <= i < 6 ensures var m, d := RunOps(map[], SeedOps()), SeedOps()[i].path;
      d in m && m[d].Dir? && m[d].name == d
    {
      SeedPut(i);
    }
  }

  lemma SeededFiles()
    ensures var m := RunOps(map[], SeedOps());
      && "/ctl/status" in m && m["/ctl/status"] == Ctl("status", "ok")
      && "/ctl/shutdown" in m && m["/ctl/shutdown"] == Ctl("shutdown", "write 1 to shutdown")
      && "/plumber/rules" in m && m["/plumber/rules"] == File("rules", "[]")
  {
    hide Normalize, RunOps, SeedOps;
    SeedPaths();
    SeedLiterally();
    SeedPut(6);
    SeedPut(7);
    SeedPut(8);
  }

  lemma SeedPut(i: nat)
    requires i < |SeedOps()| == 9 && !SeedOps()[i].Remove?
    ensures var m, op := RunOps(map[], SeedOps()), SeedOps()[i];
      Normalize(op.path) == op.path && op.path in m && Like(m[op.path], AddedNode(op))
  {
    hide Normalize, RunOps, SeedOps;
    SeedKinds();
    SeedPaths();
    SeedSpares(i);
    PutStays(map[], SeedOps(), i);
  }

  lemma SeedSpares(i: nat)
    requires i < |SeedOps()| == 9
    ensures Sparing(SeedOps()[i + 1..], Normalize(SeedOps()[i].path))
  {
    hide Normalize, SeedOps;
    SeedPaths();
    SeedDistinct();
    SeedFilesDistinct();
    var ops := SeedOps();
    var rest := ops[i + 1..];
    forall j | 0 <= j < |rest| ensures Normalize(rest[j].path) != Normalize(ops[i].path) {
      assert rest[j] == ops[i + 1 + j];
    }
  }

  lemma SeedFilesDistinct()
    ensures forall i, j :: 6 <= i < j < 9 ==> SeedOps()[i].path != SeedOps()[j].path
  {
    assert "/ctl/status"[6] == 't' && "/ctl/shutdown"[6] == 'h';
  }

  lemma SeedLiterally()
    ensures var ops := SeedOps();
      && |ops| == 9
      && ops[0] == Mkdir("/net") && ops[1] == Mkdir("/ai") && ops[2] == Mkdir("/proc") && ops[3] == Mkdir("/msg")
      && ops[4] == Mkdir("/plumber") && ops[5] == Mkdir("/ctl")
      && ops[6] == AddNode("/ctl/status", Ctl("status", "ok"))
      && ops[7] == AddNode("/ctl/shutdown", Ctl("shutdown", "write 1 to shutdown"))
      && ops[8] == AddNode("/plumber/rules", File("rules", "[]"))
  {
  }

  lemma SeedMade(i: nat)
    requires i < 6
    ensures var m', d := RunOps(map[], SeedOps()), Normalize(SeedOps()[i].path);
      d in m' && m'[d].Dir? && Agrees(m'[d], Scan(m', d))
  {
    hide ParentPath, LinkName, ChildName, Normalize, RunOps, GivenBy, Agrees;
    var ops := SeedOps();
    var before, after, d := ops[..i], ops[i + 1..], Normalize(ops[i].path);
    SeedSplit(i);
    RunSplits(map[], before + [ops[i]], after);
    GivenNone(before, d);
    MadeAgrees(map[], before, ops[i].path, after);
  }

  /** The core operations before and after making a directory. */
  lemma SeedSplit(i: nat)
    requires i < 6
    ensures var ops := SeedOps();
      var before, after, d := ops[..i], ops[i + 1..], Normalize(ops[i].path);
      && ops == (before + [ops[i]]) + after && ops[i].Mkdir? && Canonical(d)
      && Steady(before) && Steady(after) && NoRemoves(before) && NoRemoves(after) && Sparing(after, d)
      && forall j :: 0 <= j < |before| ==> ParentPath(Normalize(before[j].path)) != Some(d)
  {
    hide ParentPath, Normalize;
    SeedPaths();
    var ops := SeedOps();
    var before, after, d := ops[..i], ops[i + 1..], Normalize(ops[i].path);
    assert Steady(before);
    assert Steady(after);
    SeedKinds();
    assert NoRemoves(before);
    assert NoRemoves(after);
    SeedDistinct();
    assert Sparing(after, d) by {
      forall j | 0 <= j < |after| ensures Normalize(after[j].path) != d {
        assert after[j] == ops[i + 1 + j];
      }
    }
    forall j | 0 <= j < |before| ensures ParentPath(Normalize(before[j].path)) != Some(d) {
      assert before[j] == ops[j];
    }
  }

  lemma SeedKinds()
    ensures var ops := SeedOps();
      |ops| == 9 && (forall i :: 0 <= i < 9 ==> !ops[i].Remove?) && forall i :: 0 <= i < 6 ==> ops[i].Mkdir?
  {
  }

  lemma SeedDistinct()
    ensures forall i, j :: 0 <= i < 6 && i < j < 9 ==> SeedOps()[i].path != SeedOps()[j].path
    ensures forall i :: 0 <= i < 6 ==> SeedOps()[i].path != "/"
  {
  }
}
