/** The registry of virtual nodes (src/fs/registry.rs, src/fs/vnode.rs): a flat map from normal forms to
    nodes, in which every directory also caches the names of its children. */
module Vfs {
  import opened Options
  import opened Paths
  import opened PathLaws
  import opened Strings

  datatype Vnode =
    | Dir(name: string, children: seq<string>)
    | File(name: string, content: string)
    | Ctl(name: string, status: string)
    | Symlink(target: string)

  type Nodes = map<string, Vnode>

  // ---------------------------------------------------------------- specification

  function Link(m: Nodes, parent: string, child: string): Nodes
  {
    if parent in m && m[parent].Dir? && LinkName(child) !in m[parent].children then
      m[parent := m[parent].(children := m[parent].children + [LinkName(child)])]
    else m
  }

  /** A node is stored under a key, and linked into its parent if that is a directory. */
  function Added(m: Nodes, key: string, node: Vnode): Nodes
  {
    match ParentPath(key)
    case None => m[key := node]
    case Some(p) => Link(m[key := node], p, key)
  }

  function Without(names: seq<string>, gone: set<string>): seq<string>
  {
    if names == [] then []
    else if names[0] in gone then Without(names[1..], gone)
    else [names[0]] + Without(names[1..], gone)
  }

  /** The names under which the keys in `gone` are linked into `dir`. */
  function NamesIn(gone: set<string>, dir: string): set<string>
  {
    set k | k in gone && ParentPath(k) == Some(dir) :: LinkName(k)
  }

  function Unlinked(node: Vnode, names: set<string>): Vnode
  {
    if node.Dir? then node.(children := Without(node.children, names)) else node
  }

  /** The keys in `gone` are removed and unlinked from the directories that remain. */
  function Cut(m: Nodes, gone: set<string>): Nodes
  {
    map k | k in m && k !in gone :: Unlinked(m[k], NamesIn(gone, k))
  }

  function Removed(m: Nodes, key: string): Nodes { if key in m then Cut(m, {key}) else m }

  /** The direct children of a path, found by looking at every key. */
  function Scan(m: Nodes, path: string): set<string>
  {
    set k | k in m && ChildName(path, k).Some? :: ChildName(path, k).value
  }

  predicate AtOrBelow(key: string, base: string) { key == base || base + "/" <= key }

  function Subtree(m: Nodes, base: string): set<string> { set k | k in m && AtOrBelow(k, base) }

  // ---------------------------------------------------------------- listings

  ghost predicate Ascending(names: seq<string>)
  {
    forall i, j :: 0 <= i < j < |names| ==> Precedes(names[i], names[j])
  }

  /** Sorting and deduplicating, one name at a time. */
  function Insert(names: seq<string>, x: string): seq<string>
  {
    if names == [] then [x]
    else if names[0] == x then names
    else if Precedes(names[0], x) then [names[0]] + Insert(names[1..], x)
    else [x] + names
  }

  lemma {:induction false} InsertSorts(names: seq<string>, x: string)
    requires Ascending(names)
    ensures Ascending(Insert(names, x))
    ensures forall y :: y in Insert(names, x) <==> y in names || y == x
  {
    if names != [] && names[0] != x {
      var rest := names[1..];
      assert names == [names[0]] + rest;
      if Precedes(names[0], x) {
        InsertSorts(rest, x);
        forall y | y in Insert(rest, x) ensures Precedes(names[0], y) {
          if y != x {
            assert y in rest;
          }
        }
      } else {
        PrecedesTotal(names[0], x);
        forall y | y in names ensures Precedes(x, y) {
          if y != names[0] {
            assert y in rest;
            PrecedesTransitive(x, names[0], y);
          }
        }
      }
    }
  }

  // ---------------------------------------------------------------- the registry

  class VfsRegistry {
    var nodes: Nodes

    /** A new registry holds the core directories and their control files. */
    constructor ()
      ensures nodes == RunOps(map[], SeedOps())
    {
      nodes := map[];
      new;
      SeedCore();
    }

    method SeedCore()
      modifies this
      ensures nodes == RunOps(old(nodes), SeedOps())
    {
      hide Added, Normalize, RunOps;
      ghost var ops := SeedOps();
      SeedDirs();
      Unroll(nodes, ops, 6);
      AddNode("/ctl/status", Ctl("status", "ok"));
      Unroll(nodes, ops, 7);
      AddNode("/ctl/shutdown", Ctl("shutdown", "write 1 to shutdown"));
      Unroll(nodes, ops, 8);
      AddNode("/plumber/rules", File("rules", "[]"));
      assert ops[9..] == [];
      RunNothing(nodes);
    }

    method SeedDirs()
      modifies this
      ensures RunOps(nodes, SeedOps()[6..]) == RunOps(old(nodes), SeedOps())
    {
      hide Added, Normalize, RunOps;
      ghost var ops := SeedOps();
      Unroll(nodes, ops, 0);
      Mkdir("/net");
      Unroll(nodes, ops, 1);
      Mkdir("/ai");
      Unroll(nodes, ops, 2);
      Mkdir("/proc");
      Unroll(nodes, ops, 3);
      Mkdir("/msg");
      Unroll(nodes, ops, 4);
      Mkdir("/plumber");
      Unroll(nodes, ops, 5);
      Mkdir("/ctl");
      assert ops[0..] == ops;
    }

    method LinkChild(parent: string, child: string)
      modifies this
      ensures nodes == Link(old(nodes), parent, child)
    {
      if parent in nodes {
        match nodes[parent] {
          case Dir(name, children) =>
            var childName := LinkName(child);
            if childName !in children {
              nodes := nodes[parent := Dir(name, children + [childName])];
            }
          case _ =>
        }
      }
    }

    method Mkdir(path: string)
      modifies this
      ensures nodes == Added(old(nodes), Normalize(path), Dir(Normalize(path), []))
    {
      var key := NormalizePath(path);
      nodes := nodes[key := Dir(key, [])];
      match ParentPath(key) {
        case Some(parent) => LinkChild(parent, key);
        case None =>
      }
    }

    method AddNode(path: string, node: Vnode)
      modifies this
      ensures nodes == Added(old(nodes), Normalize(path), node)
    {
      var key := NormalizePath(path);
      nodes := nodes[key := node];
      match ParentPath(key) {
        case Some(parent) => LinkChild(parent, key);
        case None =>
      }
    }

    method Get(path: string) returns (node: Option<Vnode>)
      ensures node == if Normalize(path) in nodes then Some(nodes[Normalize(path)]) else None
    {
      var key := NormalizePath(path);
      node := if key in nodes then Some(nodes[key]) else None;
    }

    method UnlinkChild(parent: string, child: string)
      modifies this
      ensures nodes ==
        if parent in old(nodes) then old(nodes)[parent := Unlinked(old(nodes)[parent], {LinkName(child)})]
        else old(nodes)
    {
      if parent in nodes {
        match nodes[parent] {
          case Dir(name, children) =>
            nodes := nodes[parent := Dir(name, Without(children, {LinkName(child)}))];
          case _ =>
        }
      }
    }

    /** Removes a key and unlinks it from its parent. */
    method RemoveKey(key: string)
      requires key in nodes
      modifies this
      ensures nodes == Cut(old(nodes), {key})
    {
      ghost var was := nodes;
      nodes := nodes - {key};
      match ParentPath(key) {
        case Some(parent) => UnlinkChild(parent, key);
        case None =>
      }
      CutOne(was, key);
    }

    method Remove(path: string) returns (removed: Option<Vnode>)
      modifies this
      ensures nodes == Removed(old(nodes), Normalize(path))
      ensures removed == if Normalize(path) in old(nodes) then Some(old(nodes)[Normalize(path)]) else None
    {
      var key := NormalizePath(path);
      removed := None;
      if key in nodes {
        removed := Some(nodes[key]);
        RemoveKey(key);
      }
    }

    /** Every direct child once, in order; nothing for a path that is not a directory. */
    method List(path: string) returns (names: seq<string>)
      ensures Ascending(names)
      ensures forall n :: n in names <==>
        Normalize(path) in nodes && nodes[Normalize(path)].Dir? && n in Scan(nodes, Normalize(path))
    {
      var key := NormalizePath(path);
      names := [];
      if key in nodes && nodes[key].Dir? {
        var todo := nodes.Keys;
        while todo != {}
          invariant todo <= nodes.Keys && Ascending(names)
          invariant forall n :: n in names <==> exists k :: k in nodes && k !in todo && ChildName(key, k) == Some(n)
          decreases todo
        {
          var k :| k in todo;
          todo := todo - {k};
          match ChildName(key, k) {
            case Some(name) =>
              InsertSorts(names, name);
              names := Insert(names, name);
            case None =>
          }
        }
      }
    }

    /** Removes whatever is at or below an agent's namespace. */
    method UnmountAgentNs(id: string)
      modifies this
      ensures nodes == Cut(old(nodes), Subtree(old(nodes), "/net/" + id))
    {
      var base := "/net/" + id;
      var todo := set k | k in nodes && (k == base || base + "/" <= k);
      ghost var gone: set<string> := {};
      CutNone(nodes);
      while todo != {}
        invariant todo <= nodes.Keys && gone + todo == Subtree(old(nodes), base) && gone !! todo
        invariant nodes == Cut(old(nodes), gone)
        decreases todo
      {
        var key :| key in todo;
        todo := todo - {key};
        RemoveKey(key);
        CutAgain(old(nodes), gone, key);
        gone := gone + {key};
      }
      assert gone == Subtree(old(nodes), base);
    }

    method MountAgentNs(id: string, hostname: string)
      modifies this
      ensures nodes == RunOps(old(nodes), MountOps(id, hostname))
    {
      hide Added, Normalize, RunOps;
      ghost var ops := MountOps(id, hostname);
      var base := "/net/" + id;
      MountDirs(id, hostname);
      Unroll(nodes, ops, 3);
      AddNode(base + "/hostname", File("hostname", hostname));
      Unroll(nodes, ops, 4);
      AddNode(base + "/ctl/status", Ctl("status", "connected"));
      Unroll(nodes, ops, 5);
      AddNode(base + "/ctl/capabilities", File("capabilities", "[]"));
      Unroll(nodes, ops, 6);
      AddNode(base + "/msg/inbox", File("inbox", ""));
      Unroll(nodes, ops, 7);
      AddNode(base + "/msg/outbox", File("outbox", ""));
      assert ops[8..] == [];
      RunNothing(nodes);
    }

    method MountDirs(id: string, hostname: string)
      modifies this
      ensures RunOps(nodes, MountOps(id, hostname)[3..]) == RunOps(old(nodes), MountOps(id, hostname))
    {
      hide Added, Normalize, RunOps;
      ghost var ops := MountOps(id, hostname);
      var base := "/net/" + id;
      Unroll(nodes, ops, 0);
      Mkdir(base);
      Unroll(nodes, ops, 1);
      Mkdir(base + "/ctl");
      Unroll(nodes, ops, 2);
      Mkdir(base + "/msg");
      assert ops[0..] == ops;
    }
  }

  // ---------------------------------------------------------------- cutting piece by piece

  lemma {:induction false} WithoutNothing(names: seq<string>)
    ensures Without(names, {}) == names
  {
    if names != [] {
      WithoutNothing(names[1..]);
    }
  }

  lemma {:induction false} WithoutTwice(names: seq<string>, a: set<string>, b: set<string>)
    ensures Without(Without(names, a), b) == Without(names, a + b)
  {
    if names != [] {
      WithoutTwice(names[1..], a, b);
    }
  }

  lemma CutNone(m: Nodes)
    ensures Cut(m, {}) == m
  {
    forall k | k in m ensures Cut(m, {})[k] == m[k] {
      assert NamesIn({}, k) == {};
      if m[k].Dir? {
        WithoutNothing(m[k].children);
      }
    }
  }

  lemma CutOne(m: Nodes, key: string)
    ensures Cut(m, {key}) ==
      match ParentPath(key)
      case None => m - {key}
      case Some(p) => if p in m - {key} then (m - {key})[p := Unlinked(m[p], {LinkName(key)})] else m - {key}
  {
    hide ParentPath, LinkName;
    forall k | k in m && k != key
      ensures Cut(m, {key})[k] == if ParentPath(key) == Some(k) then Unlinked(m[k], {LinkName(key)}) else m[k]
    {
      NamesInOne(key, k);
      if m[k].Dir? {
        WithoutNothing(m[k].children);
      }
    }
  }

  lemma NamesInOne(key: string, dir: string)
    ensures NamesIn({key}, dir) == if ParentPath(key) == Some(dir) then {LinkName(key)} else {}
  {
    hide ParentPath, LinkName;
    forall n ensures n in NamesIn({key}, dir) <==> ParentPath(key) == Some(dir) && n == LinkName(key) {
      if ParentPath(key) == Some(dir) && n == LinkName(key) {
        assert key in {key};
      }
    }
  }

  /** Removing one more key: the order of removals does not matter. */
  lemma CutAgain(m: Nodes, gone: set<string>, key: string)
    ensures Cut(Cut(m, gone), {key}) == Cut(m, gone + {key})
  {
    forall k | k in m && k !in gone + {key}
      ensures Cut(Cut(m, gone), {key})[k] == Cut(m, gone + {key})[k]
    {
      assert NamesIn(gone + {key}, k) == NamesIn(gone, k) + NamesIn({key}, k);
      if m[k].Dir? {
        WithoutTwice(m[k].children, NamesIn(gone, k), NamesIn({key}, k));
      }
    }
  }

  // ---------------------------------------------------------------- runs

  datatype Op = Mkdir(path: string) | AddNode(path: string, node: Vnode) | Remove(path: string)

  function Apply(m: Nodes, op: Op): Nodes
  {
    match op
    case Mkdir(path) => Added(m, Normalize(path), Dir(Normalize(path), []))
    case AddNode(path, node) => Added(m, Normalize(path), node)
    case Remove(path) => Removed(m, Normalize(path))
  }

  function RunOps(m: Nodes, ops: seq<Op>): Nodes
    decreases ops
  {
    if ops == [] then m else RunOps(Apply(m, ops[0]), ops[1..])
  }

  lemma RunNothing(m: Nodes)
    ensures RunOps(m, []) == m
  {
  }

  lemma Unroll(m: Nodes, ops: seq<Op>, i: nat)
    requires i < |ops|
    ensures RunOps(m, ops[i..]) == RunOps(Apply(m, ops[i]), ops[i + 1..])
  {
    hide Apply;
    assert ops[i..][1..] == ops[i + 1..];
  }

  function SeedOps(): seq<Op>
  {
    [Mkdir("/net"), Mkdir("/ai"), Mkdir("/proc"), Mkdir("/msg"), Mkdir("/plumber"), Mkdir("/ctl"),
     AddNode("/ctl/status", Ctl("status", "ok")),
     AddNode("/ctl/shutdown", Ctl("shutdown", "write 1 to shutdown")),
     AddNode("/plumber/rules", File("rules", "[]"))]
  }

  function MountOps(id: string, hostname: string): seq<Op>
  {
    var base := "/net/" + id;
    [Mkdir(base), Mkdir(base + "/ctl"), Mkdir(base + "/msg"),
     AddNode(base + "/hostname", File("hostname", hostname)),
     AddNode(base + "/ctl/status", Ctl("status", "connected")),
     AddNode(base + "/ctl/capabilities", File("capabilities", "[]")),
     AddNode(base + "/msg/inbox", File("inbox", "")),
     AddNode(base + "/msg/outbox", File("outbox", ""))]
  }
}
