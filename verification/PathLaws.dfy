/** Laws of normal forms, parents and children (src/fs/registry.rs). */
module PathLaws {
  import opened Options
  import opened Paths
  import opened Sequences

  predicate EndsInSpace(s: string) { s != "" && IsSpace(s[|s| - 1]) }

  /** The last surviving component does not end in whitespace. */
  predicate Stable(parts: seq<string>) { parts == [] || !EndsInSpace(parts[|parts| - 1]) }

  // ---------------------------------------------------------------- normalizing twice

  lemma RenderShape(parts: seq<string>)
    requires AllClean(parts)
    ensures Render(parts) != "" && Render(parts)[0] == '/'
    ensures EndsInSpace(Render(parts)) <==> !Stable(parts)
  {
    if parts != [] {
      SlashedEnd(parts);
    }
  }

  lemma SlashedEnd(parts: seq<string>)
    requires parts != []
    ensures Slashed(parts) == Slashed(parts[..|parts| - 1]) + "/" + parts[|parts| - 1]
  {
    hide Slashed;
    var front, last := parts[..|parts| - 1], parts[|parts| - 1];
    assert parts == front + [last];
    SlashedAppend(front, last);
  }

  lemma SlashedAppend(front: seq<string>, last: string)
    ensures Slashed(front + [last]) == Slashed(front) + "/" + last
  {
    SlashedSplits(front, [last]);
    SlashedOne(last);
    Regroup(Slashed(front), "/", last);
  }

  lemma SlashedOne(part: string)
    ensures Slashed([part]) == "/" + part
  {
    assert "/" + part + "" == "/" + part;
  }

  lemma {:induction false} TrimEndShape(s: string)
    ensures TrimEnd(s) <= s && !EndsInSpace(TrimEnd(s))
    ensures EndsInSpace(s) <==> TrimEnd(s) != s
    ensures s != "" && !IsSpace(s[0]) ==> TrimEnd(s) != ""
  {
    if EndsInSpace(s) {
      TrimEndShape(s[..|s| - 1]);
      if !IsSpace(s[0]) {
        assert s[..|s| - 1] != "" && s[..|s| - 1][0] == s[0];
      }
    }
  }

  /** The bytes a list of components takes when each is preceded by a slash. */
  function Size(parts: seq<string>): nat
  {
    if parts == [] then 0 else 1 + |parts[0]| + Size(parts[1..])
  }

  lemma {:induction false} SizeSplits(xs: seq<string>, ys: seq<string>)
    ensures Size(xs + ys) == Size(xs) + Size(ys)
  {
    if xs == [] {
      assert xs + ys == ys;
    } else {
      assert (xs + ys)[1..] == xs[1..] + ys;
      SizeSplits(xs[1..], ys);
    }
  }

  lemma {:induction false} SizeOfSlashed(parts: seq<string>)
    ensures |Slashed(parts)| == Size(parts)
  {
    if parts != [] {
      SizeOfSlashed(parts[1..]);
    }
  }

  lemma {:induction false} SizeOfSplit(s: string)
    ensures Size(Split(s)) == |s| + 1
  {
    if s != "" {
      SizeOfSplit(s[1..]);
      SizeOfExtend(s[0], Split(s[1..]));
      assert Split(s) == Extend(s[0], Split(s[1..])) by { SplitCons(s[0], s[1..]); assert [s[0]] + s[1..] == s; }
    }
  }

  lemma SizeOfExtend(c: char, parts: seq<string>)
    requires parts != []
    ensures Size(Extend(c, parts)) == Size(parts) + 1
  {
    if c == '/' {
      assert ([""] + parts)[1..] == parts;
    } else {
      assert ([[c] + parts[0]] + parts[1..])[1..] == parts[1..];
    }
  }

  lemma {:induction false} SizeOfNonEmpty(parts: seq<string>)
    ensures Size(NonEmpty(parts)) <= Size(parts)
    ensures parts != [] && parts[0] == "" ==> Size(NonEmpty(parts)) < Size(parts)
  {
    if parts != [] {
      SizeOfNonEmpty(parts[1..]);
      if parts[0] != "" {
        assert ([parts[0]] + NonEmpty(parts[1..]))[1..] == NonEmpty(parts[1..]);
      }
    }
  }

  lemma {:induction false} SizeOfResolve(stack: seq<string>, parts: seq<string>)
    ensures Size(Resolve(stack, parts)) <= Size(stack) + Size(parts)
    decreases parts
  {
    if parts != [] {
      SizeOfResolve(Step(stack, parts[0]), parts[1..]);
      if parts[0] == ".." && stack != [] {
        SizeSplits(stack[..|stack| - 1], stack[|stack| - 1..]);
        assert stack == stack[..|stack| - 1] + stack[|stack| - 1..];
      } else {
        SizeSplits(stack, [parts[0]]);
        assert Size([parts[0]]) == 1 + |parts[0]|;
      }
    }
  }

  /** Normalizing an absolute path never makes it longer. */
  lemma NormalizeShrinks(path: string)
    requires path != "" && path[0] == '/'
    ensures |Normalize(path)| <= |Trim(path)|
  {
    TrimEndShape(path);
    var t := Trim(path);
    SizeOfSplit(t);
    assert t[0] == '/' && Split(t)[0] == "";
    SizeOfNonEmpty(Split(t));
    SizeOfResolve([], Components(t));
    SizeOfSlashed(Parts(path));
  }

  lemma RenderStable(parts: seq<string>)
    requires AllClean(parts) && Stable(parts)
    ensures Parts(Render(parts)) == parts
  {
    RenderShape(parts);
    TrimEndShape(Render(parts));
    ComponentsOfRender(parts);
    ResolveKeepsClean([], parts);
    assert [] + parts == parts;
  }

  /** Normalizing is idempotent exactly on the paths whose last surviving component does not end in
      whitespace. */
  lemma NormalizeTwice(path: string)
    ensures Normalize(Normalize(path)) == Normalize(path) <==> Stable(Parts(path))
  {
    var parts := Parts(path);
    PartsClean(path);
    if Stable(parts) {
      RenderStable(parts);
    } else {
      RenderShape(parts);
      TrimEndShape(Render(parts));
      NormalizeShrinks(Render(parts));
    }
  }

  /** For instance, `/a /` does not stay put. */
  lemma NormalizeTwiceFails()
    ensures Normalize("/a /") == "/a " && Normalize("/a ") == "/a"
  {
    hide Resolve, Render;
    PartsOfOne("/a ", "a ");
    assert Components("/a /") == ["a "] by {
      ComponentsJoined("/a ", "");
      ComponentsOfPiece("");
      assert "/a " + "/" + "" == "/a /";
    }
    assert TrimEnd("/a /") == "/a /" && TrimEnd("/a") == "/a" && "/a "[..2] == "/a";
    PartsOfOne("/a", "a");
  }

  lemma PartsOfOne(path: string, part: string)
    requires path == "/" + part && Clean(part)
    ensures Components(path) == [part] && Resolve([], [part]) == [part] && Render([part]) == path
  {
    LeadingSlash(part);
    ComponentsOfPiece(part);
    ResolveOne([], part);
    SlashedOne(part);
  }

  // ---------------------------------------------------------------- normalizing a prefix first

  lemma {:induction false} TrimStartJoined(a: string, b: string)
    ensures TrimStart(a + "/" + b) == TrimStart(a) + "/" + b
  {
    if a != "" && IsSpace(a[0]) {
      TrimStartJoined(a[1..], b);
      assert (a + "/" + b)[1..] == a[1..] + "/" + b;
    }
  }

  lemma {:induction false} TrimEndJoined(a: string, b: string)
    ensures TrimEnd(a + "/" + b) == a + "/" + TrimEnd(b)
  {
    if EndsInSpace(b) {
      var s := a + "/" + b;
      TrimEndJoined(a, b[..|b| - 1]);
      assert s[..|s| - 1] == a + "/" + b[..|b| - 1];
    }
  }

  lemma PartsJoined(a: string, b: string)
    ensures Parts(a + "/" + b) == Resolve(Resolve([], Components(TrimStart(a))), Components(TrimEnd(b)))
  {
    TrimStartJoined(a, b);
    TrimEndJoined(TrimStart(a), b);
    ComponentsJoined(TrimStart(a), TrimEnd(b));
    ResolveSplits([], Components(TrimStart(a)), Components(TrimEnd(b)));
  }

  lemma PartsOfNormalJoined(a: string, b: string)
    ensures Parts(Normalize(a) + "/" + b) == Resolve(Parts(a), Components(TrimEnd(b)))
  {
    PartsClean(a);
    RenderShape(Parts(a));
    PartsJoined(Normalize(a), b);
    ComponentsOfRender(Parts(a));
    ResolveKeepsClean([], Parts(a));
    assert [] + Parts(a) == Parts(a);
  }

  /** The last piece of a path and what comes before the slash in front of it. */
  lemma {:induction false} LastPiece(s: string) returns (slash: bool, front: string, piece: string)
    ensures NoSlash(piece) && s == if slash then front + "/" + piece else piece
  {
    if s == "" {
      slash, front, piece := false, "", "";
    } else {
      slash, front, piece := LastPiece(s[1..]);
      assert s == [s[0]] + s[1..];
      if slash {
        assert [s[0]] + (front + "/" + piece) == [s[0]] + front + "/" + piece;
        front := [s[0]] + front;
      } else if s[0] == '/' {
        assert [s[0]] + piece == "" + "/" + piece;
        slash, front := true, "";
      } else {
        piece := [s[0]] + piece;
      }
    }
  }

  /** Cutting trailing whitespace off a path changes its components. */
  lemma TrailingSpaceMatters(u: string)
    requires EndsInSpace(u)
    ensures Resolve([], Components(u)) != Resolve([], Components(TrimEnd(u)))
  {
    var slash, front, piece := LastPiece(u);
    var base := if slash then Resolve([], Components(front)) else [];
    var cut := TrimEnd(piece);
    TrimEndShape(piece);
    if slash {
      TrimEndJoined(front, piece);
      PieceResolves(front, piece);
      PieceResolves(front, cut);
    }
    ComponentsOfPiece(piece);
    ComponentsOfPiece(cut);
    assert EndsInSpace(piece) && |cut| < |piece|;
    StepsDiffer(base, piece, cut);
  }

  lemma PieceResolves(front: string, piece: string)
    ensures Resolve([], Components(front + "/" + piece)) == Resolve(Resolve([], Components(front)), Components(piece))
  {
    ComponentsJoined(front, piece);
    ResolveSplits([], Components(front), Components(piece));
  }

  lemma StepsDiffer(base: seq<string>, piece: string, cut: string)
    requires EndsInSpace(piece) && piece != cut
    ensures Resolve(base, [piece]) == base + [piece]
    ensures Resolve(base, [piece]) != Resolve(base, if cut == "" then [] else [cut])
  {
    ResolveOne(base, piece);
    ResolveOne(base, cut);
    assert (base + [piece])[|base|] == piece && (base + [cut])[|base|] == cut;
  }

  lemma ResolveOne(stack: seq<string>, part: string)
    ensures Resolve(stack, [part]) == Step(stack, part) && Resolve(stack, []) == stack
  {
  }

  /** A prefix may be normalized first, whatever follows it, exactly when trimming it takes nothing off
      its end: it does not end in whitespace, or there is nothing else in it. */
  lemma NormalizePrefix(a: string)
    ensures (forall b :: Normalize(Normalize(a) + "/" + b) == Normalize(a + "/" + b)) <==> Trim(a) == TrimStart(a)
  {
    if Trim(a) == TrimStart(a) {
      forall b ensures Normalize(Normalize(a) + "/" + b) == Normalize(a + "/" + b) {
        PartsJoined(a, b);
        PartsOfNormalJoined(a, b);
      }
    } else {
      var b := "";
      TrimEndShape(TrimStart(a));
      TrailingSpaceMatters(TrimStart(a));
      PartsJoined(a, b);
      PartsOfNormalJoined(a, b);
      ComponentsOfPiece("");
      ResolveOne(Parts(a), "");
      PartsClean(a + "/" + b);
      PartsClean(Normalize(a) + "/" + b);
      RenderInjective(Parts(a + "/" + b), Parts(Normalize(a) + "/" + b));
      assert Normalize(Normalize(a) + "/" + b) != Normalize(a + "/" + b);
    }
  }

  // ---------------------------------------------------------------- what makes it a normal form

  /** Whitespace around a path does not matter. */
  ghost predicate IgnoresSpace(f: string -> string)
  {
    forall c, s :: IsSpace(c) ==> f([c] + s) == f(s) && f(s + [c]) == f(s)
  }

  /** A path is taken from the root, and a slash may end it. */
  ghost predicate IgnoresEnds(f: string -> string)
  {
    forall s :: (s == "" || !IsSpace(s[0]) ==> f("/" + s) == f(s)) && (!EndsInSpace(s) ==> f(s + "/") == f(s))
  }

  /** Nothing between slashes, or a dot, makes no difference. */
  ghost predicate IgnoresDots(f: string -> string)
  {
    forall a, b :: f(a + "/" + "/" + b) == f(a + "/" + b) && f(a + "/." + "/" + b) == f(a + "/" + b)
  }

  /** Two dots take back the component in front of them; at the root there is nothing to take back. */
  ghost predicate TakesBack(f: string -> string)
  {
    && (forall a, part, b :: Clean(part) ==> f(a + "/" + part + "/.." + "/" + b) == f(a + "/" + b))
    && (forall b :: f("/.." + "/" + b) == f("/" + b))
  }

  /** Any other components stay. */
  ghost predicate KeepsRest(f: string -> string)
  {
    forall parts :: AllClean(parts) ==> f(Slashed(parts) + "/") == Render(parts)
  }

  ghost predicate Normalizes(f: string -> string)
  {
    IgnoresSpace(f) && IgnoresEnds(f) && IgnoresDots(f) && TakesBack(f) && KeepsRest(f)
  }

  lemma PartsOfSpaced(c: char, s: string)
    requires IsSpace(c)
    ensures Normalize([c] + s) == Normalize(s) == Normalize(s + [c])
  {
    assert ([c] + s)[1..] == s;
    TrimStartSpaced(s, c);
    var t := TrimStart(s);
    if t != "" {
      assert (t + [c])[..|t|] == t;
    }
  }

  lemma {:induction false} TrimStartSpaced(s: string, c: char)
    requires IsSpace(c)
    ensures TrimStart(s + [c]) == if TrimStart(s) == "" then "" else TrimStart(s) + [c]
  {
    if s == "" {
      assert s + [c] == [c] && [c][1..] == "";
    } else {
      assert (s + [c])[1..] == s[1..] + [c];
      if IsSpace(s[0]) {
        TrimStartSpaced(s[1..], c);
      }
    }
  }

  lemma PartsOfRooted(s: string)
    requires s == "" || !IsSpace(s[0])
    ensures Normalize("/" + s) == Normalize(s)
  {
    hide Resolve, Components;
    TrimEndJoined("", s);
    assert "" + "/" + s == "/" + s && "" + "/" + TrimEnd(s) == "/" + TrimEnd(s);
    LeadingSlash(TrimEnd(s));
    assert TrimStart("/" + s) == "/" + s && TrimStart(s) == s;
  }

  lemma PartsOfEnded(s: string)
    requires !EndsInSpace(s)
    ensures Normalize(s + "/") == Normalize(s)
  {
    hide Resolve, Components;
    PartsJoined(s, "");
    assert s + "/" + "" == s + "/" && TrimEnd("") == "";
    ComponentsOfPiece("");
    ResolveOne(Resolve([], Components(TrimStart(s))), "");
    TrimEndStart(s);
  }

  lemma {:induction false} TrimEndStart(s: string)
    requires !EndsInSpace(s)
    ensures TrimEnd(TrimStart(s)) == TrimStart(s)
  {
    if s != "" && IsSpace(s[0]) {
      if s[1..] != "" {
        assert s[1..][|s[1..]| - 1] == s[|s| - 1];
      }
      TrimEndStart(s[1..]);
    }
  }

  /** What two components in a row, of which the second is `part`, come to. */
  lemma PartsWithin(a: string, part: string, b: string)
    requires NoSlash(part)
    ensures Parts(a + "/" + part + "/" + b) ==
      Resolve(Resolve(Resolve([], Components(TrimStart(a))), if part == "" then [] else [part]), Components(TrimEnd(b)))
    ensures Parts(a + "/" + b) == Resolve(Resolve([], Components(TrimStart(a))), Components(TrimEnd(b)))
  {
    hide Resolve, Components;
    PartsJoined(a, b);
    PartsJoined(a + "/" + part, b);
    TrimStartJoined(a, part);
    PieceResolves(TrimStart(a), part);
    ComponentsOfPiece(part);
  }

  lemma NormalizeIgnoresDots(a: string, b: string)
    ensures Normalize(a + "/" + "/" + b) == Normalize(a + "/" + b) == Normalize(a + "/." + "/" + b)
  {
    hide Resolve, Components;
    var stack := Resolve([], Components(TrimStart(a)));
    PartsWithin(a, "", b);
    assert a + "/" + "" + "/" + b == a + "/" + "/" + b;
    PartsWithin(a, ".", b);
    assert a + "/" + "." + "/" + b == a + "/." + "/" + b by {
      assert a + "/" + "." == a + "/.";
    }
    ResolveOne(stack, ".");
  }

  lemma NormalizeTakesBack(a: string, part: string, b: string)
    requires Clean(part)
    ensures Normalize(a + "/" + part + "/.." + "/" + b) == Normalize(a + "/" + b)
  {
    hide Resolve, Components;
    var stack := Resolve([], Components(TrimStart(a)));
    PartsWithin(a, part, b);
    PartsWithin(a + "/" + part, "..", b);
    assert a + "/" + part + "/" + ".." == a + "/" + part + "/..";
    TrimStartJoined(a, part);
    PieceResolves(TrimStart(a), part);
    ComponentsOfPiece(part);
    ResolveOne(stack, part);
    ResolveOne(stack + [part], "..");
    assert (stack + [part])[..|stack|] == stack;
  }

  lemma NormalizeAtRoot(b: string)
    ensures Normalize("/.." + "/" + b) == Normalize("/" + b)
  {
    hide Components;
    PartsWithin("", "..", b);
    assert "" + "/" + ".." + "/" + b == "/.." + "/" + b && "" + "/" + b == "/" + b;
    ComponentsOfPiece("");
  }

  lemma NormalizeKeeps(parts: seq<string>)
    requires AllClean(parts)
    ensures Normalize(Slashed(parts) + "/") == Render(parts)
  {
    hide Components;
    var s := Slashed(parts);
    PartsJoined(s, "");
    assert s + "/" + "" == s + "/" && TrimEnd("") == "";
    ComponentsOfPiece("");
    ComponentsOfSlashed(parts);
    assert parts != [] ==> s[0] == '/';
    ResolveKeepsClean([], parts);
    assert [] + parts == parts && TrimStart(s) == s;
  }

  lemma NormalizeNormalizes()
    ensures Normalizes(p => Normalize(p))
  {
    hide Parts, Slashed, Render, Normalize, Clean;
    forall c, s | IsSpace(c) ensures Normalize([c] + s) == Normalize(s) && Normalize(s + [c]) == Normalize(s) {
      PartsOfSpaced(c, s);
    }
    forall s | s == "" || !IsSpace(s[0]) ensures Normalize("/" + s) == Normalize(s) {
      PartsOfRooted(s);
    }
    forall s | !EndsInSpace(s) ensures Normalize(s + "/") == Normalize(s) {
      PartsOfEnded(s);
    }
    forall a, b
      ensures Normalize(a + "/" + "/" + b) == Normalize(a + "/" + b) == Normalize(a + "/." + "/" + b)
    {
      NormalizeIgnoresDots(a, b);
    }
    forall a, part, b | Clean(part) ensures Normalize(a + "/" + part + "/.." + "/" + b) == Normalize(a + "/" + b) {
      NormalizeTakesBack(a, part, b);
    }
    forall b ensures Normalize("/.." + "/" + b) == Normalize("/" + b) {
      NormalizeAtRoot(b);
    }
    forall parts | AllClean(parts) ensures Normalize(Slashed(parts) + "/") == Render(parts) {
      NormalizeKeeps(parts);
    }
  }

  /** A path from the root, its first components as they stay and the rest as it comes. */
  lemma {:induction false} LawsResolve(f: string -> string, g: string -> string, front: seq<string>, rest: seq<string>)
    requires Normalizes(f) && Normalizes(g) && AllClean(front)
    requires forall i :: 0 <= i < |rest| ==> NoSlash(rest[i])
    ensures f(Slashed(front + rest) + "/") == g(Slashed(front + rest) + "/")
    decreases rest
  {
    hide Slashed, Render, Normalizes;
    if rest == [] {
      assert front + rest == front;
      LawsKeep(f, front);
      LawsKeep(g, front);
    } else if Clean(rest[0]) {
      assert front + rest == (front + [rest[0]]) + rest[1..];
      LawsResolve(f, g, front + [rest[0]], rest[1..]);
    } else {
      var next := if rest[0] != ".." || front == [] then front else front[..|front| - 1];
      LawsStep(f, front, rest);
      LawsStep(g, front, rest);
      LawsResolve(f, g, next, rest[1..]);
    }
  }

  lemma LawsKeep(f: string -> string, parts: seq<string>)
    requires Normalizes(f) && AllClean(parts)
    ensures f(Slashed(parts) + "/") == Render(parts)
  {
  }

  /** One component that does not stay. */
  lemma LawsStep(f: string -> string, front: seq<string>, rest: seq<string>)
    requires Normalizes(f) && AllClean(front) && rest != [] && !Clean(rest[0]) && NoSlash(rest[0])
    ensures var next := if rest[0] != ".." || front == [] then front else front[..|front| - 1];
      f(Slashed(front + rest) + "/") == f(Slashed(next + rest[1..]) + "/")
  {
    hide Slashed, IgnoresSpace, IgnoresEnds, IgnoresDots, TakesBack, KeepsRest;
    var a, b := Slashed(front), Behind(rest[1..]);
    Pieces(front, rest);
    Pieces(front, rest[1..]);
    if rest[0] != ".." {
      LawsSkip(f, a, rest[0], b);
    } else if front == [] {
      SlashedNone();
      LawsAtRoot(f, b);
      assert a + "/" + ".." + "/" + b == "/.." + "/" + b && a + "/" + b == "/" + b;
    } else {
      var shorter, last := front[..|front| - 1], front[|front| - 1];
      SlashedEnd(front);
      Pieces(shorter, rest[1..]);
      LawsBack(f, Slashed(shorter), last, b);
    }
  }

  lemma LawsSkip(f: string -> string, a: string, part: string, b: string)
    requires IgnoresDots(f) && (part == "" || part == ".")
    ensures f(a + "/" + part + "/" + b) == f(a + "/" + b)
  {
    if part == "" {
      assert a + "/" + "" + "/" + b == a + "/" + "/" + b;
    } else {
      assert a + "/" + "." == a + "/.";
    }
  }

  lemma LawsAtRoot(f: string -> string, b: string)
    requires TakesBack(f)
    ensures f("/.." + "/" + b) == f("/" + b)
  {
  }

  lemma LawsBack(f: string -> string, a: string, part: string, b: string)
    requires TakesBack(f) && Clean(part)
    ensures f(a + "/" + part + "/" + ".." + "/" + b) == f(a + "/" + b)
  {
    assert a + "/" + part + "/" + ".." == a + "/" + part + "/..";
  }

  lemma SlashedNone()
    ensures Slashed([]) == ""
  {
  }

  /** What follows the slash behind some components. */
  function Behind(rest: seq<string>): string { if rest == [] then "" else rest[0] + "/" + Behind(rest[1..]) }

  lemma {:induction false} Pieces(front: seq<string>, rest: seq<string>)
    ensures Slashed(front + rest) + "/" == Slashed(front) + "/" + Behind(rest)
    ensures rest != [] ==>
      Slashed(front + rest) + "/" == Slashed(front) + "/" + rest[0] + "/" + Behind(rest[1..])
    decreases rest
  {
    hide Slashed;
    if rest == [] {
      assert front + rest == front;
      assert Slashed(front) + "/" + "" == Slashed(front) + "/";
    } else {
      var first := rest[0];
      assert front + rest == (front + [first]) + rest[1..];
      Pieces(front + [first], rest[1..]);
      SlashedAppend(front, first);
      var a, b := Slashed(front), Behind(rest[1..]);
      assert a + "/" + first + "/" + b == a + "/" + (first + "/" + b);
    }
  }

  lemma {:induction false} LawsDecide(f: string -> string, g: string -> string, p: string)
    requires Normalizes(f) && Normalizes(g)
    ensures f(p) == g(p)
    decreases |p|
  {
    hide Normalizes;
    if p != "" && IsSpace(p[0]) {
      LawsSpace(f, p[0], p[1..]);
      LawsSpace(g, p[0], p[1..]);
      assert p == [p[0]] + p[1..];
      LawsDecide(f, g, p[1..]);
    } else if EndsInSpace(p) {
      var last := |p| - 1;
      LawsSpace(f, p[last], p[..last]);
      LawsSpace(g, p[last], p[..last]);
      assert p == p[..last] + [p[last]];
      LawsDecide(f, g, p[..last]);
    } else {
      var rooted := if p != "" && p[0] == '/' then p else "/" + p;
      assert !EndsInSpace(rooted) by {
        assert p != "" ==> rooted[|rooted| - 1] == p[|p| - 1];
      }
      LawsRoot(f, p);
      LawsRoot(g, p);
      LawsRooted(f, g, rooted);
    }
  }

  lemma LawsSpace(f: string -> string, c: char, s: string)
    requires Normalizes(f) && IsSpace(c)
    ensures f([c] + s) == f(s) == f(s + [c])
  {
    hide IgnoresEnds, IgnoresDots, TakesBack, KeepsRest;
  }

  lemma LawsRoot(f: string -> string, p: string)
    requires Normalizes(f) && (p == "" || !IsSpace(p[0]))
    ensures f(if p != "" && p[0] == '/' then p else "/" + p) == f(p)
  {
    hide IgnoresSpace, IgnoresDots, TakesBack, KeepsRest;
  }

  lemma LawsEnd(f: string -> string, p: string)
    requires Normalizes(f) && !EndsInSpace(p)
    ensures f(p + "/") == f(p)
  {
    hide IgnoresSpace, IgnoresDots, TakesBack, KeepsRest;
  }

  lemma LawsRooted(f: string -> string, g: string -> string, p: string)
    requires Normalizes(f) && Normalizes(g) && p != "" && p[0] == '/' && !EndsInSpace(p)
    ensures f(p) == g(p)
  {
    hide Normalizes, Slashed;
    var s := p[1..];
    assert p == "/" + s;
    SplitRebuilds(s);
    SplitPieces(s);
    LawsResolve(f, g, [], Split(s));
    assert [] + Split(s) == Split(s);
    LawsEnd(f, p);
    LawsEnd(g, p);
  }

  /** These laws leave no choice: whatever satisfies them is the normal form. */
  lemma NormalFormExactly(f: string -> string)
    ensures Normalizes(f) <==> forall p :: f(p) == Normalize(p)
  {
    hide Normalize, Normalizes;
    NormalizeNormalizes();
    if Normalizes(f) {
      forall p ensures f(p) == Normalize(p) {
        LawsDecide(f, q => Normalize(q), p);
      }
    } else if forall p :: f(p) == Normalize(p) {
      SameLaws(q => Normalize(q), f);
    }
  }

  lemma SameLaws(f: string -> string, g: string -> string)
    requires Normalizes(f) && forall p :: g(p) == f(p)
    ensures Normalizes(g)
  {
    hide IgnoresSpace, IgnoresEnds, IgnoresDots, TakesBack, KeepsRest;
    SameEnds(f, g);
    SameMiddle(f, g);
    SameBack(f, g);
  }

  lemma SameEnds(f: string -> string, g: string -> string)
    requires IgnoresSpace(f) && IgnoresEnds(f) && forall p :: g(p) == f(p)
    ensures IgnoresSpace(g) && IgnoresEnds(g)
  {
  }

  lemma SameMiddle(f: string -> string, g: string -> string)
    requires IgnoresDots(f) && KeepsRest(f) && forall p :: g(p) == f(p)
    ensures IgnoresDots(g) && KeepsRest(g)
  {
    hide Slashed, Render;
  }

  lemma SameBack(f: string -> string, g: string -> string)
    requires TakesBack(f) && forall p :: g(p) == f(p)
    ensures TakesBack(g)
  {
    hide Clean;
  }

  // ---------------------------------------------------------------- parents and children

  function RFind(s: string): (i: int)
    ensures -1 <= i < |s|
  {
    if s == "" then -1 else if s[|s| - 1] == '/' then |s| - 1 else RFind(s[..|s| - 1])
  }

  function ParentPath(path: string): Option<string>
  {
    var p := Normalize(path);
    if p == "/" then None
    else
      var idx := RFind(p);
      if idx <= 0 then Some("/") else Some(p[..idx])
  }

  function StripPrefix(s: string, prefix: string): Option<string>
  {
    if prefix <= s then Some(s[|prefix|..]) else None
  }

  /** The name under which `full` is a direct child of `parent`. */
  function ChildName(parent: string, full: string): Option<string>
  {
    var p, f := Normalize(parent), Normalize(full);
    var below := if p == "/" then f else match StripPrefix(f, p) case Some(r) => r case None => "";
    match StripPrefix(below, "/")
    case None => None
    case Some(remainder) => if remainder == "" || !NoSlash(remainder) then None else Some(remainder)
  }

  /** The name a key is linked under: whatever follows its last slash. */
  function LinkName(key: string): string { key[RFind(key) + 1..] }

  lemma {:induction false} LastSlash(front: string, piece: string)
    requires NoSlash(piece)
    ensures RFind(front + "/" + piece) == |front|
  {
    var s := front + "/" + piece;
    if piece == "" {
      assert s[|s| - 1] == '/';
    } else {
      var rest := piece[..|piece| - 1];
      LastSlash(front, rest);
      assert s[|s| - 1] == piece[|piece| - 1];
      assert s[..|s| - 1] == front + "/" + rest;
    }
  }

  /** The parent drops the last component. */
  lemma ParentDropsLast(path: string)
    ensures ParentPath(path) ==
      if Parts(path) == [] then None else Some(Render(Parts(path)[..|Parts(path)| - 1]))
  {
    var parts := Parts(path);
    PartsClean(path);
    if parts != [] {
      var front, last := parts[..|parts| - 1], parts[|parts| - 1];
      SlashedEnd(parts);
      LastSlash(Slashed(front), last);
      assert Normalize(path) == Slashed(front) + "/" + last;
      assert |Normalize(path)| >= 2;
      if front != [] {
        assert Normalize(path)[..|Slashed(front)|] == Slashed(front);
      }
    }
  }

  lemma LinkNameIsLast(parts: seq<string>)
    requires AllClean(parts)
    ensures LinkName(Render(parts)) == if parts == [] then "" else parts[|parts| - 1]
  {
    if parts == [] {
      assert RFind("/") == 0;
    } else {
      var front, last := parts[..|parts| - 1], parts[|parts| - 1];
      SlashedEnd(parts);
      LastSlash(Slashed(front), last);
    }
  }

  /** From a normal form two dots lead to the parent, one dot nowhere, and a name and back again to it. */
  lemma UpAndDown(a: string, part: string)
    requires Canonical(a) && Clean(part)
    ensures Normalize(a + "/..") == if ParentPath(a).Some? then ParentPath(a).value else "/"
    ensures Normalize(a + "/.") == a && Normalize(a + "/" + part + "/..") == a
  {
    hide Resolve, Components, ParentPath, Slashed;
    NormalizeTwice(a);
    var parts := Parts(a);
    PartsClean(a);
    RenderShape(parts);
    ParentDropsLast(a);
    assert TrimEnd("..") == ".." && TrimEnd(".") == ".";
    Descends(a, "..");
    Descends(a, ".");
    ResolveOne(parts, "..");
    ResolveOne(parts, ".");
    assert a + "/" + ".." == a + "/.." && a + "/" + "." == a + "/.";
    NormalizeTakesBack(a, part, "");
    PartsOfEnded(a + "/" + part + "/..");
    var s := a + "/" + part + "/..";
    assert !EndsInSpace(s) && s + "/" + "" == s + "/" && a + "/" + "" == a + "/";
    PartsOfEnded(a);
  }

  lemma Descends(a: string, part: string)
    requires Canonical(a) && part != "" && NoSlash(part) && TrimEnd(part) == part
    ensures Normalize(a + "/" + part) == Render(Resolve(Parts(a), [part]))
  {
    hide Resolve, Components, Render;
    PartsOfNormalJoined(a, part);
    ComponentsOfPiece(part);
  }

  /** A child has exactly one component more than its parent. */
  lemma ChildAddsOne(parent: string, full: string)
    ensures match ChildName(parent, full)
      case Some(name) => Parts(full) == Parts(parent) + [name]
      case None => forall name :: Parts(full) != Parts(parent) + [name]
  {
    PartsClean(parent);
    PartsClean(full);
    var p, f := Parts(parent), Parts(full);
    match ChildName(parent, full) {
      case Some(name) =>
        ChildRebuilt(p, f, name);
      case None =>
        forall name ensures f != p + [name] {
          if f == p + [name] {
            ChildFound(parent, full, name);
          }
        }
    }
  }

  lemma ChildFound(parent: string, full: string, name: string)
    requires Parts(full) == Parts(parent) + [name]
    ensures ChildName(parent, full) == Some(name)
  {
    PartsClean(full);
    PartsClean(parent);
    var p, f := Parts(parent), Parts(full);
    assert f[|p|] == name && f[..|f| - 1] == p;
    SlashedEnd(f);
    if p == [] {
      assert Render(f) == "" + "/" + name == "/" + name;
      StripSlash(name);
    } else {
      SlashedEnd(p);
      assert Render(p) != "/";
      StripBase(Slashed(p), name);
    }
  }

  lemma StripSlash(name: string)
    ensures StripPrefix("/" + name, "/") == Some(name)
  {
    assert ("/" + name)[1..] == name;
  }

  lemma StripBase(base: string, name: string)
    ensures StripPrefix(base + "/" + name, base) == Some("/" + name)
    ensures StripPrefix("/" + name, "/") == Some(name)
  {
    StripSlash(name);
    assert base + "/" + name == base + ("/" + name);
    assert (base + ("/" + name))[|base|..] == "/" + name;
  }

  lemma ChildRebuilt(p: seq<string>, f: seq<string>, name: string)
    requires AllClean(p) && AllClean(f) && name != "" && NoSlash(name)
    requires Render(f) == (if p == [] then "" else Render(p)) + "/" + name
    ensures f == p + [name]
  {
    ComponentsOfRender(f);
    if p == [] {
      LeadingSlash(name);
      assert "" + "/" + name == "/" + name;
    } else {
      ComponentsOfRender(p);
      ComponentsJoined(Render(p), name);
    }
    ComponentsOfPiece(name);
  }

  lemma ParentIff(p: string, k: string)
    requires Canonical(p)
    ensures ParentPath(k) == Some(p) <==> Parts(k) != [] && Parts(k)[..|Parts(k)| - 1] == Parts(p)
  {
    PartsClean(k);
    PartsClean(p);
    ParentDropsLast(k);
    if Parts(k) != [] {
      RenderInjective(Parts(k)[..|Parts(k)| - 1], Parts(p));
    }
  }

  lemma ChildIff(p: string, k: string, name: string)
    ensures ChildName(p, k) == Some(name) <==> Parts(k) == Parts(p) + [name]
  {
    ChildAddsOne(p, k);
    if Parts(k) == Parts(p) + [name] {
      ChildFound(p, k, name);
    }
  }

  /** On canonical paths the two notions agree: `k` is a child of `p` exactly when `p` is its parent, and
      then its name is the one `k` is linked under. */
  lemma ParentsAndChildren(p: string, k: string)
    requires Canonical(p) && Canonical(k)
    ensures ChildName(p, k) == if ParentPath(k) == Some(p) then Some(LinkName(k)) else None
  {
    ParentIff(p, k);
    if ParentPath(k) == Some(p) {
      var last := Parts(k)[|Parts(k)| - 1];
      assert Parts(k) == Parts(p) + [last];
      ChildIff(p, k, last);
      PartsClean(k);
      LinkNameIsLast(Parts(k));
    } else if ChildName(p, k).Some? {
      ChildIff(p, k, ChildName(p, k).value);
    }
  }

  /** Parent and name rebuild a path. */
  lemma ParentAndNameRebuild(k: string)
    requires Canonical(k) && ParentPath(k).Some?
    ensures var p := ParentPath(k).value;
      k == (if p == "/" then "" else p) + "/" + LinkName(k)
  {
    var parts := Parts(k);
    PartsClean(k);
    ParentDropsLast(k);
    LinkNameIsLast(parts);
    SlashedEnd(parts);
    var front := parts[..|parts| - 1];
    if front != [] {
      RenderInjective(front, []);
    }
  }
}
