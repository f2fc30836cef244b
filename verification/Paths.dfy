/** The path algebra of the virtual filesystem (src/fs/registry.rs): splitting, resolving, joining. */
module Paths {

  // ---------------------------------------------------------------- whitespace

  /** The characters with the Unicode property White_Space. */
  predicate IsSpace(c: char)
  {
    var u := c as int;
    || 0x9 <= u <= 0xD || u == 0x20 || u == 0x85 || u == 0xA0 || u == 0x1680
    || 0x2000 <= u <= 0x200A || u == 0x2028 || u == 0x2029 || u == 0x202F || u == 0x205F || u == 0x3000
  }

  /** There are twenty-five of them. */
  lemma SpacesAre(c: char)
    ensures IsSpace(c) <==>
      c as int in [
        9, 10, 11, 12, 13, 32, 133, 160, 5760, 8192, 8193, 8194, 8195, 8196, 8197, 8198, 8199, 8200, 8201, 8202,
        8232, 8233, 8239, 8287, 12288]
  {
  }

  function TrimStart(s: string): string
  {
    if s != "" && IsSpace(s[0]) then TrimStart(s[1..]) else s
  }

  function TrimEnd(s: string): string
  {
    if s != "" && IsSpace(s[|s| - 1]) then TrimEnd(s[..|s| - 1]) else s
  }

  function Trim(s: string): string { TrimEnd(TrimStart(s)) }

  // ---------------------------------------------------------------- components

  /** The pieces between slashes; there is always at least one. */
  function Split(s: string): (parts: seq<string>)
    ensures parts != []
  {
    if s == "" then [""]
    else
      var rest := Split(s[1..]);
      if s[0] == '/' then [""] + rest else [[s[0]] + rest[0]] + rest[1..]
  }

  function NonEmpty(parts: seq<string>): seq<string>
  {
    if parts == [] then []
    else if parts[0] == "" then NonEmpty(parts[1..])
    else [parts[0]] + NonEmpty(parts[1..])
  }

  function Components(s: string): seq<string> { NonEmpty(Split(s)) }

  /** One component on top of a stack: `..` pops, `.` stays, anything else is pushed. */
  function Step(stack: seq<string>, part: string): seq<string>
  {
    if part == ".." then (if stack == [] then [] else stack[..|stack| - 1])
    else if part == "." then stack
    else stack + [part]
  }

  function Resolve(stack: seq<string>, parts: seq<string>): seq<string>
    decreases parts
  {
    if parts == [] then stack else Resolve(Step(stack, parts[0]), parts[1..])
  }

  function Slashed(parts: seq<string>): string
  {
    if parts == [] then "" else "/" + parts[0] + Slashed(parts[1..])
  }

  function Render(parts: seq<string>): string { if parts == [] then "/" else Slashed(parts) }

  /** The components a path stands for, and its normal form. */
  function Parts(path: string): seq<string> { Resolve([], Components(Trim(path))) }

  function Normalize(path: string): string { Render(Parts(path)) }

  ghost predicate Canonical(path: string) { Normalize(path) == path }

  /** Normalization as it is computed, with an explicit stack. */
  method NormalizePath(path: string) returns (normal: string)
    ensures normal == Normalize(path)
  {
    var trimmed := Trim(path);
    if trimmed == "" || trimmed == "/" {
      assert trimmed == "/" ==> trimmed[1..] == "";
      return "/";
    }
    var parts := NonEmpty(Split(trimmed));
    var stack: seq<string> := [];
    for i := 0 to |parts|
      invariant Resolve([], parts) == Resolve(stack, parts[i..])
    {
      assert parts[i..][1..] == parts[i + 1..];
      if parts[i] == ".." {
        if stack != [] {
          stack := stack[..|stack| - 1];
        }
      } else if parts[i] != "." {
        stack := stack + [parts[i]];
      }
    }
    normal := Render(stack);
  }

  // ---------------------------------------------------------------- clean components

  predicate NoSlash(s: string) { forall i :: 0 <= i < |s| ==> s[i] != '/' }

  /** A component that can survive normalization. */
  predicate Clean(part: string) { part != "" && NoSlash(part) && part != "." && part != ".." }

  predicate AllClean(parts: seq<string>) { forall i :: 0 <= i < |parts| ==> Clean(parts[i]) }

  lemma {:induction false} SplitPieces(s: string)
    ensures forall i :: 0 <= i < |Split(s)| ==> NoSlash(Split(s)[i])
  {
    if s != "" {
      SplitPieces(s[1..]);
    }
  }

  lemma {:induction false} NonEmptyPieces(parts: seq<string>)
    requires forall i :: 0 <= i < |parts| ==> NoSlash(parts[i])
    ensures forall i :: 0 <= i < |NonEmpty(parts)| ==> NonEmpty(parts)[i] != "" && NoSlash(NonEmpty(parts)[i])
  {
    if parts != [] {
      NonEmptyPieces(parts[1..]);
    }
  }

  lemma {:induction false} ResolveCleans(stack: seq<string>, parts: seq<string>)
    requires AllClean(stack) && forall i :: 0 <= i < |parts| ==> parts[i] != "" && NoSlash(parts[i])
    ensures AllClean(Resolve(stack, parts))
    decreases parts
  {
    if parts != [] {
      ResolveCleans(Step(stack, parts[0]), parts[1..]);
    }
  }

  /** No component of a normal form is empty, `.` or `..`, or holds a slash. */
  lemma PartsClean(path: string)
    ensures AllClean(Parts(path))
  {
    SplitPieces(Trim(path));
    NonEmptyPieces(Split(Trim(path)));
    ResolveCleans([], Components(Trim(path)));
  }

  lemma {:induction false} ResolveSplits(stack: seq<string>, xs: seq<string>, ys: seq<string>)
    ensures Resolve(stack, xs + ys) == Resolve(Resolve(stack, xs), ys)
    decreases xs
  {
    if xs == [] {
      assert xs + ys == ys;
    } else {
      assert (xs + ys)[1..] == xs[1..] + ys;
      ResolveSplits(Step(stack, xs[0]), xs[1..], ys);
    }
  }

  lemma {:induction false} ResolveKeepsClean(stack: seq<string>, parts: seq<string>)
    requires AllClean(parts)
    ensures Resolve(stack, parts) == stack + parts
    decreases parts
  {
    if parts != [] {
      ResolveKeepsClean(stack + [parts[0]], parts[1..]);
      assert stack + [parts[0]] + parts[1..] == stack + parts;
    }
  }

  // ---------------------------------------------------------------- splitting a joined path

  /** Puts one character in front of a split path. */
  function Extend(c: char, parts: seq<string>): seq<string>
    requires parts != []
  {
    if c == '/' then [""] + parts else [[c] + parts[0]] + parts[1..]
  }

  lemma SplitCons(c: char, rest: string)
    ensures Split([c] + rest) == Extend(c, Split(rest))
  {
    assert ([c] + rest)[1..] == rest;
  }

  lemma ExtendSplits(c: char, xs: seq<string>, ys: seq<string>)
    requires xs != []
    ensures Extend(c, xs + ys) == Extend(c, xs) + ys
  {
    assert (xs + ys)[1..] == xs[1..] + ys;
  }

  lemma {:induction false} SplitJoined(a: string, b: string)
    ensures Split(a + "/" + b) == Split(a) + Split(b)
  {
    if a == "" {
      SplitCons('/', b);
      assert a + "/" + b == ['/'] + b;
    } else {
      SplitJoined(a[1..], b);
      SplitCons(a[0], a[1..] + "/" + b);
      SplitCons(a[0], a[1..]);
      ExtendSplits(a[0], Split(a[1..]), Split(b));
      assert a == [a[0]] + a[1..] && a + "/" + b == [a[0]] + (a[1..] + "/" + b);
    }
  }

  lemma {:induction false} NonEmptySplits(xs: seq<string>, ys: seq<string>)
    ensures NonEmpty(xs + ys) == NonEmpty(xs) + NonEmpty(ys)
  {
    if xs == [] {
      assert xs + ys == ys;
    } else {
      assert (xs + ys)[1..] == xs[1..] + ys;
      NonEmptySplits(xs[1..], ys);
    }
  }

  lemma ComponentsJoined(a: string, b: string)
    ensures Components(a + "/" + b) == Components(a) + Components(b)
  {
    SplitJoined(a, b);
    NonEmptySplits(Split(a), Split(b));
  }

  lemma {:induction false} ComponentsOfPiece(s: string)
    requires NoSlash(s)
    ensures Split(s) == [s] && Components(s) == if s == "" then [] else [s]
  {
    if s != "" {
      ComponentsOfPiece(s[1..]);
      assert [s[0]] + s[1..] == s;
    }
  }

  /** A leading slash adds no component. */
  lemma LeadingSlash(s: string)
    ensures Components("/" + s) == Components(s)
  {
    ComponentsOfPiece("");
    ComponentsJoined("", s);
    assert "" + "/" + s == "/" + s;
  }

  lemma PieceThenRest(part: string, rest: string)
    requires part != "" && NoSlash(part) && (rest == "" || rest[0] == '/')
    ensures Components("/" + part + rest) == [part] + Components(rest)
  {
    ComponentsOfPiece(part);
    LeadingSlash(part + rest);
    assert "/" + part + rest == "/" + (part + rest);
    if rest == "" {
      assert part + rest == part;
    } else {
      ComponentsJoined(part, rest[1..]);
      LeadingSlash(rest[1..]);
      assert rest == "/" + rest[1..];
      assert part + rest == part + "/" + rest[1..];
    }
  }

  lemma {:induction false} ComponentsOfSlashed(parts: seq<string>)
    requires AllClean(parts)
    ensures Components(Slashed(parts)) == parts
  {
    if parts == [] {
      assert Split("") == [""];
    } else {
      ComponentsOfSlashed(parts[1..]);
      PieceThenRest(parts[0], Slashed(parts[1..]));
    }
  }

  lemma ComponentsOfRender(parts: seq<string>)
    requires AllClean(parts)
    ensures Components(Render(parts)) == parts
  {
    if parts == [] {
      assert "/"[1..] == "";
      assert Split("/") == ["", ""];
      assert NonEmpty(["", ""]) == [] by { assert ["", ""][1..] == [""]; assert [""][1..] == []; }
    } else {
      ComponentsOfSlashed(parts);
    }
  }

  /** Normal forms tell component lists apart. */
  lemma RenderInjective(xs: seq<string>, ys: seq<string>)
    requires AllClean(xs) && AllClean(ys)
    ensures Render(xs) == Render(ys) <==> xs == ys
  {
    ComponentsOfRender(xs);
    ComponentsOfRender(ys);
  }

  lemma {:induction false} SlashedSplits(xs: seq<string>, ys: seq<string>)
    ensures Slashed(xs + ys) == Slashed(xs) + Slashed(ys)
  {
    if xs == [] {
      assert xs + ys == ys;
    } else {
      assert (xs + ys)[1..] == xs[1..] + ys;
      SlashedSplits(xs[1..], ys);
    }
  }

  lemma RebuiltWith(c: char, parts: seq<string>, s: string)
    requires parts != [] && Slashed(parts) == "/" + s
    ensures Slashed([[c] + parts[0]] + parts[1..]) == "/" + ([c] + s)
  {
    var tail := parts[0] + Slashed(parts[1..]);
    assert Slashed(parts) == "/" + tail;
    assert tail == ("/" + tail)[1..] == ("/" + s)[1..] == s;
    assert "/" + ([c] + parts[0]) + Slashed(parts[1..]) == "/" + ([c] + tail);
  }

  /** Joining the pieces gives the path back, behind a slash. */
  lemma {:induction false} SplitRebuilds(s: string)
    ensures Slashed(Split(s)) == "/" + s
  {
    if s != "" {
      var rest := Split(s[1..]);
      SplitRebuilds(s[1..]);
      if s[0] != '/' {
        RebuiltWith(s[0], rest, s[1..]);
      }
    }
  }
}
