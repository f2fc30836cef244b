/** Weights over endpoints, and their normalization (src/quantum/state.rs, src/quantum/entanglement.rs,
    src/quantum/router.rs). */
module Distribution {

  datatype Entry = Entry(endpoint: string, p: real)

  function Total(d: seq<Entry>): real { if d == [] then 0.0 else d[0].p + Total(d[1..]) }

  function Divided(d: seq<Entry>, c: real): seq<Entry>
    requires c != 0.0
  {
    if d == [] then [] else [d[0].(p := d[0].p / c)] + Divided(d[1..], c)
  }

  function Normalized(d: seq<Entry>): seq<Entry> { if Total(d) > 0.0 then Divided(d, Total(d)) else d }

  /** Every weight times a factor that depends on the endpoint. */
  function Boosted(d: seq<Entry>, factor: string -> real): seq<Entry>
  {
    if d == [] then [] else [d[0].(p := d[0].p * factor(d[0].endpoint))] + Boosted(d[1..], factor)
  }

  ghost predicate NonNegative(d: seq<Entry>) { forall i :: 0 <= i < |d| ==> d[i].p >= 0.0 }

  ghost predicate AllZero(d: seq<Entry>) { forall i :: 0 <= i < |d| ==> d[i].p == 0.0 }

  /** Same endpoints, and the same ones with a positive weight. */
  ghost predicate SameSupport(a: seq<Entry>, b: seq<Entry>)
  {
    |a| == |b| && forall i :: 0 <= i < |a| ==> a[i].endpoint == b[i].endpoint && (a[i].p > 0.0 <==> b[i].p > 0.0)
  }

  // ---------------------------------------------------------------- laws

  lemma {:induction false} TotalSplits(xs: seq<Entry>, ys: seq<Entry>)
    ensures Total(xs + ys) == Total(xs) + Total(ys)
  {
    if xs == [] {
      assert xs + ys == ys;
    } else {
      assert (xs + ys)[1..] == xs[1..] + ys;
      TotalSplits(xs[1..], ys);
    }
  }

  lemma {:induction false} TotalZero(d: seq<Entry>)
    requires NonNegative(d)
    ensures Total(d) >= 0.0 && (Total(d) == 0.0 <==> AllZero(d))
  {
    if d != [] {
      TotalZero(d[1..]);
      assert forall i :: 1 <= i < |d| ==> d[i] == d[1..][i - 1];
    }
  }

  lemma {:induction false} DividedIs(d: seq<Entry>, c: real)
    requires c != 0.0
    ensures |Divided(d, c)| == |d|
    ensures forall i :: 0 <= i < |d| ==> Divided(d, c)[i] == d[i].(p := d[i].p / c)
    ensures Total(Divided(d, c)) == Total(d) / c
  {
    if d != [] {
      DividedIs(d[1..], c);
      QuotientAdds(d[0].p, Total(d[1..]), c);
    }
  }

  lemma QuotientAdds(a: real, b: real, c: real)
    requires c != 0.0
    ensures (a + b) / c == a / c + b / c
  {
  }

  lemma {:induction false} BoostedIs(d: seq<Entry>, factor: string -> real)
    ensures |Boosted(d, factor)| == |d|
    ensures forall i :: 0 <= i < |d| ==> Boosted(d, factor)[i] == d[i].(p := d[i].p * factor(d[i].endpoint))
  {
    if d != [] {
      BoostedIs(d[1..], factor);
    }
  }

  lemma QuotientSign(x: real, c: real)
    requires x >= 0.0 && c > 0.0
    ensures x / c >= 0.0 && (x / c > 0.0 <==> x > 0.0)
  {
  }

  lemma ProductSign(x: real, f: real)
    requires x >= 0.0 && f > 0.0
    ensures x * f >= 0.0 && (x * f > 0.0 <==> x > 0.0)
  {
  }

  lemma QuotientSelf(c: real)
    requires c != 0.0
    ensures c / c == 1.0
  {
  }

  /** Normalizing weights that are not negative gives a distribution, or nothing but zeros if there was
      nothing else; it neither adds nor drops a possible endpoint. */
  lemma NormalizedIsDistribution(d: seq<Entry>)
    requires NonNegative(d)
    ensures NonNegative(Normalized(d)) && SameSupport(Normalized(d), d)
    ensures if AllZero(d) then AllZero(Normalized(d)) else Total(Normalized(d)) == 1.0
  {
    TotalZero(d);
    if Total(d) > 0.0 {
      DividedIs(d, Total(d));
      QuotientSelf(Total(d));
      forall i | 0 <= i < |d| {
        QuotientSign(d[i].p, Total(d));
      }
    }
  }

  ghost predicate Positive(d: seq<Entry>, factor: string -> real)
  {
    forall i :: 0 <= i < |d| ==> factor(d[i].endpoint) > 0.0
  }

  lemma BoostedKeeps(d: seq<Entry>, factor: string -> real)
    requires NonNegative(d) && Positive(d, factor)
    ensures NonNegative(Boosted(d, factor)) && SameSupport(Boosted(d, factor), d)
  {
    BoostedIs(d, factor);
    forall i | 0 <= i < |d| {
      ProductSign(d[i].p, factor(d[i].endpoint));
    }
  }

  lemma BoostedDivided(d: seq<Entry>, factor: string -> real, c: real)
    requires c != 0.0
    ensures Boosted(Divided(d, c), factor) == Divided(Boosted(d, factor), c)
  {
    hide Boosted, Divided;
    BoostedLength(d, factor);
    DividedLength(d, c);
    BoostedLength(Divided(d, c), factor);
    DividedLength(Boosted(d, factor), c);
    forall i | 0 <= i < |d| ensures Boosted(Divided(d, c), factor)[i] == Divided(Boosted(d, factor), c)[i] {
      DividedAt(d, c, i);
      BoostedAt(Divided(d, c), factor, i);
      BoostedAt(d, factor, i);
      DividedAt(Boosted(d, factor), c, i);
      Swap(d[i].p, c, factor(d[i].endpoint));
    }
  }

  lemma BoostedLength(d: seq<Entry>, factor: string -> real)
    ensures |Boosted(d, factor)| == |d|
  {
    BoostedIs(d, factor);
  }

  lemma DividedLength(d: seq<Entry>, c: real)
    requires c != 0.0
    ensures |Divided(d, c)| == |d|
  {
    DividedIs(d, c);
  }

  lemma BoostedAt(d: seq<Entry>, factor: string -> real, i: nat)
    requires i < |d| == |Boosted(d, factor)|
    ensures Boosted(d, factor)[i] == d[i].(p := d[i].p * factor(d[i].endpoint))
  {
    BoostedIs(d, factor);
  }

  lemma DividedAt(d: seq<Entry>, c: real, i: nat)
    requires c != 0.0 && i < |d| == |Divided(d, c)|
    ensures Divided(d, c)[i] == d[i].(p := d[i].p / c)
  {
    DividedIs(d, c);
  }

  lemma Swap(a: real, c: real, f: real)
    requires c != 0.0
    ensures a / c * f == a * f / c
  {
  }

  lemma {:induction false} DividedTwice(d: seq<Entry>, a: real, b: real, c: real)
    requires a != 0.0 && b != 0.0 && c != 0.0 && c == a * b
    ensures Divided(Divided(d, a), b) == Divided(d, c)
  {
    if d != [] {
      DividedTwice(d[1..], a, b, c);
      QuotientTwice(d[0].p, a, b);
    }
  }

  lemma QuotientTwice(x: real, a: real, b: real)
    requires a != 0.0 && b != 0.0
    ensures a * b != 0.0 && x / a / b == x / (a * b)
  {
    var q := x / a / b;
    assert q * b == x / a;
    assert q * (a * b) == x by {
      assert q * (a * b) == (q * b) * a;
    }
  }

  /** Normalizing does not depend on the scale. */
  lemma ScaleFree(d: seq<Entry>, c: real)
    requires Total(d) > 0.0 && c > 0.0
    ensures Normalized(Divided(d, c)) == Normalized(d)
  {
    hide Divided, Total;
    DividedIs(d, c);
    QuotientSign(Total(d), c);
    QuotientBack(Total(d), c);
    DividedTwice(d, c, Total(d) / c, Total(d));
  }

  lemma BoostedTotal(d: seq<Entry>, factor: string -> real)
    requires NonNegative(d) && Positive(d, factor) && Total(d) > 0.0
    ensures Total(Boosted(d, factor)) > 0.0
  {
    hide Boosted, Total;
    BoostedKeeps(d, factor);
    TotalZero(d);
    TotalZero(Boosted(d, factor));
  }

  /** Normalizing before a boost makes no difference to the boosted distribution. */
  lemma BoostOnce(d: seq<Entry>, factor: string -> real)
    requires NonNegative(d) && Positive(d, factor)
    ensures Normalized(Boosted(Normalized(d), factor)) == Normalized(Boosted(d, factor))
  {
    hide Boosted, Divided, Total;
    if Total(d) > 0.0 {
      BoostedTotal(d, factor);
      BoostedDivided(d, factor, Total(d));
      ScaleFree(Boosted(d, factor), Total(d));
    }
  }

  lemma QuotientBack(x: real, c: real)
    requires c != 0.0
    ensures c * (x / c) == x
  {
  }

  // ---------------------------------------------------------------- in place

  method Sum(a: array<Entry>) returns (total: real)
    ensures total == Total(a[..])
  {
    total := 0.0;
    for i := 0 to a.Length
      invariant total == Total(a[..i])
    {
      TotalSplits(a[..i], [a[i]]);
      assert a[..i + 1] == a[..i] + [a[i]];
      total := total + a[i].p;
    }
    assert a[..a.Length] == a[..];
  }

  method Normalize(a: array<Entry>)
    modifies a
    ensures a[..] == Normalized(old(a[..]))
  {
    hide Total, Divided;
    ghost var was := a[..];
    var sum := Sum(a);
    if sum > 0.0 {
      DividedIs(was, sum);
      for i := 0 to a.Length
        invariant forall j :: 0 <= j < i ==> a[j] == Divided(was, sum)[j]
        invariant forall j :: i <= j < a.Length ==> a[j] == was[j]
      {
        DividedAt(was, sum, i);
        a[i] := a[i].(p := a[i].p / sum);
      }
      assert a[..] == Divided(was, sum);
    }
  }
}
