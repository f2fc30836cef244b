/** The order of strings. */
module Strings {

  predicate Precedes(a: string, b: string)
  {
    b != "" && (a == "" || a[0] < b[0] || (a[0] == b[0] && Precedes(a[1..], b[1..])))
  }

  /** The strings agree up to some point, at which the first ends or has the smaller character. */
  ghost predicate PrecedesAt(a: string, b: string, i: nat)
  {
    i <= |a| && i < |b| && a[..i] == b[..i] && (i < |a| ==> a[i] < b[i])
  }

  lemma FirstAlike(a: string, b: string, i: nat)
    requires PrecedesAt(a, b, i)
    ensures i > 0 ==> a != "" && b != "" && a[0] == b[0]
  {
    if i > 0 {
      assert a[0] == a[..i][0] == b[..i][0] == b[0];
    }
  }

  lemma {:induction false} PrecedesExactly(a: string, b: string)
    ensures Precedes(a, b) <==> exists i: nat :: PrecedesAt(a, b, i)
  {
    if b == "" || a == "" || a[0] != b[0] {
      if b != "" && Precedes(a, b) {
        assert PrecedesAt(a, b, 0);
      }
      if i: nat :| PrecedesAt(a, b, i) {
        FirstAlike(a, b, i);
      }
    } else {
      PrecedesExactly(a[1..], b[1..]);
      if i: nat :| PrecedesAt(a[1..], b[1..], i) {
        assert a[..i + 1] == [a[0]] + a[1..][..i] && b[..i + 1] == [b[0]] + b[1..][..i];
        assert PrecedesAt(a, b, i + 1);
      }
      if i: nat :| PrecedesAt(a, b, i) {
        assert a[1..][..i - 1] == a[..i][1..] == b[..i][1..] == b[1..][..i - 1];
        assert PrecedesAt(a[1..], b[1..], i - 1);
      }
    }
  }

  lemma {:induction false} PrecedesTransitive(a: string, b: string, c: string)
    requires Precedes(a, b) && Precedes(b, c)
    ensures Precedes(a, c)
  {
    if a != "" && a[0] == b[0] && b[0] == c[0] {
      PrecedesTransitive(a[1..], b[1..], c[1..]);
    }
  }

  lemma {:induction false} PrecedesTotal(a: string, b: string)
    ensures a == b || Precedes(a, b) || Precedes(b, a)
  {
    if a != "" && b != "" && a[0] == b[0] {
      PrecedesTotal(a[1..], b[1..]);
      assert a == [a[0]] + a[1..] && b == [b[0]] + b[1..];
    }
  }

  lemma {:induction false} PrecedesAsymmetric(a: string, b: string)
    ensures !(Precedes(a, b) && Precedes(b, a))
  {
    if a != "" && b != "" && a[0] == b[0] {
      PrecedesAsymmetric(a[1..], b[1..]);
    }
  }
}
