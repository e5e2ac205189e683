/** The ascending order of run ids in which the sweeps visit the runs. */
module RunOrder {
  import opened RunTypes

  lemma {:induction false} BeforeTotal(a: string, b: string)
    ensures a == b || Before(a, b) || Before(b, a)
  {
    if a != "" && b != "" && a[0] == b[0] {
      BeforeTotal(a[1..], b[1..]);
      assert a == [a[0]] + a[1..] && b == [b[0]] + b[1..];
    }
  }

  /** One id is before another if it is a proper beginning of it, or has the smaller letter where they first differ. */
  lemma {:induction false} BeforeIff(a: string, b: string)
    ensures Before(a, b) <==> exists n: nat :: FirstDiffers(a, b, n)
  {
    if a != "" && b != "" && a[0] == b[0] {
      BeforeIff(a[1..], b[1..]);
      if Before(a, b) {
        var n: nat :| FirstDiffers(a[1..], b[1..], n);
        assert a[..n + 1] == [a[0]] + a[1..][..n] && b[..n + 1] == [b[0]] + b[1..][..n];
        assert FirstDiffers(a, b, n + 1);
      }
      if n: nat :| FirstDiffers(a, b, n) {
        assert n > 0;
        assert a[1..][..n - 1] == a[..n][1..] && b[1..][..n - 1] == b[..n][1..];
        assert FirstDiffers(a[1..], b[1..], n - 1);
      }
    } else if Before(a, b) {
      assert FirstDiffers(a, b, 0);
    } else {
      forall n: nat ensures !FirstDiffers(a, b, n) {
        if 0 < n <= |a| && n < |b| { assert a[..n][0] == a[0] && b[..n][0] == b[0]; }
      }
    }
  }

  predicate FirstDiffers(a: string, b: string, n: nat) {
    n <= |a| && n < |b| && a[..n] == b[..n] && (n == |a| || a[n] < b[n])
  }

  lemma {:induction false} BeforeTransitive(a: string, b: string, c: string)
    requires Before(a, b) && Before(b, c)
    ensures Before(a, c)
  {
    if a != "" && a[0] == b[0] && b[0] == c[0] { BeforeTransitive(a[1..], b[1..], c[1..]); }
  }

  lemma {:induction false} BeforeNotBoth(a: string, b: string)
    requires Before(a, b)
    ensures !Before(b, a)
  {
    if a != "" && a[0] == b[0] { BeforeNotBoth(a[1..], b[1..]); }
  }

  lemma {:induction false} BeforeIrreflexive(a: string)
    ensures !Before(a, a)
  {
    if a != "" { BeforeIrreflexive(a[1..]); }
  }

  /** A finite set of ids that is not empty has a first one. */
  lemma {:induction false} HasFirst(ids: set<string>) returns (first: string)
    requires ids != {}
    ensures first in ids && forall x :: x in ids && x != first ==> Before(first, x)
  {
    var y :| y in ids;
    if ids == {y} {
      first := y;
    } else {
      var rest := ids - {y};
      var f := HasFirst(rest);
      BeforeTotal(f, y);
      first := if Before(y, f) then y else f;
      forall x | x in ids && x != first ensures Before(first, x) {
        if Before(y, f) && x != f { BeforeTransitive(y, f, x); }
      }
    }
  }
}
