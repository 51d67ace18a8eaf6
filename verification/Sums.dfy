/** Sums over sequences. */
module Sums {
  function Total<T>(s: seq<T>, f: T -> nat): nat {
    if s == [] then 0 else Total(s[..|s| - 1], f) + f(s[|s| - 1])
  }

  lemma {:induction false} TotalJoin<T>(a: seq<T>, b: seq<T>, f: T -> nat)
    ensures Total(a + b, f) == Total(a, f) + Total(b, f)
  {
    if b == [] {
      assert a + b == a;
    } else {
      assert (a + b)[..|a + b| - 1] == a + b[..|b| - 1];
      TotalJoin(a, b[..|b| - 1], f);
    }
  }

  lemma TotalOne<T>(x: T, f: T -> nat)
    ensures Total([x], f) == f(x)
  {
    assert [x][..0] == [];
    assert Total([x][..0], f) == 0;
  }

  lemma {:induction false} TotalNext<T>(a: seq<T>, x: T, f: T -> nat)
    ensures Total(a + [x], f) == Total(a, f) + f(x)
  {
    assert (a + [x])[..|a|] == a;
  }

  lemma {:induction false} TotalWithout<T>(a: seq<T>, k: nat, f: T -> nat)
    requires k < |a|
    ensures Total(a[..k] + a[k + 1..], f) + f(a[k]) == Total(a, f)
  {
    SplitAt(a, k);
    TotalAround(a[..k], a[k], a[k + 1..], f);
  }

  lemma SplitAt<T>(a: seq<T>, k: nat)
    requires k < |a|
    ensures a[..k] + [a[k]] + a[k + 1..] == a
  {
  }

  lemma {:induction false} TotalAround<T>(a: seq<T>, x: T, b: seq<T>, f: T -> nat)
    ensures Total(a + [x] + b, f) == Total(a + b, f) + f(x)
  {
    TotalJoin(a + [x], b, f);
    TotalNext(a, x, f);
    TotalJoin(a, b, f);
  }
}
