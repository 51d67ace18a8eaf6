/** The lexicographic order on byte strings that the ordered maps of the source iterate in. */
module Order {
  import opened Common

  predicate Below(a: Bytes, b: Bytes) {
    if b == [] then false
    else if a == [] then true
    else a[0] < b[0] || (a[0] == b[0] && Below(a[1..], b[1..]))
  }

  lemma {:induction false} Trichotomy(a: Bytes, b: Bytes)
    ensures Below(a, b) || a == b || Below(b, a)
    ensures !(Below(a, b) && Below(b, a)) && !(a == b && Below(a, b))
  {
    if a != [] && b != [] {
      Trichotomy(a[1..], b[1..]);
      assert a[0] == b[0] && a[1..] == b[1..] ==> [a[0]] + a[1..] == [b[0]] + b[1..];
      assert a == [a[0]] + a[1..] && b == [b[0]] + b[1..];
    }
  }

  lemma {:induction false} Transitive(a: Bytes, b: Bytes, c: Bytes)
    requires Below(a, b) && Below(b, c)
    ensures Below(a, c)
  {
    if a != [] {
      if a[0] == b[0] == c[0] {
        Transitive(a[1..], b[1..], c[1..]);
      }
    }
  }

  predicate IsLeast(s: set<Bytes>, k: Bytes) {
    k in s && forall x :: x in s ==> x == k || Below(k, x)
  }

  lemma {:induction false} LeastExists(s: set<Bytes>) returns (k: Bytes)
    requires s != {}
    ensures IsLeast(s, k)
    decreases |s|
  {
    var x :| x in s;
    var rest := s - {x};
    if rest == {} {
      k := x;
      assert s == {x};
    } else {
      k := LeastExists(rest);
      Trichotomy(x, k);
      if Below(x, k) {
        forall y | y in s && y != x ensures Below(x, y) {
          if y != k {
            Transitive(x, k, y);
          }
        }
        k := x;
      }
    }
  }

  lemma LeastUnique(s: set<Bytes>, a: Bytes, b: Bytes)
    requires IsLeast(s, a) && IsLeast(s, b)
    ensures a == b
  {
    Trichotomy(a, b);
  }

  lemma OneLeast(s: set<Bytes>)
    requires s != {}
    ensures exists k :: IsLeast(s, k)
    ensures forall a, b :: IsLeast(s, a) && IsLeast(s, b) ==> a == b
  {
    var k := LeastExists(s);
    forall a, b | IsLeast(s, a) && IsLeast(s, b) ensures a == b {
      LeastUnique(s, a, b);
    }
  }

  function Least(s: set<Bytes>): (k: Bytes)
    requires s != {}
    ensures IsLeast(s, k)
  {
    OneLeast(s);
    var k :| k in s && IsLeast(s, k);
    k
  }

  /** The elements of a set in ascending order. */
  function Sorted(s: set<Bytes>): (keys: seq<Bytes>)
    decreases |s|
  {
    if s == {} then [] else [Least(s)] + Sorted(s - {Least(s)})
  }

  ghost predicate Ascending(keys: seq<Bytes>) {
    forall i, j :: 0 <= i < j < |keys| ==> Below(keys[i], keys[j])
  }

  lemma {:induction false} SortedIs(s: set<Bytes>)
    ensures Ascending(Sorted(s)) && |Sorted(s)| == |s| && forall k :: k in Sorted(s) <==> k in s
    decreases |s|
  {
    if s != {} {
      var k, rest := Least(s), Sorted(s - {Least(s)});
      SortedIs(s - {k});
      forall j | 0 <= j < |rest| ensures Below(k, rest[j]) {
        assert rest[j] in rest;
      }
    }
  }

  /** An ascending listing of a set is its sorted listing. */
  lemma {:induction false} SortedUnique(keys: seq<Bytes>)
    requires Ascending(keys)
    ensures Sorted(set k | k in keys) == keys
  {
    var s := set k | k in keys;
    if keys == [] {
      assert s == {};
    } else {
      var rest := keys[1..];
      assert keys[0] in s;
      assert IsLeast(s, keys[0]);
      LeastUnique(s, keys[0], Least(s));
      assert s - {keys[0]} == set k | k in rest by {
        forall k | k in rest ensures k != keys[0] {
          Trichotomy(keys[0], k);
        }
        assert forall k :: k in keys <==> k == keys[0] || k in rest by {
          assert keys == [keys[0]] + rest;
        }
      }
      SortedUnique(rest);
    }
  }
}
