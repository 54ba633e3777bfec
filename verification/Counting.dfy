/** Cardinalities: distinct sequences, bijections and division. */
module Counting {

  method Any<T>(s: set<T>) returns (x: T)
    requires s != {}
    ensures x in s
  {
    x :| x in s;
  }

  function Elements(s: seq<int>): (r: set<int>)
    ensures forall x :: x in r <==> x in s
  {
    set x | x in s
  }

  lemma {:induction false} DistinctSize(s: seq<int>)
    requires forall i, j | 0 <= i < j < |s| :: s[i] != s[j]
    ensures |Elements(s)| == |s|
    decreases s
  {
    if s == [] {
      assert Elements(s) == {};
    } else {
      var last := s[|s| - 1];
      var rest := s[..|s| - 1];
      DistinctSize(rest);
      assert last !in rest;
      assert s == rest + [last];
      assert Elements(s) == Elements(rest) + {last};
    }
  }

  /** A set and its image under a function that is injective on it have the same size. */
  lemma {:induction false} ImageSize<A, B>(a: set<A>, b: set<B>, f: map<A, B>)
    requires f.Keys == a
    requires forall x <- a :: f[x] in b
    requires forall x, y | x in a && y in a && f[x] == f[y] :: x == y
    requires forall z <- b :: exists x :: x in a && f[x] == z
    ensures |a| == |b|
    decreases a
  {
    if a == {} {
      assert forall z <- b :: false;
      assert b == {};
    } else {
      var x :| x in a;
      var f' := map y | y in a && y != x :: f[y];
      forall z <- b - {f[x]} ensures exists y :: y in a - {x} && f'[y] == z {
        var y :| y in a && f[y] == z;
        assert y in a - {x} && f'[y] == z;
      }
      assert f'.Keys == a - {x};
      ImageSize(a - {x}, b - {f[x]}, f');
    }
  }

  lemma MulMonotone(a: int, b: int, p: int)
    requires p > 0
    ensures a <= b ==> a * p <= b * p
    ensures (a + 1) * p == a * p + p
  {}

  lemma MulDiv(n: int, x: int, p: int)
    requires p > 0 && n * p <= x
    ensures n <= x / p
  {
    assert x == x / p * p + x % p;
    MulMonotone(x / p, x / p, p);
    MulMonotone(x / p + 1, n, p);
  }

  lemma DivUnique(q: int, x: int, p: int)
    requires p > 0 && q * p <= x < q * p + p
    ensures x / p == q
  {
    MulDiv(q, x, p);
    assert x == x / p * p + x % p;
    MulMonotone(q, q, p);
    MulMonotone(q + 1, x / p, p);
  }

  lemma DivShift(x: int, p: int)
    requires p > 0
    ensures (x + p) / p == x / p + 1
  {
    assert x == x / p * p + x % p;
    MulMonotone(x / p, x / p, p);
    DivUnique(x / p + 1, x + p, p);
  }
}
