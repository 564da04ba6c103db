/** Shared datatypes and the few facts about finite sets that the counting arguments need. */
module Prelude {

  datatype Option<+T> = None | Some(value: T)

  datatype Result<+T, +E> = Ok(value: T) | Err(error: E)

  lemma SubsetCard<T>(a: set<T>, b: set<T>)
    requires a <= b
    ensures |a| <= |b|
  {
    assert b == a + (b - a);
  }

  /** Replacing at most one member never makes a set larger. */
  lemma SwapCard<T>(a: set<T>, b: set<T>, x: T, y: T)
    requires x in a && b <= a - {x} + {y}
    ensures |b| <= |a|
  {
    SubsetCard(b, a - {x} + {y});
  }

  /** A set that an injective function sends into another one is no larger than it. */
  lemma {:induction false} InjectionCard<S, T>(a: set<S>, b: set<T>, f: map<S, T>)
    requires a <= f.Keys
    requires forall x :: x in a ==> f[x] in b
    requires forall x, y :: x in a && y in a && f[x] == f[y] ==> x == y
    ensures |a| <= |b|
  {
    if a != {} {
      var x :| x in a;
      InjectionCard(a - {x}, b - {f[x]}, f);
    }
  }

  lemma DivUnique(x: int, p: nat, q: int, r: int)
    requires p > 0 && x == q * p + r && 0 <= r < p
    ensures x / p == q && x % p == r
  {
    var e := x / p;
    assert e * p + x % p == x;
    if e > q {
      Scale(q + 1, e, p);
      assert false;
    } else if e < q {
      Scale(e + 1, q, p);
      assert false;
    }
  }

  lemma Scale(x: int, y: int, p: nat)
    requires x <= y
    ensures x * p <= y * p
  {
  }
}
