/** Products and finite sets of numbers, where the solver needs a hand. */
module Arithmetic {

  lemma MulMonotone(a: nat, b: nat, c: nat, d: nat)
    requires a <= b && c <= d
    ensures a * c <= b * d
  {
    assert a * c <= b * c;
    assert b * c <= b * d;
  }

  lemma MulStrict(a: nat, b: nat, c: nat)
    requires a < b && c > 0
    ensures a * c < b * c && c * a < c * b
  {
  }

  lemma {:induction false} BoundedSet(s: set<nat>, n: nat)
    requires forall i :: i in s ==> i < n
    ensures |s| <= n
  {
    if n > 0 {
      BoundedSet(s - {n - 1}, n - 1);
      if n - 1 in s {
        assert |s| == |s - {n - 1}| + 1;
      } else {
        assert s - {n - 1} == s;
      }
    } else {
      assert s == {};
    }
  }

  /** A set of `n` numbers below `n` holds all of them. */
  lemma {:induction false} FullSet(s: set<nat>, n: nat)
    requires (forall i :: i in s ==> i < n) && |s| == n
    ensures forall i: nat :: i < n ==> i in s
  {
    if n > 0 {
      if n - 1 in s {
        FullSet(s - {n - 1}, n - 1);
      } else {
        BoundedSet(s, n - 1);
      }
    }
  }
}
