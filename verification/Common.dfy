/** Shared vocabulary: optional values, the identifiers of the system, and sums over finite sets. */
module Common {
  datatype Option<+T> = None | Some(value: T)

  // Row and message identifiers are UUIDs in the system; only equality and freshness matter.
  type UserId = nat
  type ProductId = nat
  type OrderId = nat
  type MessageId = nat
  type PaymentId = nat
  // Idempotency keys are text and may be empty, which the code treats as absent.
  type Key = string
}

module Sums {
  /** The sum of `f` over `s`. */
  ghost function Sum(s: set<nat>, f: nat -> int): int
  {
    if s == {} then 0 else
    var x :| x in s;
    f(x) + Sum(s - {x}, f)
  }

  /** Any element may be taken out first. */
  lemma {:induction false} SumExtract(s: set<nat>, f: nat -> int, x: nat)
    requires x in s
    ensures Sum(s, f) == f(x) + Sum(s - {x}, f)
  {
    var y :| y in s && Sum(s, f) == f(y) + Sum(s - {y}, f);
    if x != y {
      SumExtract(s - {y}, f, x);
      SumExtract(s - {x}, f, y);
      assert s - {y} - {x} == s - {x} - {y};
    }
  }

  lemma {:induction false} SumAgree(s: set<nat>, f: nat -> int, g: nat -> int)
    requires forall x :: x in s ==> f(x) == g(x)
    ensures Sum(s, f) == Sum(s, g)
  {
    if s != {} {
      var x :| x in s;
      SumExtract(s, f, x);
      SumExtract(s, g, x);
      SumAgree(s - {x}, f, g);
    }
  }

  /** Changing the summand at one point changes the sum by the difference there. */
  lemma SumChange(s: set<nat>, f: nat -> int, g: nat -> int, x: nat)
    requires x in s
    requires forall y :: y in s && y != x ==> f(y) == g(y)
    ensures Sum(s, g) == Sum(s, f) - f(x) + g(x)
  {
    SumExtract(s, f, x);
    SumExtract(s, g, x);
    SumAgree(s - {x}, f, g);
  }

  lemma SumAdd(s: set<nat>, f: nat -> int, g: nat -> int, x: nat)
    requires x !in s
    requires forall y :: y in s ==> f(y) == g(y)
    ensures Sum(s + {x}, g) == Sum(s, f) + g(x)
  {
    SumExtract(s + {x}, g, x);
    assert s + {x} - {x} == s;
    SumAgree(s, f, g);
  }

  lemma {:induction false} SumNonNegative(s: set<nat>, f: nat -> int)
    requires forall x :: x in s ==> f(x) >= 0
    ensures Sum(s, f) >= 0
    ensures forall x :: x in s ==> f(x) <= Sum(s, f)
  {
    forall x | x in s
      ensures f(x) <= Sum(s, f)
    {
      SumExtract(s, f, x);
      SumNonNegative(s - {x}, f);
    }
  }

  /** There is always an unused identifier. */
  lemma {:induction false} UnusedId(s: set<nat>) returns (x: nat)
    ensures x !in s && forall y :: y in s ==> y < x
  {
    x := 0;
    if s != {} {
      var y :| y in s;
      var z := UnusedId(s - {y});
      x := if z <= y then y + 1 else z;
      forall w | w in s
        ensures w < x
      {
        assert w == y || w in s - {y};
      }
    }
  }
}
