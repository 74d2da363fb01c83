/**
 * Prices are numeric(10,2) text; the policy turns one into cents with Math.round(Number(price) * 100)
 * and adds up in floating point.  The two roundings are characterised by their relative error
 * (round to nearest, section 4.3.1 of IEEE 754-2008) and by exactness on small integers.
 */
module Cents {
  import opened Common
  import opened OrderPolicy

  const UNIT_ROUNDOFF: real := 1.0 / 9007199254740992.0
  const SAFE_INTEGER := 9007199254740992

  ghost function Abs(x: real): real
  {
    if x < 0.0 then -x else x
  }

  /** `result` is a correctly rounded double for `exact`. */
  ghost predicate Rounds(exact: real, result: real)
  {
    && Abs(result - exact) <= UNIT_ROUNDOFF * Abs(exact)
    && (exact == exact.Floor as real && Abs(exact) <= SAFE_INTEGER as real ==> result == exact)
  }

  function MathRound(y: real): int
  {
    (y + 0.5).Floor
  }

  /** Math.round gives the nearest integer, and the greater one at a tie. */
  lemma MathRoundIsNearest(y: real)
    ensures y - 0.5 < MathRound(y) as real <= y + 0.5
  {}

  lemma SmallErrorRounds(n: int, y: real)
    requires Abs(y - n as real) < 0.5
    ensures MathRound(y) == n
  {
    assert n as real < y + 0.5 < n as real + 1.0;
  }

  /** Every price of the column converts to exactly its number of cents. */
  lemma PriceToCents(n: int, number: real, scaled: real)
    requires -10000000000 < n < 10000000000
    requires Rounds(n as real / 100.0, number)
    requires Rounds(number * 100.0, scaled)
    ensures MathRound(scaled) == n
  {
    var price := n as real / 100.0;
    assert Abs(price) <= 100000000.0;
    assert Abs(number - price) <= 0.0000001;
    assert Abs(number * 100.0 - n as real) <= 0.00001;
    assert Abs(number * 100.0) <= 10000000001.0;
    assert Abs(scaled - number * 100.0) <= 0.00001;
    SmallErrorRounds(n, scaled);
  }

  /** A floating-point run of the charging loop: one rounded product and one rounded addition per key. */
  ghost predicate FloatRun(keys: seq<ProductId>, total: map<ProductId, nat>, products: map<ProductId, Product>,
                           terms: seq<real>, sums: seq<real>)
    requires forall p :: p in keys ==> p in total && p in products
  {
    && |terms| == |keys| && |sums| == |keys| + 1 && sums[0] == 0.0
    && (forall i :: 0 <= i < |keys| ==> Rounds((products[keys[i]].price * total[keys[i]]) as real, terms[i]))
    && (forall i :: 0 <= i < |keys| ==> Rounds(sums[i] + terms[i], sums[i + 1]))
  }

  ghost predicate Safe(n: int)
  {
    -SAFE_INTEGER <= n <= SAFE_INTEGER
  }

  ghost predicate SafeCharges(keys: seq<ProductId>, total: map<ProductId, nat>, products: map<ProductId, Product>)
    requires forall p :: p in keys ==> p in total && p in products
  {
    && (forall i :: 0 <= i < |keys| ==> Safe(products[keys[i]].price * total[keys[i]]))
    && (forall i :: 0 <= i <= |keys| ==>
          ChargeKeys(keys[..i], total, products).Charged? ==> Safe(ChargeKeys(keys[..i], total, products).cents))
  }

  lemma RoundsSafe(n: int, x: real)
    requires Safe(n) && Rounds(n as real, x)
    ensures x == n as real
  {
    assert (n as real).Floor == n;
  }

  /** While every product and partial sum is at most 2^53, the floating-point total is the exact one. */
  lemma {:induction false} FloatTotalIsExact(keys: seq<ProductId>, total: map<ProductId, nat>, products: map<ProductId, Product>,
                                             terms: seq<real>, sums: seq<real>)
    requires forall p :: p in keys ==> p in total && p in products
    requires FloatRun(keys, total, products, terms, sums)
    requires SafeCharges(keys, total, products)
    requires ChargeKeys(keys, total, products).Charged?
    ensures sums[|keys|] == ChargeKeys(keys, total, products).cents as real
  {
    if keys != [] {
      var n := |keys| - 1;
      forall i | 0 <= i <= n
        ensures keys[..n][..i] == keys[..i]
      {}
      FloatTotalIsExact(keys[..n], total, products, terms[..n], sums[..n + 1]);
      var charge := products[keys[n]].price * total[keys[n]];
      RoundsSafe(charge, terms[n]);
      assert keys[..|keys|] == keys;
      RoundsSafe(ChargeKeys(keys, total, products).cents, sums[n + 1]);
    }
  }

  // ----- The whole plan in floating point -----

  /** The aggregation as it runs: `q[i]` is the map after `i` lines, each quantity a rounded sum. */
  ghost predicate FloatQuantities(lines: seq<Line>, q: seq<map<ProductId, real>>)
  {
    && |q| == |lines| + 1 && q[0] == map[]
    && forall i :: 0 <= i < |lines| ==> FloatAdded(q[i], lines[i], q[i + 1])
  }

  ghost predicate FloatAdded(before: map<ProductId, real>, l: Line, after: map<ProductId, real>)
  {
    && l.product in after && after == before[l.product := after[l.product]]
    && Rounds((if l.product in before then before[l.product] else 0.0) + l.quantity as real, after[l.product])
  }

  ghost function Exact(total: map<ProductId, nat>): map<ProductId, real>
  {
    map p | p in total :: total[p] as real
  }

  ghost predicate SafeQuantities(lines: seq<Line>)
  {
    forall p :: Safe(QuantityOf(lines, p))
  }

  lemma {:induction false} FloatQuantitiesAreExact(lines: seq<Line>, q: seq<map<ProductId, real>>)
    requires FloatQuantities(lines, q) && SafeQuantities(lines)
    ensures q[|lines|] == Exact(Aggregate(lines).total)
  {
    if lines != [] {
      var n := |lines| - 1;
      forall p
        ensures Safe(QuantityOf(lines[..n], p))
      {
        assert Safe(QuantityOf(lines, p));
      }
      FloatQuantitiesAreExact(lines[..n], q[..n + 1]);
      ExactAdded(lines, q[n], q[n + 1]);
    }
  }

  lemma ExactAdded(lines: seq<Line>, before: map<ProductId, real>, after: map<ProductId, real>)
    requires lines != [] && SafeQuantities(lines)
    requires before == Exact(Aggregate(lines[..|lines| - 1]).total) && FloatAdded(before, lines[|lines| - 1], after)
    ensures after == Exact(Aggregate(lines).total)
  {
    hide Rounds, Aggregate;
    var front, l := lines[..|lines| - 1], lines[|lines| - 1];
    TotalAfterLine(lines);
    var total, sum := Aggregate(front).total, QuantityOf(lines, l.product);
    assert (if l.product in before then before[l.product] else 0.0) + l.quantity as real == sum as real;
    assert Safe(sum);
    RoundsSafe(sum, after[l.product]);
  }

  lemma TotalAfterLine(lines: seq<Line>)
    requires lines != []
    ensures var (front, l) := (Aggregate(lines[..|lines| - 1]).total, lines[|lines| - 1]);
      && Aggregate(lines).total == front[l.product := QuantityOf(lines, l.product)]
      && QuantityOf(lines, l.product) == (if l.product in front then front[l.product] else 0) + l.quantity
  {
    hide Aggregate, Requested;
    AggregateTotals(lines[..|lines| - 1]);
    AggregateSnoc(lines);
  }

  lemma AggregateSnoc(lines: seq<Line>)
    requires lines != []
    ensures Aggregate(lines) == AddLine(Aggregate(lines[..|lines| - 1]), lines[|lines| - 1])
  {}

  /** The charging loop as it runs: price text to number, times 100, rounded, times quantity, added up. */
  ghost predicate FloatPlan(products: map<ProductId, Product>, lines: seq<Line>, q: seq<map<ProductId, real>>,
                            numbers: map<ProductId, real>, scaled: map<ProductId, real>, terms: seq<real>, sums: seq<real>)
  {
    && FloatQuantities(lines, q)
    && var keys := Aggregate(lines).keys;
       && |terms| == |keys| && |sums| == |keys| + 1 && sums[0] == 0.0
       && (forall i :: 0 <= i < |keys| ==> FloatTerm(products, q[|lines|], numbers, scaled, keys[i], terms[i]))
       && (forall i :: 0 <= i < |keys| ==> Rounds(sums[i] + terms[i], sums[i + 1]))
  }

  ghost predicate FloatTerm(products: map<ProductId, Product>, q: map<ProductId, real>,
                            numbers: map<ProductId, real>, scaled: map<ProductId, real>, p: ProductId, term: real)
  {
    && p in products && p in q && p in numbers && p in scaled
    && Rounds(products[p].price as real / 100.0, numbers[p])
    && Rounds(numbers[p] * 100.0, scaled[p])
    && Rounds(MathRound(scaled[p]) as real * q[p], term)
  }

  lemma FloatTermIsCharge(products: map<ProductId, Product>, total: map<ProductId, nat>,
                          numbers: map<ProductId, real>, scaled: map<ProductId, real>, p: ProductId, term: real)
    requires p in total && FloatTerm(products, Exact(total), numbers, scaled, p, term)
    requires -10000000000 < products[p].price < 10000000000
    ensures Rounds((products[p].price * total[p]) as real, term)
  {
    hide Rounds, MathRound;
    PriceToCents(products[p].price, numbers[p], scaled[p]);
    RealProduct(products[p].price, total[p]);
  }

  lemma {:induction false} RealProduct(m: int, n: nat)
    ensures (m * n) as real == m as real * n as real
  {
    if n > 0 {
      RealProduct(m, n - 1);
      assert m * n == m * (n - 1) + m;
      assert m as real * n as real == m as real * (n - 1) as real + m as real;
    }
  }

  /**
   * From price text and line quantities to the amount: with every price in the column's range, the floating-point
   * total is exactly the plan's, as long as quantities, charges and partial sums stay within 2^53.
   */
  lemma FloatPlanIsExact(products: map<ProductId, Product>, lines: seq<Line>, q: seq<map<ProductId, real>>,
                         numbers: map<ProductId, real>, scaled: map<ProductId, real>, terms: seq<real>, sums: seq<real>)
    requires BuildPlan(products, lines).Planned?
    requires forall p :: p in Requested(lines) ==> p in products && -10000000000 < products[p].price < 10000000000
    requires FloatPlan(products, lines, q, numbers, scaled, terms, sums)
    requires SafeQuantities(lines)
    requires (forall p :: p in Aggregate(lines).keys ==> p in Aggregate(lines).total && p in products)
             && SafeCharges(Aggregate(lines).keys, Aggregate(lines).total, products)
    ensures q[|lines|] == Exact(Aggregate(lines).total)
    ensures sums[|sums| - 1] == BuildPlan(products, lines).plan.amountCents as real
  {
    hide Rounds, FloatTerm, SafeCharges, SafeQuantities, Aggregate, ChargeKeys;
    var Quantities(keys, total) := Aggregate(lines);
    FloatQuantitiesAreExact(lines, q);
    AggregateTotals(lines);
    forall i | 0 <= i < |keys|
      ensures Rounds((products[keys[i]].price * total[keys[i]]) as real, terms[i])
    {
      FloatTermIsCharge(products, total, numbers, scaled, keys[i], terms[i]);
    }
    FloatTotalIsExact(keys, total, products, terms, sums);
  }

  /** With no negative price it is enough that the final total is within 2^53. */
  lemma SafeTotalIsEnough(products: map<ProductId, Product>, lines: seq<Line>)
    requires BuildPlan(products, lines).Planned? && Safe(BuildPlan(products, lines).plan.amountCents)
    requires forall p :: p in Requested(lines) ==> p in products && products[p].price >= 0
    ensures forall p :: p in Aggregate(lines).keys ==> p in Aggregate(lines).total && p in products
    ensures SafeCharges(Aggregate(lines).keys, Aggregate(lines).total, products)
  {
    hide SafeCharges, ChargeKeys;
    var Quantities(keys, total) := Aggregate(lines);
    AggregateTotals(lines);
    MissingExactly(keys, products);
    ChargesGrow(keys, total, products);
  }

  lemma {:induction false} ChargesGrow(keys: seq<ProductId>, total: map<ProductId, nat>, products: map<ProductId, Product>)
    requires forall p :: p in keys ==> p in total && p in products && products[p].price >= 0
    requires ChargeKeys(keys, total, products).Charged? && Safe(ChargeKeys(keys, total, products).cents)
    ensures SafeCharges(keys, total, products)
  {
    if keys != [] {
      var n := |keys| - 1;
      ChargeOfFront(keys, total, products);
      ChargesNonNegative(keys[..n], total, products);
      ChargesGrow(keys[..n], total, products);
      assert keys[..|keys|] == keys;
      forall i | 0 <= i <= n
        ensures keys[..n][..i] == keys[..i]
      {}
    }
  }

  lemma {:induction false} ChargesNonNegative(keys: seq<ProductId>, total: map<ProductId, nat>, products: map<ProductId, Product>)
    requires forall p :: p in keys ==> p in total && p in products && products[p].price >= 0
    requires ChargeKeys(keys, total, products).Charged?
    ensures ChargeKeys(keys, total, products).cents >= 0
  {
    if keys != [] {
      ChargeOfFront(keys, total, products);
      ChargesNonNegative(keys[..|keys| - 1], total, products);
    }
  }

  lemma ChargeOfFront(keys: seq<ProductId>, total: map<ProductId, nat>, products: map<ProductId, Product>)
    requires keys != [] && forall p :: p in keys ==> p in total && p in products && products[p].price >= 0
    requires ChargeKeys(keys, total, products).Charged?
    ensures var (front, p) := (ChargeKeys(keys[..|keys| - 1], total, products), keys[|keys| - 1]);
      && front.Charged? && front.cents + products[p].price * total[p] == ChargeKeys(keys, total, products).cents
      && products[p].price * total[p] >= 0
  {
    ProductNonNegative(products[keys[|keys| - 1]].price, total[keys[|keys| - 1]]);
  }

  lemma ProductNonNegative(m: int, n: nat)
    requires m >= 0
    ensures m * n >= 0
  {}
}
