/**
 * The order policy: quantities aggregated per product, and the plan that either prices an order
 * or says why it cannot be placed.  The loops of the source are methods; each one is proved equal
 * to a function, and the functions are proved to mean what the policy promises about the lines.
 */
module OrderPolicy {
  import opened Common
  import opened Sums

  datatype Line = Line(product: ProductId, quantity: nat)

  // A products row.  The price column is numeric(10,2); `price` counts hundredths.
  datatype Product = Product(price: int, stock: int)
  datatype Snapshot = Snapshot(id: ProductId, row: Product)

  // A JavaScript Map: `keys` is the insertion order, in which iteration runs.
  datatype Quantities = Quantities(keys: seq<ProductId>, total: map<ProductId, nat>)

  datatype Plan = Plan(amountCents: int, quantities: Quantities)

  datatype PlanResult =
    | Planned(plan: Plan)
    | Missing(ids: seq<ProductId>)
    | Insufficient(product: ProductId, requested: nat, available: int)

  // ----- What the lines ask for, line by line -----

  function Requested(lines: seq<Line>): set<ProductId>
  {
    set l | l in lines :: l.product
  }

  function QuantityOf(lines: seq<Line>, p: ProductId): nat
  {
    if lines == [] then 0
    else
      var last := lines[|lines| - 1];
      QuantityOf(lines[..|lines| - 1], p) + if last.product == p then last.quantity else 0
  }

  /** The index of the first line that names the product, or the number of lines. */
  function FirstLine(lines: seq<Line>, p: ProductId): nat
  {
    if lines == [] then 0
    else
      var n := |lines| - 1;
      var earlier := FirstLine(lines[..n], p);
      if earlier < n || lines[n].product == p then earlier else n + 1
  }

  lemma {:induction false} FirstLineMeaning(lines: seq<Line>, p: ProductId)
    ensures FirstLine(lines, p) <= |lines|
    ensures FirstLine(lines, p) < |lines| <==> p in Requested(lines)
    ensures FirstLine(lines, p) < |lines| ==> lines[FirstLine(lines, p)].product == p
    ensures forall i :: 0 <= i < FirstLine(lines, p) ==> lines[i].product != p
  {
    if lines != [] {
      RequestedSnoc(lines);
      FirstLineMeaning(lines[..|lines| - 1], p);
    }
  }

  function PriceOf(products: map<ProductId, Product>, p: ProductId): int
  {
    if p in products then products[p].price else 0
  }

  /** The amount of an order charged line by line. */
  function LineCents(products: map<ProductId, Product>, lines: seq<Line>): int
  {
    if lines == [] then 0
    else
      var last := lines[|lines| - 1];
      LineCents(products, lines[..|lines| - 1]) + PriceOf(products, last.product) * last.quantity
  }

  predicate EnoughFor(products: map<ProductId, Product>, lines: seq<Line>, p: ProductId)
  {
    p in products && QuantityOf(lines, p) <= products[p].stock
  }

  /** Every requested product exists and has enough stock for all lines together. */
  ghost predicate Affordable(products: map<ProductId, Product>, lines: seq<Line>)
  {
    forall p :: p in Requested(lines) ==> EnoughFor(products, lines, p)
  }

  // ----- What the code computes -----

  function AddLine(q: Quantities, l: Line): Quantities
  {
    if l.product in q.total
    then q.(total := q.total[l.product := q.total[l.product] + l.quantity])
    else Quantities(q.keys + [l.product], q.total[l.product := l.quantity])
  }

  function Aggregate(lines: seq<Line>): Quantities
  {
    if lines == [] then Quantities([], map[])
    else AddLine(Aggregate(lines[..|lines| - 1]), lines[|lines| - 1])
  }

  function MissingIds(keys: seq<ProductId>, products: map<ProductId, Product>): seq<ProductId>
  {
    if keys == [] then []
    else
      var last := keys[|keys| - 1];
      MissingIds(keys[..|keys| - 1], products) + if last in products then [] else [last]
  }

  datatype Charge = Charged(cents: int) | Short(product: ProductId, requested: nat, available: int)

  function ChargeKeys(keys: seq<ProductId>, total: map<ProductId, nat>, products: map<ProductId, Product>): Charge
    requires forall p :: p in keys ==> p in total && p in products
  {
    if keys == [] then Charged(0)
    else
      var last := keys[|keys| - 1];
      match ChargeKeys(keys[..|keys| - 1], total, products)
      case Short(p, r, a) => Short(p, r, a)
      case Charged(cents) =>
        if products[last].stock < total[last] then Short(last, total[last], products[last].stock)
        else Charged(cents + products[last].price * total[last])
  }

  function BuildPlan(products: map<ProductId, Product>, lines: seq<Line>): PlanResult
  {
    var q := Aggregate(lines);
    var missing := MissingIds(q.keys, products);
    if missing != [] then Missing(missing)
    else
      AggregateTotals(lines);
      MissingExactly(q.keys, products);
      match ChargeKeys(q.keys, q.total, products)
      case Short(p, r, a) => Insufficient(p, r, a)
      case Charged(cents) => Planned(Plan(cents, q))
  }

  // ----- Aggregation agrees with the lines -----

  ghost predicate Distinct(keys: seq<ProductId>)
  {
    forall i, j :: 0 <= i < j < |keys| ==> keys[i] != keys[j]
  }

  lemma RequestedSnoc(lines: seq<Line>)
    requires lines != []
    ensures Requested(lines) == Requested(lines[..|lines| - 1]) + {lines[|lines| - 1].product}
  {
    var n := |lines| - 1;
    assert lines == lines[..n] + [lines[n]];
  }

  /** The map holds exactly the requested products, each with its total over all lines, each key once. */
  lemma {:induction false} AggregateTotals(lines: seq<Line>)
    ensures var q := Aggregate(lines);
      && q.total.Keys == Requested(lines)
      && (forall p :: p in q.keys <==> p in q.total)
      && Distinct(q.keys)
      && forall p :: p in q.total ==> q.total[p] == QuantityOf(lines, p)
    ensures forall p :: p !in Requested(lines) ==> QuantityOf(lines, p) == 0
  {
    if lines != [] {
      AggregateTotals(lines[..|lines| - 1]);
      RequestedSnoc(lines);
    }
  }

  lemma MissingSnoc(keys: seq<ProductId>, products: map<ProductId, Product>)
    ensures keys == [] ==> MissingIds(keys, products) == []
    ensures keys != [] ==>
      var n := |keys| - 1;
      MissingIds(keys, products) == if keys[n] in products then MissingIds(keys[..n], products) else MissingIds(keys[..n], products) + [keys[n]]
  {}

  lemma {:induction false} MissingExactly(keys: seq<ProductId>, products: map<ProductId, Product>)
    ensures forall p :: p in MissingIds(keys, products) <==> p in keys && p !in products
    ensures MissingIds(keys, products) == [] <==> forall p :: p in keys ==> p in products
  {
    hide MissingIds;
    MissingSnoc(keys, products);
    if keys != [] {
      var n := |keys| - 1;
      MissingExactly(keys[..n], products);
      assert keys == keys[..n] + [keys[n]];
      if MissingIds(keys, products) != [] {
        assert MissingIds(keys, products)[0] in MissingIds(keys, products);
      }
    }
  }

  ghost function KeyCents(products: map<ProductId, Product>, total: map<ProductId, nat>): nat -> int
  {
    p => if p in total then PriceOf(products, p) * total[p] else 0
  }

  ghost function KeySet(keys: seq<ProductId>): set<ProductId>
  {
    set p | p in keys
  }

  ghost predicate FirstShort(keys: seq<ProductId>, total: map<ProductId, nat>, products: map<ProductId, Product>,
                             i: nat, charge: Charge)
    requires i < |keys|
    requires forall p :: p in keys ==> p in total && p in products
  {
    && charge == Short(keys[i], total[keys[i]], products[keys[i]].stock)
    && products[keys[i]].stock < total[keys[i]]
    && forall j :: 0 <= j < i ==> total[keys[j]] <= products[keys[j]].stock
  }

  /** The charging loop fails exactly when some key is short, at the first such key; otherwise it sums over the keys. */
  lemma {:induction false} ChargeMeaning(keys: seq<ProductId>, total: map<ProductId, nat>, products: map<ProductId, Product>)
    requires Distinct(keys)
    requires forall p :: p in keys ==> p in total && p in products
    ensures var charge := ChargeKeys(keys, total, products);
      && (charge.Charged? ==> (forall p :: p in keys ==> total[p] <= products[p].stock)
                              && charge.cents == Sum(KeySet(keys), KeyCents(products, total)))
      && (charge.Short? ==> exists i :: 0 <= i < |keys| && FirstShort(keys, total, products, i, charge))
  {
    if keys != [] {
      var n := |keys| - 1;
      var prefix := keys[..n];
      ChargeMeaning(prefix, total, products);
      var charge := ChargeKeys(prefix, total, products);
      if charge.Short? {
        var i :| 0 <= i < n && FirstShort(prefix, total, products, i, charge);
        assert FirstShort(keys, total, products, i, charge);
      } else {
        assert keys == prefix + [keys[n]];
        if products[keys[n]].stock < total[keys[n]] {
          assert FirstShort(keys, total, products, n, ChargeKeys(keys, total, products));
        }
        LastKeyCents(keys, KeyCents(products, total));
      }
    }
  }

  lemma LastKeyCents(keys: seq<ProductId>, f: nat -> int)
    requires keys != [] && Distinct(keys)
    ensures var n := |keys| - 1; Sum(KeySet(keys), f) == Sum(KeySet(keys[..n]), f) + f(keys[n])
  {
    var n := |keys| - 1;
    assert keys == keys[..n] + [keys[n]];
    assert KeySet(keys) == KeySet(keys[..n]) + {keys[n]};
    SumAdd(KeySet(keys[..n]), f, f, keys[n]);
  }

  ghost function MapCents(products: map<ProductId, Product>, total: map<ProductId, nat>): int
  {
    Sum(total.Keys, KeyCents(products, total))
  }

  lemma KnownProductCents(products: map<ProductId, Product>, total: map<ProductId, nat>, p: ProductId, quantity: nat)
    requires p in total
    ensures MapCents(products, total[p := total[p] + quantity]) == MapCents(products, total) + PriceOf(products, p) * quantity
  {
    hide KeyCents, PriceOf;
    KeyCentsUpdated(products, total, p, quantity);
    var f, g := KeyCents(products, total), KeyCents(products, total[p := total[p] + quantity]);
    assert total[p := total[p] + quantity].Keys == total.Keys;
    SumChange(total.Keys, f, g, p);
  }

  lemma KeyCentsUpdated(products: map<ProductId, Product>, total: map<ProductId, nat>, p: ProductId, quantity: nat)
    requires p in total
    ensures var (f, g) := (KeyCents(products, total), KeyCents(products, total[p := total[p] + quantity]));
      && (forall q :: q != p ==> g(q) == f(q))
      && g(p) == f(p) + PriceOf(products, p) * quantity
  {
    hide PriceOf;
    Distributes(PriceOf(products, p), total[p], quantity);
  }

  lemma Distributes(x: int, m: int, n: int)
    ensures x * (m + n) == x * m + x * n
  {}

  lemma NewProductCents(products: map<ProductId, Product>, total: map<ProductId, nat>, p: ProductId, quantity: nat)
    requires p !in total
    ensures MapCents(products, total[p := quantity]) == MapCents(products, total) + PriceOf(products, p) * quantity
  {
    assert total[p := quantity].Keys == total.Keys + {p};
    SumAdd(total.Keys, KeyCents(products, total), KeyCents(products, total[p := quantity]), p);
  }

  /** One more line adds its own cents to the aggregated sum. */
  lemma AddLineCents(products: map<ProductId, Product>, q: Quantities, p: ProductId, quantity: nat)
    ensures MapCents(products, AddLine(q, Line(p, quantity)).total) == MapCents(products, q.total) + PriceOf(products, p) * quantity
  {
    if p in q.total {
      KnownProductCents(products, q.total, p, quantity);
    } else {
      NewProductCents(products, q.total, p, quantity);
    }
  }

  /** Charging the aggregated totals equals charging the original lines one by one. */
  lemma {:induction false} AggregatedCentsAreLineCents(products: map<ProductId, Product>, lines: seq<Line>)
    ensures MapCents(products, Aggregate(lines).total) == LineCents(products, lines)
  {
    if lines != [] {
      var front, last := lines[..|lines| - 1], lines[|lines| - 1];
      AggregatedCentsAreLineCents(products, front);
      AddLineCents(products, Aggregate(front), last.product, last.quantity);
    }
  }

  // ----- The meaning of a plan -----

  /** A plan exists exactly when the order is affordable; it then carries the totals and the line-by-line amount. */
  lemma PlanMeaning(products: map<ProductId, Product>, lines: seq<Line>)
    ensures BuildPlan(products, lines).Planned? <==> Affordable(products, lines)
    ensures BuildPlan(products, lines).Planned? ==>
      var plan := BuildPlan(products, lines).plan;
      && plan.quantities == Aggregate(lines)
      && plan.amountCents == LineCents(products, lines)
    ensures BuildPlan(products, lines).Missing? <==> exists p :: p in Requested(lines) && p !in products
  {
    var q := Aggregate(lines);
    AggregateTotals(lines);
    MissingExactly(q.keys, products);
    if MissingIds(q.keys, products) == [] {
      ChargeMeaning(q.keys, q.total, products);
      assert KeySet(q.keys) == q.total.Keys;
      AggregatedCentsAreLineCents(products, lines);
    } else {
      var ids := MissingIds(q.keys, products);
      assert ids[0] in ids;
    }
  }

  /** Products are kept in the order in which the lines first name them: later lines only append. */
  lemma {:induction false} KeysInOrderOfAppearance(lines: seq<Line>, n: nat)
    requires n <= |lines|
    ensures Aggregate(lines[..n]).keys <= Aggregate(lines).keys
    ensures n < |lines| && lines[n].product !in Requested(lines[..n]) ==>
      var earlier := Aggregate(lines[..n]).keys;
      |earlier| < |Aggregate(lines).keys| && Aggregate(lines).keys[|earlier|] == lines[n].product
  {
    if n < |lines| {
      var front := lines[..|lines| - 1];
      assert front[..n] == lines[..n];
      AggregateTotals(front);
      KeysInOrderOfAppearance(front, n);
    } else {
      assert lines[..n] == lines;
    }
  }

  /** Each product once, in the order in which the lines first name them. */
  ghost predicate InLineOrder(ids: seq<ProductId>, lines: seq<Line>)
  {
    forall i, j :: 0 <= i < j < |ids| ==> FirstLine(lines, ids[i]) < FirstLine(lines, ids[j])
  }

  lemma OrderedAreDistinct(ids: seq<ProductId>, lines: seq<Line>)
    requires InLineOrder(ids, lines)
    ensures Distinct(ids)
  {
    forall i, j | 0 <= i < j < |ids|
      ensures ids[i] != ids[j]
    {
      assert FirstLine(lines, ids[i]) < FirstLine(lines, ids[j]);
    }
  }

  lemma {:induction false} KeysInLineOrder(lines: seq<Line>)
    ensures InLineOrder(Aggregate(lines).keys, lines)
  {
    if lines != [] {
      var front, l := lines[..|lines| - 1], lines[|lines| - 1];
      KeysInLineOrder(front);
      hide Requested;
      AggregateTotals(front);
      var keys, before := Aggregate(lines).keys, Aggregate(front).keys;
      assert keys == if l.product in before then before else before + [l.product];
      hide Aggregate;
      forall p | p in Requested(front)
        ensures FirstLine(lines, p) == FirstLine(front, p) < |front|
      {
        FirstLineMeaning(front, p);
      }
      FirstLineMeaning(front, l.product);
    }
  }

  /** Dropping the products that exist keeps the order of the others. */
  lemma {:induction false} MissingInLineOrder(keys: seq<ProductId>, products: map<ProductId, Product>, lines: seq<Line>)
    requires InLineOrder(keys, lines)
    ensures InLineOrder(MissingIds(keys, products), lines)
  {
    if keys != [] {
      var n := |keys| - 1;
      MissingInLineOrder(keys[..n], products, lines);
      MissingExactly(keys[..n], products);
      var before := MissingIds(keys[..n], products);
      forall p | p in before
        ensures FirstLine(lines, p) < FirstLine(lines, keys[n])
      {
        var i :| 0 <= i < n && keys[i] == p;
      }
    }
  }

  /** Whatever an earlier line names is in stock for all its lines. */
  ghost predicate ShortFirst(products: map<ProductId, Product>, lines: seq<Line>, p: ProductId)
  {
    forall q :: q in Requested(lines) && FirstLine(lines, q) < FirstLine(lines, p) ==> EnoughFor(products, lines, q)
  }

  lemma FirstShortIsFirst(products: map<ProductId, Product>, lines: seq<Line>, i: nat)
    requires i < |Aggregate(lines).keys|
    requires forall j :: 0 <= j < i ==> EnoughFor(products, lines, Aggregate(lines).keys[j])
    ensures ShortFirst(products, lines, Aggregate(lines).keys[i])
  {
    hide Aggregate, Requested, QuantityOf, FirstLine, EnoughFor;
    var keys := Aggregate(lines).keys;
    AggregateTotals(lines);
    KeysInLineOrder(lines);
    forall q | q in Requested(lines) && FirstLine(lines, q) < FirstLine(lines, keys[i])
      ensures EnoughFor(products, lines, q)
    {
      var j :| 0 <= j < |keys| && keys[j] == q;
    }
  }

  /** What the details of a refusal say about the rows and the lines. */
  ghost predicate Explained(products: map<ProductId, Product>, lines: seq<Line>, r: PlanResult)
  {
    && (r.Missing? ==>
          && r.ids != []
          && (forall p :: p in r.ids <==> p in Requested(lines) && p !in products)
          && Distinct(r.ids) && InLineOrder(r.ids, lines))
    && (r.Insufficient? ==>
          && Requested(lines) <= products.Keys
          && r.product in Requested(lines) && r.requested == QuantityOf(lines, r.product)
          && r.available == products[r.product].stock && r.available < r.requested
          && ShortFirst(products, lines, r.product))
  }

  /**
   * The details of a refusal: exactly the absent products, each once and in the order of the lines, or a
   * short product with its real figures, the first such in the order of the lines.
   */
  lemma RefusalMeaning(products: map<ProductId, Product>, lines: seq<Line>)
    ensures Explained(products, lines, BuildPlan(products, lines))
  {
    hide Aggregate, Requested, QuantityOf, MissingIds, ChargeKeys, FirstLine, InLineOrder, ShortFirst;
    var q := Aggregate(lines);
    AggregateTotals(lines);
    KeysInLineOrder(lines);
    MissingInLineOrder(q.keys, products, lines);
    OrderedAreDistinct(MissingIds(q.keys, products), lines);
    MissingExactly(q.keys, products);
    if MissingIds(q.keys, products) == [] {
      ChargeMeaning(q.keys, q.total, products);
      var charge := ChargeKeys(q.keys, q.total, products);
      if charge.Short? {
        var i :| 0 <= i < |q.keys| && FirstShort(q.keys, q.total, products, i, charge);
        assert forall j :: 0 <= j < i ==> EnoughFor(products, lines, q.keys[j]);
        FirstShortIsFirst(products, lines, i);
      }
    }
  }

  lemma {:induction false} ChargeLocal(keys: seq<ProductId>, total: map<ProductId, nat>,
                                       products: map<ProductId, Product>, others: map<ProductId, Product>)
    requires forall p :: p in keys ==> p in total && p in products && p in others && products[p] == others[p]
    ensures ChargeKeys(keys, total, products) == ChargeKeys(keys, total, others)
  {
    if keys != [] {
      ChargeLocal(keys[..|keys| - 1], total, products, others);
    }
  }

  lemma {:induction false} MissingLocal(keys: seq<ProductId>, products: map<ProductId, Product>, others: map<ProductId, Product>)
    requires forall p :: p in keys ==> (p in products <==> p in others)
    ensures MissingIds(keys, products) == MissingIds(keys, others)
  {
    if keys != [] {
      MissingLocal(keys[..|keys| - 1], products, others);
    }
  }

  /** The plan depends on nothing but the rows of the requested products. */
  lemma PlanLocal(products: map<ProductId, Product>, others: map<ProductId, Product>, lines: seq<Line>)
    requires forall p :: p in Requested(lines) ==>
      (p in products <==> p in others) && (p in products ==> products[p] == others[p])
    ensures BuildPlan(products, lines) == BuildPlan(others, lines)
  {
    var q := Aggregate(lines);
    AggregateTotals(lines);
    MissingLocal(q.keys, products, others);
    MissingExactly(q.keys, products);
    if MissingIds(q.keys, products) == [] {
      ChargeLocal(q.keys, q.total, products, others);
    }
  }

  // ----- The order of the lines does not matter -----

  /** The same verdict, with the same missing products or the same amount and totals; products may come in another order. */
  ghost predicate Alike(x: PlanResult, y: PlanResult)
  {
    match x
    case Planned(plan) =>
      y.Planned? && plan.amountCents == y.plan.amountCents && plan.quantities.total == y.plan.quantities.total
    case Missing(ids) => y.Missing? && forall p :: p in ids <==> p in y.ids
    case Insufficient(_, _, _) => y.Insufficient?
  }

  /** Two line lists that ask for the same totals get the same verdict and the same plan. */
  lemma SameTotalsSamePlan(products: map<ProductId, Product>, a: seq<Line>, b: seq<Line>)
    requires Requested(a) == Requested(b)
    requires forall p :: QuantityOf(a, p) == QuantityOf(b, p)
    ensures Alike(BuildPlan(products, a), BuildPlan(products, b))
  {
    hide BuildPlan, Aggregate, Requested, QuantityOf, LineCents, ShortFirst, MapCents, Affordable, EnoughFor;
    PlanMeaning(products, a);
    PlanMeaning(products, b);
    RefusalMeaning(products, a);
    RefusalMeaning(products, b);
    AffordableAlike(products, a, b);
    SameTotals(a, b);
    AggregatedCentsAreLineCents(products, a);
    AggregatedCentsAreLineCents(products, b);
  }

  lemma AffordableAlike(products: map<ProductId, Product>, a: seq<Line>, b: seq<Line>)
    requires Requested(a) == Requested(b)
    requires forall p :: QuantityOf(a, p) == QuantityOf(b, p)
    ensures Affordable(products, a) <==> Affordable(products, b)
  {
    hide Requested, QuantityOf;
  }

  lemma SameTotals(a: seq<Line>, b: seq<Line>)
    requires Requested(a) == Requested(b)
    requires forall p :: QuantityOf(a, p) == QuantityOf(b, p)
    ensures Aggregate(a).total == Aggregate(b).total
  {
    hide Aggregate, Requested, QuantityOf;
    AggregateTotals(a);
    AggregateTotals(b);
  }

  lemma {:induction false} QuantityConcat(a: seq<Line>, b: seq<Line>, p: ProductId)
    ensures QuantityOf(a + b, p) == QuantityOf(a, p) + QuantityOf(b, p)
  {
    if b == [] {
      assert a + b == a;
    } else {
      var n := |b| - 1;
      assert (a + b)[..|a + b| - 1] == a + b[..n];
      QuantityConcat(a, b[..n], p);
    }
  }

  lemma {:induction false} PermutationKeepsTotals(a: seq<Line>, b: seq<Line>, p: ProductId)
    requires multiset(a) == multiset(b)
    ensures QuantityOf(a, p) == QuantityOf(b, p)
  {
    if a == [] {
      assert |b| == |multiset(b)| == 0;
    } else {
      var n := |a| - 1;
      assert a == a[..n] + [a[n]];
      assert a[n] in multiset(b);
      var i :| 0 <= i < |b| && b[i] == a[n];
      var rest := b[..i] + b[i + 1..];
      assert b == b[..i] + [b[i]] + b[i + 1..];
      assert multiset(rest) == multiset(b) - multiset{b[i]};
      PermutationKeepsTotals(a[..n], rest, p);
      QuantityConcat(b[..i], b[i + 1..], p);
      QuantityConcat(b[..i] + [b[i]], b[i + 1..], p);
      QuantityConcat(b[..i], [b[i]], p);
    }
  }

  /** Reordering the lines changes neither the verdict nor the plan. */
  lemma PermutationKeepsPlan(products: map<ProductId, Product>, a: seq<Line>, b: seq<Line>)
    requires multiset(a) == multiset(b)
    ensures Alike(BuildPlan(products, a), BuildPlan(products, b))
  {
    forall p ensures QuantityOf(a, p) == QuantityOf(b, p) {
      PermutationKeepsTotals(a, b, p);
    }
    assert forall l :: l in a <==> l in multiset(a);
    assert forall l :: l in b <==> l in multiset(b);
    assert Requested(a) == Requested(b);
    SameTotalsSamePlan(products, a, b);
  }

  /** Splitting one line into two changes neither the verdict nor the plan. */
  lemma SplitKeepsPlan(products: map<ProductId, Product>, a: seq<Line>, p: ProductId, m: nat, n: nat, b: seq<Line>)
    ensures Alike(BuildPlan(products, a + [Line(p, m + n)] + b), BuildPlan(products, a + [Line(p, m), Line(p, n)] + b))
  {
    var one, two := [Line(p, m + n)], [Line(p, m), Line(p, n)];
    forall q ensures QuantityOf(a + one + b, q) == QuantityOf(a + two + b, q) {
      QuantityConcat(a + one, b, q);
      QuantityConcat(a, one, q);
      QuantityConcat(a + two, b, q);
      QuantityConcat(a, two, q);
      assert two[..1] == [Line(p, m)];
      assert QuantityOf(two, q) == QuantityOf([Line(p, m)], q) + if p == q then n else 0;
    }
    assert Requested(a + one + b) == Requested(a) + {p} + Requested(b) by {
      assert forall l :: l in a + one + b <==> l in a || l == Line(p, m + n) || l in b;
      assert Line(p, m + n) in a + one + b;
    }
    assert Requested(a + two + b) == Requested(a) + {p} + Requested(b) by {
      assert forall l :: l in a + two + b <==> l in a || l == Line(p, m) || l == Line(p, n) || l in b;
      assert Line(p, m) in a + two + b;
    }
    SameTotalsSamePlan(products, a + one + b, a + two + b);
  }

  // ----- The loops -----

  method AggregateItemQuantities(items: seq<Line>) returns (q: Quantities)
    ensures q == Aggregate(items)
    ensures forall p :: p in q.total <==> p in Requested(items)
    ensures forall p :: p in q.total ==> q.total[p] == QuantityOf(items, p)
  {
    q := Quantities([], map[]);
    for i := 0 to |items|
      invariant q == Aggregate(items[..i])
    {
      assert items[..i + 1][..i] == items[..i];
      var p := items[i].product;
      if p in q.total {
        q := q.(total := q.total[p := q.total[p] + items[i].quantity]);
      } else {
        q := Quantities(q.keys + [p], q.total[p := items[i].quantity]);
      }
    }
    assert items[..|items|] == items;
    AggregateTotals(items);
  }

  /** The rows by id; a later snapshot of the same id replaces an earlier one. */
  function ById(products: seq<Snapshot>): map<ProductId, Product>
  {
    if products == [] then map[]
    else
      var last := products[|products| - 1];
      ById(products[..|products| - 1])[last.id := last.row]
  }

  lemma {:induction false} ByIdIsLast(products: seq<Snapshot>, i: nat)
    requires i < |products|
    requires forall j :: i < j < |products| ==> products[j].id != products[i].id
    ensures products[i].id in ById(products) && ById(products)[products[i].id] == products[i].row
  {
    if i < |products| - 1 {
      ByIdIsLast(products[..|products| - 1], i);
    }
  }

  method FindMissing(keys: seq<ProductId>, byId: map<ProductId, Product>) returns (missing: seq<ProductId>)
    ensures missing == MissingIds(keys, byId)
  {
    missing := [];
    for i := 0 to |keys|
      invariant missing == MissingIds(keys[..i], byId)
    {
      assert keys[..i + 1][..i] == keys[..i];
      if keys[i] !in byId {
        missing := missing + [keys[i]];
      }
    }
    assert keys[..|keys|] == keys;
  }

  method ChargeEach(keys: seq<ProductId>, total: map<ProductId, nat>, byId: map<ProductId, Product>) returns (charge: Charge)
    requires forall p :: p in keys ==> p in total && p in byId
    ensures charge == ChargeKeys(keys, total, byId)
  {
    var amountCents := 0;
    for i := 0 to |keys|
      invariant ChargeKeys(keys[..i], total, byId) == Charged(amountCents)
    {
      assert keys[..i + 1][..i] == keys[..i];
      var p := keys[i];
      if byId[p].stock < total[p] {
        ShortPrefix(keys, i + 1, total, byId);
        return Short(p, total[p], byId[p].stock);
      }
      amountCents := amountCents + byId[p].price * total[p];
    }
    assert keys[..|keys|] == keys;
    return Charged(amountCents);
  }

  method BuildOrderPlan(products: seq<Snapshot>, items: seq<Line>) returns (r: PlanResult)
    ensures r == BuildPlan(ById(products), items)
    ensures r.Planned? <==> Affordable(ById(products), items)
    ensures r.Planned? ==> r.plan.amountCents == LineCents(ById(products), items)
    ensures r.Planned? ==> InLineOrder(r.plan.quantities.keys, items) && r.plan.quantities.total.Keys == Requested(items)
    ensures r.Planned? ==> forall p :: p in r.plan.quantities.total ==> r.plan.quantities.total[p] == QuantityOf(items, p)
    ensures Explained(ById(products), items, r)
  {
    hide InLineOrder, Explained, ShortFirst;
    var quantities := AggregateItemQuantities(items);
    var byId: map<ProductId, Product> := map[];
    for i := 0 to |products|
      invariant byId == ById(products[..i])
    {
      assert products[..i + 1][..i] == products[..i];
      byId := byId[products[i].id := products[i].row];
    }
    assert products[..|products|] == products;

    AggregateTotals(items);
    MissingExactly(quantities.keys, byId);
    PlanMeaning(byId, items);
    RefusalMeaning(byId, items);
    KeysInLineOrder(items);
    var missing := FindMissing(quantities.keys, byId);
    if missing != [] {
      return Missing(missing);
    }
    var charge := ChargeEach(quantities.keys, quantities.total, byId);
    match charge {
      case Short(p, requested, available) => return Insufficient(p, requested, available);
      case Charged(amountCents) => return Planned(Plan(amountCents, quantities));
    }
  }

  /** Once the charging loop has met a short product, the rest of the keys changes nothing. */
  lemma {:induction false} ShortPrefix(keys: seq<ProductId>, n: nat, total: map<ProductId, nat>, products: map<ProductId, Product>)
    requires n <= |keys|
    requires forall p :: p in keys ==> p in total && p in products
    requires ChargeKeys(keys[..n], total, products).Short?
    ensures ChargeKeys(keys, total, products) == ChargeKeys(keys[..n], total, products)
    decreases |keys| - n
  {
    if n == |keys| {
      assert keys[..n] == keys;
    } else {
      assert keys[..n + 1][..n] == keys[..n];
      ShortPrefix(keys, n + 1, total, products);
    }
  }
}
