/**
 * The tables of the orders database and the committed transactions seen as atomic events.
 * `Allowed` says what must hold of the committed tables for an event; `Apply` is its whole effect.
 * Everything proved here is about events run one after another; the protocol is later shown to
 * commit nothing else, whatever the interleaving.
 */
module Ledger {
  import opened Common
  import opened Sums
  import opened OrderPolicy
  import opened Payments

  datatype Status = Pending | Processed | Failed

  datatype Payment = Payment(id: PaymentId, status: PaymentStatus)

  datatype Item = Item(product: ProductId, quantity: nat, price: int)

  datatype Order = Order(user: UserId, key: Key, status: Status, payment: Option<Payment>, items: seq<Item>)

  datatype Db = Db(users: set<UserId>, products: map<ProductId, Product>,
                   orders: map<OrderId, Order>, processed: map<MessageId, OrderId>)

  datatype Event =
    | Reserve(order: OrderId, user: UserId, key: Key, lines: seq<Line>)
    | Pay(order: OrderId, payment: Payment)
    | Release(order: OrderId)
    | Process(message: MessageId, order: OrderId)

  // ----- Items -----

  function ItemOf(products: map<ProductId, Product>, l: Line): Item
  {
    Item(l.product, l.quantity, PriceOf(products, l.product))
  }

  function ItemsOf(products: map<ProductId, Product>, lines: seq<Line>): seq<Item>
  {
    if lines == [] then []
    else ItemsOf(products, lines[..|lines| - 1]) + [ItemOf(products, lines[|lines| - 1])]
  }

  function ItemQuantity(items: seq<Item>, p: ProductId): nat
  {
    if items == [] then 0
    else
      var last := items[|items| - 1];
      ItemQuantity(items[..|items| - 1], p) + if last.product == p then last.quantity else 0
  }

  function Amount(items: seq<Item>): int
  {
    if items == [] then 0
    else Amount(items[..|items| - 1]) + items[|items| - 1].price * items[|items| - 1].quantity
  }

  function ProductsOf(items: seq<Item>): set<ProductId>
  {
    set i | i in items :: i.product
  }

  lemma {:induction false} NoItemNoQuantity(items: seq<Item>, p: ProductId)
    requires p !in ProductsOf(items)
    ensures ItemQuantity(items, p) == 0
  {
    if items != [] {
      NoItemNoQuantity(items[..|items| - 1], p);
    }
  }

  lemma {:induction false} ItemsLocal(products: map<ProductId, Product>, others: map<ProductId, Product>, lines: seq<Line>)
    requires forall p :: p in Requested(lines) ==> PriceOf(products, p) == PriceOf(others, p)
    ensures ItemsOf(products, lines) == ItemsOf(others, lines)
  {
    if lines != [] {
      RequestedSnoc(lines);
      ItemsLocal(products, others, lines[..|lines| - 1]);
    }
  }

  lemma {:induction false} ItemsProducts(products: map<ProductId, Product>, lines: seq<Line>)
    ensures ProductsOf(ItemsOf(products, lines)) == Requested(lines)
  {
    if lines != [] {
      RequestedSnoc(lines);
      ItemsProducts(products, lines[..|lines| - 1]);
    }
  }

  /** The inserted items carry, per product, what the lines asked for, and cost what the plan charged. */
  lemma {:induction false} ItemsMirrorLines(products: map<ProductId, Product>, lines: seq<Line>)
    ensures |ItemsOf(products, lines)| == |lines|
    ensures forall p :: ItemQuantity(ItemsOf(products, lines), p) == QuantityOf(lines, p)
    ensures Amount(ItemsOf(products, lines)) == LineCents(products, lines)
  {
    if lines != [] {
      var n := |lines| - 1;
      ItemsMirrorLines(products, lines[..n]);
      assert ItemsOf(products, lines)[..n] == ItemsOf(products, lines[..n]);
    }
  }

  /** One item per line, in order, at the price of its product's row. */
  lemma {:induction false} ItemOfEachLine(products: map<ProductId, Product>, lines: seq<Line>, i: nat)
    requires i < |lines| && lines[i].product in products
    ensures |ItemsOf(products, lines)| == |lines|
    ensures ItemsOf(products, lines)[i] == Item(lines[i].product, lines[i].quantity, products[lines[i].product].price)
  {
    var n := |lines| - 1;
    ItemsMirrorLines(products, lines[..n]);
    if i < n {
      ItemOfEachLine(products, lines[..n], i);
    }
  }

  // ----- Stock -----

  /** Row values after the planned quantities are taken. */
  function Taken(products: map<ProductId, Product>, total: map<ProductId, nat>): map<ProductId, Product>
  {
    map p | p in products ::
      if p in total then products[p].(stock := products[p].stock - total[p]) else products[p]
  }

  /** Row values after the quantities of the items are given back. */
  function Returned(products: map<ProductId, Product>, items: seq<Item>): map<ProductId, Product>
  {
    map p | p in products :: products[p].(stock := products[p].stock + ItemQuantity(items, p))
  }

  // ----- Events -----

  ghost predicate KeyFree(orders: map<OrderId, Order>, user: UserId, key: Key)
  {
    forall o :: o in orders ==> !(orders[o].user == user && orders[o].key == key)
  }

  ghost predicate Allowed(db: Db, e: Event)
  {
    match e
    case Reserve(o, user, key, lines) =>
      user in db.users && o !in db.orders && KeyFree(db.orders, user, key) && BuildPlan(db.products, lines).Planned?
    case Pay(o, _) => o in db.orders && db.orders[o].status == Pending && db.orders[o].payment == None
    case Release(o) => o in db.orders && db.orders[o].status == Pending && db.orders[o].payment == None
    case Process(m, o) =>
      m !in db.processed && o in db.orders && db.orders[o].status == Pending && db.orders[o].payment.Some?
  }

  function Apply(db: Db, e: Event): Db
    requires !e.Reserve? ==> e.order in db.orders
  {
    match e
    case Reserve(o, user, key, lines) =>
      db.(products := Taken(db.products, Aggregate(lines).total),
          orders := db.orders[o := Order(user, key, Pending, None, ItemsOf(db.products, lines))])
    case Pay(o, payment) =>
      db.(orders := db.orders[o := db.orders[o].(payment := Some(payment))])
    case Release(o) =>
      db.(products := Returned(db.products, db.orders[o].items),
          orders := db.orders[o := db.orders[o].(status := Failed)])
    case Process(m, o) =>
      db.(processed := db.processed[m := o],
          orders := db.orders[o := db.orders[o].(status := Processed)])
  }

  /** A log of events each of which was allowed when it was applied, and the tables it leaves. */
  ghost predicate Lawful(db: Db, log: seq<Event>)
    decreases |log|, 0
  {
    if log == [] then true
    else
      var front := log[..|log| - 1];
      Lawful(db, front) && Allowed(Outcome(db, front), log[|log| - 1])
  }

  ghost function Outcome(db: Db, log: seq<Event>): Db
    requires Lawful(db, log)
    decreases |log|, 1
  {
    if log == [] then db
    else Apply(Outcome(db, log[..|log| - 1]), log[|log| - 1])
  }

  // ----- What sound tables satisfy -----

  ghost function HeldBy(orders: map<OrderId, Order>, p: ProductId): nat -> int
  {
    o => if o in orders && orders[o].status != Failed then ItemQuantity(orders[o].items, p) else 0
  }

  /** Units of `p` held by orders that have not failed. */
  ghost function Reserved(orders: map<OrderId, Order>, p: ProductId): int
  {
    Sum(orders.Keys, HeldBy(orders, p))
  }

  ghost predicate StockSoundAt(initial: map<ProductId, Product>, db: Db, p: ProductId)
  {
    p in initial && p in db.products
    && db.products[p].price == initial[p].price
    && db.products[p].stock >= 0
    && db.products[p].stock + Reserved(db.orders, p) == initial[p].stock
  }

  ghost predicate StockSound(initial: map<ProductId, Product>, db: Db)
  {
    && db.products.Keys == initial.Keys
    && forall p :: p in initial ==> StockSoundAt(initial, db, p)
  }

  ghost predicate SameKey(a: Order, b: Order)
  {
    a.user == b.user && a.key == b.key
  }

  ghost predicate OrdersSound(db: Db)
  {
    && (forall a, b :: a in db.orders && b in db.orders && SameKey(db.orders[a], db.orders[b]) ==> a == b)
    && (forall o :: o in db.orders ==>
          && db.orders[o].user in db.users
          && ProductsOf(db.orders[o].items) <= db.products.Keys
          && (db.orders[o].status == Processed ==> db.orders[o].payment.Some?)
          && (db.orders[o].status == Failed ==> db.orders[o].payment == None))
  }

  ghost predicate DedupSound(db: Db)
  {
    && (forall m :: m in db.processed ==> db.processed[m] in db.orders && db.orders[db.processed[m]].status == Processed)
    && (forall m, n :: m in db.processed && n in db.processed && db.processed[m] == db.processed[n] ==> m == n)
    && (forall o :: o in db.orders && db.orders[o].status == Processed ==> o in db.processed.Values)
  }

  ghost predicate Sound(initial: map<ProductId, Product>, db: Db)
  {
    StockSound(initial, db) && OrdersSound(db) && DedupSound(db)
  }

  // ----- Each event keeps the tables sound -----

  lemma ReservedAfterInsert(orders: map<OrderId, Order>, o: OrderId, order: Order, p: ProductId)
    requires o !in orders && order.status != Failed
    ensures Reserved(orders[o := order], p) == Reserved(orders, p) + ItemQuantity(order.items, p)
  {
    assert orders[o := order].Keys == orders.Keys + {o};
    SumAdd(orders.Keys, HeldBy(orders, p), HeldBy(orders[o := order], p), o);
  }

  lemma ReservedAfterUpdate(orders: map<OrderId, Order>, o: OrderId, order: Order, p: ProductId)
    requires o in orders && orders[o].items == order.items && orders[o].status != Failed
    ensures Reserved(orders[o := order], p)
         == Reserved(orders, p) - if order.status == Failed then ItemQuantity(order.items, p) else 0
  {
    assert orders[o := order].Keys == orders.Keys;
    SumChange(orders.Keys, HeldBy(orders, p), HeldBy(orders[o := order], p), o);
  }

  lemma TakenRow(products: map<ProductId, Product>, lines: seq<Line>, p: ProductId)
    requires p in products && BuildPlan(products, lines).Planned?
    ensures var row := Taken(products, Aggregate(lines).total)[p];
      && row.price == products[p].price
      && row.stock == products[p].stock - QuantityOf(lines, p)
      && (products[p].stock >= 0 ==> row.stock >= 0)
  {
    PlanMeaning(products, lines);
    AggregateTotals(lines);
  }

  lemma ReserveKeepsStockAt(initial: map<ProductId, Product>, db: Db, e: Event, p: ProductId)
    requires StockSoundAt(initial, db, p) && e.Reserve? && Allowed(db, e)
    ensures StockSoundAt(initial, Apply(db, e), p)
  {
    TakenRow(db.products, e.lines, p);
    ItemsMirrorLines(db.products, e.lines);
    ReservedAfterInsert(db.orders, e.order, Apply(db, e).orders[e.order], p);
  }

  lemma UpdateKeepsStockAt(initial: map<ProductId, Product>, db: Db, e: Event, p: ProductId)
    requires StockSoundAt(initial, db, p) && !e.Reserve? && Allowed(db, e)
    ensures StockSoundAt(initial, Apply(db, e), p)
  {
    ReservedAfterUpdate(db.orders, e.order, Apply(db, e).orders[e.order], p);
  }

  lemma EventKeepsStock(initial: map<ProductId, Product>, db: Db, e: Event)
    requires StockSound(initial, db) && Allowed(db, e)
    ensures StockSound(initial, Apply(db, e))
  {
    assert Apply(db, e).products.Keys == db.products.Keys;
    forall p | p in initial
      ensures StockSoundAt(initial, Apply(db, e), p)
    {
      assert StockSoundAt(initial, db, p);
      if e.Reserve? {
        ReserveKeepsStockAt(initial, db, e, p);
      } else {
        UpdateKeepsStockAt(initial, db, e, p);
      }
    }
  }

  lemma EventKeepsOrders(db: Db, e: Event)
    requires OrdersSound(db) && Allowed(db, e)
    ensures OrdersSound(Apply(db, e))
  {
    if e.Reserve? {
      PlanMeaning(db.products, e.lines);
      ItemsProducts(db.products, e.lines);
    }
  }

  lemma EventKeepsDedup(db: Db, e: Event)
    requires DedupSound(db) && Allowed(db, e)
    ensures DedupSound(Apply(db, e))
  {
    var db' := Apply(db, e);
    forall o | o in db'.orders && db'.orders[o].status == Processed
      ensures o in db'.processed.Values
    {
      if e.Process? && o == e.order {
        assert db'.processed[e.message] == o;
      } else {
        var m :| m in db.processed && db.processed[m] == o;
        assert m in db'.processed && db'.processed[m] == o;
      }
    }
  }

  lemma EventKeepsSound(initial: map<ProductId, Product>, db: Db, e: Event)
    requires Sound(initial, db) && Allowed(db, e)
    ensures Sound(initial, Apply(db, e))
  {
    EventKeepsStock(initial, db, e);
    EventKeepsOrders(db, e);
    EventKeepsDedup(db, e);
  }

  /** Any lawful log leaves sound tables. */
  lemma {:induction false} LawfulLogIsSound(initial: map<ProductId, Product>, db: Db, log: seq<Event>)
    requires Sound(initial, db) && Lawful(db, log)
    ensures Sound(initial, Outcome(db, log))
  {
    if log != [] {
      var n := |log| - 1;
      LawfulLogIsSound(initial, db, log[..n]);
      EventKeepsSound(initial, Outcome(db, log[..n]), log[n]);
    }
  }

  // ----- Life of one order -----

  /** Past pending, an order keeps its status; its user, key and items never change, its payment is set at most once. */
  lemma EventKeepsOrder(db: Db, e: Event, o: OrderId)
    requires o in db.orders && Allowed(db, e)
    ensures o in Apply(db, e).orders
    ensures var (before, after) := (db.orders[o], Apply(db, e).orders[o]);
      && after.user == before.user && after.key == before.key && after.items == before.items
      && (before.status != Pending ==> after.status == before.status)
      && (before.payment.Some? ==> after.payment == before.payment)
  {}

  ghost predicate Settles(e: Event, o: OrderId)
  {
    (e.Process? || e.Release?) && e.order == o
  }

  lemma {:induction false} LawfulPrefix(db: Db, log: seq<Event>, i: nat)
    requires Lawful(db, log) && i <= |log|
    ensures Lawful(db, log[..i])
  {
    if i < |log| {
      LawfulPrefix(db, log[..|log| - 1], i);
      assert log[..|log| - 1][..i] == log[..i];
    } else {
      assert log[..i] == log;
    }
  }

  lemma PrefixStep(db: Db, log: seq<Event>, n: nat)
    requires Lawful(db, log) && n < |log|
    ensures Lawful(db, log[..n]) && Lawful(db, log[..n + 1])
    ensures Allowed(Outcome(db, log[..n]), log[n])
    ensures Outcome(db, log[..n + 1]) == Apply(Outcome(db, log[..n]), log[n])
  {
    LawfulPrefix(db, log, n);
    LawfulPrefix(db, log, n + 1);
    assert log[..n + 1][..n] == log[..n];
  }

  lemma {:induction false} OrderPersists(db: Db, log: seq<Event>, i: nat, j: nat, o: OrderId)
    requires i <= j <= |log|
    requires Lawful(db, log) && Lawful(db, log[..i]) && Lawful(db, log[..j])
    requires o in Outcome(db, log[..i]).orders
    ensures o in Outcome(db, log[..j]).orders
    ensures var (before, after) := (Outcome(db, log[..i]).orders[o], Outcome(db, log[..j]).orders[o]);
      && after.user == before.user && after.key == before.key && after.items == before.items
      && (before.status != Pending ==> after.status == before.status)
      && (before.payment.Some? ==> after.payment == before.payment)
    decreases j
  {
    if i < j {
      PrefixStep(db, log, j - 1);
      OrderPersists(db, log, i, j - 1, o);
      EventKeepsOrder(Outcome(db, log[..j - 1]), log[j - 1], o);
    }
  }

  lemma SettledAt(db: Db, log: seq<Event>, n: nat, o: OrderId)
    requires Lawful(db, log) && n < |log| && Settles(log[n], o)
    ensures Lawful(db, log[..n]) && Lawful(db, log[..n + 1])
    ensures o in Outcome(db, log[..n]).orders && Outcome(db, log[..n]).orders[o].status == Pending
    ensures o in Outcome(db, log[..n + 1]).orders && Outcome(db, log[..n + 1]).orders[o].status != Pending
  {
    PrefixStep(db, log, n);
  }

  /** An order is settled at most once: it is processed at most once, released at most once, never both. */
  lemma SettledOnce(db: Db, log: seq<Event>, i: nat, j: nat, o: OrderId)
    requires Lawful(db, log) && i < j < |log|
    requires Settles(log[i], o)
    ensures !Settles(log[j], o)
  {
    SettledAt(db, log, i, o);
    if Settles(log[j], o) {
      SettledAt(db, log, j, o);
      OrderPersists(db, log, i + 1, j, o);
    }
  }

  /** The rows of processed_messages only accumulate, and an order number, once used, stays used. */
  lemma {:induction false} RowsPersist(db: Db, log: seq<Event>, i: nat, j: nat)
    requires i <= j <= |log|
    requires Lawful(db, log) && Lawful(db, log[..i]) && Lawful(db, log[..j])
    ensures Outcome(db, log[..i]).processed.Keys <= Outcome(db, log[..j]).processed.Keys
    ensures Outcome(db, log[..i]).orders.Keys <= Outcome(db, log[..j]).orders.Keys
    decreases j
  {
    if i < j {
      PrefixStep(db, log, j - 1);
      RowsPersist(db, log, i, j - 1);
    }
  }

  /** Each message id is committed to processed_messages at most once. */
  lemma MessageCommittedOnce(db: Db, log: seq<Event>, i: nat, j: nat)
    requires Lawful(db, log) && i < j < |log|
    requires log[i].Process? && log[j].Process?
    ensures log[i].message != log[j].message && log[i].order != log[j].order
  {
    PrefixStep(db, log, i);
    PrefixStep(db, log, j);
    RowsPersist(db, log, i + 1, j);
    SettledOnce(db, log, i, j, log[i].order);
  }

  /** Stock is taken at most once for a user and key. */
  lemma ReservedOnce(db: Db, log: seq<Event>, i: nat, j: nat)
    requires Lawful(db, log) && i < j < |log|
    requires log[i].Reserve? && log[j].Reserve?
    ensures !(log[i].user == log[j].user && log[i].key == log[j].key)
    ensures log[i].order != log[j].order
  {
    var o := log[i].order;
    PrefixStep(db, log, i);
    PrefixStep(db, log, j);
    RowsPersist(db, log, i + 1, j);
    OrderPersists(db, log, i + 1, j, o);
  }

  /** A release puts back, product by product, exactly what the reservation took, whatever happened in between. */
  lemma ReleaseUndoesReserve(db: Db, e: Event, later: Db, p: ProductId)
    requires e.Reserve? && Allowed(db, e)
    requires e.order in later.orders && later.orders[e.order].items == Apply(db, e).orders[e.order].items
    requires p in db.products && p in later.products
    ensures Apply(later, Release(e.order)).products[p].stock - later.products[p].stock
         == db.products[p].stock - Apply(db, e).products[p].stock
         == QuantityOf(e.lines, p)
  {
    AggregateTotals(e.lines);
    ItemsMirrorLines(db.products, e.lines);
  }

  /** The log reserved the order at `i` and released it at `j`, and the release put back all the reservation took. */
  ghost predicate Undone(db: Db, log: seq<Event>, i: nat, j: nat, o: OrderId)
  {
    && i < j < |log| && log[i].Reserve? && log[i].order == o && log[j] == Release(o)
    && Lawful(db, log[..i]) && Lawful(db, log[..i + 1]) && Lawful(db, log[..j]) && Lawful(db, log[..j + 1])
    && forall p :: p in db.products ==>
         && StockAt(Outcome(db, log[..i]), p) - StockAt(Outcome(db, log[..i + 1]), p) == QuantityOf(log[i].lines, p)
         && StockAt(Outcome(db, log[..j + 1]), p) - StockAt(Outcome(db, log[..j]), p) == QuantityOf(log[i].lines, p)
  }

  function StockAt(db: Db, p: ProductId): int
  {
    if p in db.products then db.products[p].stock else 0
  }

  lemma {:induction false} ReservedAt(db: Db, log: seq<Event>, n: nat, o: OrderId) returns (i: nat)
    requires Lawful(db, log) && n <= |log| && Lawful(db, log[..n])
    requires o !in db.orders && o in Outcome(db, log[..n]).orders
    ensures i < n && log[i].Reserve? && log[i].order == o
  {
    PrefixStep(db, log, n - 1);
    if log[n - 1].Reserve? && log[n - 1].order == o {
      i := n - 1;
    } else {
      i := ReservedAt(db, log, n - 1, o);
    }
  }

  lemma {:induction false} ReleasedAt(db: Db, log: seq<Event>, n: nat, o: OrderId) returns (j: nat)
    requires Lawful(db, log) && n <= |log| && Lawful(db, log[..n])
    requires o !in db.orders && o in Outcome(db, log[..n]).orders && Outcome(db, log[..n]).orders[o].status == Failed
    ensures j < n && log[j] == Release(o)
  {
    PrefixStep(db, log, n - 1);
    if log[n - 1] == Release(o) {
      j := n - 1;
    } else {
      j := ReleasedAt(db, log, n - 1, o);
    }
  }

  lemma {:induction false} ProductsPersist(db: Db, log: seq<Event>, n: nat)
    requires Lawful(db, log) && n <= |log| && Lawful(db, log[..n])
    ensures Outcome(db, log[..n]).products.Keys == db.products.Keys
  {
    if n > 0 {
      PrefixStep(db, log, n - 1);
      ProductsPersist(db, log, n - 1);
    }
  }

  lemma ReleaseUndoesReservation(db: Db, log: seq<Event>, i: nat, j: nat, o: OrderId)
    requires Lawful(db, log) && i < j < |log|
    requires log[i].Reserve? && log[i].order == o && log[j] == Release(o)
    ensures Undone(db, log, i, j, o)
  {
    PrefixStep(db, log, i);
    PrefixStep(db, log, j);
    OrderPersists(db, log, i + 1, j, o);
    ProductsPersist(db, log, i);
    ProductsPersist(db, log, j);
    forall p | p in db.products
      ensures StockAt(Outcome(db, log[..j + 1]), p) - StockAt(Outcome(db, log[..j]), p)
           == StockAt(Outcome(db, log[..i]), p) - StockAt(Outcome(db, log[..i + 1]), p)
           == QuantityOf(log[i].lines, p)
    {
      ReleaseUndoesReserve(Outcome(db, log[..i]), log[i], Outcome(db, log[..j]), p);
    }
  }

  /** A failed order was reserved once and released once later, with no net effect on the stock of any product. */
  lemma FailedOrderIsUndone(db: Db, log: seq<Event>, o: OrderId)
    requires Lawful(db, log) && o !in db.orders
    requires o in Outcome(db, log).orders && Outcome(db, log).orders[o].status == Failed
    ensures exists i, j :: Undone(db, log, i, j, o)
  {
    assert log[..|log|] == log;
    var j := ReleasedAt(db, log, |log|, o);
    PrefixStep(db, log, j);
    var i := ReservedAt(db, log, j, o);
    ReleaseUndoesReservation(db, log, i, j, o);
  }
}
