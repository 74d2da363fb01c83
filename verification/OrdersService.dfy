/**
 * createOrder and its compensation as written, run by one caller at a time: loops over rows and items in
 * a transaction, the payment call, and one publication.  The transactions are proved to be the atomic
 * events that the protocol commits under any interleaving.
 */
module OrdersService {
  import opened Common
  import opened OrderPolicy
  import opened Payments
  import opened Ledger
  import opened Protocol
  import opened Invariant
  import opened Preservation
  import opened Database
  import opened RabbitService

  /** How the remote authorize call goes: answered, or failed before or after the server recorded it. */
  datatype Verdict = Answered | FailedBefore | FailedAfter

  datatype Reservation =
    | NotPlaced(result: Result)
    | Placed(order: OrderId, amountCents: int)

  /** The answer names an order of the user with the key, and that order's payment. */
  predicate IsReuse(orders: map<OrderId, Order>, user: UserId, key: Key, result: Result)
  {
    && result.Reused? && result.order in orders
    && orders[result.order].user == user && orders[result.order].key == key
    && result.payment == orders[result.order].payment
  }

  /** The request is valid and its lookup finds nothing. */
  ghost predicate Searches(db: Db, user: UserId, key: Key, lines: seq<Line>)
  {
    key != "" && lines != [] && user in db.users && KeyFree(db.orders, user, key)
  }

  class OrdersService {
    const db: Database
    const rabbit: RabbitService
    const payments: PaymentsStore
    const currency: string

    constructor (db: Database, rabbit: RabbitService, payments: PaymentsStore, currency: string)
      ensures this.db == db && this.rabbit == rabbit && this.payments == payments && this.currency == currency
    {
      this.db, this.rabbit, this.payments, this.currency := db, rabbit, payments, currency;
    }

    /** The new row values: one write per planned product. */
    method TakeStock(rows: map<ProductId, Product>, plan: Plan, lines: seq<Line>) returns (written: map<ProductId, Product>)
      requires BuildPlan(rows, lines) == Planned(plan)
      ensures written == TakenRows(rows, plan.quantities.total, plan.quantities.keys)
    {
      hide BuildPlan, TakenRows;
      var keys, total := plan.quantities.keys, plan.quantities.total;
      PlannedKeys(rows, lines, plan);
      written := map[];
      NothingTaken(rows, total);
      for i := 0 to |keys|
        invariant written == TakenRows(rows, total, keys[..i])
      {
        TakenRowsSnoc(rows, total, keys, i);
        var p := keys[i];
        written := written[p := rows[p].(stock := rows[p].stock - total[p])];
      }
      assert keys[..|keys|] == keys;
    }

    method InsertItems(rows: map<ProductId, Product>, lines: seq<Line>) returns (items: seq<Item>)
      requires Requested(lines) <= rows.Keys
      ensures items == ItemsOf(rows, lines)
    {
      items := [];
      for i := 0 to |lines|
        invariant items == ItemsOf(rows, lines[..i])
      {
        assert lines[..i + 1][..i] == lines[..i];
        assert lines[i].product in Requested(lines);
        items := items + [Item(lines[i].product, lines[i].quantity, rows[lines[i].product].price)];
      }
      assert lines[..|lines|] == lines;
    }

    method DistinctProducts(lines: seq<Line>) returns (ids: seq<ProductId>)
      ensures Distinct(ids) && forall p :: p in ids <==> p in Requested(lines)
    {
      ids := [];
      for i := 0 to |lines|
        invariant Distinct(ids) && forall p :: p in ids <==> p in Requested(lines[..i])
      {
        assert lines[..i + 1] == lines[..i] + [lines[i]];
        if lines[i].product !in ids {
          ids := ids + [lines[i].product];
        }
      }
      assert lines[..|lines|] == lines;
    }

    method FindExisting(user: UserId, key: Key) returns (found: Option<OrderId>)
      ensures found.None? <==> KeyFree(db.orders, user, key)
      ensures found.Some? ==> found.value in db.orders && db.orders[found.value].user == user && db.orders[found.value].key == key
    {
      if o :| o in db.orders && db.orders[o].user == user && db.orders[o].key == key {
        return Some(o);
      }
      return None;
    }

    /**
     * The reservation transaction, while other connections turn the tables into `meanwhile` between its
     * lookup and its row locks.  It is refused for an unknown user, answered from the existing order for a
     * known key, refused when the plan on the locked rows is, answered from the winner's order when its
     * insert meets a key taken meanwhile, and otherwise commits exactly the atomic reservation; in every
     * case but the last it changes no table.
     */
    method Reserve(user: UserId, key: Key, lines: seq<Line>, order: OrderId, meanwhile: Db) returns (r: Reservation)
      requires order !in meanwhile.orders
      modifies db
      ensures user !in old(db.users) ==> r == NotPlaced(UserMissing)
      ensures user in old(db.users) && !KeyFree(old(db.orders), user, key) ==> r.NotPlaced? && IsReuse(old(db.orders), user, key, r.result)
      ensures user !in old(db.users) || !KeyFree(old(db.orders), user, key) ==> db.Contents() == old(db.Contents())
      ensures user in old(db.users) && KeyFree(old(db.orders), user, key) ==>
        var verdict := BuildPlan(meanwhile.products, lines);
        if !verdict.Planned? then
          r == NotPlaced(Refused(verdict)) && db.Contents() == meanwhile
        else if !KeyFree(meanwhile.orders, user, key) then
          r.NotPlaced? && IsReuse(meanwhile.orders, user, key, r.result) && db.Contents() == meanwhile
        else
          && r == Placed(order, verdict.plan.amountCents)
          && db.Contents() == Apply(meanwhile, Event.Reserve(order, user, key, lines))
    {
      if user !in db.users {
        return NotPlaced(UserMissing);
      }
      var existing := FindExisting(user, key);
      if existing.Some? {
        return NotPlaced(Reused(existing.value, db.orders[existing.value].payment));
      }
      var ids := DistinctProducts(lines);
      db.Become(meanwhile);
      var rows := db.SelectForUpdate(ids);
      var held := ById(rows);
      PlanLocal(held, db.products, lines);
      var verdict := BuildOrderPlan(rows, lines);
      if !verdict.Planned? {
        return NotPlaced(Refused(verdict));
      }
      PlanOnLockedRows(db.products, held, lines, verdict.plan);
      var written := TakeStock(held, verdict.plan, lines);
      // The insert meets the unique index; a rejection rolls the written rows back.
      var winner := FindExisting(user, key);
      if winner.Some? {
        return NotPlaced(Reused(winner.value, db.orders[winner.value].payment));
      }
      var items := InsertItems(held, lines);
      db.products := db.products + written;
      db.orders := db.orders[order := Order(user, key, Pending, None, items)];
      return Placed(order, verdict.plan.amountCents);
    }

    /** The compensation: marks the order failed and gives back each item's quantity; a failed or absent order is left alone. */
    method FailOrderAndReleaseStock(order: OrderId)
      modifies db`products, db`orders
      ensures order in old(db.orders) && old(db.orders)[order].status != Failed ==>
        db.Contents() == Apply(old(db.Contents()), Release(order))
      ensures order !in old(db.orders) || old(db.orders)[order].status == Failed ==> db.Contents() == old(db.Contents())
    {
      if order !in db.orders || db.orders[order].status == Failed {
        return;
      }
      var items := db.orders[order].items;
      var products := db.products;
      for i := 0 to |items|
        invariant products == Returned(db.products, items[..i])
      {
        assert items[..i + 1][..i] == items[..i];
        var p := items[i].product;
        // The update matches no row when the product is gone.
        if p in products {
          products := products[p := products[p].(stock := products[p].stock + items[i].quantity)];
        }
        assert products == Returned(db.products, items[..i + 1]);
      }
      assert items[..|items|] == items;
      db.products := products;
      db.orders := db.orders[order := db.orders[order].(status := Failed)];
    }

    /**
     * createOrder, with other connections at work between its lookup and its row locks.  `order`, `uuid` and
     * `message` are the identifiers drawn on the way and `verdict` is how the authorize call goes.
     */
    method CreateOrder(user: UserId, key: Key, lines: seq<Line>, meanwhile: Db, verdict: Verdict,
                       order: OrderId, uuid: PaymentId, message: MessageId) returns (result: Result)
      requires rabbit.Ready() && payments.Contents().Valid()
      requires order !in meanwhile.orders && uuid !in payments.byId
      modifies db, rabbit`queues, payments
      ensures rabbit.Ready() && payments.Contents().Valid()
      // Nothing happens unless an order was placed.
      ensures (result.Created? || result.PaymentRefused?) <==>
        && Searches(old(db.Contents()), user, key, lines)
        && BuildPlan(meanwhile.products, lines).Planned? && KeyFree(meanwhile.orders, user, key)
      ensures !result.Created? && !result.PaymentRefused? ==>
        && db.Contents() == (if Searches(old(db.Contents()), user, key, lines) then meanwhile else old(db.Contents()))
        && rabbit.queues == old(rabbit.queues) && payments.Contents() == old(payments.Contents())
      ensures result.BadRequest? <==> key == "" || lines == []
      ensures result.UserMissing? <==> key != "" && lines != [] && user !in old(db.users)
      ensures result.Reused? <==>
        && key != "" && lines != [] && user in old(db.users)
        && (KeyFree(old(db.orders), user, key) ==> BuildPlan(meanwhile.products, lines).Planned? && !KeyFree(meanwhile.orders, user, key))
      ensures result.Reused? ==> IsReuse(if KeyFree(old(db.orders), user, key) then meanwhile.orders else old(db.orders), user, key, result)
      ensures result.Refused? <==> Searches(old(db.Contents()), user, key, lines) && !BuildPlan(meanwhile.products, lines).Planned?
      ensures result.Refused? ==> result.reason == BuildPlan(meanwhile.products, lines)
      ensures result.Reused? ==> IsReuse(db.orders, user, key, result)
      ensures result.Reused? || result.Refused? || result.BadRequest? || result.UserMissing? || result.Created? || result.PaymentRefused?
      // The payment decides between the two ends of a placed order.
      ensures result.Created? ==> verdict.Answered? && result.order == order && result.message == message
      ensures result.PaymentRefused? ==> !verdict.Answered? && result.order == order
      ensures result.Created? || result.PaymentRefused? ==>
        var placed := Apply(meanwhile, Event.Reserve(order, user, key, lines));
        var amount := BuildPlan(meanwhile.products, lines).plan.amountCents;
        var (records, rec) := AuthorizeIn(old(payments.Contents()), Authorization(order, amount, currency, key), uuid);
        && payments.Contents() == (if verdict.FailedBefore? then old(payments.Contents()) else records)
        && (result.Created? ==>
              && result.paid == Payment(rec.id, rec.status)
              && db.Contents() == Apply(placed, Pay(order, result.paid))
              && rabbit.queues == Sent(old(rabbit.queues), PROCESS_QUEUE, Copy(message, order, 0)))
        && (result.PaymentRefused? ==>
              && db.Contents() == Apply(placed, Release(order))
              && rabbit.queues == old(rabbit.queues)
              && db.products == meanwhile.products)
    {
      hide BuildPlan, Aggregate, AuthorizeIn, ItemsOf, Taken, Returned, ProductsOf;
      if key == "" || lines == [] {
        return BadRequest;
      }
      var reservation := Reserve(user, key, lines, order, meanwhile);
      if reservation.NotPlaced? {
        return reservation.result;
      }
      var amount := reservation.amountCents;
      ghost var placed := db.Contents();
      ghost var before := meanwhile.products;
      assert placed == Apply(meanwhile, Event.Reserve(order, user, key, lines));

      if verdict.FailedBefore? {
        PlacedProducts(before, db.products, lines);
        FailOrderAndReleaseStock(order);
        return PaymentRefused(order);
      }
      var rec := payments.Authorize(Authorization(order, amount, currency, key), uuid);
      if verdict.FailedAfter? {
        PlacedProducts(before, db.products, lines);
        FailOrderAndReleaseStock(order);
        return PaymentRefused(order);
      }

      var paid := Payment(rec.id, rec.status);
      db.orders := db.orders[order := db.orders[order].(payment := Some(paid))];
      rabbit.PublishJson(RK_PROCESS, Copy(message, order, 0));
      return Created(order, paid, message);
    }
  }

  lemma PlannedKeys(rows: map<ProductId, Product>, lines: seq<Line>, plan: Plan)
    requires BuildPlan(rows, lines) == Planned(plan)
    ensures forall i :: 0 <= i < |plan.quantities.keys| ==>
      plan.quantities.keys[i] in rows && plan.quantities.keys[i] in plan.quantities.total
  {
    hide BuildPlan, Aggregate;
    PlanMeaning(rows, lines);
    AggregateTotals(lines);
  }

  lemma NothingTaken(rows: map<ProductId, Product>, total: map<ProductId, nat>)
    ensures TakenRows(rows, total, []) == map[]
  {}

  /** The compensation may look up every row it needs, and it leaves the rows as they were before the reservation. */
  lemma PlacedProducts(before: map<ProductId, Product>, after: map<ProductId, Product>, lines: seq<Line>)
    requires BuildPlan(before, lines).Planned? && after == Taken(before, Aggregate(lines).total)
    ensures ProductsOf(ItemsOf(before, lines)) <= after.Keys
    ensures Returned(after, ItemsOf(before, lines)) == before
  {
    hide BuildPlan, ItemsOf, Aggregate;
    PlanMeaning(before, lines);
    AggregateTotals(lines);
    ItemsProducts(before, lines);
    ItemsMirrorLines(before, lines);
  }
}
