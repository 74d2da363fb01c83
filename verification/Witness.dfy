/**
 * Whole requests run alone, and concrete runs that show where the protocol does not give what one
 * might expect: a payment shared across users, and replays refused after and before their order exists.
 */
module Witness {
  import opened Common
  import opened OrderPolicy
  import opened Payments
  import opened Ledger
  import opened Protocol
  import opened Invariant
  import opened Preservation
  import opened Theorems
  import opened Solo

  function Opened(s: State, c: CallId, user: UserId, key: Key, lines: seq<Line>, stage: Stage): State
  {
    s.(calls := s.calls[c := Call(user, key, lines, stage)])
  }

  lemma SoloBegin(k: Config, s: State, c: CallId, user: UserId, key: Key, lines: seq<Line>)
    requires c !in s.calls && key != "" && lines != []
    ensures Reaches(k, s, Opened(s, c, user, key, lines, Started))
  {
    hide Reaches;
    ReachesItself(k, s);
    FollowReservation(k, s, s, ABegin(c, user, key, lines), Opened(s, c, user, key, lines, Started));
  }

  /** A valid request by a known user with a new key gets past its lookup. */
  lemma SoloStart(k: Config, s: State, c: CallId, user: UserId, key: Key, lines: seq<Line>)
    requires c !in s.calls && user in s.db.users && key != "" && lines != [] && KeyFree(s.db.orders, user, key)
    ensures Reaches(k, s, Opened(s, c, user, key, lines, Reserving(map[])))
  {
    hide Reaches, KeyFree;
    var s1 := Opened(s, c, user, key, lines, Started);
    var s2 := Opened(s, c, user, key, lines, UserFound);
    var s3 := Opened(s, c, user, key, lines, Reserving(map[]));
    SoloBegin(k, s, c, user, key, lines);
    assert SetStage(s1, c, UserFound) == s2;
    FollowReservation(k, s, s1, ACheckUser(c), s2);
    assert SetStage(s2, c, Reserving(map[])) == s3;
    FollowReservation(k, s, s2, AMissExisting(c), s3);
  }

  /** Fresh identifiers for one call: its order, payment, message and copy. */
  datatype Ids = Ids(order: OrderId, payment: PaymentId, message: MessageId, token: TokenId)

  ghost predicate New(s: State, ids: Ids)
  {
    ids.order !in s.db.orders && ids.payment !in s.store.byId && ids.message !in s.published && ids.token !in s.tokens
  }

  /** The answer and the whole state after a call past its lookup has run to `reused: false` with nobody in its way. */
  function Finish(k: Config, s: State, c: CallId, ids: Ids): State
    requires c in s.calls && BuildPlan(s.db.products, s.calls[c].lines).Planned?
  {
    Completed(k, AfterReserve(s, c, ids.order), c, ids.payment, ids.message, ids.token)
  }

  lemma NoOrderHeld(k: Config, s: State, c: CallId, o: OrderId)
    requires Inv(k, s) && o !in s.db.orders && Unlocked(s, c) && c in s.calls && !s.calls[c].stage.Marked?
    ensures OrderRowFree(s, o)
    ensures c in s.requests ==> Priced(s.db.orders, s.requests[c].key, s.requests[c].order, s.requests[c].amountCents)
  {
    hide CallsInv, StoreInv, LogInv, CarriedInv;
    assert forall t :: t in s.tokens ==> GoodToken(k, s.db.processed, s.published, s.tokens[t]);
  }

  lemma SoloFinish(k: Config, s: State, c: CallId, ids: Ids)
    requires Reachable(k, s) && CanReserve(s, c, ids.order) && New(s, ids) && c !in s.requests
    ensures Reachable(k, Finish(k, s, c, ids)) && Reaches(k, s, Finish(k, s, c, ids))
  {
    hide Reachable, Reaches, Inv, BuildPlan, Apply, Completed, AuthorizeIn, OrderRowFree;
    ReachableInv(k, s);
    SoloReserve(k, s, c, ids.order);
    NoOrderHeld(k, s, c, ids.order);
    var mid := AfterReserve(s, c, ids.order);
    ReservedKeepsFree(s, c, ids.order);
    SoloComplete(k, mid, c, ids.payment, ids.message, ids.token);
    ReachesReachable(k, s, mid);
    ReachesReachable(k, mid, Finish(k, s, c, ids));
    ReachesOn(k, s, mid, Finish(k, s, c, ids));
  }

  lemma ReservedKeepsFree(s: State, c: CallId, o: OrderId)
    requires c in s.calls && BuildPlan(s.db.products, s.calls[c].lines).Planned? && OrderRowFree(s, o)
    ensures OrderRowFree(AfterReserve(s, c, o), o)
    ensures o in AfterReserve(s, c, o).db.orders
  {
    hide BuildPlan, ItemsOf, Taken, Aggregate;
  }

  // ----- A payment shared across users -----

  const SHOP := Config({1, 2}, map[0 := Product(100, 10)], "USD", 3)

  function Empty(k: Config): State
  {
    State(StartDb(k), map[], map[], map[], EMPTY, map[], map[], map[], [])
  }

  lemma EmptyReachable(k: Config)
    requires ConfigOk(k)
    ensures Reachable(k, Empty(k))
  {
    assert RunFromInit(k, [Empty(k)], []);
  }

  /** One line for product 0: the plan, its amount and the rows it leaves. */
  lemma OneLine(products: map<ProductId, Product>, n: nat)
    requires 0 in products
    ensures var lines := [Line(0, n)];
      && Requested(lines) == {0} && QuantityOf(lines, 0) == n
      && (BuildPlan(products, lines).Planned? <==> n <= products[0].stock)
      && (BuildPlan(products, lines).Planned? ==> BuildPlan(products, lines).plan.amountCents == products[0].price * n)
      && ItemsOf(products, lines) == [Item(0, n, products[0].price)]
      && (n > products[0].stock ==> BuildPlan(products, lines) == Insufficient(0, n, products[0].stock))
  {
    hide BuildPlan, Aggregate, ShortFirst, Requested, QuantityOf, LineCents, ItemsOf;
    var lines := [Line(0, n)];
    OneLineTotals(products, n);
    assert Affordable(products, lines) <==> EnoughFor(products, lines, 0);
    PlanMeaning(products, lines);
    RefusalMeaning(products, lines);
  }

  lemma OneLineTotals(products: map<ProductId, Product>, n: nat)
    requires 0 in products
    ensures var lines := [Line(0, n)];
      && Requested(lines) == {0} && QuantityOf(lines, 0) == n
      && LineCents(products, lines) == products[0].price * n
      && ItemsOf(products, lines) == [Item(0, n, products[0].price)]
  {
    assert [Line(0, n)][..0] == [];
  }

  /** What a completed call leaves, piece by piece. */
  lemma FinishFacts(k: Config, s: State, c: CallId, ids: Ids)
    requires c in s.calls && BuildPlan(s.db.products, s.calls[c].lines).Planned?
    ensures var (call, s') := (s.calls[c], Finish(k, s, c, ids));
      var a := Authorization(ids.order, BuildPlan(s.db.products, call.lines).plan.amountCents, k.currency, call.key);
      var (store, rec) := AuthorizeIn(s.store, a, ids.payment);
      var paid := Payment(rec.id, rec.status);
      && s'.calls == s.calls[c := call.(stage := Finished(Created(ids.order, paid, ids.message)))]
      && s'.db == s.db.(products := Taken(s.db.products, Aggregate(call.lines).total),
           orders := s.db.orders[ids.order := Order(call.user, call.key, Pending, Some(paid), ItemsOf(s.db.products, call.lines))])
      && s'.store == store && s'.requests == s.requests
      && s'.tokens == s.tokens[ids.token := Token(Copy(ids.message, ids.order, 0), ProcessQueue)]
      && s'.published == s.published[ids.message := ids.order]
  {
    hide BuildPlan, ItemsOf, Taken, Aggregate, AuthorizeIn;
  }

  const FIRST := Ids(1, 1, 1, 1)
  const SECOND := Ids(2, 2, 2, 2)

  function Bought(s: State, c: CallId, user: UserId, n: nat, ids: Ids): State
    requires BuildPlan(s.db.products, [Line(0, n)]).Planned?
  {
    Finish(SHOP, Opened(s, c, user, "k", [Line(0, n)], Reserving(map[])), c, ids)
  }

  lemma BuyAlone(s: State, c: CallId, user: UserId, n: nat, ids: Ids)
    requires Reachable(SHOP, s) && c !in s.calls && c !in s.requests && user in s.db.users
    requires KeyFree(s.db.orders, user, "k") && New(s, ids)
    requires forall d :: d in s.calls ==> s.calls[d].stage.Finished?
    requires BuildPlan(s.db.products, [Line(0, n)]).Planned?
    ensures Reachable(SHOP, Bought(s, c, user, n, ids))
  {
    hide Reachable, Reaches, BuildPlan, Finish;
    SoloStart(SHOP, s, c, user, "k", [Line(0, n)]);
    var open := Opened(s, c, user, "k", [Line(0, n)], Reserving(map[]));
    ReachesReachable(SHOP, s, open);
    SoloFinish(SHOP, open, c, ids);
  }

  lemma FirstPurchase()
    ensures 1 <= 10 && BuildPlan(SHOP.initial, [Line(0, 1)]).Planned?
    ensures var s := Bought(Empty(SHOP), 1, 1, 1, FIRST);
      && Reachable(SHOP, s)
      && s.calls.Keys == {1} && s.calls[1].stage.Finished?
      && s.db.orders == map[1 := Order(1, "k", Pending, Some(Payment(1, Authorized)), [Item(0, 1, 100)])]
      && s.store.byId == map[1 := PaymentRecord(1, 1, 100, "USD", Authorized)] && s.store.byKey == map["k" := 1]
      && s.requests == map[] && s.tokens.Keys == {1} && s.tokens[1].place == ProcessQueue
      && s.published == map[1 := 1] && s.db.users == {1, 2} && s.db.processed == map[]
      && s.db.products == Taken(SHOP.initial, Aggregate([Line(0, 1)]).total)
  {
    hide Reachable, BuildPlan, Finish, Taken, Aggregate, ItemsOf;
    EmptyReachable(SHOP);
    OneLine(SHOP.initial, 1);
    BuyAlone(Empty(SHOP), 1, 1, 1, FIRST);
    FinishFacts(SHOP, Opened(Empty(SHOP), 1, 1, "k", [Line(0, 1)], Reserving(map[])), 1, FIRST);
  }

  lemma SecondPurchase(s: State)
    requires BuildPlan(SHOP.initial, [Line(0, 1)]).Planned? && s == Bought(Empty(SHOP), 1, 1, 1, FIRST)
    ensures BuildPlan(s.db.products, [Line(0, 2)]).Planned?
    ensures var s' := Bought(s, 2, 2, 2, SECOND);
      && Reachable(SHOP, s')
      && (forall c :: c in s'.calls ==> s'.calls[c].stage.Finished?)
      && 2 in s'.db.orders && s'.db.orders[2] == Order(2, "k", Pending, Some(Payment(1, Authorized)), [Item(0, 2, 100)])
      && s'.store.byId == map[1 := PaymentRecord(1, 1, 100, "USD", Authorized)]
      && s'.tokens.Keys == {1, 2} && s'.tokens[1].place == ProcessQueue && s'.tokens[2] == Token(Copy(2, 2, 0), ProcessQueue)
      && s'.db.processed == map[]
  {
    hide Reachable, BuildPlan, Finish, Taken, Aggregate, ItemsOf;
    FirstPurchase();
    OneLine(SHOP.initial, 1);
    TakenRow(SHOP.initial, [Line(0, 1)], 0);
    TakenKeys(SHOP.initial, Aggregate([Line(0, 1)]).total);
    OneLine(s.db.products, 2);
    BuyAlone(s, 2, 2, 2, SECOND);
    FinishFacts(SHOP, Opened(s, 2, 2, "k", [Line(0, 2)], Reserving(map[])), 2, SECOND);
  }

  lemma TakenKeys(products: map<ProductId, Product>, total: map<ProductId, nat>)
    ensures Taken(products, total).Keys == products.Keys
  {}

  /**
   * Payments are keyed globally, orders per user: two users who happen to send the same key share one
   * payment.  Here the second user's processed order of 200 cents carries a payment of 100 cents that
   * was made for the first user's order.
   */
  lemma SharedKeySharesPayment() returns (done: State)
    ensures Reachable(SHOP, done) && 2 in done.db.orders && done.db.orders[2].status == Processed
    ensures done.db.orders[2].payment == Some(Payment(1, Authorized)) && Amount(done.db.orders[2].items) == 200
    ensures 1 in done.store.byId && done.store.byId[1].order == 1 && done.store.byId[1].amountCents == 100
  {
    hide Reachable, BuildPlan, Bought, Reaches;
    FirstPurchase();
    var s := Bought(Empty(SHOP), 1, 1, 1, FIRST);
    SecondPurchase(s);
    var paid := Bought(s, 2, 2, 2, SECOND);
    SoloWork(SHOP, paid, 2);
    done := Consumed(paid, 2);
    ReachesReachable(SHOP, paid, done);
    assert [Item(0, 2, 100)][..0] == [];
    assert Amount([Item(0, 2, 100)]) == 200;
  }

  // ----- A replay refused although its order exists -----

  const LAST := Config({1}, map[0 := Product(100, 1)], "USD", 3)

  /** Two calls with one key, both past their lookup. */
  function BothMissed(): State
  {
    Opened(Opened(Empty(LAST), 1, 1, "k", [Line(0, 1)], Reserving(map[])), 2, 1, "k", [Line(0, 1)], Reserving(map[]))
  }

  lemma BothMissedReachable()
    ensures Reachable(LAST, BothMissed())
    ensures BuildPlan(LAST.initial, [Line(0, 1)]).Planned?
  {
    hide Reachable, Reaches, BuildPlan;
    EmptyReachable(LAST);
    OneLine(LAST.initial, 1);
    var s := Opened(Empty(LAST), 1, 1, "k", [Line(0, 1)], Reserving(map[]));
    SoloStart(LAST, Empty(LAST), 1, 1, "k", [Line(0, 1)]);
    ReachesReachable(LAST, Empty(LAST), s);
    SoloStart(LAST, s, 2, 1, "k", [Line(0, 1)]);
    ReachesReachable(LAST, s, BothMissed());
  }

  lemma WinnerFinishes() returns (s: State)
    ensures Reachable(LAST, s) && s.calls.Keys == {1, 2}
    ensures s.calls[1].stage.Finished? && s.calls[1].stage.result.Created? && s.calls[1].stage.result.order == 1
    ensures s.calls[1].user == 1 && s.calls[1].key == "k"
    ensures s.calls[2] == Call(1, "k", [Line(0, 1)], Reserving(map[]))
    ensures 0 in s.db.products && s.db.products[0].stock == 0
    ensures Matches(s, 2, 1)
  {
    hide Reachable, Reaches, BuildPlan, Finish, Taken, Aggregate, ItemsOf;
    BothMissedReachable();
    OneLine(LAST.initial, 1);
    TakenRow(LAST.initial, [Line(0, 1)], 0);
    TakenKeys(LAST.initial, Aggregate([Line(0, 1)]).total);
    SoloFinish(LAST, BothMissed(), 1, FIRST);
    FinishFacts(LAST, BothMissed(), 1, FIRST);
    s := Finish(LAST, BothMissed(), 1, FIRST);
  }

  /**
   * The plan is made before the insert meets the unique index.  Here two calls with one key both miss
   * the lookup, the first takes the last unit and answers with order 1, and the second, a valid replay,
   * is refused for insufficient stock although order 1 with its user and key exists.
   */
  lemma OverlappingReplayCanBeRefused() returns (refused: State, paid: Payment, m: MessageId)
    ensures Reachable(LAST, refused) && {1, 2} <= refused.calls.Keys
    ensures refused.calls[1].user == refused.calls[2].user && refused.calls[1].key == refused.calls[2].key
    ensures refused.calls[1].stage == Finished(Created(1, paid, m))
    ensures refused.calls[2].stage == Finished(Refused(Insufficient(0, 1, 0)))
    ensures Matches(refused, 2, 1)
  {
    hide Reachable, BuildPlan;
    var s := WinnerFinishes();
    paid, m := s.calls[1].stage.result.paid, s.calls[1].stage.result.message;
    SecondIsRefused(s);
    refused := SecondRefused(s);
  }

  function SecondRefused(s: State): State
    requires 2 in s.calls
  {
    SetStage(s, 2, Finished(Refused(Insufficient(0, 1, 0))))
  }

  /** Call 2, past its lookup, plans when nothing is left. */
  lemma SecondIsRefused(s: State)
    requires Reachable(LAST, s) && 2 in s.calls && s.calls[2] == Call(1, "k", [Line(0, 1)], Reserving(map[]))
    requires 0 in s.db.products && s.db.products[0].stock == 0 && RowFree(s, 2, 0)
    ensures Reachable(LAST, SecondRefused(s)) && Reaches(LAST, s, SecondRefused(s))
  {
    hide Reachable, Reaches, BuildPlan;
    var held := map[0 := s.db.products[0]];
    var locked := SetStage(s, 2, Reserving(held));
    OneLine(held, 1);
    ReachesItself(LAST, s);
    FollowReservation(LAST, s, s, ALockRow(2, 0), locked);
    FollowReservation(LAST, s, locked, AMakePlan(2), SecondRefused(s));
    ReachesReachable(LAST, s, SecondRefused(s));
  }

  // ----- A replay refused before any order for its key exists -----

  /** Calls 1 and 2 are identical; call 3 of the same user has another key.  All are past their lookup. */
  function AllMissed(): State
  {
    Opened(BothMissed(), 3, 1, "x", [Line(0, 1)], Reserving(map[]))
  }

  /** Call 3 has taken the last unit for order 9 and is yet to ask for its payment. */
  lemma ThirdReserves() returns (s: State)
    ensures Reachable(LAST, s) && s.calls.Keys == {1, 2, 3}
    ensures s.calls[1] == s.calls[2] == Call(1, "k", [Line(0, 1)], Reserving(map[]))
    ensures s.calls[3].stage.Committed? && s.calls[3].stage.order == 9
    ensures s.db.orders == map[9 := Order(1, "x", Pending, None, [Item(0, 1, 100)])]
    ensures s.db.products.Keys == {0} && s.db.products[0] == Product(100, 0) && s.db.users == {1}
    ensures s.requests == map[] && s.store == EMPTY && s.published == map[] && s.tokens == map[]
  {
    hide Reachable, Reaches, BuildPlan, Taken, Aggregate, ItemsOf, Inv;
    BothMissedReachable();
    SoloStart(LAST, BothMissed(), 3, 1, "x", [Line(0, 1)]);
    ReachesReachable(LAST, BothMissed(), AllMissed());
    OneLine(LAST.initial, 1);
    TakenRow(LAST.initial, [Line(0, 1)], 0);
    TakenKeys(LAST.initial, Aggregate([Line(0, 1)]).total);
    ReachableInv(LAST, AllMissed());
    SoloReserve(LAST, AllMissed(), 3, 9);
    s := AfterReserve(AllMissed(), 3, 9);
    ReachesReachable(LAST, AllMissed(), s);
  }

  /** The compensation of call 3 puts the last unit back. */
  lemma ThirdIsCompensated(s: State)
    requires Reachable(LAST, s) && s.calls.Keys == {1, 2, 3} && s.calls[3].stage.Committed? && s.calls[3].stage.order == 9
    requires s.calls[1].stage == Reserving(map[]) && s.calls[2].stage.Finished?
    requires s.db.orders == map[9 := Order(1, "x", Pending, None, [Item(0, 1, 100)])]
    requires s.db.products.Keys == {0} && s.db.products[0] == Product(100, 0) && s.tokens == map[]
    ensures Reachable(LAST, Compensated(s, 3, 9)) && Reaches(LAST, s, Compensated(s, 3, 9))
    ensures Compensated(s, 3, 9).db.products.Keys == {0} && Compensated(s, 3, 9).db.products[0] == Product(100, 1)
  {
    hide Reachable, Reaches;
    SoloRelease(LAST, s, 3);
    ReachesReachable(LAST, s, Compensated(s, 3, 9));
    assert [Item(0, 1, 100)][..0] == [];
    assert ItemQuantity([Item(0, 1, 100)], 0) == 1;
  }

  /** Call 1, past its lookup with the last unit back in stock, can run to its answer. */
  lemma FirstIsCreated(s: State)
    requires Reachable(LAST, s) && 1 in s.calls && s.calls[1] == Call(1, "k", [Line(0, 1)], Reserving(map[])) && Unlocked(s, 1)
    requires KeyFree(s.db.orders, 1, "k") && 0 in s.db.products && s.db.products[0].stock == 1
    requires New(s, FIRST) && 1 !in s.requests
    ensures BuildPlan(s.db.products, [Line(0, 1)]).Planned?
    ensures var done := Finish(LAST, s, 1, FIRST);
      && Reachable(LAST, done) && Reaches(LAST, s, done)
      && done.calls.Keys == s.calls.Keys && (forall c :: c in s.calls && c != 1 ==> done.calls[c] == s.calls[c])
      && done.calls[1].stage.Finished? && done.calls[1].stage.result.Created?
      && done.calls[1] == Call(1, "k", [Line(0, 1)], Finished(Created(1, done.calls[1].stage.result.paid, 1)))
  {
    hide Reachable, BuildPlan, Reaches, Finish, Unlocked;
    OneLine(s.db.products, 1);
    SoloFinish(LAST, s, 1, FIRST);
    FinishFacts(LAST, s, 1, FIRST);
  }

  /**
   * Here two identical calls miss the lookup while call 3 holds the last unit.  Call 2 plans and is refused;
   * call 3 is then compensated, and call 1 answers with order 1.  When call 2 was refused no order with
   * its user and key existed.
   */
  lemma ReplayRefusedBeforeOrderExists() returns (refused: State, done: State, paid: Payment, m: MessageId)
    ensures Reachable(LAST, refused) && Reaches(LAST, refused, done) && Reachable(LAST, done)
    ensures KeyFree(refused.db.orders, 1, "k")
    ensures 1 in done.calls && done.calls[1] == Call(1, "k", [Line(0, 1)], Finished(Created(1, paid, m)))
    ensures 2 in refused.calls && 2 in done.calls
    ensures refused.calls[2] == done.calls[2] == Call(1, "k", [Line(0, 1)], Finished(Refused(Insufficient(0, 1, 0))))
  {
    hide Reachable, BuildPlan, Reaches, Finish;
    var s := ThirdReserves();
    SecondIsRefused(s);
    refused := SecondRefused(s);
    ThirdIsCompensated(refused);
    var open := Compensated(refused, 3, 9);
    FirstIsCreated(open);
    done := Finish(LAST, open, 1, FIRST);
    ReachesOn(LAST, refused, open, done);
    paid, m := done.calls[1].stage.result.paid, 1;
  }
}
