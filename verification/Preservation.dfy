/** Every step of the protocol keeps the invariant: one lemma per step, then the step relation and runs. */
module Preservation {
  import opened Common
  import opened OrderPolicy
  import opened Payments
  import opened Ledger
  import opened Protocol
  import opened Invariant

  // ----- Reservation -----

  lemma BeginKeeps(k: Config, s: State, c: CallId, user: UserId, key: Key, lines: seq<Line>, s': State)
    requires Inv(k, s) && Begin(s, c, user, key, lines, s')
    ensures Inv(k, s')
  {
    AddCall(k, s, c, s'.calls[c]);
  }

  lemma FreshCall(s: State, call: Call)
    requires call.stage == Finished(BadRequest) || (call.stage.Started? && call.key != "")
    ensures GoodCall(s.db, s.published, call) && GrantOk(s.store, call)
    ensures forall d :: d in s.calls ==> Compatible(call, s.calls[d])
  {
    assert Held(call.stage) == map[] && Owned(call.stage) == None;
  }

  lemma AddCall(k: Config, s: State, c: CallId, call: Call)
    requires Inv(k, s) && c !in s.calls
    requires call.stage == Finished(BadRequest) || (call.stage.Started? && call.key != "")
    ensures Inv(k, s.(calls := s.calls[c := call]))
  {
    hide LogInv, MessagesInv, TokensInv, CarriedInv, StoreInv, GoodCall, Compatible, GrantOk, CallsInv;
    FreshCall(s, call);
    AskChange(s.calls, s.requests, s.responses, s.store, c, call);
    CallsChange(s.db, s.published, s.calls, c, call);
    WireChange(s, s.calls[c := call]);
  }

  lemma CheckUserKeeps(k: Config, s: State, c: CallId, s': State)
    requires Inv(k, s) && CheckUser(s, c, s')
    ensures Inv(k, s')
  {
    hide Inv;
    CallIsGood(k, s, c);
    NarrowStep(k, s, c, s'.calls[c].stage);
  }

  lemma FindExistingKeeps(k: Config, s: State, c: CallId, o: OrderId, s': State)
    requires Inv(k, s) && FindExisting(s, c, o, s')
    ensures Inv(k, s')
  {
    hide Inv;
    NarrowStep(k, s, c, Finished(Reused(o, s.db.orders[o].payment)));
  }

  lemma MissExistingKeeps(k: Config, s: State, c: CallId, s': State)
    requires Inv(k, s) && MissExisting(s, c, s')
    ensures Inv(k, s')
  {
    hide Inv;
    CallIsGood(k, s, c);
    NarrowStep(k, s, c, Reserving(map[]));
  }

  lemma LockRowKeeps(k: Config, s: State, c: CallId, p: ProductId, s': State)
    requires Inv(k, s) && LockRow(s, c, p, s')
    ensures Inv(k, s')
  {
    hide Inv, Compatible, Requested, RowFree;
    CallIsGood(k, s, c);
    LockRowCompatible(s, c, p);
    LocalStep(k, s, c, s'.calls[c].stage);
  }

  lemma LockRowCompatible(s: State, c: CallId, p: ProductId)
    requires c in s.calls && s.calls[c].stage.Reserving? && p in s.db.products && RowFree(s, c, p)
    requires forall d :: d in s.calls && d != c ==> Compatible(s.calls[c], s.calls[d])
    ensures var stage := Reserving(s.calls[c].stage.held[p := s.db.products[p]]);
      forall d :: d in s.calls && d != c ==> Compatible(s.calls[c].(stage := stage), s.calls[d])
  {
    forall d | d in s.calls && d != c
      ensures Compatible(s.calls[c].(stage := Reserving(s.calls[c].stage.held[p := s.db.products[p]])), s.calls[d])
    {
      assert Compatible(s.calls[c], s.calls[d]);
    }
  }

  lemma MakePlanKeeps(k: Config, s: State, c: CallId, s': State)
    requires Inv(k, s) && MakePlan(s, c, s')
    ensures Inv(k, s')
  {
    hide Inv, BuildPlan;
    PlannedIsGood(k, s, c, s.calls[c].stage.held, BuildPlan(s.calls[c].stage.held, s.calls[c].lines));
    NarrowStep(k, s, c, s'.calls[c].stage);
  }

  lemma PlannedIsGood(k: Config, s: State, c: CallId, held: map<ProductId, Product>, verdict: PlanResult)
    requires Inv(k, s) && c in s.calls && s.calls[c].stage == Reserving(held)
    requires verdict == BuildPlan(held, s.calls[c].lines)
    ensures verdict.Planned? ==> GoodCall(s.db, s.published, s.calls[c].(stage := Writing(held, verdict.plan, map[], 0)))
  {
    hide Inv, BuildPlan;
    CallIsGood(k, s, c);
    if verdict.Planned? {
      assert TakenRows(held, verdict.plan.quantities.total, verdict.plan.quantities.keys[..0]) == map[];
    }
  }

  lemma WriteRowKeeps(k: Config, s: State, c: CallId, s': State)
    requires Inv(k, s) && WriteRow(s, c, s')
    ensures Inv(k, s')
  {
    hide Inv, BuildPlan, GoodCall, Compatible;
    CallIsGood(k, s, c);
    WrittenIsGood(s.db, s.published, s.calls[c], s'.calls[c].stage);
    NarrowStep(k, s, c, s'.calls[c].stage);
  }

  lemma WrittenIsGood(db: Db, published: map<MessageId, OrderId>, call: Call, stage: Stage)
    requires call.stage.Writing? && GoodCall(db, published, call)
    requires var Writing(held, plan, rows, done) := call.stage;
      && done < |plan.quantities.keys|
      && var p := plan.quantities.keys[done];
         && p in held && p in plan.quantities.total
         && stage == Writing(held, plan, rows[p := held[p].(stock := held[p].stock - plan.quantities.total[p])], done + 1)
    ensures GoodCall(db, published, call.(stage := stage))
  {
    hide BuildPlan;
    var Writing(held, plan, rows, done) := call.stage;
    TakenRowsSnoc(held, plan.quantities.total, plan.quantities.keys, done);
  }

  lemma TakenRowsSnoc(held: map<ProductId, Product>, total: map<ProductId, nat>, keys: seq<ProductId>, n: nat)
    requires n < |keys| && keys[n] in held && keys[n] in total
    ensures TakenRows(held, total, keys[..n + 1])
         == TakenRows(held, total, keys[..n])[keys[n] := held[keys[n]].(stock := held[keys[n]].stock - total[keys[n]])]
  {
    assert keys[..n + 1] == keys[..n] + [keys[n]];
  }

  lemma InsertOrderKeeps(k: Config, s: State, c: CallId, o: OrderId, s': State)
    requires Inv(k, s) && InsertOrder(s, c, o, s')
    ensures Inv(k, s')
  {
    hide Inv, BuildPlan;
    CallIsGood(k, s, c);
    var stage := s'.calls[c].stage;
    assert stage.plan.quantities.keys[..s.calls[c].stage.done] == stage.plan.quantities.keys;
    forall d | d in s.calls && d != c
      ensures Compatible(s.calls[c].(stage := stage), s.calls[d])
    {
      assert Compatible(s.calls[c], s.calls[d]);
      if Owned(s.calls[d].stage).Some? && !s.calls[d].stage.Inserting? {
        OwnedOrderExists(s.db, s.published, s.calls[d]);
      }
    }
    LocalStep(k, s, c, stage);
  }

  lemma OwnedOrderExists(db: Db, published: map<MessageId, OrderId>, call: Call)
    requires GoodCall(db, published, call) && Owned(call.stage).Some? && !call.stage.Inserting?
    ensures Owns(db.orders, call, Owned(call.stage).value)
  {}

  lemma HitUniqueKeyKeeps(k: Config, s: State, c: CallId, s': State)
    requires Inv(k, s) && HitUniqueKey(s, c, s')
    ensures Inv(k, s')
  {
    hide Inv;
    CallIsGood(k, s, c);
    NarrowStep(k, s, c, KeyTaken);
  }

  lemma InsertItemKeeps(k: Config, s: State, c: CallId, s': State)
    requires Inv(k, s) && InsertItem(s, c, s')
    ensures Inv(k, s')
  {
    hide Inv, BuildPlan;
    CallIsGood(k, s, c);
    var call := s.calls[c];
    var n := |call.stage.items|;
    assert call.lines[..n + 1][..n] == call.lines[..n];
    ItemsMirrorLines(call.stage.held, call.lines[..n + 1]);
    NarrowStep(k, s, c, s'.calls[c].stage);
  }

  lemma TakenRowsComplete(products: map<ProductId, Product>, held: map<ProductId, Product>, q: Quantities)
    requires q.total.Keys <= held.Keys
    requires forall p :: p in q.keys <==> p in q.total
    requires forall p :: p in held ==> p in products && products[p] == held[p]
    ensures products + TakenRows(held, q.total, q.keys) == Taken(products, q.total)
  {}

  /** A plan made on the locked rows is the plan on the whole table, and its rows are the atomic update. */
  lemma PlanOnLockedRows(products: map<ProductId, Product>, held: map<ProductId, Product>, lines: seq<Line>, plan: Plan)
    requires BuildPlan(held, lines) == Planned(plan)
    requires forall p :: p in held ==> p in products && products[p] == held[p]
    ensures Requested(lines) <= held.Keys
    ensures BuildPlan(products, lines) == Planned(plan)
    ensures products + TakenRows(held, plan.quantities.total, plan.quantities.keys) == Taken(products, Aggregate(lines).total)
    ensures ItemsOf(held, lines) == ItemsOf(products, lines)
    ensures plan.amountCents == Amount(ItemsOf(products, lines))
  {
    hide BuildPlan, Aggregate, ItemsOf, Taken, TakenRows, Amount, LineCents;
    PlanMeaning(held, lines);
    AggregateTotals(lines);
    PlanLocal(held, products, lines);
    ItemsLocal(held, products, lines);
    ItemsMirrorLines(held, lines);
    TakenRowsComplete(products, held, plan.quantities);
  }

  /** What a call about to commit has computed is exactly the atomic reservation on the committed tables. */
  lemma CommitIsReserve(k: Config, s: State, c: CallId, s': State)
    requires Inv(k, s) && CommitCreate(s, c, s')
    ensures var (call, o) := (s.calls[c], s.calls[c].stage.order);
      && Allowed(s.db, Reserve(o, call.user, call.key, call.lines))
      && s'.db == Apply(s.db, Reserve(o, call.user, call.key, call.lines))
      && call.stage.plan.amountCents == Amount(s'.db.orders[o].items)
      && Requested(call.lines) <= Held(call.stage).Keys
  {
    hide Inv, BuildPlan, Aggregate, ItemsOf, Taken, TakenRows, Amount;
    CallIsGood(k, s, c);
    var call := s.calls[c];
    assert call.lines[..|call.lines|] == call.lines;
    PlanOnLockedRows(s.db.products, call.stage.held, call.lines, call.stage.plan);
  }

  lemma CommittedIsGood(db: Db, published: map<MessageId, OrderId>, call: Call)
    requires call.stage.Committed? && call.key != "" && Owns(db.orders, call, call.stage.order)
    requires var order := db.orders[call.stage.order];
      order.status == Pending && order.payment == None && call.stage.amountCents == Amount(order.items)
    requires forall m :: m in published ==> published[m] != call.stage.order
    ensures GoodCall(db, published, call)
  {}

  lemma PublishedExist(k: Config, s: State)
    requires Inv(k, s)
    ensures forall m :: m in s.published ==> s.published[m] in s.db.orders
  {}

  lemma CommitCreateKeeps(k: Config, s: State, c: CallId, s': State)
    requires Inv(k, s) && CommitCreate(s, c, s')
    ensures Inv(k, s')
  {
    hide Inv, BuildPlan, Apply, Allowed, ItemsOf, Amount, HeldOk;
    var call := s.calls[c];
    var e := Reserve(call.stage.order, call.user, call.key, call.lines);
    CommitIsReserve(k, s, c, s');
    PublishedExist(k, s);
    CallIsGood(k, s, c);
    CommittedIsGood(s'.db, s.published, s'.calls[c]);
    forall d | d in s.calls && d != c
      ensures Unaffected(s.db, s.calls[d], e)
    {
      assert Compatible(call, s.calls[d]);
    }
    NewOrderUnasked(k, s, call.stage.order);
    EarlyIsSilent(k, s, c);
    CallCommit(k, s, c, e, s');
  }

  lemma NewOrderUnasked(k: Config, s: State, o: OrderId)
    requires Inv(k, s) && o !in s.db.orders
    ensures Unrecorded(s.store, o) && Unrequested(s.requests, o)
  {
    hide CallsInv, LogInv, MessagesInv, TokensInv, CarriedInv, AskInv, GrantOk, PaidBy;
  }

  lemma EarlyIsSilent(k: Config, s: State, c: CallId)
    requires Inv(k, s) && c in s.calls
    ensures AskOk(s.requests, s.responses, s.store, c, s.calls[c].stage)
  {
    hide CallsInv, LogInv, MessagesInv, TokensInv, CarriedInv, StoreInv, WireInv, AskOk;
  }

  lemma MessagesFrame(db: Db, published: map<MessageId, OrderId>, e: Event)
    requires MessagesInv(db, published) && Allowed(db, e) && !e.Process?
    requires e.Release? ==> forall m :: m in published ==> published[m] != e.order
    ensures MessagesInv(Apply(db, e), published)
    ensures Apply(db, e).processed == db.processed
  {}

  /** A call commits an event: the rest of the system stays in order. */
  lemma CallCommit(k: Config, s: State, c: CallId, e: Event, s': State)
    requires Inv(k, s) && c in s.calls && Allowed(s.db, e) && !e.Process?
    requires e.Pay? ==> PaidBy(s.store, s.db.orders[e.order].key, e.payment)
    requires e.Release? ==> forall m :: m in s.published ==> s.published[m] != e.order
    requires c in s'.calls
    requires s' == SetStage(s, c, s'.calls[c].stage).(db := Apply(s.db, e), log := s.log + [e])
    requires Narrows(s'.calls[c].stage, s.calls[c].stage)
    requires GoodCall(s'.db, s.published, s'.calls[c]) && GrantOk(s.store, s'.calls[c])
    requires AskOk(s.requests, s.responses, s.store, c, s'.calls[c].stage)
    requires forall d :: d in s.calls && d != c ==> Unaffected(s.db, s.calls[d], e)
    ensures Inv(k, s')
  {
    hide Allowed, Apply, MessagesInv, CallsInv, TokensInv, CarriedInv, StoreInv, LogInv, GoodCall, GrantOk, Unaffected, Narrows, PaidBy, Priced, AskInv, AskOk;
    AskChange(s.calls, s.requests, s.responses, s.store, c, s'.calls[c]);
    LogAppended(k, s, e);
    StoreFrame(s.db, s.store, e);
    MessagesFrame(s.db, s.published, e);
    CallsCommit(s.db, s.published, s.calls, c, s'.calls[c].stage, e);
  }

  lemma LogAppended(k: Config, s: State, e: Event)
    requires LogInv(k, s.db, s.log) && Allowed(s.db, e)
    ensures LogInv(k, Apply(s.db, e), s.log + [e])
  {
    LogAppend(k, s, e);
  }

  lemma ResolveKeeps(k: Config, s: State, c: CallId, o: OrderId, s': State)
    requires Inv(k, s) && Resolve(s, c, o, s')
    ensures Inv(k, s')
  {
    hide Inv;
    NarrowStep(k, s, c, Finished(Reused(o, s.db.orders[o].payment)));
  }

  /** A unique-key rejection always finds the winner's order, so "Duplicate idempotency key" is never answered. */
  lemma ResolveNoneNever(k: Config, s: State, c: CallId, s': State)
    requires Inv(k, s)
    ensures !ResolveNone(s, c, s')
  {
    if c in s.calls {
      assert GoodCall(s.db, s.published, s.calls[c]);
    }
  }

  // ----- Payment -----

  lemma AddRequest(k: Config, s: State, c: CallId, a: Authorization)
    requires Inv(k, s) && c in s.calls && a.key == s.calls[c].key != ""
    requires Priced(s.db.orders, a.key, a.order, a.amountCents)
    requires s.calls[c].stage == Authorizing(a.order) && Unrecorded(s.store, a.order) && Unrequested(s.requests, a.order)
    requires forall d :: d in s.calls && d != c && s.calls[d].stage.Committed? ==> s.calls[d].stage.order != a.order
    ensures Inv(k, s.(requests := s.requests[c := a]))
  {
    hide LogInv, CallsInv, MessagesInv, TokensInv, CarriedInv, StoreInv, Priced, PaidBy, GrantOk, AskInv, Unrecorded;
    RequestKeepsAsk(s.calls, s.requests, s.responses, s.store, c, a);
  }

  lemma RequestKeepsAsk(calls: map<CallId, Call>, requests: map<CallId, Authorization>, responses: map<CallId, Payment>, store: Records,
                        c: CallId, a: Authorization)
    requires AskInv(calls, requests, responses, store) && c in calls && calls[c].stage == Authorizing(a.order)
    requires Unrecorded(store, a.order) && Unrequested(requests, a.order)
    requires forall d :: d in calls && d != c && calls[d].stage.Committed? ==> calls[d].stage.order != a.order
    ensures AskInv(calls, requests[c := a], responses, store)
  {
    hide Unrecorded;
  }

  lemma SendAuthorizeKeeps(k: Config, s: State, c: CallId, s': State)
    requires Inv(k, s) && SendAuthorize(k, s, c, s')
    ensures Inv(k, s')
  {
    hide Inv, Amount, Unrecorded, Unrequested;
    CallIsGood(k, s, c);
    EarlyIsSilent(k, s, c);
    OthersCommitted(s.calls, c);
    NarrowStep(k, s, c, s'.calls[c].stage);
    AddRequest(k, SetStage(s, c, s'.calls[c].stage), c, s'.requests[c]);
  }

  lemma OthersCommitted(calls: map<CallId, Call>, c: CallId)
    requires c in calls && calls[c].stage.Committed?
    requires forall d :: d in calls && d != c ==> Compatible(calls[c], calls[d])
    ensures forall d :: d in calls && d != c && calls[d].stage.Committed? ==> calls[d].stage.order != calls[c].stage.order
  {}

  /** Whatever was paid stays paid, and the answer is the record the key is indexed under. */
  lemma ServedStore(orders: map<OrderId, Order>, store: Records, a: Authorization, id: PaymentId)
    requires StoreInv(orders, store) && id !in store.byId
    requires a.key != "" && Priced(orders, a.key, a.order, a.amountCents)
    ensures var (store', rec) := AuthorizeIn(store, a, id);
      && StoreInv(orders, store')
      && PaidBy(store', a.key, Payment(rec.id, rec.status))
      && forall key, paid :: PaidBy(store, key, paid) ==> PaidBy(store', key, paid)
  {
    hide Priced;
    AuthorizeKeepsValid(store, a, id);
    PricedExists(orders, a.key, a.order, a.amountCents);
  }

  lemma PricedExists(orders: map<OrderId, Order>, key: Key, o: OrderId, amountCents: int)
    requires Priced(orders, key, o, amountCents)
    ensures o in orders
  {}

  lemma ServeAuthorizeKeeps(k: Config, s: State, c: CallId, id: PaymentId, s': State)
    requires Inv(k, s) && ServeAuthorize(s, c, id, s')
    ensures Inv(k, s')
  {
    hide LogInv, MessagesInv, TokensInv, CarriedInv, CallsInv, StoreInv, Priced, PaidBy, AuthorizeIn, AskInv;
    assert c in s.calls && s.requests[c].key == s.calls[c].key;
    ServedStore(s.db.orders, s.store, s.requests[c], id);
    ServeKeepsAsk(s.calls, s.requests, s.responses, s.store, c, id);
    forall d | d in s'.calls
      ensures GrantOk(s'.store, s'.calls[d])
    {
      assert GrantOk(s.store, s.calls[d]);
    }
  }

  lemma ServeKeepsAsk(calls: map<CallId, Call>, requests: map<CallId, Authorization>, responses: map<CallId, Payment>, store: Records,
                      c: CallId, id: PaymentId)
    requires AskInv(calls, requests, responses, store) && c in requests && id !in store.byId
    ensures var (store', rec) := AuthorizeIn(store, requests[c], id);
      AskInv(calls, requests - {c}, responses[c := Payment(rec.id, rec.status)], store')
  {
    var (store', rec) := AuthorizeIn(store, requests[c], id);
    var responses' := responses[c := Payment(rec.id, rec.status)];
    ServedUnrecorded(store, requests[c], id);
    hide AuthorizeIn, Unrecorded;
    forall d | d in calls
      ensures AskOk(requests - {c}, responses', store', d, calls[d].stage)
    {
      assert AskOk(requests, responses, store, d, calls[d].stage);
    }
  }

  /** A new record names the order that asked, and no other. */
  lemma ServedUnrecorded(store: Records, a: Authorization, id: PaymentId)
    requires id !in store.byId
    ensures forall o :: Unrecorded(store, o) && o != a.order ==> Unrecorded(AuthorizeIn(store, a, id).0, o)
  {}

  lemma ReceivePaymentKeeps(k: Config, s: State, c: CallId, s': State)
    requires Inv(k, s) && ReceivePayment(s, c, s')
    ensures Inv(k, s')
  {
    hide Inv, PaidBy;
    CallIsGood(k, s, c);
    ResponseIsPaid(k, s, c);
    NarrowStep(k, s, c, s'.calls[c].stage);
  }

  lemma FailPaymentKeeps(k: Config, s: State, c: CallId, s': State)
    requires Inv(k, s) && FailPayment(s, c, s')
    ensures Inv(k, s')
  {
    hide Inv;
    CallIsGood(k, s, c);
    NarrowStep(k, s, c, s'.calls[c].stage);
  }

  lemma RecordPaymentKeeps(k: Config, s: State, c: CallId, s': State)
    requires Inv(k, s) && RecordPayment(s, c, s')
    ensures Inv(k, s')
  {
    hide Inv;
    var PaymentGranted(o, paid) := s.calls[c].stage;
    var e := Pay(o, paid);
    CallIsGood(k, s, c);
    OthersUnaffected(k, s, c, e);
    RecordedIsGood(s.db, s.published, s.calls[c]);
    hide GoodCall, Compatible, Unaffected;
    CallCommit(k, s, c, e, s');
  }

  lemma RecordedIsGood(db: Db, published: map<MessageId, OrderId>, call: Call)
    requires call.stage.PaymentGranted? && GoodCall(db, published, call)
    ensures var PaymentGranted(o, paid) := call.stage;
      && Allowed(db, Pay(o, paid)) && db.orders[o].key == call.key
      && GoodCall(Apply(db, Pay(o, paid)), published, call.(stage := PaymentRecorded(o, paid)))
  {}

  /** An event on the order a call is responsible for, on rows it has locked, touches no other call. */
  lemma OthersUnaffected(k: Config, s: State, c: CallId, e: Event)
    requires Inv(k, s) && c in s.calls && !e.Reserve?
    requires Claimed(s.calls[c].stage) == Some(e.order)
    requires ChangedProducts(s.db, e) <= Held(s.calls[c].stage).Keys
    ensures forall d :: d in s.calls && d != c ==> Unaffected(s.db, s.calls[d], e)
  {
    hide Inv, GoodCall, ChangedProducts;
    CallIsGood(k, s, c);
    forall d | d in s.calls && d != c
      ensures Unaffected(s.db, s.calls[d], e)
    {
      assert Compatible(s.calls[c], s.calls[d]);
    }
  }

  lemma PublishKeepsMessages(db: Db, published: map<MessageId, OrderId>, m: MessageId, o: OrderId)
    requires MessagesInv(db, published) && m !in published
    requires o in db.orders && db.orders[o].status != Failed && db.orders[o].payment.Some?
    requires forall n :: n in published ==> published[n] != o
    ensures MessagesInv(db, published[m := o])
  {}

  lemma PublishKeepsTokens(k: Config, s: State, c: CallId, m: MessageId, t: TokenId, s': State)
    requires Inv(k, s) && Publish(s, c, m, t, s')
    ensures TokensInv(k, s'.db.processed, s'.published, s'.tokens)
    ensures CarriedInv(s'.db.processed, s'.published, s'.tokens)
  {
    hide CallsInv, LogInv, StoreInv, WireInv;
    var token := s'.tokens[t];
    assert TokensInv(k, s.db.processed, s'.published, s.tokens) by {
      forall u | u in s.tokens
        ensures GoodToken(k, s.db.processed, s'.published, s.tokens[u])
      {
        assert GoodToken(k, s.db.processed, s.published, s.tokens[u]);
      }
    }
    TokensChange(k, s.db.processed, s'.published, s.tokens, t, token);
    CarriedChange(s.db.processed, s.published, s.tokens, t, token);
    assert t in s'.tokens && Carries(s'.tokens[t], m);
  }

  lemma GoodWhenPublished(db: Db, published: map<MessageId, OrderId>, call: Call, m: MessageId, o: OrderId)
    requires GoodCall(db, published, call) && m !in published && Claimed(call.stage) != Some(o)
    ensures GoodCall(db, published[m := o], call)
  {}

  lemma PublisherIsGood(k: Config, s: State, c: CallId, m: MessageId, t: TokenId, s': State)
    requires Inv(k, s) && Publish(s, c, m, t, s')
    ensures GoodCall(s'.db, s'.published, s'.calls[c])
  {
    hide Inv;
    CallIsGood(k, s, c);
  }

  lemma PublishKeepsGoodCalls(k: Config, s: State, c: CallId, m: MessageId, t: TokenId, s': State)
    requires Inv(k, s) && Publish(s, c, m, t, s')
    ensures forall d :: d in s'.calls ==> GoodCall(s'.db, s'.published, s'.calls[d])
  {
    hide Inv, GoodCall;
    CallIsGood(k, s, c);
    PublisherIsGood(k, s, c, m, t, s');
    forall d | d in s'.calls
      ensures GoodCall(s'.db, s'.published, s'.calls[d])
    {
      if d != c {
        assert Compatible(s.calls[c], s.calls[d]);
        GoodWhenPublished(s.db, s.published, s.calls[d], m, s.calls[c].stage.order);
      }
    }
  }

  lemma PublishKeepsCalls(k: Config, s: State, c: CallId, m: MessageId, t: TokenId, s': State)
    requires Inv(k, s) && Publish(s, c, m, t, s')
    ensures CallsInv(s'.db, s'.published, s'.calls)
  {
    hide Inv, GoodCall;
    PublishKeepsGoodCalls(k, s, c, m, t, s');
    CallIsGood(k, s, c);
    CompatibleAll(k, s);
    NarrowCompatible(s.calls, c, s'.calls[c].stage);
    forall d, e | d in s'.calls && e in s'.calls && d != e
      ensures Compatible(s'.calls[d], s'.calls[e])
    {
      if e == c {
        assert Compatible(s'.calls[c], s.calls[d]);
      }
    }
  }

  lemma CompatibleAll(k: Config, s: State)
    requires Inv(k, s)
    ensures forall d, e :: d in s.calls && e in s.calls && d != e ==> Compatible(s.calls[d], s.calls[e])
  {
    hide Compatible, GoodCall;
  }

  lemma PublishKeeps(k: Config, s: State, c: CallId, m: MessageId, t: TokenId, s': State)
    requires Inv(k, s) && Publish(s, c, m, t, s')
    ensures Inv(k, s')
  {
    hide CallsInv, MessagesInv, TokensInv, CarriedInv, StoreInv, LogInv, Compatible, PaidBy, HeldOk, WorkOk;
    CallIsGood(k, s, c);
    PublishKeepsCalls(k, s, c, m, t, s');
    PublishKeepsMessages(s.db, s.published, m, s.calls[c].stage.order);
    PublishKeepsTokens(k, s, c, m, t, s');
    WireChange(s, s'.calls);
    hide AskInv;
    AskChange(s.calls, s.requests, s.responses, s.store, c, s'.calls[c]);
  }

  // ----- Compensation -----

  lemma ReadForReleaseKeeps(k: Config, s: State, c: CallId, s': State)
    requires Inv(k, s) && ReadForRelease(s, c, s')
    ensures Inv(k, s')
  {
    hide Inv;
    CallIsGood(k, s, c);
    NarrowStep(k, s, c, s'.calls[c].stage);
  }

  lemma MarkFailedKeeps(k: Config, s: State, c: CallId, s': State)
    requires Inv(k, s) && MarkFailed(s, c, s')
    ensures Inv(k, s')
  {
    hide Inv;
    CallIsGood(k, s, c);
    NarrowStep(k, s, c, s'.calls[c].stage);
  }

  /** One more item: its product joins the locked rows if it is new, and its quantity is added once. */
  lemma ReturnedSnoc(held: map<ProductId, Product>, items: seq<Item>, n: nat, p: ProductId, row: Product)
    requires n < |items| && p == items[n].product
    requires held.Keys == ProductsOf(items[..n])
    requires p in held ==> row == held[p]
    ensures var (rows, q) := (Returned(held, items[..n]), items[n].quantity);
      && held[p := row].Keys == ProductsOf(items[..n + 1])
      && Returned(held[p := row], items[..n + 1])
         == rows[p := if p in rows then rows[p].(stock := rows[p].stock + q) else row.(stock := row.stock + q)]
  {
    hide ItemQuantity, ProductsOf;
    QuantitySnoc(items, n);
    if p !in held {
      NoItemNoQuantity(items[..n], p);
    }
  }

  lemma QuantitySnoc(items: seq<Item>, n: nat)
    requires n < |items|
    ensures ProductsOf(items[..n + 1]) == ProductsOf(items[..n]) + {items[n].product}
    ensures forall p :: ItemQuantity(items[..n + 1], p)
                        == ItemQuantity(items[..n], p) + if p == items[n].product then items[n].quantity else 0
  {
    assert items[..n + 1][..n] == items[..n];
    assert items[..n + 1] == items[..n] + [items[n]];
  }

  lemma ReleasedProductsExist(k: Config, s: State, c: CallId, i: nat)
    requires Inv(k, s) && c in s.calls && s.calls[c].stage.Marked? && i < |s.calls[c].stage.items|
    ensures s.calls[c].stage.items[i].product in s.db.products
  {
    InvSound(k, s);
    hide Inv, Held, WorkOk, HeldOk;
    CallIsGood(k, s, c);
    assert s.calls[c].stage.items[i].product in ProductsOf(s.db.orders[s.calls[c].stage.order].items);
  }

  /** The step written with one row update, whether or not the row was locked before. */
  ghost predicate ItemReturned(products: map<ProductId, Product>, before: Stage, after: Stage)
  {
    && before.Marked? && before.done < |before.items|
    && var Marked(o, items, done, held, rows) := before;
       var Item(p, q, _) := items[done];
       && p in products
       && var row := products[p];
          after == Marked(o, items, done + 1, held[p := row],
            rows[p := if p in rows then rows[p].(stock := rows[p].stock + q) else row.(stock := row.stock + q)])
  }

  lemma ReturnItemShape(products: map<ProductId, Product>, stage: Stage)
    requires stage.Marked? && stage.done < |stage.items|
    requires stage.items[stage.done].product in products && stage.held.Keys == stage.rows.Keys
    requires HeldOk(products, stage)
    ensures ItemReturned(products, stage, AddBack(products, stage))
  {
    var p := stage.items[stage.done].product;
    if p in stage.rows {
      assert Held(stage)[p] == products[p];
      assert stage.held[p := products[p]] == stage.held;
    }
  }

  lemma MarkedRows(k: Config, s: State, c: CallId)
    requires Inv(k, s) && c in s.calls && s.calls[c].stage.Marked?
    ensures s.calls[c].stage.held.Keys == s.calls[c].stage.rows.Keys
    ensures HeldOk(s.db.products, s.calls[c].stage)
  {
    hide Inv, HeldOk, OrderOk, SilentOk, ProductsOf;
    CallIsGood(k, s, c);
  }

  lemma ReturnItemStage(k: Config, s: State, c: CallId, s': State)
    requires Inv(k, s) && ReturnItem(s, c, s')
    ensures ItemReturned(s.db.products, s.calls[c].stage, s'.calls[c].stage)
  {
    hide Inv, HeldOk, ItemReturned, RowFree, AddBack;
    ReleasedProductsExist(k, s, c, s.calls[c].stage.done);
    MarkedRows(k, s, c);
    ReturnItemShape(s.db.products, s.calls[c].stage);
  }

  lemma ReturnItemGood(db: Db, published: map<MessageId, OrderId>, call: Call, stage: Stage)
    requires GoodCall(db, published, call) && ItemReturned(db.products, call.stage, stage)
    ensures GoodCall(db, published, call.(stage := stage))
  {
    hide Returned, ProductsOf, Amount;
    var Marked(o, items, done, held, rows) := call.stage;
    ReturnedSnoc(held, items, done, items[done].product, db.products[items[done].product]);
  }

  lemma ReturnItemKeeps(k: Config, s: State, c: CallId, s': State)
    requires Inv(k, s) && ReturnItem(s, c, s')
    ensures Inv(k, s')
  {
    ReturnItemStage(k, s, c, s');
    hide Inv, WorkOk, OrderOk, SilentOk, HeldOk, Compatible, AddBack;
    CallIsGood(k, s, c);
    var stage := s'.calls[c].stage;
    ReturnItemGood(s.db, s.published, s.calls[c], stage);
    ReturnItemCompatible(k, s, c, stage);
    assert s' == SetStage(s, c, stage);
    LocalStep(k, s, c, stage);
  }

  lemma ReturnItemCompatible(k: Config, s: State, c: CallId, stage: Stage)
    requires Inv(k, s) && c in s.calls && ItemReturned(s.db.products, s.calls[c].stage, stage)
    requires var p := s.calls[c].stage.items[s.calls[c].stage.done].product;
      p in s.calls[c].stage.held || RowFree(s, c, p)
    ensures forall d :: d in s.calls && d != c ==> Compatible(s.calls[c].(stage := stage), s.calls[d])
  {
    hide Inv, GoodCall, GrantOk;
    CallIsGood(k, s, c);
    forall d | d in s.calls && d != c
      ensures Compatible(s.calls[c].(stage := stage), s.calls[d])
    {
      assert Compatible(s.calls[c], s.calls[d]);
    }
  }

  lemma ReturnedComplete(products: map<ProductId, Product>, held: map<ProductId, Product>, items: seq<Item>)
    requires held.Keys == ProductsOf(items)
    requires forall p :: p in held ==> p in products && products[p] == held[p]
    ensures products + Returned(held, items) == Returned(products, items)
  {
    forall p | p in products && p !in held
      ensures ItemQuantity(items, p) == 0
    {
      NoItemNoQuantity(items, p);
    }
  }

  /** What a compensation about to commit has computed is exactly the atomic release on the committed tables. */
  lemma CommitIsRelease(k: Config, s: State, c: CallId, s': State)
    requires Inv(k, s) && CommitRelease(s, c, s')
    ensures var o := s.calls[c].stage.order;
      && Allowed(s.db, Release(o))
      && s'.db == Apply(s.db, Release(o))
      && Held(s.calls[c].stage).Keys == ProductsOf(s.db.orders[o].items)
  {
    hide Inv, Returned, ProductsOf;
    CallIsGood(k, s, c);
    var Marked(o, items, done, held, rows) := s.calls[c].stage;
    assert items[..done] == items;
    ReturnedComplete(s.db.products, held, items);
  }

  lemma CommitReleaseKeeps(k: Config, s: State, c: CallId, s': State)
    requires Inv(k, s) && CommitRelease(s, c, s')
    ensures Inv(k, s')
  {
    hide Inv, Returned, ProductsOf, GoodCall, GrantOk, Compatible, Unaffected;
    var e := Release(s.calls[c].stage.order);
    CommitIsRelease(k, s, c, s');
    OthersUnaffected(k, s, c, e);
    ReleasedIsGood(k, s, c, s');
    hide Apply, Allowed, PaidBy;
    CallCommit(k, s, c, e, s');
  }

  lemma ReleasedIsGood(k: Config, s: State, c: CallId, s': State)
    requires Inv(k, s) && CommitRelease(s, c, s')
    ensures GoodCall(s'.db, s.published, s'.calls[c]) && GrantOk(s.store, s'.calls[c])
    ensures forall m :: m in s.published ==> s.published[m] != s.calls[c].stage.order
  {
    hide Inv, Returned, ProductsOf, WorkOk, HeldOk, Compatible;
    CallIsGood(k, s, c);
    FinishedIsGood(s'.db, s.published, s'.calls[c]);
  }

  lemma FinishedIsGood(db: Db, published: map<MessageId, OrderId>, call: Call)
    requires call.stage.Finished? && !call.stage.result.Created? && ResultOk(db.orders, call, call.stage.result)
    ensures GoodCall(db, published, call)
  {}

  lemma AbortKeeps(k: Config, s: State, c: CallId, s': State)
    requires Inv(k, s) && Abort(s, c, s')
    ensures Inv(k, s')
  {
    hide Inv;
    NarrowStep(k, s, c, Finished(Aborted));
  }

  // ----- Worker -----

  lemma DeliverKeeps(k: Config, s: State, t: TokenId, s': State)
    requires Inv(k, s) && Deliver(s, t, s')
    ensures Inv(k, s')
  {
    hide LogInv, CallsInv, MessagesInv, CarriedInv, StoreInv;
    MoveStep(k, s, t, Delivered);
  }

  lemma InsertDedupKeeps(k: Config, s: State, t: TokenId, s': State)
    requires Inv(k, s) && InsertDedup(s, t, s')
    ensures Inv(k, s')
  {
    hide LogInv, CallsInv, MessagesInv, CarriedInv, StoreInv, WireInv;
    assert GoodToken(k, s.db.processed, s.published, s.tokens[t]);
    MoveStep(k, s, t, s'.tokens[t].place);
  }

  /** While a handler holds its row in processed_messages, its order exists, is paid and is still pending. */
  lemma HandledOrderIsPending(k: Config, s: State, t: TokenId)
    requires Inv(k, s) && t in s.tokens && HoldsDedup(s.tokens[t].place)
    ensures var Copy(m, o, _) := s.tokens[t].copy; Allowed(s.db, Process(m, o))
  {
    var Copy(m, o, _) := s.tokens[t].copy;
    InvSound(k, s);
    assert GoodToken(k, s.db.processed, s.published, s.tokens[t]);
    forall n | n in s.db.processed
      ensures s.db.processed[n] != o
    {
      assert s.published[n] == s.db.processed[n];
    }
    assert o !in s.db.processed.Values;
  }

  lemma LockOrderKeeps(k: Config, s: State, t: TokenId, s': State)
    requires Inv(k, s) && LockOrder(s, t, s')
    ensures Inv(k, s')
  {
    hide LogInv, CallsInv, MessagesInv, CarriedInv, StoreInv, WireInv, AskInv;
    HandledOrderIsPending(k, s, t);
    assert forall u :: u in s.tokens && u != t ==> Apart(s.tokens[t], s.tokens[u]);
    MoveStep(k, s, t, s'.tokens[t].place);
  }

  lemma CommitSeenNever(k: Config, s: State, t: TokenId, s': State)
    requires Inv(k, s)
    ensures !CommitSeen(s, t, s')
  {
    if In(s, t) {
      assert GoodToken(k, s.db.processed, s.published, s.tokens[t]);
    }
  }

  lemma UpdateOrderKeeps(k: Config, s: State, t: TokenId, s': State)
    requires Inv(k, s) && UpdateOrder(s, t, s')
    ensures Inv(k, s')
  {
    hide LogInv, CallsInv, MessagesInv, CarriedInv, StoreInv, WireInv, AskInv;
    assert forall u :: u in s.tokens && u != t ==> Apart(s.tokens[t], s.tokens[u]);
    MoveStep(k, s, t, Updated);
  }

  lemma FailWorkKeeps(k: Config, s: State, t: TokenId, s': State)
    requires Inv(k, s) && FailWork(s, t, s')
    ensures Inv(k, s')
  {
    hide LogInv, CallsInv, MessagesInv, CarriedInv, StoreInv, WireInv, AskInv;
    MoveStep(k, s, t, Rejected);
  }

  lemma WorkKeepsCalls(k: Config, s: State, t: TokenId, e: Event)
    requires Inv(k, s) && t in s.tokens
    requires e == Process(s.tokens[t].copy.message, s.tokens[t].copy.order) && Allowed(s.db, e)
    ensures CallsInv(Apply(s.db, e), s.published, s.calls)
  {
    assert GoodToken(k, s.db.processed, s.published, s.tokens[t]);
    forall d | d in s.calls
      ensures GoodCall(Apply(s.db, e), s.published, s.calls[d])
    {
      assert GoodCall(s.db, s.published, s.calls[d]);
      CallFrame(s.db, s.published, s.calls[d], e);
    }
  }

  lemma WorkKeepsTokens(k: Config, processed: map<MessageId, OrderId>, published: map<MessageId, OrderId>,
                        tokens: map<TokenId, Token>, t: TokenId)
    requires TokensInv(k, processed, published, tokens) && t in tokens && HoldsDedup(tokens[t].place)
    ensures TokensInv(k, processed[tokens[t].copy.message := tokens[t].copy.order], published, tokens[t := tokens[t].(place := Settled)])
  {
    hide Limit;
    var Copy(m, o, _) := tokens[t].copy;
    forall u | u in tokens && u != t
      ensures GoodToken(k, processed[m := o], published, tokens[u])
    {
      assert GoodToken(k, processed, published, tokens[u]);
      assert Apart(tokens[u], tokens[t]);
    }
    assert GoodToken(k, processed, published, tokens[t]);
  }

  lemma WorkKeepsCarried(processed: map<MessageId, OrderId>, published: map<MessageId, OrderId>, tokens: map<TokenId, Token>, t: TokenId)
    requires CarriedInv(processed, published, tokens) && t in tokens
    ensures CarriedInv(processed[tokens[t].copy.message := tokens[t].copy.order], published, tokens[t := tokens[t].(place := Settled)])
  {
    var Copy(m, o, _) := tokens[t].copy;
    var after := tokens[t := tokens[t].(place := Settled)];
    forall n | n in published
      ensures Carried(processed[m := o], after, n)
    {
      assert Carried(processed, tokens, n);
      if n != m && n !in processed {
        var u :| u in tokens && Carries(tokens[u], n);
        assert u in after && Carries(after[u], n);
      }
    }
  }

  lemma WorkKeepsMessages(db: Db, published: map<MessageId, OrderId>, m: MessageId, o: OrderId)
    requires MessagesInv(db, published) && Allowed(db, Process(m, o))
    requires m in published && published[m] == o
    ensures MessagesInv(Apply(db, Process(m, o)), published)
  {}

  /** What a handler about to commit has done is exactly the atomic processing on the committed tables. */
  lemma CommitIsProcess(k: Config, s: State, t: TokenId, s': State)
    requires Inv(k, s) && CommitWork(s, t, s')
    ensures var Copy(m, o, _) := s.tokens[t].copy;
      && Allowed(s.db, Process(m, o))
      && s'.db == Apply(s.db, Process(m, o))
      && m in s.published && s.published[m] == o
  {
    HandledOrderIsPending(k, s, t);
    assert GoodToken(k, s.db.processed, s.published, s.tokens[t]);
  }

  lemma CommitWorkKeeps(k: Config, s: State, t: TokenId, s': State)
    requires Inv(k, s) && CommitWork(s, t, s')
    ensures Inv(k, s')
  {
    hide MessagesInv, CallsInv, TokensInv, CarriedInv, StoreInv, LogInv, GrantOk, PaidBy, Priced, Allowed, Apply;
    CommitIsProcess(k, s, t, s');
    var Copy(m, o, _) := s.tokens[t].copy;
    var e := Process(m, o);
    WorkKeepsCalls(k, s, t, e);
    WorkKeepsTokens(k, s.db.processed, s.published, s.tokens, t);
    WorkKeepsCarried(s.db.processed, s.published, s.tokens, t);
    WorkKeepsMessages(s.db, s.published, m, o);
    LogAppended(k, s, e);
    StoreFrame(s.db, s.store, e);
    assert s'.db.processed == s.db.processed[m := o];
  }

  /** The copy sent on stands for the message, so the handled one may be settled. */
  lemma RepublishKeepsTokens(k: Config, processed: map<MessageId, OrderId>, published: map<MessageId, OrderId>,
                             tokens: map<TokenId, Token>, t: TokenId, u: TokenId)
    requires TokensInv(k, processed, published, tokens) && CarriedInv(processed, published, tokens)
    requires t in tokens && u !in tokens
    ensures var after := tokens[u := Republished(k, tokens[t].copy)][t := tokens[t].(place := Settled)];
      TokensInv(k, processed, published, after) && CarriedInv(processed, published, after)
  {
    var copy := Republished(k, tokens[t].copy);
    var settled := tokens[t].(place := Settled);
    assert GoodToken(k, processed, published, tokens[t]);
    TokensChange(k, processed, published, tokens, u, copy);
    CarriedChange(processed, published, tokens, u, copy);
    TokensChange(k, processed, published, tokens[u := copy], t, settled);
    assert u in tokens[u := copy] - {t} && Carries((tokens[u := copy] - {t})[u], tokens[t].copy.message);
    CarriedChange(processed, published, tokens[u := copy], t, settled);
  }

  lemma RepublishKeeps(k: Config, s: State, t: TokenId, u: TokenId, s': State)
    requires Inv(k, s) && Republish(k, s, t, u, s')
    ensures Inv(k, s')
  {
    hide MessagesInv, CallsInv, TokensInv, CarriedInv, StoreInv, LogInv, GrantOk, PaidBy, Priced, Republished;
    RepublishKeepsTokens(k, s.db.processed, s.published, s.tokens, t, u);
    assert s'.tokens == s.tokens[u := Republished(k, s.tokens[t].copy)][t := s.tokens[t].(place := Settled)];
  }

  lemma AckKeeps(k: Config, s: State, t: TokenId, s': State)
    requires Inv(k, s) && Ack(s, t, s')
    ensures Inv(k, s')
  {
    hide CallsInv, LogInv, StoreInv, MessagesInv, GoodToken, Apart, AskInv;
    forall m | m in s.published
      ensures Carried(s'.db.processed, s'.tokens, m)
    {
      assert Carried(s.db.processed, s.tokens, m);
      if m !in s.db.processed {
        var u :| u in s.tokens && Carries(s.tokens[u], m);
        assert u in s'.tokens && Carries(s'.tokens[u], m);
      }
    }
  }

  lemma ExpireKeeps(k: Config, s: State, t: TokenId, s': State)
    requires Inv(k, s) && Expire(s, t, s')
    ensures Inv(k, s')
  {
    hide LogInv, CallsInv, MessagesInv, CarriedInv, StoreInv, WireInv, AskInv;
    MoveStep(k, s, t, ProcessQueue);
  }

  lemma RedeliverKeeps(k: Config, s: State, t: TokenId, s': State)
    requires Inv(k, s) && Redeliver(s, t, s')
    ensures Inv(k, s')
  {
    hide LogInv, CallsInv, MessagesInv, CarriedInv, StoreInv, WireInv, AskInv;
    MoveStep(k, s, t, ProcessQueue);
  }

  /** The copy queued again stands for the message, so its orphan need not. */
  lemma LoseChannelKeepsTokens(k: Config, processed: map<MessageId, OrderId>, published: map<MessageId, OrderId>,
                               tokens: map<TokenId, Token>, t: TokenId, u: TokenId)
    requires TokensInv(k, processed, published, tokens) && CarriedInv(processed, published, tokens)
    requires t in tokens && tokens[t].Token? && InFlight(tokens[t].place) && u !in tokens
    ensures var after := tokens[u := Token(tokens[t].copy, ProcessQueue)][t := Orphan(tokens[t].copy, tokens[t].place)];
      TokensInv(k, processed, published, after) && CarriedInv(processed, published, after)
  {
    var copy, orphan := Token(tokens[t].copy, ProcessQueue), Orphan(tokens[t].copy, tokens[t].place);
    assert GoodToken(k, processed, published, tokens[t]);
    assert forall v :: v in tokens && v != t ==> Apart(tokens[t], tokens[v]);
    TokensChange(k, processed, published, tokens, u, copy);
    CarriedChange(processed, published, tokens, u, copy);
    TokensChange(k, processed, published, tokens[u := copy], t, orphan);
    assert u in tokens[u := copy] - {t} && Carries((tokens[u := copy] - {t})[u], tokens[t].copy.message);
    CarriedChange(processed, published, tokens[u := copy], t, orphan);
  }

  lemma LoseChannelKeeps(k: Config, s: State, t: TokenId, u: TokenId, s': State)
    requires Inv(k, s) && LoseChannel(s, t, u, s')
    ensures Inv(k, s')
  {
    hide MessagesInv, CallsInv, TokensInv, CarriedInv, StoreInv, LogInv, GrantOk, PaidBy, Priced, AskInv;
    LoseChannelKeepsTokens(k, s.db.processed, s.published, s.tokens, t, u);
    assert s'.tokens == s.tokens[u := Token(s.tokens[t].copy, ProcessQueue)][t := Orphan(s.tokens[t].copy, s.tokens[t].place)];
  }

  lemma VanishKeeps(k: Config, s: State, t: TokenId, s': State)
    requires Inv(k, s) && Vanish(s, t, s')
    ensures Inv(k, s')
  {
    hide CallsInv, LogInv, StoreInv, MessagesInv, GoodToken, Apart, AskInv;
    forall m | m in s.published
      ensures Carried(s'.db.processed, s'.tokens, m)
    {
      assert Carried(s.db.processed, s.tokens, m);
      if m !in s.db.processed {
        var u :| u in s.tokens && Carries(s.tokens[u], m);
        assert u in s'.tokens && Carries(s'.tokens[u], m);
      }
    }
  }

  // ----- All steps, all runs -----

  lemma ReservationKeepsInv(k: Config, s: State, a: Action, s': State)
    requires Inv(k, s) && ReservationStep(s, a, s')
    ensures Inv(k, s')
  {
    hide Inv, Begin, CheckUser, FindExisting, MissExisting, LockRow, MakePlan, WriteRow, InsertOrder, HitUniqueKey, InsertItem, CommitCreate, Resolve, ResolveNone;
    match a {
      case ABegin(c, user, key, lines) => BeginKeeps(k, s, c, user, key, lines, s');
      case ACheckUser(c) => CheckUserKeeps(k, s, c, s');
      case AFindExisting(c, o) => FindExistingKeeps(k, s, c, o, s');
      case AMissExisting(c) => MissExistingKeeps(k, s, c, s');
      case ALockRow(c, p) => LockRowKeeps(k, s, c, p, s');
      case AMakePlan(c) => MakePlanKeeps(k, s, c, s');
      case _ => WritingKeepsInv(k, s, a, s');
    }
  }

  lemma WritingKeepsInv(k: Config, s: State, a: Action, s': State)
    requires Inv(k, s) && ReservationStep(s, a, s')
    requires !a.ABegin? && !a.ACheckUser? && !a.AFindExisting? && !a.AMissExisting? && !a.ALockRow? && !a.AMakePlan?
    ensures Inv(k, s')
  {
    hide Inv, WriteRow, InsertOrder, HitUniqueKey, InsertItem, CommitCreate, Resolve, ResolveNone;
    match a {
      case AWriteRow(c) => WriteRowKeeps(k, s, c, s');
      case AInsertOrder(c, o) => InsertOrderKeeps(k, s, c, o, s');
      case AHitUniqueKey(c) => HitUniqueKeyKeeps(k, s, c, s');
      case AInsertItem(c) => InsertItemKeeps(k, s, c, s');
      case ACommitCreate(c) => CommitCreateKeeps(k, s, c, s');
      case AResolve(c, o) => ResolveKeeps(k, s, c, o, s');
      case AResolveNone(c) => ResolveNoneNever(k, s, c, s');
    }
  }

  lemma PaymentKeepsInv(k: Config, s: State, a: Action, s': State)
    requires Inv(k, s) && PaymentStep(k, s, a, s')
    ensures Inv(k, s')
  {
    hide Inv, SendAuthorize, ServeAuthorize, ReceivePayment, FailPayment, ReadForRelease, MarkFailed, ReturnItem, CommitRelease, RecordPayment, Publish, Abort;
    match a {
      case ASendAuthorize(c) => SendAuthorizeKeeps(k, s, c, s');
      case AServeAuthorize(c, id) => ServeAuthorizeKeeps(k, s, c, id, s');
      case AReceivePayment(c) => ReceivePaymentKeeps(k, s, c, s');
      case AFailPayment(c) => FailPaymentKeeps(k, s, c, s');
      case AReadForRelease(c) => ReadForReleaseKeeps(k, s, c, s');
      case AMarkFailed(c) => MarkFailedKeeps(k, s, c, s');
      case AReturnItem(c) => ReturnItemKeeps(k, s, c, s');
      case ACommitRelease(c) => CommitReleaseKeeps(k, s, c, s');
      case ARecordPayment(c) => RecordPaymentKeeps(k, s, c, s');
      case APublish(c, m, t) => PublishKeeps(k, s, c, m, t, s');
      case AAbort(c) => AbortKeeps(k, s, c, s');
    }
  }

  lemma WorkerKeepsInv(k: Config, s: State, a: Action, s': State)
    requires Inv(k, s) && WorkerStep(k, s, a, s')
    ensures Inv(k, s')
  {
    hide Inv, Deliver, InsertDedup, LockOrder, CommitSeen, UpdateOrder, FailWork, CommitWork, Republish, Ack, Expire, Redeliver, LoseChannel, Vanish;
    match a {
      case ADeliver(t) => DeliverKeeps(k, s, t, s');
      case AInsertDedup(t) => InsertDedupKeeps(k, s, t, s');
      case ALockOrder(t) => LockOrderKeeps(k, s, t, s');
      case ACommitSeen(t) => CommitSeenNever(k, s, t, s');
      case AUpdateOrder(t) => UpdateOrderKeeps(k, s, t, s');
      case AFailWork(t) => FailWorkKeeps(k, s, t, s');
      case ACommitWork(t) => CommitWorkKeeps(k, s, t, s');
      case ARepublish(t, u) => RepublishKeeps(k, s, t, u, s');
      case AAck(t) => AckKeeps(k, s, t, s');
      case AExpire(t) => ExpireKeeps(k, s, t, s');
      case ARedeliver(t) => RedeliverKeeps(k, s, t, s');
      case ALoseChannel(t, u) => LoseChannelKeeps(k, s, t, u, s');
      case AVanish(t) => VanishKeeps(k, s, t, s');
    }
  }

  lemma StepKeepsInv(k: Config, s: State, a: Action, s': State)
    requires Inv(k, s) && Step(k, s, a, s')
    ensures Inv(k, s')
  {
    hide Inv, ReservationStep, PaymentStep, WorkerStep;
    if ReservationStep(s, a, s') {
      ReservationKeepsInv(k, s, a, s');
    } else if PaymentStep(k, s, a, s') {
      PaymentKeepsInv(k, s, a, s');
    } else {
      WorkerKeepsInv(k, s, a, s');
    }
  }

  lemma {:induction false} RunKeepsInv(k: Config, states: seq<State>, actions: seq<Action>, i: nat)
    requires Run(k, states, actions) && Inv(k, states[0]) && i <= |actions|
    ensures Inv(k, states[i])
  {
    hide Inv, Step;
    if i > 0 {
      RunKeepsInv(k, states, actions, i - 1);
      StepKeepsInv(k, states[i - 1], actions[i - 1], states[i]);
    }
  }

  lemma ReachableInv(k: Config, s: State)
    requires Reachable(k, s)
    ensures Inv(k, s)
  {
    var states, actions :| RunFromInit(k, states, actions) && s == states[|actions|];
    InitInv(k, states[0]);
    RunKeepsInv(k, states, actions, |actions|);
  }
}
