/** The inductive invariant of the protocol, and what keeps its parts when one piece of state changes. */
module Invariant {
  import opened Common
  import opened OrderPolicy
  import opened Payments
  import opened Ledger
  import opened Protocol

  // ----- Calls -----

  /** Values written so far by a reservation: the locked rows of `keys`, lowered. */
  function TakenRows(held: map<ProductId, Product>, total: map<ProductId, nat>, keys: seq<ProductId>): map<ProductId, Product>
  {
    map p | p in keys && p in held && p in total :: held[p].(stock := held[p].stock - total[p])
  }

  /** A locked row still has the value it was read with. */
  ghost predicate HeldOk(products: map<ProductId, Product>, stage: Stage)
  {
    forall p :: p in Held(stage) ==> p in products && products[p] == Held(stage)[p]
  }

  ghost predicate WorkOk(users: set<UserId>, call: Call)
  {
    && (!call.stage.Finished? ==> call.key != "")
    && match call.stage
       case UserFound => call.user in users
       case Reserving(held) => call.user in users
       case Writing(held, plan, rows, done) =>
         && call.user in users
         && BuildPlan(held, call.lines) == Planned(plan)
         && done <= |plan.quantities.keys|
         && rows == TakenRows(held, plan.quantities.total, plan.quantities.keys[..done])
       case Inserting(held, plan, rows, o, items) =>
         && call.user in users
         && BuildPlan(held, call.lines) == Planned(plan)
         && rows == TakenRows(held, plan.quantities.total, plan.quantities.keys)
         && |items| <= |call.lines|
         && items == ItemsOf(held, call.lines[..|items|])
       case Marked(o, items, done, held, rows) =>
         && done <= |items|
         && held.Keys == ProductsOf(items[..done])
         && rows == Returned(held, items[..done])
       case _ => true
  }

  /** The order a call is responsible for: about to be committed, or committed and not yet settled by it. */
  function Claimed(stage: Stage): Option<OrderId>
  {
    match stage
    case Inserting(_, _, _, o, _) => Some(o)
    case Committed(o, _) => Some(o)
    case Authorizing(o) => Some(o)
    case PaymentGranted(o, _) => Some(o)
    case PaymentRecorded(o, _) => Some(o)
    case PaymentFailed(o) => Some(o)
    case Releasing(o, _) => Some(o)
    case Marked(o, _, _, _, _) => Some(o)
    case _ => None
  }

  /** The order a call is responsible for, or was until it gave its answer. */
  function Owned(stage: Stage): Option<OrderId>
  {
    match stage
    case Finished(Created(o, _, _)) => Some(o)
    case Finished(PaymentRefused(o)) => Some(o)
    case _ => Claimed(stage)
  }

  ghost predicate Owns(orders: map<OrderId, Order>, call: Call, o: OrderId)
  {
    o in orders && orders[o].user == call.user && orders[o].key == call.key
  }

  /** The committed order of an open call: pending, and paid exactly once the call has recorded it. */
  ghost predicate OpenOk(orders: map<OrderId, Order>, call: Call, o: OrderId)
  {
    && Owns(orders, call, o)
    && orders[o].status == Pending
    && orders[o].payment == (if call.stage.PaymentRecorded? then Some(call.stage.paid) else None)
    && (call.stage.Committed? ==> call.stage.amountCents == Amount(orders[o].items))
    && (call.stage.Releasing? || call.stage.Marked? ==> call.stage.items == orders[o].items)
  }

  ghost predicate ResultOk(orders: map<OrderId, Order>, call: Call, result: Result)
  {
    match result
    case Created(o, paid, m) => Owns(orders, call, o) && orders[o].payment == Some(paid)
    case Reused(o, payment) => Owns(orders, call, o) && (payment == None || payment == orders[o].payment)
    case PaymentRefused(o) => Owns(orders, call, o) && orders[o].status == Failed && orders[o].payment == None
    case DuplicateKey => false
    case _ => true
  }

  ghost predicate OrderOk(orders: map<OrderId, Order>, call: Call)
  {
    match call.stage
    case Inserting(_, _, _, o, _) => o !in orders && KeyFree(orders, call.user, call.key)
    case KeyTaken => !KeyFree(orders, call.user, call.key)
    case Finished(result) => ResultOk(orders, call, result)
    case _ => Claimed(call.stage).Some? ==> OpenOk(orders, call, Claimed(call.stage).value)
  }

  ghost predicate SilentOk(published: map<MessageId, OrderId>, stage: Stage)
  {
    && (Claimed(stage).Some? && !stage.Inserting? ==> forall m :: m in published ==> published[m] != Claimed(stage).value)
    && (stage.Finished? && stage.result.Created? ==>
          stage.result.message in published && published[stage.result.message] == stage.result.order)
  }

  ghost predicate GoodCall(db: Db, published: map<MessageId, OrderId>, call: Call)
  {
    HeldOk(db.products, call.stage) && WorkOk(db.users, call) && OrderOk(db.orders, call) && SilentOk(published, call.stage)
  }

  /** Two different calls lock different rows, own different orders, and do not both insert one key. */
  ghost predicate Compatible(a: Call, b: Call)
  {
    && Held(a.stage).Keys !! Held(b.stage).Keys
    && (Owned(a.stage).Some? ==> Owned(a.stage) != Owned(b.stage))
    && (a.stage.Inserting? && b.stage.Inserting? ==> a.user != b.user || a.key != b.key)
  }

  ghost predicate CallsInv(db: Db, published: map<MessageId, OrderId>, calls: map<CallId, Call>)
  {
    && (forall c :: c in calls ==> GoodCall(db, published, calls[c]))
    && (forall c, d :: c in calls && d in calls && c != d ==> Compatible(calls[c], calls[d]))
  }

  // ----- Messages -----

  ghost predicate MessagesInv(db: Db, published: map<MessageId, OrderId>)
  {
    && (forall m :: m in published ==>
          published[m] in db.orders && db.orders[published[m]].status != Failed && db.orders[published[m]].payment.Some?)
    && (forall m, n :: m in published && n in published && published[m] == published[n] ==> m == n)
    && (forall m :: m in db.processed ==> m in published && published[m] == db.processed[m])
  }

  function Limit(k: Config): nat
  {
    if k.maxAttempts < 0 then 0 else k.maxAttempts
  }

  ghost predicate GoodToken(k: Config, processed: map<MessageId, OrderId>, published: map<MessageId, OrderId>, token: Token)
  {
    && token.copy.message in published && published[token.copy.message] == token.copy.order
    && token.copy.attempt <= Limit(k)
    && (token.place.DeadLetters? ==> token.copy.attempt == Limit(k))
    && (token.Orphan? ==> InFlight(token.place))
    && (HoldsDedup(token.place) ==> token.copy.message !in processed)
    && (token.place.OrderLocked? ==> !token.place.seenProcessed)
  }

  ghost predicate Apart(a: Token, b: Token)
  {
    HoldsDedup(a.place) && HoldsDedup(b.place) ==> a.copy.message != b.copy.message
  }

  ghost predicate TokensInv(k: Config, processed: map<MessageId, OrderId>, published: map<MessageId, OrderId>, tokens: map<TokenId, Token>)
  {
    && (forall t :: t in tokens ==> GoodToken(k, processed, published, tokens[t]))
    && (forall t, u :: t in tokens && u in tokens && t != u ==> Apart(tokens[t], tokens[u]))
  }

  /** A copy that still stands for its message; a settled one only waits for its ack, an orphan for its end. */
  predicate Carries(token: Token, m: MessageId)
  {
    token.Token? && token.copy.message == m && !token.place.Settled?
  }

  ghost predicate Carried(processed: map<MessageId, OrderId>, tokens: map<TokenId, Token>, m: MessageId)
  {
    m in processed || exists t :: t in tokens && Carries(tokens[t], m)
  }

  ghost predicate CarriedInv(processed: map<MessageId, OrderId>, published: map<MessageId, OrderId>, tokens: map<TokenId, Token>)
  {
    forall m :: m in published ==> Carried(processed, tokens, m)
  }

  // ----- Payments -----

  ghost predicate PaidBy(store: Records, key: Key, paid: Payment)
  {
    key in store.byKey && store.byKey[key] == paid.id && paid.status == Authorized
  }

  /** What is asked, or was recorded, for a key belongs to an order with that key and costs what its items cost. */
  ghost predicate Priced(orders: map<OrderId, Order>, key: Key, o: OrderId, amountCents: int)
  {
    o in orders && orders[o].key == key && amountCents == Amount(orders[o].items)
  }

  ghost predicate StoreInv(orders: map<OrderId, Order>, store: Records)
  {
    && store.Valid()
    && (forall key :: key in store.byKey ==>
          var rec := store.byId[store.byKey[key]]; Priced(orders, key, rec.order, rec.amountCents))
    && (forall o :: o in orders && orders[o].payment.Some? ==> PaidBy(store, orders[o].key, orders[o].payment.value))
    && (forall p :: p in store.byId ==> store.byId[p].order in orders)
  }

  ghost predicate GrantOk(store: Records, call: Call)
  {
    && (call.stage.PaymentGranted? ==> PaidBy(store, call.key, call.stage.paid))
    && (call.stage.PaymentRecorded? ==> PaidBy(store, call.key, call.stage.paid))
  }

  ghost predicate WireInv(s: State)
  {
    && (forall c :: c in s.requests ==>
          && c in s.calls && s.requests[c].key == s.calls[c].key != ""
          && Priced(s.db.orders, s.requests[c].key, s.requests[c].order, s.requests[c].amountCents))
    && (forall c :: c in s.responses ==> c in s.calls && PaidBy(s.store, s.calls[c].key, s.responses[c]))
    && (forall c :: c in s.calls ==> GrantOk(s.store, s.calls[c]))
  }

  /** No payment was ever recorded for the order. */
  ghost predicate Unrecorded(store: Records, o: OrderId)
  {
    forall p :: p in store.byId ==> store.byId[p].order != o
  }

  ghost predicate Unrequested(requests: map<CallId, Authorization>, o: OrderId)
  {
    forall c :: c in requests ==> requests[c].order != o
  }

  /** The call has not asked for a payment yet. */
  predicate Early(stage: Stage)
  {
    || stage.Started? || stage.UserFound? || stage.Reserving? || stage.Writing? || stage.Inserting?
    || stage.KeyTaken? || stage.Committed?
  }

  /** A call asks once, for its own order, of which the payments service has not heard before. */
  ghost predicate AskOk(requests: map<CallId, Authorization>, responses: map<CallId, Payment>, store: Records, c: CallId, stage: Stage)
  {
    && (Early(stage) ==> c !in requests && c !in responses)
    && (stage.Committed? ==> Unrecorded(store, stage.order) && Unrequested(requests, stage.order))
    && (stage.Authorizing? && c in requests ==> requests[c].order == stage.order)
  }

  ghost predicate AskInv(calls: map<CallId, Call>, requests: map<CallId, Authorization>, responses: map<CallId, Payment>, store: Records)
  {
    && (forall c :: c in calls ==> AskOk(requests, responses, store, c, calls[c].stage))
    && (forall c :: c in requests ==> Unrecorded(store, requests[c].order))
    && (forall c, d :: c in requests && d in requests && c != d ==> requests[c].order != requests[d].order)
  }

  // ----- Everything -----

  /** The committed tables are what the logged transactions give when run one at a time in commit order. */
  ghost predicate LogInv(k: Config, db: Db, log: seq<Event>)
  {
    Lawful(StartDb(k), log) && Outcome(StartDb(k), log) == db
  }

  ghost predicate ConfigOk(k: Config)
  {
    forall p :: p in k.initial ==> k.initial[p].stock >= 0
  }

  ghost predicate Inv(k: Config, s: State)
  {
    && ConfigOk(k)
    && LogInv(k, s.db, s.log)
    && CallsInv(s.db, s.published, s.calls)
    && MessagesInv(s.db, s.published)
    && TokensInv(k, s.db.processed, s.published, s.tokens)
    && CarriedInv(s.db.processed, s.published, s.tokens)
    && StoreInv(s.db.orders, s.store)
    && WireInv(s)
    && AskInv(s.calls, s.requests, s.responses, s.store)
  }

  lemma StartIsSound(k: Config)
    requires ConfigOk(k)
    ensures Sound(k.initial, StartDb(k))
  {
    forall p | p in k.initial
      ensures StockSoundAt(k.initial, StartDb(k), p)
    {}
  }

  lemma InvSound(k: Config, s: State)
    requires Inv(k, s)
    ensures Sound(k.initial, s.db)
  {
    StartIsSound(k);
    LawfulLogIsSound(k.initial, StartDb(k), s.log);
  }

  lemma CallIsGood(k: Config, s: State, c: CallId)
    requires Inv(k, s) && c in s.calls
    ensures GoodCall(s.db, s.published, s.calls[c]) && GrantOk(s.store, s.calls[c])
    ensures forall d :: d in s.calls && d != c ==> Compatible(s.calls[c], s.calls[d])
    ensures forall d :: d in s.calls && d != c ==> Compatible(s.calls[d], s.calls[c])
    ensures forall d :: d in s.calls ==> GoodCall(s.db, s.published, s.calls[d])
  {
    hide GoodCall, Compatible, GrantOk;
  }

  lemma ResponseIsPaid(k: Config, s: State, c: CallId)
    requires Inv(k, s) && c in s.responses
    ensures c in s.calls && PaidBy(s.store, s.calls[c].key, s.responses[c])
  {
    hide LogInv, CallsInv, MessagesInv, TokensInv, CarriedInv, StoreInv, PaidBy;
  }

  lemma InitInv(k: Config, s: State)
    requires Init(k, s)
    ensures Inv(k, s)
  {}

  // ----- A step that changes the stage of one call and nothing else -----

  /** The new stage holds, claims and inserts no more than the old one. */
  ghost predicate Narrows(stage: Stage, before: Stage)
  {
    && Held(stage).Keys <= Held(before).Keys
    && (Owned(stage).Some? ==> Owned(stage) == Owned(before))
    && (stage.Inserting? ==> before.Inserting?)
  }

  /** The new stage asks for no payment, and is past asking if the old one was. */
  predicate Proceeds(stage: Stage, before: Stage)
  {
    && (Early(stage) ==> Early(before)) && !stage.Committed?
    && (stage.Authorizing? ==> before.Committed? && before.order == stage.order)
  }

  lemma AskChange(calls: map<CallId, Call>, requests: map<CallId, Authorization>, responses: map<CallId, Payment>, store: Records,
                  c: CallId, call: Call)
    requires AskInv(calls, requests, responses, store) && AskOk(requests, responses, store, c, call.stage)
    ensures AskInv(calls[c := call], requests, responses, store)
  {
    hide AskOk, Unrecorded;
  }

  lemma NarrowCompatible(calls: map<CallId, Call>, c: CallId, stage: Stage)
    requires c in calls && Narrows(stage, calls[c].stage)
    requires forall d, e :: d in calls && e in calls && d != e ==> Compatible(calls[d], calls[e])
    ensures forall d :: d in calls && d != c ==> Compatible(calls[c].(stage := stage), calls[d])
  {
    forall d | d in calls && d != c
      ensures Compatible(calls[c].(stage := stage), calls[d])
    {
      assert Compatible(calls[c], calls[d]);
    }
  }

  lemma CallsChange(db: Db, published: map<MessageId, OrderId>, calls: map<CallId, Call>, c: CallId, call: Call)
    requires CallsInv(db, published, calls)
    requires GoodCall(db, published, call)
    requires forall d :: d in calls && d != c ==> Compatible(call, calls[d])
    ensures CallsInv(db, published, calls[c := call])
  {
    var after := calls[c := call];
    forall d, e | d in after && e in after && d != e
      ensures Compatible(after[d], after[e])
    {
      if e == c {
        assert Compatible(call, calls[d]);
      }
    }
  }

  lemma WireChange(s: State, calls: map<CallId, Call>)
    requires WireInv(s)
    requires forall c :: c in s.calls ==> c in calls && calls[c].key == s.calls[c].key
    requires forall c :: c in calls ==> GrantOk(s.store, calls[c])
    ensures WireInv(s.(calls := calls))
  {
    hide GrantOk, PaidBy, Priced;
  }

  lemma LocalStep(k: Config, s: State, c: CallId, stage: Stage)
    requires Inv(k, s) && c in s.calls
    requires GoodCall(s.db, s.published, s.calls[c].(stage := stage))
    requires GrantOk(s.store, s.calls[c].(stage := stage)) && Proceeds(stage, s.calls[c].stage)
    requires forall d :: d in s.calls && d != c ==> Compatible(s.calls[c].(stage := stage), s.calls[d])
    ensures Inv(k, SetStage(s, c, stage))
  {
    hide LogInv, MessagesInv, TokensInv, CarriedInv, StoreInv, GoodCall, Compatible, GrantOk, CallsInv, Unrecorded, Unrequested;
    assert AskOk(s.requests, s.responses, s.store, c, s.calls[c].stage);
    AskChange(s.calls, s.requests, s.responses, s.store, c, s.calls[c].(stage := stage));
    CallsChange(s.db, s.published, s.calls, c, s.calls[c].(stage := stage));
    WireChange(s, s.calls[c := s.calls[c].(stage := stage)]);
  }

  lemma NarrowStep(k: Config, s: State, c: CallId, stage: Stage)
    requires Inv(k, s) && c in s.calls
    requires GoodCall(s.db, s.published, s.calls[c].(stage := stage))
    requires GrantOk(s.store, s.calls[c].(stage := stage))
    requires Narrows(stage, s.calls[c].stage) && Proceeds(stage, s.calls[c].stage)
    ensures Inv(k, SetStage(s, c, stage))
  {
    NarrowCompatible(s.calls, c, stage);
    LocalStep(k, s, c, stage);
  }

  // ----- A committed event seen by the other calls -----

  ghost function ChangedProducts(db: Db, e: Event): set<ProductId>
  {
    match e
    case Reserve(_, _, _, lines) => Requested(lines)
    case Release(o) => if o in db.orders then ProductsOf(db.orders[o].items) else {}
    case _ => {}
  }

  /** The event touches nothing the call holds, claims or inserts. */
  ghost predicate Unaffected(db: Db, call: Call, e: Event)
  {
    && ChangedProducts(db, e) !! Held(call.stage).Keys
    && Claimed(call.stage) != Some(e.order)
    && (e.Reserve? && call.stage.Inserting? ==> call.user != e.user || call.key != e.key)
  }

  lemma EventFrame(db: Db, e: Event, p: ProductId)
    requires Allowed(db, e) && p in db.products && p !in ChangedProducts(db, e)
    ensures p in Apply(db, e).products && Apply(db, e).products[p] == db.products[p]
  {
    match e {
      case Reserve(_, _, _, lines) => AggregateTotals(lines);
      case Release(o) => NoItemNoQuantity(db.orders[o].items, p);
      case _ =>
    }
  }

  lemma HeldFrame(db: Db, call: Call, e: Event)
    requires HeldOk(db.products, call.stage) && Allowed(db, e) && Unaffected(db, call, e)
    ensures HeldOk(Apply(db, e).products, call.stage)
  {
    forall p | p in Held(call.stage)
      ensures p in Apply(db, e).products && Apply(db, e).products[p] == Held(call.stage)[p]
    {
      EventFrame(db, e, p);
    }
  }

  lemma OrderFrame(db: Db, call: Call, e: Event)
    requires OrderOk(db.orders, call) && Allowed(db, e) && Unaffected(db, call, e)
    ensures OrderOk(Apply(db, e).orders, call)
  {
    var orders := Apply(db, e).orders;
    if call.stage.KeyTaken? {
      var o :| o in db.orders && db.orders[o].user == call.user && db.orders[o].key == call.key;
      EventKeepsOrder(db, e, o);
    } else if call.stage.Finished? {
      match call.stage.result {
        case Created(o, _, _) => EventKeepsOrder(db, e, o);
        case Reused(o, _) => EventKeepsOrder(db, e, o);
        case PaymentRefused(o) => EventKeepsOrder(db, e, o);
        case _ =>
      }
    }
  }

  lemma CallFrame(db: Db, published: map<MessageId, OrderId>, call: Call, e: Event)
    requires GoodCall(db, published, call) && Allowed(db, e) && Unaffected(db, call, e)
    ensures GoodCall(Apply(db, e), published, call)
  {
    HeldFrame(db, call, e);
    OrderFrame(db, call, e);
  }

  /** One call commits an event and moves on; every other call is unaffected. */
  lemma CallsCommit(db: Db, published: map<MessageId, OrderId>, calls: map<CallId, Call>, c: CallId, stage: Stage, e: Event)
    requires CallsInv(db, published, calls) && c in calls && Allowed(db, e)
    requires Narrows(stage, calls[c].stage)
    requires GoodCall(Apply(db, e), published, calls[c].(stage := stage))
    requires forall d :: d in calls && d != c ==> Unaffected(db, calls[d], e)
    ensures CallsInv(Apply(db, e), published, calls[c := calls[c].(stage := stage)])
  {
    NarrowCompatible(calls, c, stage);
    var after := calls[c := calls[c].(stage := stage)];
    forall d | d in after
      ensures GoodCall(Apply(db, e), published, after[d])
    {
      if d != c {
        CallFrame(db, published, calls[d], e);
      }
    }
    forall d, f | d in after && f in after && d != f
      ensures Compatible(after[d], after[f])
    {
      if f == c {
        assert Compatible(after[c], calls[d]);
      }
    }
  }

  lemma LogAppend(k: Config, s: State, e: Event)
    requires LogInv(k, s.db, s.log) && Allowed(s.db, e)
    ensures Lawful(StartDb(k), s.log + [e]) && Outcome(StartDb(k), s.log + [e]) == Apply(s.db, e)
  {
    assert (s.log + [e])[..|s.log + [e]| - 1] == s.log;
  }

  /** No event makes the store disagree with the orders, as long as a payment recorded is the store's. */
  lemma StoreFrame(db: Db, store: Records, e: Event)
    requires StoreInv(db.orders, store) && Allowed(db, e)
    requires e.Pay? ==> PaidBy(store, db.orders[e.order].key, e.payment)
    ensures StoreInv(Apply(db, e).orders, store)
    ensures forall key, o, cents :: Priced(db.orders, key, o, cents) ==> Priced(Apply(db, e).orders, key, o, cents)
  {
    var orders := Apply(db, e).orders;
    forall key, o, cents | Priced(db.orders, key, o, cents)
      ensures Priced(orders, key, o, cents)
    {
      EventKeepsOrder(db, e, o);
    }
  }

  // ----- A step that moves one copy -----

  lemma TokensChange(k: Config, processed: map<MessageId, OrderId>, published: map<MessageId, OrderId>,
                     tokens: map<TokenId, Token>, t: TokenId, token: Token)
    requires TokensInv(k, processed, published, tokens)
    requires GoodToken(k, processed, published, token)
    requires forall u :: u in tokens && u != t ==> Apart(token, tokens[u])
    ensures TokensInv(k, processed, published, tokens[t := token])
  {}

  lemma CarriedChange(processed: map<MessageId, OrderId>, published: map<MessageId, OrderId>,
                      tokens: map<TokenId, Token>, t: TokenId, token: Token)
    requires CarriedInv(processed, published, tokens)
    requires t in tokens ==>
      var m := tokens[t].copy.message;
      Carries(token, m) || !Carries(tokens[t], m) || Carried(processed, tokens - {t}, m)
    ensures CarriedInv(processed, published, tokens[t := token])
  {
    forall m | m in published
      ensures Carried(processed, tokens[t := token], m)
    {
      if m !in processed {
        assert Carried(processed, tokens, m);
        var u :| u in tokens && Carries(tokens[u], m);
        if u == t {
          if Carries(token, m) {
            assert t in tokens[t := token];
          } else {
            var v :| v in tokens - {t} && Carries((tokens - {t})[v], m);
            assert v in tokens[t := token] && Carries(tokens[t := token][v], m);
          }
        } else {
          assert u in tokens[t := token] && Carries(tokens[t := token][u], m);
        }
      }
    }
  }

  lemma MoveStep(k: Config, s: State, t: TokenId, place: Place)
    requires Inv(k, s) && t in s.tokens
    requires GoodToken(k, s.db.processed, s.published, s.tokens[t].(place := place))
    requires forall u :: u in s.tokens && u != t ==> Apart(s.tokens[t].(place := place), s.tokens[u])
    requires place.Settled? ==> s.tokens[t].copy.message in s.db.processed
    ensures Inv(k, Move(s, t, place))
  {
    TokensChange(k, s.db.processed, s.published, s.tokens, t, s.tokens[t].(place := place));
    CarriedChange(s.db.processed, s.published, s.tokens, t, s.tokens[t].(place := place));
  }
}
