/**
 * The order protocol as a state machine of small steps: concurrent createOrder calls with their
 * transactions and compensations, the payments exchange, the broker's queues and the worker's
 * handlers.  Uncommitted work lives in the stage of a call or the place of a message copy; a crash
 * or an abort simply forgets it.  Locks are what the stages hold.
 */
module Protocol {
  import opened Common
  import opened OrderPolicy
  import opened Payments
  import opened Ledger

  type CallId = nat
  type TokenId = nat

  datatype Config = Config(users: set<UserId>, initial: map<ProductId, Product>, currency: string, maxAttempts: int)

  // ----- One createOrder call -----

  datatype Result =
    | BadRequest
    | UserMissing
    | Refused(reason: PlanResult)
    | DuplicateKey
    | Reused(order: OrderId, payment: Option<Payment>)
    | PaymentRefused(order: OrderId)
    | Created(order: OrderId, paid: Payment, message: MessageId)
    | Aborted

  /**
   * How far a call has come.  `held` are the product rows it has locked, as read at that moment;
   * `rows` are the uncommitted new values it has written.
   */
  datatype Stage =
    | Started
    | UserFound
    | Reserving(held: map<ProductId, Product>)
    | Writing(held: map<ProductId, Product>, plan: Plan, rows: map<ProductId, Product>, done: nat)
    | Inserting(held: map<ProductId, Product>, plan: Plan, rows: map<ProductId, Product>, order: OrderId, items: seq<Item>)
    | KeyTaken
    | Committed(order: OrderId, amountCents: int)
    | Authorizing(order: OrderId)
    | PaymentGranted(order: OrderId, paid: Payment)
    | PaymentRecorded(order: OrderId, paid: Payment)
    | PaymentFailed(order: OrderId)
    | Releasing(order: OrderId, items: seq<Item>)
    | Marked(order: OrderId, items: seq<Item>, done: nat, held: map<ProductId, Product>, rows: map<ProductId, Product>)
    | Finished(result: Result)

  datatype Call = Call(user: UserId, key: Key, lines: seq<Line>, stage: Stage)

  /** The product rows a call has locked, with their values as locked. */
  function Held(stage: Stage): map<ProductId, Product>
  {
    match stage
    case Reserving(held) => held
    case Writing(held, _, _, _) => held
    case Inserting(held, _, _, _, _) => held
    case Marked(_, _, _, held, _) => held
    case _ => map[]
  }

  // ----- One copy of a message -----

  datatype Copy = Copy(message: MessageId, order: OrderId, attempt: nat)

  /** Where a copy is: in one of the three queues, or in flight at some point of a handler. */
  datatype Place =
    | ProcessQueue
    | RetryQueue
    | DeadLetters
    | Delivered
    | DedupInserted
    | OrderLocked(seenProcessed: bool)
    | Updated
    | Rejected
    | Settled

  /** An orphan's channel is gone: the broker has queued its copy again, but its handler may still be running. */
  datatype Token = Token(copy: Copy, place: Place) | Orphan(copy: Copy, place: Place)

  predicate InFlight(p: Place)
  {
    !p.ProcessQueue? && !p.RetryQueue? && !p.DeadLetters?
  }

  /** A handler in this place has an uncommitted row in processed_messages. */
  predicate HoldsDedup(p: Place)
  {
    p.DedupInserted? || p.OrderLocked? || p.Updated?
  }

  predicate HoldsOrder(p: Place)
  {
    p.OrderLocked? || p.Updated?
  }

  // ----- The whole system -----

  /**
   * `published`, `deliveries` and `log` are history: the messages ever published with their orders,
   * how often each was handed to a handler, and the committed transactions in commit order.
   */
  datatype State = State(
    db: Db,
    calls: map<CallId, Call>,
    requests: map<CallId, Authorization>,
    responses: map<CallId, Payment>,
    store: Records,
    tokens: map<TokenId, Token>,
    published: map<MessageId, OrderId>,
    deliveries: map<MessageId, nat>,
    log: seq<Event>)

  function StartDb(k: Config): Db
  {
    Db(k.users, k.initial, map[], map[])
  }

  ghost predicate Init(k: Config, s: State)
  {
    && (forall p :: p in k.initial ==> k.initial[p].stock >= 0)
    && s == State(StartDb(k), map[], map[], map[], EMPTY, map[], map[], map[], [])
  }

  // ----- Locks and waiting -----

  ghost predicate RowFree(s: State, c: CallId, p: ProductId)
  {
    forall d :: d in s.calls && d != c ==> p !in Held(s.calls[d].stage)
  }

  /** No other transaction holds an uncommitted order with this user and key. */
  ghost predicate KeyUnclaimed(s: State, c: CallId)
    requires c in s.calls
  {
    forall d :: d in s.calls && d != c && s.calls[d].stage.Inserting? ==>
      s.calls[d].user != s.calls[c].user || s.calls[d].key != s.calls[c].key
  }

  ghost predicate OrderRowFree(s: State, o: OrderId)
  {
    && (forall d :: d in s.calls && s.calls[d].stage.Marked? ==> s.calls[d].stage.order != o)
    && (forall t :: t in s.tokens && HoldsOrder(s.tokens[t].place) ==> s.tokens[t].copy.order != o)
  }

  ghost predicate MessageUnclaimed(s: State, t: TokenId)
    requires t in s.tokens
  {
    forall u :: u in s.tokens && u != t && HoldsDedup(s.tokens[u].place) ==>
      s.tokens[u].copy.message != s.tokens[t].copy.message
  }

  // ----- Steps of a call -----

  function SetStage(s: State, c: CallId, stage: Stage): State
    requires c in s.calls
  {
    s.(calls := s.calls[c := s.calls[c].(stage := stage)])
  }

  predicate At(s: State, c: CallId)
  {
    c in s.calls
  }

  ghost predicate Begin(s: State, c: CallId, user: UserId, key: Key, lines: seq<Line>, s': State)
  {
    && c !in s.calls
    && var stage := if key == "" || lines == [] then Finished(BadRequest) else Started;
       s' == s.(calls := s.calls[c := Call(user, key, lines, stage)])
  }

  ghost predicate CheckUser(s: State, c: CallId, s': State)
  {
    && At(s, c) && s.calls[c].stage.Started?
    && s' == SetStage(s, c, if s.calls[c].user in s.db.users then UserFound else Finished(UserMissing))
  }

  predicate Matches(s: State, c: CallId, o: OrderId)
    requires c in s.calls
  {
    o in s.db.orders && s.db.orders[o].user == s.calls[c].user && s.db.orders[o].key == s.calls[c].key
  }

  ghost predicate FindExisting(s: State, c: CallId, o: OrderId, s': State)
  {
    && At(s, c) && s.calls[c].stage.UserFound? && Matches(s, c, o)
    && s' == SetStage(s, c, Finished(Reused(o, s.db.orders[o].payment)))
  }

  ghost predicate MissExisting(s: State, c: CallId, s': State)
  {
    && At(s, c) && s.calls[c].stage.UserFound? && KeyFree(s.db.orders, s.calls[c].user, s.calls[c].key)
    && s' == SetStage(s, c, Reserving(map[]))
  }

  /** SELECT ... FOR UPDATE reaches one more requested row. */
  ghost predicate LockRow(s: State, c: CallId, p: ProductId, s': State)
  {
    && At(s, c) && s.calls[c].stage.Reserving?
    && p in Requested(s.calls[c].lines) && p in s.db.products && p !in s.calls[c].stage.held
    && RowFree(s, c, p)
    && s' == SetStage(s, c, Reserving(s.calls[c].stage.held[p := s.db.products[p]]))
  }

  ghost predicate MakePlan(s: State, c: CallId, s': State)
  {
    && At(s, c) && s.calls[c].stage.Reserving?
    && var held := s.calls[c].stage.held;
       && (forall p :: p in Requested(s.calls[c].lines) && p in s.db.products ==> p in held)
       && var verdict := BuildPlan(held, s.calls[c].lines);
          s' == SetStage(s, c, if verdict.Planned? then Writing(held, verdict.plan, map[], 0) else Finished(Refused(verdict)))
  }

  ghost predicate WriteRow(s: State, c: CallId, s': State)
  {
    && At(s, c) && s.calls[c].stage.Writing?
    && var Writing(held, plan, rows, done) := s.calls[c].stage;
       && done < |plan.quantities.keys|
       && var p := plan.quantities.keys[done];
          && p in held && p in plan.quantities.total
          && var row := held[p].(stock := held[p].stock - plan.quantities.total[p]);
             s' == SetStage(s, c, Writing(held, plan, rows[p := row], done + 1))
  }

  ghost predicate InsertOrder(s: State, c: CallId, o: OrderId, s': State)
  {
    && At(s, c) && s.calls[c].stage.Writing?
    && var Writing(held, plan, rows, done) := s.calls[c].stage;
       && done == |plan.quantities.keys|
       && KeyUnclaimed(s, c) && KeyFree(s.db.orders, s.calls[c].user, s.calls[c].key)
       && o !in s.db.orders
       && (forall d :: d in s.calls && s.calls[d].stage.Inserting? ==> s.calls[d].stage.order != o)
       && s' == SetStage(s, c, Inserting(held, plan, rows, o, []))
  }

  /** The unique index rejects the insert; the transaction is rolled back. */
  ghost predicate HitUniqueKey(s: State, c: CallId, s': State)
  {
    && At(s, c) && s.calls[c].stage.Writing?
    && s.calls[c].stage.done == |s.calls[c].stage.plan.quantities.keys|
    && KeyUnclaimed(s, c) && !KeyFree(s.db.orders, s.calls[c].user, s.calls[c].key)
    && s' == SetStage(s, c, KeyTaken)
  }

  ghost predicate InsertItem(s: State, c: CallId, s': State)
  {
    && At(s, c) && s.calls[c].stage.Inserting?
    && var Inserting(held, plan, rows, o, items) := s.calls[c].stage;
       && |items| < |s.calls[c].lines|
       && s' == SetStage(s, c, Inserting(held, plan, rows, o, items + [ItemOf(held, s.calls[c].lines[|items|])]))
  }

  ghost predicate CommitCreate(s: State, c: CallId, s': State)
  {
    && At(s, c) && s.calls[c].stage.Inserting?
    && var Call(user, key, lines, Inserting(_, plan, rows, o, items)) := s.calls[c];
       && |items| == |lines|
       && var db := s.db.(products := s.db.products + rows, orders := s.db.orders[o := Order(user, key, Pending, None, items)]);
          s' == SetStage(s, c, Committed(o, plan.amountCents)).(db := db, log := s.log + [Reserve(o, user, key, lines)])
  }

  ghost predicate Resolve(s: State, c: CallId, o: OrderId, s': State)
  {
    && At(s, c) && s.calls[c].stage.KeyTaken? && Matches(s, c, o)
    && s' == SetStage(s, c, Finished(Reused(o, s.db.orders[o].payment)))
  }

  ghost predicate ResolveNone(s: State, c: CallId, s': State)
  {
    && At(s, c) && s.calls[c].stage.KeyTaken? && KeyFree(s.db.orders, s.calls[c].user, s.calls[c].key)
    && s' == SetStage(s, c, Finished(DuplicateKey))
  }

  ghost predicate SendAuthorize(k: Config, s: State, c: CallId, s': State)
  {
    && At(s, c) && s.calls[c].stage.Committed?
    && var Committed(o, amount) := s.calls[c].stage;
       s' == SetStage(s, c, Authorizing(o)).(requests := s.requests[c := Authorization(o, amount, k.currency, s.calls[c].key)])
  }

  /** The payments service handles a request; the caller may have given up on it already. */
  ghost predicate ServeAuthorize(s: State, c: CallId, id: PaymentId, s': State)
  {
    && c in s.requests && id !in s.store.byId
    && var (store, rec) := AuthorizeIn(s.store, s.requests[c], id);
       s' == s.(store := store, requests := s.requests - {c}, responses := s.responses[c := Payment(rec.id, rec.status)])
  }

  ghost predicate ReceivePayment(s: State, c: CallId, s': State)
  {
    && At(s, c) && s.calls[c].stage.Authorizing? && c in s.responses
    && s' == SetStage(s, c, PaymentGranted(s.calls[c].stage.order, s.responses[c]))
  }

  /** The client sees a failure or a deadline; the server may or may not have recorded, and may still. */
  ghost predicate FailPayment(s: State, c: CallId, s': State)
  {
    && At(s, c) && (s.calls[c].stage.Committed? || s.calls[c].stage.Authorizing?)
    && s' == SetStage(s, c, PaymentFailed(s.calls[c].stage.order))
  }

  ghost predicate ReadForRelease(s: State, c: CallId, s': State)
  {
    && At(s, c) && s.calls[c].stage.PaymentFailed?
    && var o := s.calls[c].stage.order;
       s' == SetStage(s, c,
         if o !in s.db.orders || s.db.orders[o].status == Failed then Finished(PaymentRefused(o))
         else Releasing(o, s.db.orders[o].items))
  }

  ghost predicate MarkFailed(s: State, c: CallId, s': State)
  {
    && At(s, c) && s.calls[c].stage.Releasing?
    && var Releasing(o, items) := s.calls[c].stage;
       && OrderRowFree(s, o)
       && s' == SetStage(s, c, Marked(o, items, 0, map[], map[]))
  }

  /** UPDATE products SET stock = stock + quantity: on a row locked now, on our own new version of it, or on no row. */
  function AddBack(products: map<ProductId, Product>, stage: Stage): Stage
    requires stage.Marked? && stage.done < |stage.items|
  {
    var Marked(o, items, done, held, rows) := stage;
    var Item(p, quantity, _) := items[done];
    if p in rows then
      Marked(o, items, done + 1, held, rows[p := rows[p].(stock := rows[p].stock + quantity)])
    else if p in products then
      Marked(o, items, done + 1, held[p := products[p]], rows[p := products[p].(stock := products[p].stock + quantity)])
    else
      Marked(o, items, done + 1, held, rows)
  }

  ghost predicate ReturnItem(s: State, c: CallId, s': State)
  {
    && At(s, c) && s.calls[c].stage.Marked?
    && var stage := s.calls[c].stage;
       && stage.done < |stage.items|
       && (stage.items[stage.done].product in stage.rows || RowFree(s, c, stage.items[stage.done].product))
       && s' == SetStage(s, c, AddBack(s.db.products, stage))
  }

  ghost predicate CommitRelease(s: State, c: CallId, s': State)
  {
    && At(s, c) && s.calls[c].stage.Marked?
    && var Marked(o, items, done, _, rows) := s.calls[c].stage;
       && done == |items| && o in s.db.orders
       && var db := s.db.(products := s.db.products + rows, orders := s.db.orders[o := s.db.orders[o].(status := Failed)]);
          s' == SetStage(s, c, Finished(PaymentRefused(o))).(db := db, log := s.log + [Release(o)])
  }

  ghost predicate RecordPayment(s: State, c: CallId, s': State)
  {
    && At(s, c) && s.calls[c].stage.PaymentGranted?
    && var PaymentGranted(o, paid) := s.calls[c].stage;
       && OrderRowFree(s, o) && o in s.db.orders
       && var db := s.db.(orders := s.db.orders[o := s.db.orders[o].(payment := Some(paid))]);
          s' == SetStage(s, c, PaymentRecorded(o, paid)).(db := db, log := s.log + [Pay(o, paid)])
  }

  ghost predicate Publish(s: State, c: CallId, m: MessageId, t: TokenId, s': State)
  {
    && At(s, c) && s.calls[c].stage.PaymentRecorded?
    && var PaymentRecorded(o, paid) := s.calls[c].stage;
       && m !in s.published && t !in s.tokens
       && s' == SetStage(s, c, Finished(Created(o, paid, m))).(
                  tokens := s.tokens[t := Token(Copy(m, o, 0), ProcessQueue)],
                  published := s.published[m := o])
  }

  /** A crash, a lost connection or a deadlock abort: what was not committed is gone. */
  ghost predicate Abort(s: State, c: CallId, s': State)
  {
    && At(s, c) && !s.calls[c].stage.Finished?
    && s' == SetStage(s, c, Finished(Aborted))
  }

  // ----- Steps of the broker and of a handler -----

  function Move(s: State, t: TokenId, place: Place): State
    requires t in s.tokens
  {
    s.(tokens := s.tokens[t := s.tokens[t].(place := place)])
  }

  predicate In(s: State, t: TokenId)
  {
    t in s.tokens
  }

  function Count(deliveries: map<MessageId, nat>, m: MessageId): nat
  {
    if m in deliveries then deliveries[m] else 0
  }

  ghost predicate Deliver(s: State, t: TokenId, s': State)
  {
    && In(s, t) && s.tokens[t].place.ProcessQueue?
    && var m := s.tokens[t].copy.message;
       s' == Move(s, t, Delivered).(deliveries := s.deliveries[m := Count(s.deliveries, m) + 1])
  }

  /** Waits for a concurrent holder of the same message id; then the row is a duplicate or it is ours. */
  ghost predicate InsertDedup(s: State, t: TokenId, s': State)
  {
    && In(s, t) && s.tokens[t].place.Delivered? && MessageUnclaimed(s, t)
    && s' == Move(s, t, if s.tokens[t].copy.message in s.db.processed then Settled else DedupInserted)
  }

  ghost predicate LockOrder(s: State, t: TokenId, s': State)
  {
    && In(s, t) && s.tokens[t].place.DedupInserted?
    && var o := s.tokens[t].copy.order;
       && OrderRowFree(s, o)
       && s' == Move(s, t,
            if o !in s.db.orders then Rejected else OrderLocked(s.db.orders[o].status == Processed))
  }

  /** The order was processed before: commit the row in processed_messages alone. */
  ghost predicate CommitSeen(s: State, t: TokenId, s': State)
  {
    && In(s, t) && s.tokens[t].place == OrderLocked(true)
    && var Copy(m, o, _) := s.tokens[t].copy;
       s' == Move(s, t, Settled).(db := s.db.(processed := s.db.processed[m := o]))
  }

  ghost predicate UpdateOrder(s: State, t: TokenId, s': State)
  {
    && In(s, t) && s.tokens[t].place == OrderLocked(false)
    && s' == Move(s, t, Updated)
  }

  /** Any error before the commit: the transaction is rolled back. */
  ghost predicate FailWork(s: State, t: TokenId, s': State)
  {
    && In(s, t) && (s.tokens[t].place.Delivered? || HoldsDedup(s.tokens[t].place))
    && s' == Move(s, t, Rejected)
  }

  ghost predicate CommitWork(s: State, t: TokenId, s': State)
  {
    && In(s, t) && s.tokens[t].place.Updated?
    && var Copy(m, o, _) := s.tokens[t].copy;
       && o in s.db.orders
       && var db := s.db.(processed := s.db.processed[m := o], orders := s.db.orders[o := s.db.orders[o].(status := Processed)]);
          s' == Move(s, t, Settled).(db := db, log := s.log + [Process(m, o)])
  }

  function Republished(k: Config, copy: Copy): Token
  {
    if copy.attempt < k.maxAttempts then Token(copy.(attempt := copy.attempt + 1), RetryQueue)
    else Token(copy, DeadLetters)
  }

  ghost predicate Republish(k: Config, s: State, t: TokenId, u: TokenId, s': State)
  {
    && In(s, t) && s.tokens[t].Token? && s.tokens[t].place.Rejected? && u !in s.tokens
    && s' == s.(tokens := s.tokens[t := s.tokens[t].(place := Settled)][u := Republished(k, s.tokens[t].copy)])
  }

  /** The handler is done with its copy; an orphaned one can neither acknowledge nor publish, so it ends after its rollback too. */
  ghost predicate Ack(s: State, t: TokenId, s': State)
  {
    && In(s, t) && (s.tokens[t].place.Settled? || (s.tokens[t].Orphan? && s.tokens[t].place.Rejected?))
    && s' == s.(tokens := s.tokens - {t})
  }

  /** The retry queue's time-to-live dead-letters a copy back to the process queue. */
  ghost predicate Expire(s: State, t: TokenId, s': State)
  {
    && In(s, t) && s.tokens[t].place.RetryQueue?
    && s' == Move(s, t, ProcessQueue)
  }

  /** A worker crash or a nack of a thrown handler: the handler is gone and the unacked copy is queued again. */
  ghost predicate Redeliver(s: State, t: TokenId, s': State)
  {
    && In(s, t) && s.tokens[t].Token? && InFlight(s.tokens[t].place)
    && s' == Move(s, t, ProcessQueue)
  }

  /** A lost channel: the unacked copy is queued again while its handler goes on, and may yet commit. */
  ghost predicate LoseChannel(s: State, t: TokenId, u: TokenId, s': State)
  {
    && In(s, t) && s.tokens[t].Token? && InFlight(s.tokens[t].place) && u !in s.tokens
    && var Token(copy, place) := s.tokens[t];
       s' == s.(tokens := s.tokens[t := Orphan(copy, place)][u := Token(copy, ProcessQueue)])
  }

  /** A crash of an orphaned handler: what it did not commit is gone. */
  ghost predicate Vanish(s: State, t: TokenId, s': State)
  {
    && In(s, t) && s.tokens[t].Orphan?
    && s' == s.(tokens := s.tokens - {t})
  }

  // ----- The next-state relation -----

  datatype Action =
    | ABegin(c: CallId, user: UserId, key: Key, lines: seq<Line>)
    | ACheckUser(c: CallId)
    | AFindExisting(c: CallId, o: OrderId)
    | AMissExisting(c: CallId)
    | ALockRow(c: CallId, p: ProductId)
    | AMakePlan(c: CallId)
    | AWriteRow(c: CallId)
    | AInsertOrder(c: CallId, o: OrderId)
    | AHitUniqueKey(c: CallId)
    | AInsertItem(c: CallId)
    | ACommitCreate(c: CallId)
    | AResolve(c: CallId, o: OrderId)
    | AResolveNone(c: CallId)
    | ASendAuthorize(c: CallId)
    | AServeAuthorize(c: CallId, id: PaymentId)
    | AReceivePayment(c: CallId)
    | AFailPayment(c: CallId)
    | AReadForRelease(c: CallId)
    | AMarkFailed(c: CallId)
    | AReturnItem(c: CallId)
    | ACommitRelease(c: CallId)
    | ARecordPayment(c: CallId)
    | APublish(c: CallId, m: MessageId, t: TokenId)
    | AAbort(c: CallId)
    | ADeliver(t: TokenId)
    | AInsertDedup(t: TokenId)
    | ALockOrder(t: TokenId)
    | ACommitSeen(t: TokenId)
    | AUpdateOrder(t: TokenId)
    | AFailWork(t: TokenId)
    | ACommitWork(t: TokenId)
    | ARepublish(t: TokenId, u: TokenId)
    | AAck(t: TokenId)
    | AExpire(t: TokenId)
    | ARedeliver(t: TokenId)
    | ALoseChannel(t: TokenId, u: TokenId)
    | AVanish(t: TokenId)

  ghost predicate ReservationStep(s: State, a: Action, s': State)
  {
    match a
    case ABegin(c, user, key, lines) => Begin(s, c, user, key, lines, s')
    case ACheckUser(c) => CheckUser(s, c, s')
    case AFindExisting(c, o) => FindExisting(s, c, o, s')
    case AMissExisting(c) => MissExisting(s, c, s')
    case ALockRow(c, p) => LockRow(s, c, p, s')
    case AMakePlan(c) => MakePlan(s, c, s')
    case AWriteRow(c) => WriteRow(s, c, s')
    case AInsertOrder(c, o) => InsertOrder(s, c, o, s')
    case AHitUniqueKey(c) => HitUniqueKey(s, c, s')
    case AInsertItem(c) => InsertItem(s, c, s')
    case ACommitCreate(c) => CommitCreate(s, c, s')
    case AResolve(c, o) => Resolve(s, c, o, s')
    case AResolveNone(c) => ResolveNone(s, c, s')
    case _ => false
  }

  ghost predicate PaymentStep(k: Config, s: State, a: Action, s': State)
  {
    match a
    case ASendAuthorize(c) => SendAuthorize(k, s, c, s')
    case AServeAuthorize(c, id) => ServeAuthorize(s, c, id, s')
    case AReceivePayment(c) => ReceivePayment(s, c, s')
    case AFailPayment(c) => FailPayment(s, c, s')
    case AReadForRelease(c) => ReadForRelease(s, c, s')
    case AMarkFailed(c) => MarkFailed(s, c, s')
    case AReturnItem(c) => ReturnItem(s, c, s')
    case ACommitRelease(c) => CommitRelease(s, c, s')
    case ARecordPayment(c) => RecordPayment(s, c, s')
    case APublish(c, m, t) => Publish(s, c, m, t, s')
    case AAbort(c) => Abort(s, c, s')
    case _ => false
  }

  ghost predicate WorkerStep(k: Config, s: State, a: Action, s': State)
  {
    match a
    case ADeliver(t) => Deliver(s, t, s')
    case AInsertDedup(t) => InsertDedup(s, t, s')
    case ALockOrder(t) => LockOrder(s, t, s')
    case ACommitSeen(t) => CommitSeen(s, t, s')
    case AUpdateOrder(t) => UpdateOrder(s, t, s')
    case AFailWork(t) => FailWork(s, t, s')
    case ACommitWork(t) => CommitWork(s, t, s')
    case ARepublish(t, u) => Republish(k, s, t, u, s')
    case AAck(t) => Ack(s, t, s')
    case AExpire(t) => Expire(s, t, s')
    case ARedeliver(t) => Redeliver(s, t, s')
    case ALoseChannel(t, u) => LoseChannel(s, t, u, s')
    case AVanish(t) => Vanish(s, t, s')
    case _ => false
  }

  ghost predicate Step(k: Config, s: State, a: Action, s': State)
  {
    ReservationStep(s, a, s') || PaymentStep(k, s, a, s') || WorkerStep(k, s, a, s')
  }

  /** `states` are the states passed through by `actions`, one after another. */
  ghost predicate Run(k: Config, states: seq<State>, actions: seq<Action>)
  {
    && |states| == |actions| + 1
    && forall i :: 0 <= i < |actions| ==> Step(k, states[i], actions[i], states[i + 1])
  }

  ghost predicate RunFromInit(k: Config, states: seq<State>, actions: seq<Action>)
  {
    Run(k, states, actions) && Init(k, states[0])
  }

  ghost predicate Reachable(k: Config, s: State)
  {
    exists states, actions :: RunFromInit(k, states, actions) && s == states[|actions|]
  }
}
