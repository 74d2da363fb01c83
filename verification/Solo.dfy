/**
 * What one call or one handler does when nobody holds what it needs: the machine can run it to the
 * end, and the end state is the committed events of the call and nothing else.
 */
module Solo {
  import opened Common
  import opened OrderPolicy
  import opened Payments
  import opened Ledger
  import opened Protocol
  import opened Invariant
  import opened Preservation

  ghost predicate RunBetween(k: Config, s: State, s': State, states: seq<State>, actions: seq<Action>)
  {
    Run(k, states, actions) && states[0] == s && states[|actions|] == s'
  }

  /** Some run leads from `s` to `s'`. */
  ghost predicate Reaches(k: Config, s: State, s': State)
  {
    exists states, actions :: RunBetween(k, s, s', states, actions)
  }

  lemma ReachesItself(k: Config, s: State)
    ensures Reaches(k, s, s)
  {
    assert RunBetween(k, s, s, [s], []);
  }

  lemma Follow(k: Config, start: State, s: State, a: Action, s': State)
    requires Reaches(k, start, s) && Step(k, s, a, s')
    ensures Reaches(k, start, s')
  {
    hide Step;
    var states, actions :| RunBetween(k, start, s, states, actions);
    assert RunBetween(k, start, s', states + [s'], actions + [a]);
  }

  lemma FollowWorker(k: Config, start: State, s: State, a: Action, s': State)
    requires Reaches(k, start, s) && WorkerStep(k, s, a, s')
    ensures Reaches(k, start, s')
  {
    hide WorkerStep, Reaches;
    Follow(k, start, s, a, s');
  }

  lemma FollowReservation(k: Config, start: State, s: State, a: Action, s': State)
    requires Reaches(k, start, s) && ReservationStep(s, a, s')
    ensures Reaches(k, start, s')
  {
    hide ReservationStep, Reaches;
    Follow(k, start, s, a, s');
  }

  lemma FollowPayment(k: Config, start: State, s: State, a: Action, s': State)
    requires Reaches(k, start, s) && PaymentStep(k, s, a, s')
    ensures Reaches(k, start, s')
  {
    hide PaymentStep, Reaches;
    Follow(k, start, s, a, s');
  }

  lemma ReachesOn(k: Config, s: State, mid: State, s': State)
    requires Reaches(k, s, mid) && Reaches(k, mid, s')
    ensures Reaches(k, s, s')
  {
    hide Step;
    var before, first :| RunBetween(k, s, mid, before, first);
    var after, second :| RunBetween(k, mid, s', after, second);
    var states, actions := before[..|first|] + after, first + second;
    forall i | 0 <= i < |actions|
      ensures Step(k, states[i], actions[i], states[i + 1])
    {
      if i < |first| {
        assert states[i] == before[i] && states[i + 1] == before[i + 1];
      } else {
        assert states[i] == after[i - |first|] && states[i + 1] == after[i + 1 - |first|];
      }
    }
    assert RunBetween(k, s, s', states, actions);
  }

  lemma ReachesReachable(k: Config, s: State, s': State)
    requires Reachable(k, s) && Reaches(k, s, s')
    ensures Reachable(k, s')
  {
    hide Step, Init;
    var states, actions :| RunFromInit(k, states, actions) && s == states[|actions|];
    assert RunBetween(k, states[0], s, states, actions);
    ReachesOn(k, states[0], s, s');
    var after, more :| RunBetween(k, states[0], s', after, more);
    assert RunFromInit(k, after, more);
  }

  /** Nobody but `c` holds rows or an uncommitted order. */
  ghost predicate Unlocked(s: State, c: CallId)
  {
    forall d :: d in s.calls && d != c ==>
      Held(s.calls[d].stage) == map[] && !s.calls[d].stage.Inserting? && !s.calls[d].stage.Marked?
  }

  // ----- Reservation -----

  function Rows(products: map<ProductId, Product>, keys: seq<ProductId>): map<ProductId, Product>
  {
    map p | p in keys && p in products :: products[p]
  }

  ghost predicate CanReserve(s: State, c: CallId, o: OrderId)
  {
    && c in s.calls && s.calls[c].stage == Reserving(map[]) && Unlocked(s, c)
    && BuildPlan(s.db.products, s.calls[c].lines).Planned?
    && KeyFree(s.db.orders, s.calls[c].user, s.calls[c].key)
    && o !in s.db.orders
  }

  lemma LockOne(k: Config, s: State, c: CallId, held: map<ProductId, Product>, p: ProductId)
    requires c in s.calls && Unlocked(s, c)
    requires p in Requested(s.calls[c].lines) && p in s.db.products && p !in held
    requires Reaches(k, s, SetStage(s, c, Reserving(held)))
    ensures Reaches(k, s, SetStage(s, c, Reserving(held[p := s.db.products[p]])))
  {
    hide Reaches, Requested;
    FollowReservation(k, s, SetStage(s, c, Reserving(held)), ALockRow(c, p), SetStage(s, c, Reserving(held[p := s.db.products[p]])));
  }

  lemma RowsSnoc(products: map<ProductId, Product>, keys: seq<ProductId>, n: nat)
    requires 0 < n <= |keys| && Distinct(keys) && keys[n - 1] in products
    ensures keys[n - 1] !in Rows(products, keys[..n - 1])
    ensures Rows(products, keys[..n]) == Rows(products, keys[..n - 1])[keys[n - 1] := products[keys[n - 1]]]
  {
    assert keys[..n] == keys[..n - 1] + [keys[n - 1]];
  }

  lemma {:induction false} LockAll(k: Config, s: State, c: CallId, keys: seq<ProductId>, n: nat)
    requires c in s.calls && s.calls[c].stage == Reserving(map[]) && Unlocked(s, c)
    requires n <= |keys| && Distinct(keys)
    requires forall p :: p in keys ==> p in Requested(s.calls[c].lines) && p in s.db.products
    ensures Reaches(k, s, SetStage(s, c, Reserving(Rows(s.db.products, keys[..n]))))
  {
    hide Reaches, Unlocked;
    if n == 0 {
      ReachesItself(k, s);
      assert SetStage(s, c, Reserving(map[])) == s;
      assert Rows(s.db.products, keys[..0]) == map[];
    } else {
      hide Rows, Unlocked, Distinct, Requested;
      LockAll(k, s, c, keys, n - 1);
      RowsSnoc(s.db.products, keys, n);
      LockOne(k, s, c, Rows(s.db.products, keys[..n - 1]), keys[n - 1]);
    }
  }

  lemma {:induction false} WriteAll(k: Config, start: State, s: State, c: CallId, held: map<ProductId, Product>, plan: Plan, n: nat)
    requires c in s.calls && n <= |plan.quantities.keys|
    requires Reaches(k, start, SetStage(s, c, Writing(held, plan, map[], 0)))
    requires forall p :: p in plan.quantities.keys ==> p in held && p in plan.quantities.total
    ensures Reaches(k, start, SetStage(s, c, Writing(held, plan, TakenRows(held, plan.quantities.total, plan.quantities.keys[..n]), n)))
  {
    hide Reaches;
    var total, keys := plan.quantities.total, plan.quantities.keys;
    if n == 0 {
      assert TakenRows(held, total, keys[..0]) == map[];
    } else {
      WriteAll(k, start, s, c, held, plan, n - 1);
      TakenRowsSnoc(held, total, keys, n - 1);
      hide TakenRows;
      FollowReservation(k, start, SetStage(s, c, Writing(held, plan, TakenRows(held, total, keys[..n - 1]), n - 1)), AWriteRow(c),
             SetStage(s, c, Writing(held, plan, TakenRows(held, total, keys[..n]), n)));
    }
  }

  lemma InsertOne(k: Config, start: State, s: State, c: CallId, held: map<ProductId, Product>, plan: Plan,
                  rows: map<ProductId, Product>, o: OrderId, items: seq<Item>)
    requires c in s.calls && |items| < |s.calls[c].lines|
    requires Reaches(k, start, SetStage(s, c, Inserting(held, plan, rows, o, items)))
    ensures Reaches(k, start, SetStage(s, c, Inserting(held, plan, rows, o, items + [ItemOf(held, s.calls[c].lines[|items|])])))
  {
    hide Reaches, ItemOf;
    FollowReservation(k, start, SetStage(s, c, Inserting(held, plan, rows, o, items)), AInsertItem(c),
           SetStage(s, c, Inserting(held, plan, rows, o, items + [ItemOf(held, s.calls[c].lines[|items|])])));
  }

  lemma {:induction false} InsertAll(k: Config, start: State, s: State, c: CallId, held: map<ProductId, Product>, plan: Plan,
                                     rows: map<ProductId, Product>, o: OrderId, n: nat)
    requires c in s.calls && n <= |s.calls[c].lines|
    requires Reaches(k, start, SetStage(s, c, Inserting(held, plan, rows, o, [])))
    ensures Reaches(k, start, SetStage(s, c, Inserting(held, plan, rows, o, ItemsOf(held, s.calls[c].lines[..n]))))
  {
    hide Reaches;
    if n > 0 {
      InsertAll(k, start, s, c, held, plan, rows, o, n - 1);
      var lines := s.calls[c].lines;
      assert lines[..n][..n - 1] == lines[..n - 1];
      ItemsMirrorLines(held, lines[..n - 1]);
      InsertOne(k, start, s, c, held, plan, rows, o, ItemsOf(held, lines[..n - 1]));
    }
  }

  /** The state after the reservation of `c` has committed. */
  function AfterReserve(s: State, c: CallId, o: OrderId): State
    requires c in s.calls && BuildPlan(s.db.products, s.calls[c].lines).Planned?
  {
    var e := Reserve(o, s.calls[c].user, s.calls[c].key, s.calls[c].lines);
    SetStage(s, c, Committed(o, BuildPlan(s.db.products, s.calls[c].lines).plan.amountCents)).(db := Apply(s.db, e), log := s.log + [e])
  }

  /** Locking the rows of the requested products locks all that the plan needs. */
  lemma PlannedRows(products: map<ProductId, Product>, lines: seq<Line>)
    requires BuildPlan(products, lines).Planned?
    ensures var (keys, plan) := (Aggregate(lines).keys, BuildPlan(products, lines).plan);
      var held := Rows(products, keys);
      && held.Keys == Requested(lines) <= products.Keys
      && Distinct(keys)
      && (forall p :: p in keys <==> p in Requested(lines))
      && BuildPlan(held, lines) == Planned(plan)
      && (forall p :: p in plan.quantities.keys ==> p in held && p in plan.quantities.total)
  {
    hide BuildPlan, Aggregate;
    PlanMeaning(products, lines);
    AggregateTotals(lines);
    var held := Rows(products, Aggregate(lines).keys);
    PlanLocal(held, products, lines);
    PlanMeaning(held, lines);
  }

  lemma PlanAll(k: Config, s: State, c: CallId) returns (held: map<ProductId, Product>)
    requires Inv(k, s) && c in s.calls && s.calls[c].stage == Reserving(map[]) && Unlocked(s, c)
    requires BuildPlan(s.db.products, s.calls[c].lines).Planned?
    ensures var plan := BuildPlan(s.db.products, s.calls[c].lines).plan;
      && held.Keys == Requested(s.calls[c].lines)
      && (forall p :: p in held ==> p in s.db.products && s.db.products[p] == held[p])
      && BuildPlan(held, s.calls[c].lines) == Planned(plan)
      && (forall p :: p in plan.quantities.keys ==> p in held && p in plan.quantities.total)
      && Reaches(k, s, SetStage(s, c, Writing(held, plan, map[], 0)))
  {
    hide Inv, BuildPlan, Reaches, Unlocked, Aggregate;
    var lines := s.calls[c].lines;
    var keys := Aggregate(lines).keys;
    PlannedRows(s.db.products, lines);
    LockAll(k, s, c, keys, |keys|);
    assert keys[..|keys|] == keys;
    held := Rows(s.db.products, keys);
    FollowReservation(k, s, SetStage(s, c, Reserving(held)), AMakePlan(c),
           SetStage(s, c, Writing(held, BuildPlan(s.db.products, lines).plan, map[], 0)));
  }

  lemma InsertStep(k: Config, start: State, s: State, c: CallId, held: map<ProductId, Product>, plan: Plan, o: OrderId)
    requires c in s.calls && Unlocked(s, c)
    requires KeyFree(s.db.orders, s.calls[c].user, s.calls[c].key) && o !in s.db.orders
    requires var keys := plan.quantities.keys;
      Reaches(k, start, SetStage(s, c, Writing(held, plan, TakenRows(held, plan.quantities.total, keys), |keys|)))
    ensures Reaches(k, start, SetStage(s, c, Inserting(held, plan, TakenRows(held, plan.quantities.total, plan.quantities.keys), o, [])))
  {
    hide Reaches, TakenRows;
    var keys := plan.quantities.keys;
    var rows := TakenRows(held, plan.quantities.total, keys);
    FollowReservation(k, start, SetStage(s, c, Writing(held, plan, rows, |keys|)), AInsertOrder(c, o),
           SetStage(s, c, Inserting(held, plan, rows, o, [])));
  }

  lemma CommitStep(k: Config, s: State, c: CallId, held: map<ProductId, Product>, plan: Plan, o: OrderId)
    requires Inv(k, s) && c in s.calls && o !in s.db.orders
    requires BuildPlan(s.db.products, s.calls[c].lines) == Planned(plan) && BuildPlan(held, s.calls[c].lines) == Planned(plan)
    requires forall p :: p in held ==> p in s.db.products && s.db.products[p] == held[p]
    requires var rows := TakenRows(held, plan.quantities.total, plan.quantities.keys);
      Reaches(k, s, SetStage(s, c, Inserting(held, plan, rows, o, ItemsOf(held, s.calls[c].lines))))
    ensures Reaches(k, s, AfterReserve(s, c, o))
  {
    hide Inv, Reaches, TakenRows, BuildPlan, ItemsOf, Taken, Aggregate;
    var rows := TakenRows(held, plan.quantities.total, plan.quantities.keys);
    PlanOnLockedRows(s.db.products, held, s.calls[c].lines, plan);
    ItemsMirrorLines(held, s.calls[c].lines);
    FollowReservation(k, s, SetStage(s, c, Inserting(held, plan, rows, o, ItemsOf(held, s.calls[c].lines))), ACommitCreate(c), AfterReserve(s, c, o));
  }

  /** A call past its lookup, with nobody in its way and an affordable order, can commit exactly the atomic reservation. */
  lemma SoloReserve(k: Config, s: State, c: CallId, o: OrderId)
    requires Inv(k, s) && CanReserve(s, c, o)
    ensures Reaches(k, s, AfterReserve(s, c, o))
  {
    hide Inv, Reaches, TakenRows, BuildPlan, ItemsOf, Unlocked, AfterReserve;
    var plan, lines := BuildPlan(s.db.products, s.calls[c].lines).plan, s.calls[c].lines;
    var held := PlanAll(k, s, c);
    var keys := plan.quantities.keys;
    WriteAll(k, s, s, c, held, plan, |keys|);
    assert keys[..|keys|] == keys;
    InsertStep(k, s, s, c, held, plan, o);
    var rows := TakenRows(held, plan.quantities.total, keys);
    InsertAll(k, s, s, c, held, plan, rows, o, |lines|);
    assert lines[..|lines|] == lines;
    CommitStep(k, s, c, held, plan, o);
  }

  // ----- After the commit -----

  /** The call as `result` leaves it, everything else as in `s`. */
  function Answered(s: State, c: CallId, result: Result): State
    requires c in s.calls
  {
    SetStage(s, c, Finished(result))
  }

  /** The state after the payment of a committed call was granted, recorded and its message published. */
  function Completed(k: Config, s: State, c: CallId, id: PaymentId, m: MessageId, t: TokenId): State
    requires c in s.calls && s.calls[c].stage.Committed? && s.calls[c].stage.order in s.db.orders
  {
    var Committed(o, amount) := s.calls[c].stage;
    var (store, rec) := AuthorizeIn(s.store, Authorization(o, amount, k.currency, s.calls[c].key), id);
    var paid := Payment(rec.id, rec.status);
    Answered(s, c, Created(o, paid, m)).(
      db := Apply(s.db, Pay(o, paid)), log := s.log + [Pay(o, paid)],
      store := store, responses := s.responses[c := paid],
      tokens := s.tokens[t := Token(Copy(m, o, 0), ProcessQueue)], published := s.published[m := o])
  }

  lemma SoloSend(k: Config, s: State, c: CallId)
    requires c in s.calls && s.calls[c].stage.Committed?
    ensures var Committed(o, amount) := s.calls[c].stage;
      Reaches(k, s, SetStage(s, c, Authorizing(o)).(requests := s.requests[c := Authorization(o, amount, k.currency, s.calls[c].key)]))
  {
    hide Reaches, AuthorizeIn, AddBack;
    var Committed(o, amount) := s.calls[c].stage;
    ReachesItself(k, s);
    FollowPayment(k, s, s, ASendAuthorize(c),
                  SetStage(s, c, Authorizing(o)).(requests := s.requests[c := Authorization(o, amount, k.currency, s.calls[c].key)]));
  }

  lemma SoloAuthorize(k: Config, s: State, c: CallId, id: PaymentId)
    requires c in s.calls && s.calls[c].stage.Committed? && c !in s.requests && id !in s.store.byId
    ensures var Committed(o, amount) := s.calls[c].stage;
      var (store, rec) := AuthorizeIn(s.store, Authorization(o, amount, k.currency, s.calls[c].key), id);
      var paid := Payment(rec.id, rec.status);
      Reaches(k, s, SetStage(s, c, PaymentGranted(o, paid)).(store := store, responses := s.responses[c := paid]))
  {
    hide Reaches, AuthorizeIn, AddBack;
    var Committed(o, amount) := s.calls[c].stage;
    var a := Authorization(o, amount, k.currency, s.calls[c].key);
    var (store, rec) := AuthorizeIn(s.store, a, id);
    var paid := Payment(rec.id, rec.status);
    var sent := SetStage(s, c, Authorizing(o)).(requests := s.requests[c := a]);
    var served := SetStage(s, c, Authorizing(o)).(store := store, responses := s.responses[c := paid]);
    SoloSend(k, s, c);
    assert sent.requests - {c} == s.requests;
    FollowPayment(k, s, sent, AServeAuthorize(c, id), served);
    FollowPayment(k, s, served, AReceivePayment(c),
           SetStage(s, c, PaymentGranted(o, paid)).(store := store, responses := s.responses[c := paid]));
  }

  lemma RecordAndPublish(k: Config, start: State, s: State, c: CallId, m: MessageId, t: TokenId)
    requires c in s.calls && s.calls[c].stage.PaymentGranted?
    requires var o := s.calls[c].stage.order; o in s.db.orders && OrderRowFree(s, o)
    requires m !in s.published && t !in s.tokens && Reaches(k, start, s)
    ensures var PaymentGranted(o, paid) := s.calls[c].stage;
      Reaches(k, start, Answered(s, c, Created(o, paid, m)).(
        db := Apply(s.db, Pay(o, paid)), log := s.log + [Pay(o, paid)],
        tokens := s.tokens[t := Token(Copy(m, o, 0), ProcessQueue)], published := s.published[m := o]))
  {
    hide Reaches, OrderRowFree;
    var PaymentGranted(o, paid) := s.calls[c].stage;
    var recorded := SetStage(s, c, PaymentRecorded(o, paid)).(db := Apply(s.db, Pay(o, paid)), log := s.log + [Pay(o, paid)]);
    FollowPayment(k, start, s, ARecordPayment(c), recorded);
    FollowPayment(k, start, recorded, APublish(c, m, t), Answered(s, c, Created(o, paid, m)).(
        db := Apply(s.db, Pay(o, paid)), log := s.log + [Pay(o, paid)],
        tokens := s.tokens[t := Token(Copy(m, o, 0), ProcessQueue)], published := s.published[m := o]));
  }

  /** From its commit, a call whose payment succeeds can answer `reused: false` with exactly the payment recorded and one message published. */
  lemma SoloComplete(k: Config, s: State, c: CallId, id: PaymentId, m: MessageId, t: TokenId)
    requires c in s.calls && s.calls[c].stage.Committed? && s.calls[c].stage.order in s.db.orders
    requires OrderRowFree(s, s.calls[c].stage.order)
    requires c !in s.requests && id !in s.store.byId && m !in s.published && t !in s.tokens
    ensures Reaches(k, s, Completed(k, s, c, id, m, t))
  {
    hide Reaches, AuthorizeIn, Apply;
    SoloAuthorize(k, s, c, id);
    var Committed(o, amount) := s.calls[c].stage;
    var (store, rec) := AuthorizeIn(s.store, Authorization(o, amount, k.currency, s.calls[c].key), id);
    var paid := Payment(rec.id, rec.status);
    var granted := SetStage(s, c, PaymentGranted(o, paid)).(store := store, responses := s.responses[c := paid]);
    assert OrderRowFree(granted, o);
    RecordAndPublish(k, s, granted, c, m, t);
    assert Completed(k, s, c, id, m, t) == Answered(granted, c, Created(o, paid, m)).(
        db := Apply(s.db, Pay(o, paid)), log := s.log + [Pay(o, paid)],
        tokens := s.tokens[t := Token(Copy(m, o, 0), ProcessQueue)], published := s.published[m := o]);
  }

  // ----- The worker -----

  /** The start of a handler: nothing committed, the copy delivered and its rows held. */
  function HandledSoFar(s: State, t: TokenId, place: Place): State
    requires t in s.tokens
  {
    var m := s.tokens[t].copy.message;
    Move(s, t, place).(deliveries := s.deliveries[m := Count(s.deliveries, m) + 1])
  }

  ghost predicate CanHandle(s: State, t: TokenId)
  {
    && t in s.tokens && s.tokens[t].place.ProcessQueue?
    && (forall u :: u in s.tokens ==> !HoldsDedup(s.tokens[u].place))
    && (forall d :: d in s.calls ==> !s.calls[d].stage.Marked?)
    && s.tokens[t].copy.message !in s.db.processed
    && var o := s.tokens[t].copy.order;
       o in s.db.orders && s.db.orders[o].status == Pending
  }

  lemma HandleStart(k: Config, s: State, t: TokenId)
    requires CanHandle(s, t)
    ensures Reaches(k, s, HandledSoFar(s, t, DedupInserted))
  {
    hide Reaches;
    ReachesItself(k, s);
    FollowWorker(k, s, s, ADeliver(t), HandledSoFar(s, t, Delivered));
    FollowWorker(k, s, HandledSoFar(s, t, Delivered), AInsertDedup(t), HandledSoFar(s, t, DedupInserted));
  }

  lemma HandleLock(k: Config, s: State, t: TokenId)
    requires CanHandle(s, t)
    ensures WorkerStep(k, HandledSoFar(s, t, DedupInserted), ALockOrder(t), HandledSoFar(s, t, OrderLocked(false)))
  {
    var before := HandledSoFar(s, t, DedupInserted);
    assert forall u :: u in before.tokens ==> !HoldsOrder(before.tokens[u].place);
    assert Move(before, t, OrderLocked(false)) == HandledSoFar(s, t, OrderLocked(false));
  }

  lemma SoloHandle(k: Config, s: State, t: TokenId)
    requires CanHandle(s, t)
    ensures Reaches(k, s, HandledSoFar(s, t, Updated))
  {
    hide Reaches;
    HandleStart(k, s, t);
    HandleLock(k, s, t);
    hide CanHandle;
    FollowWorker(k, s, HandledSoFar(s, t, DedupInserted), ALockOrder(t), HandledSoFar(s, t, OrderLocked(false)));
    HandleUpdate(k, s, t);
  }

  lemma HandleUpdate(k: Config, s: State, t: TokenId)
    requires t in s.tokens && Reaches(k, s, HandledSoFar(s, t, OrderLocked(false)))
    ensures Reaches(k, s, HandledSoFar(s, t, Updated))
  {
    hide Reaches;
    FollowWorker(k, s, HandledSoFar(s, t, OrderLocked(false)), AUpdateOrder(t), HandledSoFar(s, t, Updated));
  }

  /** The state after a copy was handled: its order processed, its row committed, the copy acknowledged. */
  function Consumed(s: State, t: TokenId): State
    requires t in s.tokens && s.tokens[t].copy.order in s.db.orders
  {
    var Copy(m, o, _) := s.tokens[t].copy;
    s.(db := Apply(s.db, Process(m, o)), log := s.log + [Process(m, o)],
       deliveries := s.deliveries[m := Count(s.deliveries, m) + 1], tokens := s.tokens - {t})
  }

  /** A queued copy whose message is new can be handled to the end. */
  lemma SoloWork(k: Config, s: State, t: TokenId)
    requires CanHandle(s, t)
    ensures Reaches(k, s, Consumed(s, t))
  {
    hide Reaches;
    SoloHandle(k, s, t);
    CommitAndAck(k, s, t);
  }

  /** A handled copy between its commit and its ack. */
  function CommittedCopy(s: State, t: TokenId): State
    requires t in s.tokens && s.tokens[t].copy.order in s.db.orders
  {
    Consumed(s, t).(tokens := s.tokens[t := s.tokens[t].(place := Place.Settled)])
  }

  lemma CommitCopy(k: Config, s: State, t: TokenId)
    requires t in s.tokens && s.tokens[t].copy.order in s.db.orders
    ensures WorkerStep(k, HandledSoFar(s, t, Updated), ACommitWork(t), CommittedCopy(s, t))
  {
    hide Taken, Returned, ItemsOf, Aggregate;
  }

  lemma AckCopy(k: Config, s: State, t: TokenId)
    requires t in s.tokens && s.tokens[t].copy.order in s.db.orders
    ensures WorkerStep(k, CommittedCopy(s, t), AAck(t), Consumed(s, t))
  {
    hide Apply;
    assert CommittedCopy(s, t).tokens - {t} == s.tokens - {t};
  }

  lemma CommitAndAck(k: Config, s: State, t: TokenId)
    requires t in s.tokens && s.tokens[t].copy.order in s.db.orders
    requires Reaches(k, s, HandledSoFar(s, t, Updated))
    ensures Reaches(k, s, Consumed(s, t))
  {
    hide Reaches, HandledSoFar, CommittedCopy, Consumed, WorkerStep;
    CommitCopy(k, s, t);
    AckCopy(k, s, t);
    FollowWorker(k, s, HandledSoFar(s, t, Updated), ACommitWork(t), CommittedCopy(s, t));
    FollowWorker(k, s, CommittedCopy(s, t), AAck(t), Consumed(s, t));
  }

  /** The state after a copy was recognised as a duplicate and acknowledged. */
  function Dismissed(s: State, t: TokenId): State
    requires t in s.tokens
  {
    var m := s.tokens[t].copy.message;
    s.(deliveries := s.deliveries[m := Count(s.deliveries, m) + 1], tokens := s.tokens - {t})
  }

  /** A queued copy whose message has its row reaches its ack, leaving the tables and all other copies as they are. */
  lemma SoloDuplicate(k: Config, s: State, t: TokenId)
    requires Inv(k, s) && t in s.tokens && s.tokens[t].place.ProcessQueue? && s.tokens[t].copy.message in s.db.processed
    ensures Reaches(k, s, Dismissed(s, t))
  {
    hide Reaches, Inv, WorkerStep, HandledSoFar, Dismissed;
    NoRowTwice(k, s, t);
    DuplicateDelivered(k, s, t);
    DuplicateFound(k, s, t);
    DuplicateAcked(k, s, t);
    ReachesItself(k, s);
    FollowWorker(k, s, s, ADeliver(t), HandledSoFar(s, t, Delivered));
    FollowWorker(k, s, HandledSoFar(s, t, Delivered), AInsertDedup(t), HandledSoFar(s, t, Place.Settled));
    FollowWorker(k, s, HandledSoFar(s, t, Place.Settled), AAck(t), Dismissed(s, t));
  }

  lemma DuplicateDelivered(k: Config, s: State, t: TokenId)
    requires t in s.tokens && s.tokens[t].place.ProcessQueue?
    ensures WorkerStep(k, s, ADeliver(t), HandledSoFar(s, t, Delivered))
  {}

  lemma DuplicateFound(k: Config, s: State, t: TokenId)
    requires t in s.tokens && s.tokens[t].copy.message in s.db.processed && MessageUnclaimed(s, t)
    ensures WorkerStep(k, HandledSoFar(s, t, Delivered), AInsertDedup(t), HandledSoFar(s, t, Place.Settled))
  {
    assert Move(HandledSoFar(s, t, Delivered), t, Place.Settled) == HandledSoFar(s, t, Place.Settled);
  }

  lemma DuplicateAcked(k: Config, s: State, t: TokenId)
    requires t in s.tokens
    ensures WorkerStep(k, HandledSoFar(s, t, Place.Settled), AAck(t), Dismissed(s, t))
  {
    assert HandledSoFar(s, t, Place.Settled).tokens - {t} == s.tokens - {t};
  }

  /** Nobody holds an uncommitted row for a message that has a committed one. */
  lemma NoRowTwice(k: Config, s: State, t: TokenId)
    requires Inv(k, s) && t in s.tokens && s.tokens[t].copy.message in s.db.processed
    ensures MessageUnclaimed(s, t)
  {
    hide CallsInv, StoreInv, WireInv, AskInv, LogInv, CarriedInv, MessagesInv;
    forall u | u in s.tokens && u != t && HoldsDedup(s.tokens[u].place)
      ensures s.tokens[u].copy.message != s.tokens[t].copy.message
    {
      assert GoodToken(k, s.db.processed, s.published, s.tokens[u]);
    }
  }

  // ----- Compensation -----

  function RowsOf(products: map<ProductId, Product>, items: seq<Item>): map<ProductId, Product>
  {
    map p | p in ProductsOf(items) && p in products :: products[p]
  }

  /** The compensation after the first `n` items, with nobody else holding their rows. */
  function AddedBack(products: map<ProductId, Product>, o: OrderId, items: seq<Item>, n: nat): Stage
    requires n <= |items|
  {
    var held := RowsOf(products, items[..n]);
    Marked(o, items, n, held, Returned(held, items[..n]))
  }

  lemma RowsOfPrefix(products: map<ProductId, Product>, items: seq<Item>, n: nat)
    requires n <= |items| && ProductsOf(items) <= products.Keys
    ensures RowsOf(products, items[..n]).Keys == ProductsOf(items[..n])
    ensures n < |items| ==> items[n].product in products
  {
    forall q | q in ProductsOf(items[..n])
      ensures q in products
    {
      assert q in ProductsOf(items);
    }
    if n < |items| {
      assert items[n].product in ProductsOf(items);
    }
  }

  lemma AddedBackStep(products: map<ProductId, Product>, o: OrderId, items: seq<Item>, n: nat)
    requires n < |items| && ProductsOf(items) <= products.Keys
    ensures AddBack(products, AddedBack(products, o, items, n)) == AddedBack(products, o, items, n + 1)
  {
    hide Returned, ProductsOf, AddBack, RowsOf;
    AddedBackShape(products, o, items, n);
    var held, p := RowsOf(products, items[..n]), items[n].product;
    ReturnedSnoc(held, items, n, p, products[p]);
  }

  lemma AddedBackShape(products: map<ProductId, Product>, o: OrderId, items: seq<Item>, n: nat)
    requires n < |items| && ProductsOf(items) <= products.Keys
    ensures var (stage, p) := (AddedBack(products, o, items, n), items[n].product);
      && p in products
      && stage.held.Keys == ProductsOf(items[..n])
      && (p in stage.held ==> stage.held[p] == products[p])
      && stage.held[p := products[p]] == RowsOf(products, items[..n + 1])
      && ItemReturned(products, stage, AddBack(products, stage))
  {
    RowsOfPrefix(products, items, n);
    RowsOfPrefix(products, items, n + 1);
    RowsOfSnoc(products, items, n);
    hide Returned, ProductsOf, ItemReturned, AddBack;
    ReturnedKeys(RowsOf(products, items[..n]), items[..n]);
    ReturnItemShape(products, AddedBack(products, o, items, n));
  }

  lemma RowsOfSnoc(products: map<ProductId, Product>, items: seq<Item>, n: nat)
    requires n < |items| && items[n].product in products
    ensures RowsOf(products, items[..n + 1]) == RowsOf(products, items[..n])[items[n].product := products[items[n].product]]
  {
    assert items[..n + 1] == items[..n] + [items[n]];
    assert ProductsOf(items[..n + 1]) == ProductsOf(items[..n]) + {items[n].product};
  }

  lemma ReturnedKeys(held: map<ProductId, Product>, items: seq<Item>)
    ensures Returned(held, items).Keys == held.Keys
  {}

  lemma {:induction false} ReturnAll(k: Config, start: State, s: State, c: CallId, o: OrderId, items: seq<Item>, n: nat)
    requires c in s.calls && Unlocked(s, c) && n <= |items| && ProductsOf(items) <= s.db.products.Keys
    requires Reaches(k, start, SetStage(s, c, Marked(o, items, 0, map[], map[])))
    ensures Reaches(k, start, SetStage(s, c, AddedBack(s.db.products, o, items, n)))
  {
    hide Reaches, Unlocked;
    if n == 0 {
      assert items[..0] == [];
      assert AddedBack(s.db.products, o, items, 0) == Marked(o, items, 0, map[], map[]);
    } else {
      hide AddedBack, ProductsOf, AddBack;
      ReturnAll(k, start, s, c, o, items, n - 1);
      AddedBackStep(s.db.products, o, items, n - 1);
      ReturnOne(k, start, s, c, AddedBack(s.db.products, o, items, n - 1));
    }
  }

  lemma ReturnOne(k: Config, start: State, s: State, c: CallId, stage: Stage)
    requires c in s.calls && Unlocked(s, c) && stage.Marked? && stage.done < |stage.items|
    requires Reaches(k, start, SetStage(s, c, stage))
    ensures Reaches(k, start, SetStage(s, c, AddBack(s.db.products, stage)))
  {
    hide Reaches, AddBack;
    FollowPayment(k, start, SetStage(s, c, stage), AReturnItem(c), SetStage(s, c, AddBack(s.db.products, stage)));
  }

  lemma SoloRead(k: Config, s: State, c: CallId)
    requires c in s.calls && s.calls[c].stage.Committed?
    requires var o := s.calls[c].stage.order;
      o in s.db.orders && s.db.orders[o].status == Pending
    ensures var o := s.calls[c].stage.order;
      Reaches(k, s, SetStage(s, c, Releasing(o, s.db.orders[o].items)))
  {
    hide Reaches, AddBack;
    var o := s.calls[c].stage.order;
    ReachesItself(k, s);
    FollowPayment(k, s, s, AFailPayment(c), SetStage(s, c, PaymentFailed(o)));
    FollowPayment(k, s, SetStage(s, c, PaymentFailed(o)), AReadForRelease(c), SetStage(s, c, Releasing(o, s.db.orders[o].items)));
  }

  lemma SoloMark(k: Config, s: State, c: CallId)
    requires c in s.calls && s.calls[c].stage.Committed?
    requires var o := s.calls[c].stage.order;
      o in s.db.orders && s.db.orders[o].status == Pending && OrderRowFree(s, o)
    ensures var o := s.calls[c].stage.order;
      Reaches(k, s, SetStage(s, c, Marked(o, s.db.orders[o].items, 0, map[], map[])))
  {
    hide Reaches, AddBack;
    var o := s.calls[c].stage.order;
    var items := s.db.orders[o].items;
    SoloRead(k, s, c);
    FollowPayment(k, s, SetStage(s, c, Releasing(o, items)), AMarkFailed(c), SetStage(s, c, Marked(o, items, 0, map[], map[])));
  }

  /** The state after the compensation of `c` has committed. */
  function Compensated(s: State, c: CallId, o: OrderId): State
    requires c in s.calls && o in s.db.orders
  {
    Answered(s, c, PaymentRefused(o)).(db := Apply(s.db, Release(o)), log := s.log + [Release(o)])
  }

  lemma CommitCompensation(k: Config, start: State, s: State, c: CallId, o: OrderId)
    requires c in s.calls && o in s.db.orders && ProductsOf(s.db.orders[o].items) <= s.db.products.Keys
    requires var items := s.db.orders[o].items;
      Reaches(k, start, SetStage(s, c, AddedBack(s.db.products, o, items, |items|)))
    ensures Reaches(k, start, Compensated(s, c, o))
  {
    var items := s.db.orders[o].items;
    var stage := AddedBack(s.db.products, o, items, |items|);
    assert items[..|items|] == items;
    ReturnedComplete(s.db.products, stage.held, items);
    hide Reaches, AddedBack, Returned;
    FollowPayment(k, start, SetStage(s, c, stage), ACommitRelease(c), Compensated(s, c, o));
  }

  /** From its commit, a call whose payment fails can be compensated with exactly the atomic release. */
  lemma SoloRelease(k: Config, s: State, c: CallId)
    requires c in s.calls && s.calls[c].stage.Committed? && Unlocked(s, c)
    requires var o := s.calls[c].stage.order;
      o in s.db.orders && s.db.orders[o].status == Pending && OrderRowFree(s, o)
      && ProductsOf(s.db.orders[o].items) <= s.db.products.Keys
    ensures Reaches(k, s, Compensated(s, c, s.calls[c].stage.order))
  {
    hide Reaches, Unlocked, ProductsOf, AddedBack, Compensated;
    var o := s.calls[c].stage.order;
    var items := s.db.orders[o].items;
    SoloMark(k, s, c);
    ReturnAll(k, s, s, c, o, items, |items|);
    CommitCompensation(k, s, s, c, o);
  }
}
