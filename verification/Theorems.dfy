/** What holds in every reachable state, and along every run. */
module Theorems {
  import opened Common
  import opened OrderPolicy
  import opened Payments
  import opened Ledger
  import opened Protocol
  import opened Invariant
  import opened Frames
  import opened Preservation

  // ----- Serializability -----

  /** The event a step commits, if it commits one. */
  function EventOf(s: State, a: Action): Option<Event>
  {
    match a
    case ACommitCreate(c) =>
      if c in s.calls && s.calls[c].stage.Inserting?
      then Some(Reserve(s.calls[c].stage.order, s.calls[c].user, s.calls[c].key, s.calls[c].lines)) else None
    case ARecordPayment(c) =>
      if c in s.calls && s.calls[c].stage.PaymentGranted? then Some(Pay(s.calls[c].stage.order, s.calls[c].stage.paid)) else None
    case ACommitRelease(c) =>
      if c in s.calls && s.calls[c].stage.Marked? then Some(Release(s.calls[c].stage.order)) else None
    case ACommitWork(t) =>
      if t in s.tokens then Some(Process(s.tokens[t].copy.message, s.tokens[t].copy.order)) else None
    case _ => None
  }

  /** The step has on the tables exactly the effect of its event, applied alone to the committed tables. */
  ghost predicate Atomic(s: State, e: Option<Event>, s': State)
  {
    match e
    case None => s'.db == s.db && s'.log == s.log
    case Some(e) => Allowed(s.db, e) && s'.db == Apply(s.db, e) && s'.log == s.log + [e]
  }

  lemma ReservationIsAtomic(k: Config, s: State, a: Action, s': State)
    requires Inv(k, s) && ReservationStep(s, a, s')
    ensures Atomic(s, EventOf(s, a), s')
  {
    if a.ACommitCreate? {
      hide Inv, Apply, Allowed;
      CommitIsReserve(k, s, a.c, s');
    } else {
      ReservationFrame(s, a, s');
    }
  }

  lemma PaymentIsAtomic(k: Config, s: State, a: Action, s': State)
    requires Inv(k, s) && PaymentStep(k, s, a, s')
    ensures Atomic(s, EventOf(s, a), s')
  {
    if a.ACommitRelease? {
      hide Inv, Apply, Allowed;
      CommitIsRelease(k, s, a.c, s');
    } else if a.ARecordPayment? {
      hide Inv;
      CallIsGood(k, s, a.c);
    } else {
      hide Inv, AuthorizeIn, AddBack;
    }
  }

  lemma WorkerIsAtomic(k: Config, s: State, a: Action, s': State)
    requires Inv(k, s) && WorkerStep(k, s, a, s')
    ensures Atomic(s, EventOf(s, a), s')
  {
    hide Inv;
    if a.ACommitWork? {
      CommitIsProcess(k, s, a.t, s');
    } else if a.ACommitSeen? {
      CommitSeenNever(k, s, a.t, s');
    }
  }

  lemma StepIsAtomic(k: Config, s: State, a: Action, s': State)
    requires Inv(k, s) && Step(k, s, a, s')
    ensures Atomic(s, EventOf(s, a), s')
  {
    hide Inv, ReservationStep, PaymentStep, WorkerStep, EventOf, Atomic;
    if ReservationStep(s, a, s') {
      ReservationIsAtomic(k, s, a, s');
    } else if PaymentStep(k, s, a, s') {
      PaymentIsAtomic(k, s, a, s');
    } else {
      WorkerIsAtomic(k, s, a, s');
    }
  }

  /** The events committed along a run, in commit order. */
  function Events(states: seq<State>, actions: seq<Action>): seq<Event>
    requires |states| >= |actions|
  {
    if actions == [] then []
    else
      var n := |actions| - 1;
      Events(states, actions[..n]) +
      match EventOf(states[n], actions[n])
      case None => []
      case Some(e) => [e]
  }

  lemma {:induction false} LogIsCommitted(k: Config, states: seq<State>, actions: seq<Action>, n: nat)
    requires RunFromInit(k, states, actions) && n <= |actions|
    ensures states[n].log == Events(states, actions[..n])
    ensures Inv(k, states[n])
  {
    hide Inv, Step, EventOf;
    if n == 0 {
      InitInv(k, states[0]);
    } else {
      LogIsCommitted(k, states, actions, n - 1);
      assert actions[..n][..n - 1] == actions[..n - 1];
      StepIsAtomic(k, states[n - 1], actions[n - 1], states[n]);
      StepKeepsInv(k, states[n - 1], actions[n - 1], states[n]);
    }
  }

  /**
   * Serializability: however the steps of a run interleave, the tables are those obtained by running
   * its committed transactions one at a time, in commit order, each allowed when its turn comes.
   */
  lemma RunIsSerializable(k: Config, states: seq<State>, actions: seq<Action>)
    requires RunFromInit(k, states, actions)
    ensures var events := Events(states, actions);
      Lawful(StartDb(k), events) && states[|actions|].db == Outcome(StartDb(k), events)
  {
    hide Step, Lawful, Outcome;
    assert actions[..|actions|] == actions;
    LogIsCommitted(k, states, actions, |actions|);
  }

  /** The verdict of a plan made under row locks is the verdict on the tables committed at that moment. */
  lemma VerdictIsCurrent(k: Config, s: State, c: CallId, s': State)
    requires Reachable(k, s) && MakePlan(s, c, s')
    ensures var verdict := BuildPlan(s.db.products, s.calls[c].lines);
      s'.calls[c].stage == if verdict.Planned? then Writing(s.calls[c].stage.held, verdict.plan, map[], 0) else Finished(Refused(verdict))
  {
    hide Reachable, Inv, BuildPlan;
    ReachableInv(k, s);
    CallIsGood(k, s, c);
    PlanLocal(s.calls[c].stage.held, s.db.products, s.calls[c].lines);
  }

  // ----- Stock -----

  /** Stock plus the quantities of all orders that have not failed is the initial stock, and stock is never negative. */
  lemma StockIsConserved(k: Config, s: State, p: ProductId)
    requires Reachable(k, s) && p in k.initial
    ensures p in s.db.products
    ensures s.db.products[p].stock + Reserved(s.db.orders, p) == k.initial[p].stock
    ensures s.db.products[p].stock >= 0
  {
    hide Reachable, Inv, Reserved;
    ReachableInv(k, s);
    InvSound(k, s);
    assert StockSoundAt(k.initial, s.db, p);
  }

  // ----- Orders -----

  /** One order per user and key, whatever raced. */
  lemma OneOrderPerKey(k: Config, s: State, a: OrderId, b: OrderId)
    requires Reachable(k, s) && a in s.db.orders && b in s.db.orders
    requires s.db.orders[a].user == s.db.orders[b].user && s.db.orders[a].key == s.db.orders[b].key
    ensures a == b
  {
    hide Reachable, Inv, StockSound, DedupSound;
    ReachableInv(k, s);
    InvSound(k, s);
    assert SameKey(s.db.orders[a], s.db.orders[b]);
  }

  /** Stock is taken at most once for a user and key along a whole run, even when the only order it made has failed. */
  lemma StockTakenOncePerKey(k: Config, states: seq<State>, actions: seq<Action>, i: nat, j: nat)
    requires RunFromInit(k, states, actions)
    requires var events := Events(states, actions);
      i < j < |events| && events[i].Reserve? && events[j].Reserve?
    ensures var events := Events(states, actions);
      events[i].user != events[j].user || events[i].key != events[j].key
  {
    hide Step, Events, Lawful, Outcome;
    RunIsSerializable(k, states, actions);
    ReservedOnce(StartDb(k), Events(states, actions), i, j);
  }

  /** Failed and processed are terminal: along a run an order leaves pending at most once, and keeps its items and payment. */
  lemma {:induction false} OrderOnlySettles(k: Config, states: seq<State>, actions: seq<Action>, i: nat, j: nat, o: OrderId)
    requires RunFromInit(k, states, actions) && i <= j <= |actions| && o in states[i].db.orders
    ensures o in states[j].db.orders
    ensures var (before, after) := (states[i].db.orders[o], states[j].db.orders[o]);
      && after.user == before.user && after.key == before.key && after.items == before.items
      && (before.status != Pending ==> after.status == before.status)
      && (before.payment.Some? ==> after.payment == before.payment)
    decreases j - i
  {
    hide Step, Inv, Allowed, Apply, EventOf;
    if i < j {
      OrderOnlySettles(k, states, actions, i, j - 1, o);
      LogIsCommitted(k, states, actions, j - 1);
      StepIsAtomic(k, states[j - 1], actions[j - 1], states[j]);
      if EventOf(states[j - 1], actions[j - 1]).Some? {
        EventKeepsOrder(states[j - 1].db, EventOf(states[j - 1], actions[j - 1]).value, o);
      }
    }
  }

  /** Along a run each order is settled once: processed once, or released once, never both. */
  lemma OrderSettledOnce(k: Config, states: seq<State>, actions: seq<Action>, i: nat, j: nat, o: OrderId)
    requires RunFromInit(k, states, actions)
    requires i < j < |Events(states, actions)| && Settles(Events(states, actions)[i], o)
    ensures !Settles(Events(states, actions)[j], o)
  {
    hide Step, Events, Lawful, Outcome;
    RunIsSerializable(k, states, actions);
    SettledOnce(StartDb(k), Events(states, actions), i, j, o);
  }

  // ----- Messages -----

  /**
   * Every copy anywhere, queued or in flight, names an existing paid order that has not failed;
   * all copies of a message name the same order and all copies for an order carry the same message.
   */
  lemma CopiesNamePaidOrders(k: Config, s: State, t: TokenId, u: TokenId)
    requires Reachable(k, s) && t in s.tokens && u in s.tokens
    ensures var o := s.tokens[t].copy.order;
      o in s.db.orders && s.db.orders[o].payment.Some? && s.db.orders[o].status != Failed
    ensures s.tokens[t].copy.message == s.tokens[u].copy.message <==> s.tokens[t].copy.order == s.tokens[u].copy.order
  {
    hide Reachable, CallsInv, StoreInv, WireInv, AskInv, LogInv, CarriedInv;
    ReachableInv(k, s);
    assert GoodToken(k, s.db.processed, s.published, s.tokens[t]);
    assert GoodToken(k, s.db.processed, s.published, s.tokens[u]);
  }

  /** While a call still has its order's payment to settle, no copy of a message for that order exists anywhere. */
  lemma OpenOrdersHaveNoCopies(k: Config, s: State, c: CallId, t: TokenId)
    requires Reachable(k, s) && c in s.calls && t in s.tokens
    requires Claimed(s.calls[c].stage).Some?
    ensures s.tokens[t].copy.order != Claimed(s.calls[c].stage).value
  {
    hide Reachable, StoreInv, WireInv, AskInv, LogInv, CarriedInv, WorkOk, HeldOk, Compatible;
    ReachableInv(k, s);
    assert GoodToken(k, s.db.processed, s.published, s.tokens[t]);
    assert GoodCall(s.db, s.published, s.calls[c]);
  }

  /**
   * Exactly-once effect: the processed orders are exactly the orders named in processed_messages, one
   * row each, and every row is for a message published for that order.
   */
  lemma ProcessedMatchesDedup(k: Config, s: State)
    requires Reachable(k, s)
    ensures forall o :: o in s.db.orders ==> (s.db.orders[o].status == Processed <==> o in s.db.processed.Values)
    ensures forall m, n :: m in s.db.processed && n in s.db.processed && s.db.processed[m] == s.db.processed[n] ==> m == n
    ensures forall m :: m in s.db.processed ==> m in s.published && s.published[m] == s.db.processed[m]
  {
    hide Reachable, CallsInv, StoreInv, WireInv, AskInv, LogInv, CarriedInv, TokensInv, StockSound, OrdersSound;
    ReachableInv(k, s);
    InvSound(k, s);
  }

  /** The worker's branch for an order that was already processed is never taken. */
  lemma AlreadyProcessedNeverSeen(k: Config, s: State, t: TokenId, s': State)
    requires Reachable(k, s)
    ensures !CommitSeen(s, t, s')
  {
    hide Reachable, Inv;
    ReachableInv(k, s);
    CommitSeenNever(k, s, t, s');
  }

  /** A call is never answered "Duplicate idempotency key". */
  lemma DuplicateKeyNeverAnswered(k: Config, s: State, c: CallId)
    requires Reachable(k, s) && c in s.calls
    ensures s.calls[c].stage != Finished(DuplicateKey)
  {
    hide Reachable, Inv, WorkOk, HeldOk, SilentOk, Compatible;
    ReachableInv(k, s);
    CallIsGood(k, s, c);
  }

  lemma {:induction false} PublishedForever(k: Config, states: seq<State>, actions: seq<Action>, i: nat, j: nat, m: MessageId)
    requires Run(k, states, actions) && i <= j <= |actions| && m in states[i].published
    ensures m in states[j].published && states[j].published[m] == states[i].published[m]
    decreases j - i
  {
    hide Step;
    if i < j {
      PublishedForever(k, states, actions, i, j - 1, m);
      StepKeepsPublished(k, states[j - 1], actions[j - 1], states[j], m);
    }
  }

  lemma StepKeepsPublished(k: Config, s: State, a: Action, s': State, m: MessageId)
    requires Step(k, s, a, s') && m in s.published
    ensures m in s'.published && s'.published[m] == s.published[m]
  {
    hide ReservationStep, PaymentStep, WorkerStep;
    if ReservationStep(s, a, s') {
      ReservationFrame(s, a, s');
    } else if PaymentStep(k, s, a, s') {
      PaymentKeepsPublished(k, s, a, s', m);
    } else {
      WorkerFrame(k, s, a, s');
    }
  }

  lemma PaymentKeepsPublished(k: Config, s: State, a: Action, s': State, m: MessageId)
    requires PaymentStep(k, s, a, s') && m in s.published
    ensures m in s'.published && s'.published[m] == s.published[m]
  {
    hide AuthorizeIn, AddBack, OrderRowFree, RowFree;
  }

  /** No message is lost: once published, ever after its row is committed or a live copy is queued, waiting, in flight or dead-lettered. */
  lemma NoMessageIsLost(k: Config, states: seq<State>, actions: seq<Action>, i: nat, j: nat, m: MessageId)
    requires RunFromInit(k, states, actions) && i <= j <= |actions| && m in states[i].published
    ensures Carried(states[j].db.processed, states[j].tokens, m)
  {
    hide Step, CallsInv, StoreInv, WireInv, AskInv, LogInv, MessagesInv, TokensInv, Carried;
    PublishedForever(k, states, actions, i, j, m);
    LogIsCommitted(k, states, actions, j);
  }

  /** Attempts never exceed the limit, and only exhausted copies are dead-lettered. */
  lemma AttemptsAreBounded(k: Config, s: State, t: TokenId)
    requires Reachable(k, s) && t in s.tokens
    ensures s.tokens[t].copy.attempt <= Limit(k)
    ensures s.tokens[t].place.DeadLetters? ==> s.tokens[t].copy.attempt == Limit(k)
  {
    hide Reachable, CallsInv, StoreInv, WireInv, AskInv, LogInv, CarriedInv, MessagesInv;
    ReachableInv(k, s);
    assert GoodToken(k, s.db.processed, s.published, s.tokens[t]);
  }

  // ----- Payments -----

  /**
   * Payment agreement: a processed order carries the id of an authorized record of the payments
   * store, made for an order with the same idempotency key and for what that order's items cost.
   * The order that the record names has an owner of its own; whether it is this order was decided when
   * the request was handled (Agreement).
   */
  lemma ProcessedOrdersArePaid(k: Config, s: State, o: OrderId)
    requires Reachable(k, s) && o in s.db.orders && s.db.orders[o].status == Processed
    ensures s.db.orders[o].payment.Some?
    ensures var paid := s.db.orders[o].payment.value;
      && paid.id in s.store.byId && paid.status == Authorized
      && var rec := s.store.byId[paid.id];
         && rec.status == Authorized
         && rec.order in s.db.orders && s.db.orders[rec.order].key == s.db.orders[o].key
         && rec.amountCents == Amount(s.db.orders[rec.order].items)
         && (rec.order == o <==> s.db.orders[rec.order].user == s.db.orders[o].user)
  {
    hide Reachable, CallsInv, WireInv, AskInv, LogInv, CarriedInv, TokensInv, MessagesInv, StockSound, DedupSound, Amount;
    ReachableInv(k, s);
    InvSound(k, s);
    var paid := s.db.orders[o].payment.value;
    assert PaidBy(s.store, s.db.orders[o].key, paid);
    var rec := s.store.byId[paid.id];
    assert Priced(s.db.orders, s.db.orders[o].key, rec.order, rec.amountCents);
    assert s.db.orders[rec.order].user == s.db.orders[o].user ==> SameKey(s.db.orders[rec.order], s.db.orders[o]);
  }

  /** When no other user shares the order's key, the record names the order and its amount is what the order's items cost. */
  lemma PaymentNamesItsOrder(k: Config, s: State, o: OrderId)
    requires Reachable(k, s) && o in s.db.orders && s.db.orders[o].status == Processed
    requires forall b :: b in s.db.orders && s.db.orders[b].key == s.db.orders[o].key ==> s.db.orders[b].user == s.db.orders[o].user
    ensures s.db.orders[o].payment.Some? && s.db.orders[o].payment.value.id in s.store.byId
    ensures var rec := s.store.byId[s.db.orders[o].payment.value.id];
      rec.order == o && rec.amountCents == Amount(s.db.orders[o].items)
  {
    hide Reachable, Amount;
    ProcessedOrdersArePaid(k, s, o);
  }
}
