/** Which order the payment of an order names: decided when the payments service handles its request. */
module Agreement {
  import opened Common
  import opened OrderPolicy
  import opened Payments
  import opened Ledger
  import opened Protocol
  import opened Invariant
  import opened Frames
  import opened Preservation
  import opened Theorems

  // ----- One request -----

  /** The payment answered to a request was made for the order that asks exactly when the store does not know its key yet. */
  lemma AnswerNamesOrderWhenKeyIsNew(k: Config, s: State, c: CallId, id: PaymentId, s': State)
    requires Reachable(k, s) && ServeAuthorize(s, c, id, s')
    ensures var (p, a) := (s'.responses[c].id, s.requests[c]);
      && p in s'.store.byId
      && (s'.store.byId[p].order == a.order <==> a.key !in s.store.byKey)
      && (a.key !in s.store.byKey ==> s'.store.byId[p].amountCents == a.amountCents)
  {
    hide Reachable;
    ReachableInv(k, s);
    ServedAnswer(k, s, c, id);
  }

  lemma ServedAnswer(k: Config, s: State, c: CallId, id: PaymentId)
    requires Inv(k, s) && c in s.requests && id !in s.store.byId
    ensures var (a, (store, rec)) := (s.requests[c], AuthorizeIn(s.store, s.requests[c], id));
      && rec.id in store.byId && store.byId[rec.id] == rec
      && a.key in store.byKey && store.byKey[a.key] == rec.id
      && (rec.order == a.order <==> a.key !in s.store.byKey)
      && (a.key !in s.store.byKey ==> rec.amountCents == a.amountCents)
  {
    hide CallsInv, LogInv, MessagesInv, TokensInv, CarriedInv, AskOk, GrantOk, Priced, PaidBy;
    AuthorizeKeepsValid(s.store, s.requests[c], id);
    assert Unrecorded(s.store, s.requests[c].order);
  }

  // ----- The store along a run -----

  ghost predicate Extends(after: Records, before: Records)
  {
    && (forall p :: p in before.byId ==> p in after.byId && after.byId[p] == before.byId[p])
    && (forall key :: key in before.byKey ==> key in after.byKey && after.byKey[key] == before.byKey[key])
  }

  lemma StoreStep(k: Config, s: State, a: Action, s': State)
    requires Inv(k, s) && Step(k, s, a, s')
    ensures Extends(s'.store, s.store)
  {
    hide Inv, ReservationStep, PaymentStep, WorkerStep;
    if ReservationStep(s, a, s') {
      ReservationFrame(s, a, s');
    } else if PaymentStep(k, s, a, s') {
      PaymentExtendsStore(k, s, a, s');
    } else {
      WorkerFrame(k, s, a, s');
    }
  }

  lemma PaymentExtendsStore(k: Config, s: State, a: Action, s': State)
    requires Inv(k, s) && PaymentStep(k, s, a, s')
    ensures Extends(s'.store, s.store)
  {
    hide Inv, AddBack, OrderRowFree, RowFree, AuthorizeIn;
    if a.AServeAuthorize? {
      StoreIsValid(k, s);
      AuthorizeKeepsValid(s.store, s.requests[a.c], a.id);
    }
  }

  lemma StoreIsValid(k: Config, s: State)
    requires Inv(k, s)
    ensures s.store.Valid()
  {
    hide CallsInv, LogInv, MessagesInv, TokensInv, CarriedInv, WireInv, AskInv;
  }

  /** Along a run payment records and their keys are only added. */
  lemma {:induction false} StorePersists(k: Config, states: seq<State>, actions: seq<Action>, i: nat, j: nat)
    requires RunFromInit(k, states, actions) && i <= j <= |actions|
    ensures Extends(states[j].store, states[i].store)
    decreases j - i
  {
    hide Step, Inv;
    if i < j {
      StorePersists(k, states, actions, i, j - 1);
      LogIsCommitted(k, states, actions, j - 1);
      StoreStep(k, states[j - 1], actions[j - 1], states[j]);
    }
  }

  // ----- The order a payment names -----

  /** At step `m` the payments service handles the request for order `o`. */
  ghost predicate Serves(states: seq<State>, actions: seq<Action>, m: nat, o: OrderId)
  {
    && m < |actions| && m < |states| && actions[m].AServeAuthorize?
    && actions[m].c in states[m].requests && states[m].requests[actions[m].c].order == o
  }

  /** The store does not know the key of the request handled at step `m`. */
  ghost predicate KeyIsNew(states: seq<State>, actions: seq<Action>, m: nat)
    requires m < |actions| && m < |states| && actions[m].AServeAuthorize? && actions[m].c in states[m].requests
  {
    states[m].requests[actions[m].c].key !in states[m].store.byKey
  }

  /** The order is paid, with a recorded payment that was made for this very order. */
  ghost predicate NamesItself(s: State, o: OrderId)
  {
    && o in s.db.orders && s.db.orders[o].payment.Some?
    && s.db.orders[o].payment.value.id in s.store.byId
    && s.store.byId[s.db.orders[o].payment.value.id].order == o
  }

  lemma PaidUnderKey(k: Config, s: State, o: OrderId)
    requires Inv(k, s) && o in s.db.orders && s.db.orders[o].payment.Some?
    ensures var key := s.db.orders[o].key; key in s.store.byKey && s.store.byKey[key] == s.db.orders[o].payment.value.id
  {
    hide CallsInv, LogInv, MessagesInv, TokensInv, CarriedInv, WireInv, AskInv, Priced;
  }

  lemma RequestKey(k: Config, s: State, c: CallId)
    requires Inv(k, s) && c in s.requests
    ensures s.requests[c].order in s.db.orders && s.db.orders[s.requests[c].order].key == s.requests[c].key
  {
    hide CallsInv, LogInv, MessagesInv, TokensInv, CarriedInv, StoreInv, AskInv, GrantOk;
  }

  /**
   * The payment an order ends up with was made for this very order exactly when its key was new to the
   * payments service at the moment its request was handled.
   */
  lemma PaymentNamesOrderWhenKeyIsNew(k: Config, states: seq<State>, actions: seq<Action>, m: nat, n: nat, o: OrderId)
    requires RunFromInit(k, states, actions) && m < n <= |actions| && Serves(states, actions, m, o)
    requires o in states[n].db.orders && states[n].db.orders[o].payment.Some?
    ensures NamesItself(states[n], o) <==> KeyIsNew(states, actions, m)
  {
    hide Inv, Reachable, AuthorizeIn, ReservationStep, WorkerStep, Extends;
    var c, id := actions[m].c, actions[m].id;
    LogIsCommitted(k, states, actions, m);
    LogIsCommitted(k, states, actions, n);
    ServeStep(k, states[m], c, id, states[m + 1]);
    ServedAnswer(k, states[m], c, id);
    RequestKey(k, states[m], c);
    OrderOnlySettles(k, states, actions, m, n, o);
    PaidUnderKey(k, states[n], o);
    StorePersists(k, states, actions, m + 1, n);
    ExtendsAt(states[n].store, states[m + 1].store, states[m].requests[c].key, states[m + 1].responses[c].id);
  }

  lemma ServeStep(k: Config, s: State, c: CallId, id: PaymentId, s': State)
    requires Step(k, s, AServeAuthorize(c, id), s')
    ensures ServeAuthorize(s, c, id, s')
  {
    hide ServeAuthorize;
  }

  lemma ExtendsAt(after: Records, before: Records, key: Key, p: PaymentId)
    requires Extends(after, before) && key in before.byKey && p in before.byId
    ensures key in after.byKey && after.byKey[key] == before.byKey[key]
    ensures p in after.byId && after.byId[p] == before.byId[p]
  {}

  // ----- Every paid order had its request handled -----

  ghost function Newly(s: State, a: Action): set<OrderId>
  {
    if a.AServeAuthorize? && a.c in s.requests then {s.requests[a.c].order} else {}
  }

  /** The orders whose requests were handled in the first `n` steps. */
  ghost function Served(states: seq<State>, actions: seq<Action>, n: nat): set<OrderId>
    requires n <= |actions| && n <= |states|
  {
    if n == 0 then {} else Served(states, actions, n - 1) + Newly(states[n - 1], actions[n - 1])
  }

  lemma {:induction false} ServedAt(states: seq<State>, actions: seq<Action>, n: nat, o: OrderId)
    requires n <= |actions| && n <= |states| && o in Served(states, actions, n)
    ensures exists m: nat :: m < n && Serves(states, actions, m, o)
  {
    if o in Newly(states[n - 1], actions[n - 1]) {
      assert Serves(states, actions, n - 1, o);
    } else {
      ServedAt(states, actions, n - 1, o);
    }
  }

  ghost predicate CallBacked(served: set<OrderId>, answered: bool, stage: Stage)
  {
    && (stage.Authorizing? && answered ==> stage.order in served)
    && (stage.PaymentGranted? || stage.PaymentRecorded? ==> stage.order in served)
  }

  ghost predicate PaidAreServed(orders: map<OrderId, Order>, served: set<OrderId>)
  {
    forall o :: o in orders && orders[o].payment.Some? ==> o in served
  }

  /** No call has a payment, and no order carries one, that was not asked for that order. */
  ghost predicate Backed(s: State, served: set<OrderId>)
  {
    && (forall c :: c in s.calls ==> CallBacked(served, c in s.responses, s.calls[c].stage))
    && PaidAreServed(s.db.orders, served)
  }

  lemma BackedReservation(s: State, a: Action, s': State, served: set<OrderId>)
    requires ReservationStep(s, a, s') && Backed(s, served)
    ensures Backed(s', served)
  {
    hide ReservationStep;
    ReservationFrame(s, a, s');
    ReservationTouchesOne(s, a, s');
    ReservationStage(s, a, s');
    ReservationPaysNothing(s, a, s', served);
  }

  lemma ReservationPaysNothing(s: State, a: Action, s': State, served: set<OrderId>)
    requires ReservationStep(s, a, s') && PaidAreServed(s.db.orders, served)
    ensures PaidAreServed(s'.db.orders, served)
  {
    if !a.ACommitCreate? {
      hide ReservationStep;
      ReservationFrame(s, a, s');
    }
  }

  lemma BackedPayment(k: Config, s: State, a: Action, s': State, served: set<OrderId>)
    requires Inv(k, s) && PaymentStep(k, s, a, s') && Backed(s, served)
    ensures Backed(s', served + Newly(s, a))
  {
    hide Inv, PaymentStep, CallBacked, PaidAreServed, Newly;
    CallsStayBacked(k, s, a, s', served);
    PaidStayServed(k, s, a, s', served);
  }

  lemma CallsStayBacked(k: Config, s: State, a: Action, s': State, served: set<OrderId>)
    requires Inv(k, s) && PaymentStep(k, s, a, s')
    requires forall c :: c in s.calls ==> CallBacked(served, c in s.responses, s.calls[c].stage)
    ensures forall c :: c in s'.calls ==> CallBacked(served + Newly(s, a), c in s'.responses, s'.calls[c].stage)
  {
    hide Inv, CallBacked, SendAuthorize, ServeAuthorize, ReceivePayment, FailPayment, ReadForRelease, MarkFailed, ReturnItem, CommitRelease, RecordPayment, Publish, Abort;
    PaymentTouchesOne(k, s, a, s');
    forall c | c in s'.calls
      ensures CallBacked(served + Newly(s, a), c in s'.responses, s'.calls[c].stage)
    {
      if c == a.c {
        CallStaysBacked(k, s, a, s', served);
      } else {
        MoreBacked(served, Newly(s, a), c in s.responses, s.calls[c].stage);
      }
    }
  }

  lemma MoreBacked(served: set<OrderId>, more: set<OrderId>, answered: bool, stage: Stage)
    requires CallBacked(served, answered, stage)
    ensures CallBacked(served + more, answered, stage)
  {}

  lemma CallStaysBacked(k: Config, s: State, a: Action, s': State, served: set<OrderId>)
    requires Inv(k, s) && PaymentStep(k, s, a, s') && a.c in s.calls && a.c in s'.calls
    requires CallBacked(served, a.c in s.responses, s.calls[a.c].stage)
    ensures CallBacked(served + Newly(s, a), a.c in s'.responses, s'.calls[a.c].stage)
  {
    hide Inv, AuthorizeIn, OrderRowFree, RowFree, Unrecorded, Unrequested;
    EarlyIsSilent(k, s, a.c);
  }

  lemma PaidStayServed(k: Config, s: State, a: Action, s': State, served: set<OrderId>)
    requires PaymentStep(k, s, a, s') && PaidAreServed(s.db.orders, served)
    requires a.c in s.calls ==> CallBacked(served, a.c in s.responses, s.calls[a.c].stage)
    ensures PaidAreServed(s'.db.orders, served + Newly(s, a))
  {
    hide AddBack, AuthorizeIn, OrderRowFree, RowFree;
  }

  lemma BackedWorker(k: Config, s: State, a: Action, s': State, served: set<OrderId>)
    requires WorkerStep(k, s, a, s') && Backed(s, served)
    ensures Backed(s', served)
  {
    hide OrderRowFree, MessageUnclaimed, Republished, Count;
  }

  lemma BackedStep(k: Config, s: State, a: Action, s': State, served: set<OrderId>)
    requires Inv(k, s) && Step(k, s, a, s') && Backed(s, served)
    ensures Backed(s', served + Newly(s, a))
  {
    hide Inv, ReservationStep, PaymentStep, WorkerStep, Backed;
    if ReservationStep(s, a, s') {
      BackedReservation(s, a, s', served);
      BackedMore(s', served, Newly(s, a));
    } else if PaymentStep(k, s, a, s') {
      BackedPayment(k, s, a, s', served);
    } else {
      BackedWorker(k, s, a, s', served);
      BackedMore(s', served, Newly(s, a));
    }
  }

  lemma BackedMore(s: State, served: set<OrderId>, more: set<OrderId>)
    requires Backed(s, served)
    ensures Backed(s, served + more)
  {}

  lemma {:induction false} RunIsBacked(k: Config, states: seq<State>, actions: seq<Action>, n: nat)
    requires RunFromInit(k, states, actions) && n <= |actions|
    ensures Backed(states[n], Served(states, actions, n))
  {
    hide Step, Inv;
    if n > 0 {
      hide Backed, Newly;
      RunIsBacked(k, states, actions, n - 1);
      LogIsCommitted(k, states, actions, n - 1);
      BackedStep(k, states[n - 1], actions[n - 1], states[n], Served(states, actions, n - 1));
    }
  }

  /**
   * Payment agreement: the request of every paid order was handled by the payments service, and the
   * order's payment was made for this very order exactly when its key was new to the service then.
   */
  lemma PaidOrderWasServed(k: Config, states: seq<State>, actions: seq<Action>, n: nat, o: OrderId)
    requires RunFromInit(k, states, actions) && n <= |actions|
    requires o in states[n].db.orders && states[n].db.orders[o].payment.Some?
    ensures exists m: nat :: m < n && Serves(states, actions, m, o) && (NamesItself(states[n], o) <==> KeyIsNew(states, actions, m))
  {
    hide Step, Serves, NamesItself, KeyIsNew, Served;
    RunIsBacked(k, states, actions, n);
    ServedAt(states, actions, n, o);
    var m: nat :| m < n && Serves(states, actions, m, o);
    PaymentNamesOrderWhenKeyIsNew(k, states, actions, m, n, o);
  }

  // ----- What is recorded -----

  /** Every request and every record is in the configured currency, and every record is authorized. */
  ghost predicate InCurrency(currency: string, requests: map<CallId, Authorization>, store: Records)
  {
    && (forall c :: c in requests ==> requests[c].currency == currency)
    && (forall p :: p in store.byId ==> store.byId[p].currency == currency && store.byId[p].status == Authorized)
  }

  lemma CurrencyStep(k: Config, s: State, a: Action, s': State)
    requires Inv(k, s) && Step(k, s, a, s') && InCurrency(k.currency, s.requests, s.store)
    ensures InCurrency(k.currency, s'.requests, s'.store)
  {
    hide Inv, ReservationStep, PaymentStep, WorkerStep, InCurrency;
    if ReservationStep(s, a, s') {
      ReservationFrame(s, a, s');
    } else if PaymentStep(k, s, a, s') {
      CurrencyPayment(k, s, a, s');
    } else {
      WorkerFrame(k, s, a, s');
    }
  }

  lemma CurrencyPayment(k: Config, s: State, a: Action, s': State)
    requires PaymentStep(k, s, a, s') && InCurrency(k.currency, s.requests, s.store)
    ensures InCurrency(k.currency, s'.requests, s'.store)
  {
    hide AddBack, OrderRowFree, RowFree;
  }

  lemma {:induction false} RunInCurrency(k: Config, states: seq<State>, actions: seq<Action>, n: nat)
    requires RunFromInit(k, states, actions) && n <= |actions|
    ensures InCurrency(k.currency, states[n].requests, states[n].store)
  {
    hide Step, Inv;
    if n > 0 {
      hide InCurrency;
      RunInCurrency(k, states, actions, n - 1);
      LogIsCommitted(k, states, actions, n - 1);
      CurrencyStep(k, states[n - 1], actions[n - 1], states[n]);
    }
  }

  /** Every payment record of a reachable state is authorized and in the configured currency. */
  lemma RecordsAreInCurrency(k: Config, s: State, p: PaymentId)
    requires Reachable(k, s) && p in s.store.byId
    ensures s.store.byId[p].currency == k.currency && s.store.byId[p].status == Authorized && s.store.byId[p].id == p
  {
    hide Step, Init, Inv;
    ReachableInv(k, s);
    StoreIsValid(k, s);
    var states, actions :| RunFromInit(k, states, actions) && s == states[|actions|];
    RunInCurrency(k, states, actions, |actions|);
  }
}
