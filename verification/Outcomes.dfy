/** What a finished createOrder call has and has not done to the system. */
module Outcomes {
  import opened Common
  import opened OrderPolicy
  import opened Ledger
  import opened Protocol
  import opened Invariant
  import opened Frames
  import opened Preservation
  import opened Theorems

  /** The action is a step of call `c` itself. */
  predicate By(a: Action, c: CallId)
  {
    match a
    case ABegin(d, _, _, _) => d == c
    case ACheckUser(d) => d == c
    case AFindExisting(d, _) => d == c
    case AMissExisting(d) => d == c
    case ALockRow(d, _) => d == c
    case AMakePlan(d) => d == c
    case AWriteRow(d) => d == c
    case AInsertOrder(d, _) => d == c
    case AHitUniqueKey(d) => d == c
    case AInsertItem(d) => d == c
    case ACommitCreate(d) => d == c
    case AResolve(d, _) => d == c
    case AResolveNone(d) => d == c
    case ASendAuthorize(d) => d == c
    case AReceivePayment(d) => d == c
    case AFailPayment(d) => d == c
    case AReadForRelease(d) => d == c
    case AMarkFailed(d) => d == c
    case AReturnItem(d) => d == c
    case ACommitRelease(d) => d == c
    case ARecordPayment(d) => d == c
    case APublish(d, _, _) => d == c
    case AAbort(d) => d == c
    case _ => false
  }

  /** Nothing outside the call's own stage has changed: no row, no order, no copy, no request, no record. */
  ghost predicate NoTrace(s: State, s': State)
  {
    s' == s.(calls := s'.calls)
  }

  /** The call has committed its reservation, or a crash has hidden whether it did. */
  predicate Beyond(stage: Stage)
  {
    || (Claimed(stage).Some? && !stage.Inserting?)
    || (stage.Finished? && (stage.result.Created? || stage.result.PaymentRefused? || stage.result.Aborted?))
  }

  /** Once beyond its commit, a call stays so; a step of its own that leaves a trace puts it there. */
  lemma ReservationBeyond(s: State, a: Action, s': State, c: CallId)
    requires ReservationStep(s, a, s')
    ensures c in s.calls && Beyond(s.calls[c].stage) ==> c in s'.calls && Beyond(s'.calls[c].stage)
    ensures By(a, c) && !NoTrace(s, s') ==> c in s'.calls && Beyond(s'.calls[c].stage)
  {
    hide ReservationStep;
    ReservationFrame(s, a, s');
    ReservationTouchesOne(s, a, s');
    ReservationStage(s, a, s');
  }

  lemma PaymentBeyond(k: Config, s: State, a: Action, s': State, c: CallId)
    requires PaymentStep(k, s, a, s')
    ensures c in s.calls && Beyond(s.calls[c].stage) ==> c in s'.calls && Beyond(s'.calls[c].stage)
    ensures By(a, c) && !NoTrace(s, s') ==> c in s'.calls && Beyond(s'.calls[c].stage)
  {
    hide Payments.AuthorizeIn, OrderRowFree, RowFree;
  }

  lemma StepBeyond(k: Config, s: State, a: Action, s': State, c: CallId)
    requires Step(k, s, a, s')
    ensures c in s.calls && Beyond(s.calls[c].stage) ==> c in s'.calls && Beyond(s'.calls[c].stage)
    ensures By(a, c) && !NoTrace(s, s') ==> c in s'.calls && Beyond(s'.calls[c].stage)
  {
    hide ReservationStep, PaymentStep, Beyond, NoTrace;
    if ReservationStep(s, a, s') {
      ReservationBeyond(s, a, s', c);
    } else if PaymentStep(k, s, a, s') {
      PaymentBeyond(k, s, a, s', c);
    }
  }

  lemma {:induction false} TraceMeansBeyond(k: Config, states: seq<State>, actions: seq<Action>, c: CallId, j: nat, i: nat)
    requires Run(k, states, actions) && j < i <= |actions|
    requires By(actions[j], c) && !NoTrace(states[j], states[j + 1])
    ensures c in states[i].calls && Beyond(states[i].calls[c].stage)
    decreases i - j
  {
    hide Step, Beyond, NoTrace, By;
    StepBeyond(k, states[i - 1], actions[i - 1], states[i], c);
    if j < i - 1 {
      TraceMeansBeyond(k, states, actions, c, j, i - 1);
    }
  }

  /**
   * A call that answers without an order of its own (bad request, unknown user, refused plan, reused
   * order) has changed nothing: none of its steps left any trace outside the call itself.
   */
  lemma AnswerWithoutOrderLeavesNoTrace(k: Config, states: seq<State>, actions: seq<Action>, c: CallId, i: nat)
    requires Run(k, states, actions) && i <= |actions| && c in states[i].calls
    requires states[i].calls[c].stage.Finished? && !Beyond(states[i].calls[c].stage)
    ensures forall j :: 0 <= j < i && By(actions[j], c) ==> NoTrace(states[j], states[j + 1])
  {
    hide Step, NoTrace, By;
    forall j | 0 <= j < i && By(actions[j], c)
      ensures NoTrace(states[j], states[j + 1])
    {
      if !NoTrace(states[j], states[j + 1]) {
        TraceMeansBeyond(k, states, actions, c, j, i);
      }
    }
  }

  // ----- Calls that never commit, whether they end, crash or are still open -----

  /** The action is a step of call `c`, or the payments service acting on its behalf. */
  predicate For(a: Action, c: CallId)
  {
    By(a, c) || (a.AServeAuthorize? && a.c == c)
  }

  /** The call has no order in the tables and has asked for no payment. */
  ghost predicate Uncommitted(s: State, c: CallId)
  {
    && c !in s.requests
    && (c in s.calls ==> Claimed(s.calls[c].stage) == None || s.calls[c].stage.Inserting?)
  }

  lemma UncommittedReservation(s: State, a: Action, s': State, c: CallId)
    requires ReservationStep(s, a, s') && a != ACommitCreate(c) && Uncommitted(s, c)
    ensures Uncommitted(s', c) && (For(a, c) ==> NoTrace(s, s'))
  {
    hide ReservationStep;
    ReservationFrame(s, a, s');
    ReservationTouchesOne(s, a, s');
    ReservationStage(s, a, s');
  }

  lemma UncommittedPayment(k: Config, s: State, a: Action, s': State, c: CallId)
    requires PaymentStep(k, s, a, s') && Uncommitted(s, c)
    ensures Uncommitted(s', c) && (For(a, c) ==> NoTrace(s, s'))
  {
    hide Payments.AuthorizeIn, OrderRowFree, RowFree;
  }

  lemma UncommittedWorker(k: Config, s: State, a: Action, s': State, c: CallId)
    requires WorkerStep(k, s, a, s') && Uncommitted(s, c)
    ensures Uncommitted(s', c) && !For(a, c)
  {
    hide OrderRowFree, MessageUnclaimed, Republished, Count;
  }

  lemma UncommittedStep(k: Config, s: State, a: Action, s': State, c: CallId)
    requires Step(k, s, a, s') && a != ACommitCreate(c) && Uncommitted(s, c)
    ensures Uncommitted(s', c) && (For(a, c) ==> NoTrace(s, s'))
  {
    hide ReservationStep, PaymentStep, WorkerStep, Uncommitted, NoTrace, For;
    if ReservationStep(s, a, s') {
      UncommittedReservation(s, a, s', c);
    } else if PaymentStep(k, s, a, s') {
      UncommittedPayment(k, s, a, s', c);
    } else {
      UncommittedWorker(k, s, a, s', c);
    }
  }

  lemma {:induction false} UncommittedStays(k: Config, states: seq<State>, actions: seq<Action>, c: CallId, n: nat)
    requires Run(k, states, actions) && n <= |actions| && Uncommitted(states[0], c)
    requires forall j :: 0 <= j < n ==> actions[j] != ACommitCreate(c)
    ensures Uncommitted(states[n], c)
  {
    hide Step, Uncommitted;
    if n > 0 {
      UncommittedStays(k, states, actions, c, n - 1);
      UncommittedStep(k, states[n - 1], actions[n - 1], states[n], c);
    }
  }

  /**
   * A call that has not committed its reservation, whether it was answered, rolled back by an error, a
   * crash or a deadlock at any point, or is still open, has left no trace: each step taken by it or for it
   * changed nothing but its own progress.
   */
  lemma UncommittedCallLeavesNoTrace(k: Config, states: seq<State>, actions: seq<Action>, c: CallId, i: nat)
    requires RunFromInit(k, states, actions) && i <= |actions|
    requires forall j :: 0 <= j < i ==> actions[j] != ACommitCreate(c)
    ensures forall j :: 0 <= j < i && For(actions[j], c) ==> NoTrace(states[j], states[j + 1])
  {
    hide Step, NoTrace, For;
    forall j | 0 <= j < i && For(actions[j], c)
      ensures NoTrace(states[j], states[j + 1])
    {
      UncommittedStays(k, states, actions, c, j);
      UncommittedStep(k, states[j], actions[j], states[j + 1], c);
    }
  }

  /**
   * A call whose payment failed and whose compensation committed leaves exactly one order for its user
   * and key: failed, unpaid, with no message published for it and no copy anywhere.
   */
  lemma RefusedPaymentLeavesOneFailedOrder(k: Config, s: State, c: CallId, o: OrderId)
    requires Reachable(k, s) && c in s.calls && s.calls[c].stage == Finished(PaymentRefused(o))
    ensures forall b :: b in s.db.orders ==>
      (s.db.orders[b].user == s.calls[c].user && s.db.orders[b].key == s.calls[c].key <==> b == o)
    ensures o in s.db.orders && s.db.orders[o].status == Failed && s.db.orders[o].payment == None
    ensures forall m :: m in s.published ==> s.published[m] != o
    ensures forall t :: t in s.tokens ==> s.tokens[t].copy.order != o
  {
    hide Reachable, Inv;
    ReachableInv(k, s);
    CallIsGood(k, s, c);
    forall b | b in s.db.orders && s.db.orders[b].user == s.calls[c].user && s.db.orders[b].key == s.calls[c].key
      ensures b == o
    {
      OneOrderPerKey(k, s, b, o);
    }
    PublishedNotFailed(k, s);
  }

  lemma PublishedNotFailed(k: Config, s: State)
    requires Inv(k, s)
    ensures forall m :: m in s.published ==> s.published[m] in s.db.orders && s.db.orders[s.published[m]].status != Failed
    ensures forall t :: t in s.tokens ==> s.tokens[t].copy.message in s.published && s.published[s.tokens[t].copy.message] == s.tokens[t].copy.order
  {
    hide CallsInv, StoreInv, WireInv, AskInv, LogInv, CarriedInv;
    assert forall t :: t in s.tokens ==> GoodToken(k, s.db.processed, s.published, s.tokens[t]);
  }

  /** Along a run, a failed order was reserved once and released once, and the release undid the reservation product by product. */
  lemma FailedOrderHasNoStockEffect(k: Config, states: seq<State>, actions: seq<Action>, o: OrderId)
    requires RunFromInit(k, states, actions)
    requires o in states[|actions|].db.orders && states[|actions|].db.orders[o].status == Failed
    ensures exists i, j :: Undone(StartDb(k), Events(states, actions), i, j, o)
  {
    hide Step, Events, Lawful, Outcome, Undone;
    RunIsSerializable(k, states, actions);
    FailedOrderIsUndone(StartDb(k), Events(states, actions), o);
  }

  /** A call that answered `reused: false` owns a paid order whose one message was published. */
  lemma CreatedCallIsPaidAndPublished(k: Config, s: State, c: CallId, o: OrderId, paid: Payment, m: MessageId)
    requires Reachable(k, s) && c in s.calls && s.calls[c].stage == Finished(Created(o, paid, m))
    ensures Owns(s.db.orders, s.calls[c], o) && s.db.orders[o].payment == Some(paid) && s.db.orders[o].status != Failed
    ensures m in s.published && s.published[m] == o
    ensures forall n :: n in s.published && s.published[n] == o ==> n == m
    ensures Carried(s.db.processed, s.tokens, m)
  {
    hide Reachable, Inv, WorkOk, HeldOk, Carried;
    ReachableInv(k, s);
    CallIsGood(k, s, c);
    PublishedOnceAndCarried(k, s, m);
  }

  lemma PublishedOnceAndCarried(k: Config, s: State, m: MessageId)
    requires Inv(k, s) && m in s.published
    ensures forall n :: n in s.published && s.published[n] == s.published[m] ==> n == m
    ensures Carried(s.db.processed, s.tokens, m)
    ensures s.published[m] in s.db.orders && s.db.orders[s.published[m]].status != Failed
  {
    hide CallsInv, StoreInv, WireInv, AskInv, LogInv, TokensInv, Carried;
  }
}
