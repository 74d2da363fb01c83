/** Replays of a createOrder request: what later and overlapping calls with the same user and key return. */
module Replays {
  import opened Common
  import opened OrderPolicy
  import opened Ledger
  import opened Protocol
  import opened Invariant
  import opened Frames
  import opened Preservation
  import opened Theorems

  predicate Asks(call: Call, user: UserId, key: Key)
  {
    call.user == user && call.key == key
  }

  // ----- Calls that start after the order exists -----

  /** Where a later call can be: it goes straight to the existing order. */
  predicate ReplayStage(call: Call, o: OrderId)
  {
    match call.stage
    case Started => true
    case UserFound => true
    case Finished(BadRequest) => call.key == "" || call.lines == []
    case Finished(Reused(b, _)) => b == o
    case Finished(Aborted) => true
    case _ => false
  }

  /** The order of the user and key is in the tables, and no other is. */
  ghost predicate Present(s: State, user: UserId, key: Key, o: OrderId)
  {
    && o in s.db.orders && s.db.orders[o].user == user && s.db.orders[o].key == key
    && user in s.db.users
    && forall b :: b in s.db.orders && s.db.orders[b].user == user && s.db.orders[b].key == key ==> b == o
  }

  lemma OrderIsPresent(k: Config, s: State, o: OrderId)
    requires Inv(k, s) && o in s.db.orders
    ensures Present(s, s.db.orders[o].user, s.db.orders[o].key, o)
  {
    hide Inv, StockSound, DedupSound;
    InvSound(k, s);
    forall b | b in s.db.orders && s.db.orders[b].user == s.db.orders[o].user && s.db.orders[b].key == s.db.orders[o].key
      ensures b == o
    {
      assert SameKey(s.db.orders[b], s.db.orders[o]);
    }
  }

  lemma ReplayStep(k: Config, s: State, a: Action, s': State, c: CallId, o: OrderId)
    requires Step(k, s, a, s') && c in s'.calls
    requires Present(s, s'.calls[c].user, s'.calls[c].key, o)
    requires c in s.calls ==> Asks(s.calls[c], s'.calls[c].user, s'.calls[c].key) && ReplayStage(s.calls[c], o)
    ensures ReplayStage(s'.calls[c], o)
    ensures s'.calls[c].stage.Finished? && s'.calls[c].stage.result.Reused? ==>
      || (c in s.calls && s.calls[c].stage == s'.calls[c].stage)
      || (a == AFindExisting(c, o) && s'.calls[c].stage == Finished(Reused(o, s.db.orders[o].payment)))
  {
    hide ReservationStep, PaymentStep, WorkerStep, ReplayStage, Present;
    if ReservationStep(s, a, s') {
      ReplayReservationStep(s, a, s', c, o);
    } else if PaymentStep(k, s, a, s') {
      ReplayPaymentStep(k, s, a, s', c, o);
    } else {
      WorkerFrame(k, s, a, s');
    }
  }

  lemma ReplayPaymentStep(k: Config, s: State, a: Action, s': State, c: CallId, o: OrderId)
    requires PaymentStep(k, s, a, s') && c in s'.calls
    requires c in s.calls ==> ReplayStage(s.calls[c], o)
    ensures ReplayStage(s'.calls[c], o)
    ensures s'.calls[c].stage.Finished? && s'.calls[c].stage.result.Reused? ==> c in s.calls && s.calls[c].stage == s'.calls[c].stage
  {
    hide AddBack, Payments.AuthorizeIn, OrderRowFree, RowFree;
  }

  lemma ReplayReservationStep(s: State, a: Action, s': State, c: CallId, o: OrderId)
    requires ReservationStep(s, a, s') && c in s'.calls
    requires Present(s, s'.calls[c].user, s'.calls[c].key, o)
    requires c in s.calls ==> Asks(s.calls[c], s'.calls[c].user, s'.calls[c].key) && ReplayStage(s.calls[c], o)
    ensures ReplayStage(s'.calls[c], o)
    ensures s'.calls[c].stage.Finished? && s'.calls[c].stage.result.Reused? ==>
      || (c in s.calls && s.calls[c].stage == s'.calls[c].stage)
      || (a == AFindExisting(c, o) && s'.calls[c].stage == Finished(Reused(o, s.db.orders[o].payment)))
  {
    hide LockRow, MakePlan, WriteRow, InsertOrder, HitUniqueKey, InsertItem, CommitCreate, Resolve, ResolveNone, KeyFree;
    if a.ABegin? || a.ACheckUser? || a.AFindExisting? || a.AMissExisting? {
      PresentKeyIsTaken(s, s'.calls[c].user, s'.calls[c].key, o);
    } else {
      PastLookup(s, a, s');
    }
  }

  lemma PresentKeyIsTaken(s: State, user: UserId, key: Key, o: OrderId)
    requires Present(s, user, key, o)
    ensures !KeyFree(s.db.orders, user, key)
  {}

  /** The call keeps what was asked, and its answer once it has one. */
  predicate Continues(before: Call, after: Call)
  {
    && after.user == before.user && after.key == before.key && after.lines == before.lines
    && (before.stage.Finished? ==> after == before)
  }

  lemma ReservationContinues(s: State, a: Action, s': State, c: CallId)
    requires ReservationStep(s, a, s') && c in s.calls
    ensures c in s'.calls && Continues(s.calls[c], s'.calls[c])
  {
    hide LockRow, MakePlan, WriteRow, InsertOrder, HitUniqueKey, InsertItem, CommitCreate, Resolve, ResolveNone, KeyFree;
    if !a.ABegin? && !a.ACheckUser? && !a.AFindExisting? && !a.AMissExisting? {
      PastLookup(s, a, s');
    }
  }

  lemma PaymentContinues(k: Config, s: State, a: Action, s': State, c: CallId)
    requires PaymentStep(k, s, a, s') && c in s.calls
    ensures c in s'.calls && Continues(s.calls[c], s'.calls[c])
  {
    hide AddBack, Payments.AuthorizeIn, OrderRowFree, RowFree;
  }

  lemma FinishedStays(k: Config, s: State, a: Action, s': State, c: CallId)
    requires Step(k, s, a, s') && c in s.calls
    ensures c in s'.calls && s'.calls[c].user == s.calls[c].user && s'.calls[c].key == s.calls[c].key
         && s'.calls[c].lines == s.calls[c].lines
    ensures s.calls[c].stage.Finished? ==> s'.calls[c].stage == s.calls[c].stage
  {
    hide ReservationStep, PaymentStep, WorkerStep;
    if ReservationStep(s, a, s') {
      ReservationContinues(s, a, s', c);
    } else if PaymentStep(k, s, a, s') {
      PaymentContinues(k, s, a, s', c);
    } else {
      WorkerFrame(k, s, a, s');
    }
  }

  lemma {:induction false} CallPersists(k: Config, states: seq<State>, actions: seq<Action>, i: nat, j: nat, c: CallId)
    requires Run(k, states, actions) && i <= j <= |actions| && c in states[i].calls
    ensures c in states[j].calls && Asks(states[j].calls[c], states[i].calls[c].user, states[i].calls[c].key)
         && states[j].calls[c].lines == states[i].calls[c].lines
    ensures states[i].calls[c].stage.Finished? ==> states[j].calls[c].stage == states[i].calls[c].stage
    decreases j - i
  {
    hide Step;
    if i < j {
      CallPersists(k, states, actions, i, j - 1, c);
      FinishedStays(k, states[j - 1], actions[j - 1], states[j], c);
    }
  }

  /** The call's lookup at step `n` finds the order. */
  ghost predicate FoundAt(states: seq<State>, actions: seq<Action>, n: nat, c: CallId, o: OrderId)
  {
    && n < |actions| && n < |states| && actions[n] == AFindExisting(c, o)
    && o in states[n].db.orders
  }

  lemma {:induction false} LaterCallsReplay(k: Config, states: seq<State>, actions: seq<Action>, i: nat, j: nat, o: OrderId, c: CallId)
    requires RunFromInit(k, states, actions) && i <= j <= |actions| && o in states[i].db.orders
    requires c !in states[i].calls && c in states[j].calls
    requires Asks(states[j].calls[c], states[i].db.orders[o].user, states[i].db.orders[o].key)
    ensures ReplayStage(states[j].calls[c], o)
    ensures states[j].calls[c].stage.Finished? && states[j].calls[c].stage.result.Reused? ==>
      exists n :: i <= n < j && FoundAt(states, actions, n, c, o)
                  && states[j].calls[c].stage == Finished(Reused(o, states[n].db.orders[o].payment))
    decreases j - i
  {
    hide Step, Inv, ReplayStage, Present;
    var s := states[j - 1];
    OrderOnlySettles(k, states, actions, i, j - 1, o);
    LogIsCommitted(k, states, actions, j - 1);
    OrderIsPresent(k, s, o);
    if c in s.calls {
      FinishedStays(k, s, actions[j - 1], states[j], c);
      LaterCallsReplay(k, states, actions, i, j - 1, o, c);
    }
    ReplayStep(k, s, actions[j - 1], states[j], c, o);
    if actions[j - 1] == AFindExisting(c, o) && states[j].calls[c].stage == Finished(Reused(o, s.db.orders[o].payment)) {
      assert FoundAt(states, actions, j - 1, c, o);
    }
  }

  /**
   * Replays: once an order is committed, whatever became or becomes of the call that made it, every call
   * for its user and key that starts later and carries items ends, unless it crashes, with
   * `reused: true`, that order, and the payment the order had when the call looked.
   */
  lemma LaterReplaysReuse(k: Config, states: seq<State>, actions: seq<Action>, i: nat, j: nat, o: OrderId, c: CallId)
    requires RunFromInit(k, states, actions) && i <= j <= |actions| && o in states[i].db.orders
    requires c !in states[i].calls && c in states[j].calls
    requires Asks(states[j].calls[c], states[i].db.orders[o].user, states[i].db.orders[o].key)
    requires states[j].calls[c].lines != [] && states[j].calls[c].key != ""
    requires states[j].calls[c].stage.Finished? && states[j].calls[c].stage.result != Aborted
    ensures exists n :: i <= n < j && FoundAt(states, actions, n, c, o)
                        && states[j].calls[c].stage == Finished(Reused(o, states[n].db.orders[o].payment))
  {
    hide RunFromInit, FoundAt;
    LaterCallsReplay(k, states, actions, i, j, o, c);
  }

  lemma CreatedIsPaid(k: Config, s: State, c: CallId, o: OrderId, paid: Payment, m: MessageId)
    requires Inv(k, s) && c in s.calls && s.calls[c].stage == Finished(Created(o, paid, m))
    ensures Owns(s.db.orders, s.calls[c], o) && s.db.orders[o].payment == Some(paid)
  {
    hide Inv, WorkOk, HeldOk, SilentOk, Compatible;
    CallIsGood(k, s, c);
  }

  /**
   * Replay agreement: once a call has answered `reused: false` with order `o` and payment `paid`, every
   * call for the same user and key that starts later and carries items ends, unless it crashes, with
   * `reused: true`, that order and exactly that payment.
   */
  lemma LaterReplaysAgree(k: Config, states: seq<State>, actions: seq<Action>, i: nat, j: nat,
                          first: CallId, o: OrderId, paid: Payment, m: MessageId, c: CallId)
    requires RunFromInit(k, states, actions) && i <= j <= |actions|
    requires first in states[i].calls && states[i].calls[first].stage == Finished(Created(o, paid, m))
    requires c !in states[i].calls && c in states[j].calls
    requires Asks(states[j].calls[c], states[i].calls[first].user, states[i].calls[first].key)
    requires states[j].calls[c].lines != [] && states[j].calls[c].key != ""
    requires states[j].calls[c].stage.Finished? && states[j].calls[c].stage.result != Aborted
    ensures states[j].calls[c].stage == Finished(Reused(o, Some(paid)))
  {
    hide Step, Inv;
    LogIsCommitted(k, states, actions, i);
    CreatedIsPaid(k, states[i], first, o, paid, m);
    LaterReplaysReuse(k, states, actions, i, j, o, c);
    var n :| i <= n < j && FoundAt(states, actions, n, c, o)
             && states[j].calls[c].stage == Finished(Reused(o, states[n].db.orders[o].payment));
    OrderOnlySettles(k, states, actions, i, n, o);
  }

  // ----- Calls that overlap -----

  /** Of all calls for one user and key, at most one owns an order: is about to create it, settles it, or answered with it as its own. */
  lemma OneOwnerPerKey(k: Config, s: State, a: CallId, b: CallId)
    requires Reachable(k, s) && a in s.calls && b in s.calls && a != b
    requires Asks(s.calls[b], s.calls[a].user, s.calls[a].key)
    requires Owned(s.calls[a].stage).Some?
    ensures Owned(s.calls[b].stage) == None
  {
    hide Reachable, Inv, GoodCall, Owns, Owned;
    ReachableInv(k, s);
    CallIsGood(k, s, a);
    if Owned(s.calls[b].stage).Some? {
      assert Compatible(s.calls[a], s.calls[b]);
      OwnerOfKey(s.db, s.published, s.calls[a]);
      OwnerOfKey(s.db, s.published, s.calls[b]);
      if !s.calls[a].stage.Inserting? && !s.calls[b].stage.Inserting? {
        SameOwnedOrder(k, s, a, b);
      }
    }
  }

  /** The owner of an order either has it in the tables or is alone with its key. */
  lemma OwnerOfKey(db: Db, published: map<MessageId, OrderId>, call: Call)
    requires GoodCall(db, published, call) && Owned(call.stage).Some?
    ensures if call.stage.Inserting? then KeyFree(db.orders, call.user, call.key)
            else Owns(db.orders, call, Owned(call.stage).value) && !KeyFree(db.orders, call.user, call.key)
  {
    if !call.stage.Inserting? {
      OwnedOrderExists(db, published, call);
      var o := Owned(call.stage).value;
      assert db.orders[o].user == call.user && db.orders[o].key == call.key;
    }
  }

  lemma SameOwnedOrder(k: Config, s: State, a: CallId, b: CallId)
    requires Reachable(k, s) && a in s.calls && b in s.calls && Asks(s.calls[b], s.calls[a].user, s.calls[a].key)
    requires Owned(s.calls[a].stage).Some? && Owns(s.db.orders, s.calls[a], Owned(s.calls[a].stage).value)
    requires Owned(s.calls[b].stage).Some? && Owns(s.db.orders, s.calls[b], Owned(s.calls[b].stage).value)
    ensures Owned(s.calls[a].stage) == Owned(s.calls[b].stage)
  {
    hide Reachable, Owned;
    OneOrderPerKey(k, s, Owned(s.calls[a].stage).value, Owned(s.calls[b].stage).value);
  }

  /**
   * While one call owns an order, and ever after it answered with it, every other call for its user and
   * key that answers with an order answers `reused: true` with this one, and payment null or the order's.
   */
  lemma OthersReuse(k: Config, s: State, first: CallId, o: OrderId, c: CallId)
    requires Reachable(k, s) && first in s.calls && c in s.calls && c != first
    requires Owned(s.calls[first].stage) == Some(o)
    requires Asks(s.calls[c], s.calls[first].user, s.calls[first].key) && s.calls[c].stage.Finished?
    ensures var result := s.calls[c].stage.result;
      && !result.Created? && !result.PaymentRefused? && !result.DuplicateKey?
      && (result.Reused? ==>
            && result.order == o && o in s.db.orders
            && (result.payment == None || result.payment == s.db.orders[o].payment))
  {
    hide Reachable, Inv, WorkOk, HeldOk, SilentOk, Compatible;
    ReachableInv(k, s);
    OneOwnerPerKey(k, s, first, c);
    CallIsGood(k, s, c);
    CallIsGood(k, s, first);
    var result := s.calls[c].stage.result;
    if result.Reused? {
      assert Owns(s.db.orders, s.calls[c], result.order);
      ReusedIsOwned(k, s, first, o, s.calls[c], result.order);
    }
  }

  lemma ReusedIsOwned(k: Config, s: State, first: CallId, o: OrderId, call: Call, b: OrderId)
    requires Reachable(k, s) && first in s.calls && Owned(s.calls[first].stage) == Some(o)
    requires GoodCall(s.db, s.published, s.calls[first])
    requires Asks(call, s.calls[first].user, s.calls[first].key) && Owns(s.db.orders, call, b)
    ensures b == o
  {
    hide Reachable, GoodCall, Owned;
    OwnerOfKey(s.db, s.published, s.calls[first]);
    if !s.calls[first].stage.Inserting? {
      OneOrderPerKey(k, s, b, o);
    }
  }

  /**
   * Idempotent creation: of all calls for one user and key only one ever answers `reused: false`; the
   * others that answer with an order name the same one, with payment null or the same.
   */
  lemma AnswersAgree(k: Config, s: State, first: CallId, o: OrderId, paid: Payment, m: MessageId, c: CallId)
    requires Reachable(k, s) && first in s.calls && c in s.calls
    requires s.calls[first].stage == Finished(Created(o, paid, m))
    requires Asks(s.calls[c], s.calls[first].user, s.calls[first].key) && s.calls[c].stage.Finished?
    ensures var result := s.calls[c].stage.result;
      && (result.Created? <==> c == first)
      && (result.Reused? ==> result.order == o && (result.payment == None || result.payment == Some(paid)))
      && !result.PaymentRefused?
  {
    hide Reachable, Inv;
    ReachableInv(k, s);
    CreatedIsPaid(k, s, first, o, paid, m);
    if c != first {
      OthersReuse(k, s, first, o, c);
    }
  }

  /** Where a call can be once its plan was accepted. */
  predicate PastPlan(stage: Stage)
  {
    match stage
    case Started => false
    case UserFound => false
    case Reserving(_) => false
    case Finished(result) => !result.BadRequest? && !result.UserMissing? && !result.Refused?
    case _ => true
  }

  lemma PastPlanStep(k: Config, s: State, a: Action, s': State, c: CallId)
    requires Step(k, s, a, s') && c in s.calls && PastPlan(s.calls[c].stage)
    ensures c in s'.calls && PastPlan(s'.calls[c].stage)
  {
    hide ReservationStep, PaymentStep, WorkerStep, PastPlan;
    if ReservationStep(s, a, s') {
      PastPlanReservation(s, a, s', c);
    } else if PaymentStep(k, s, a, s') {
      PastPlanPayment(k, s, a, s', c);
    } else {
      WorkerFrame(k, s, a, s');
    }
  }

  lemma PastPlanReservation(s: State, a: Action, s': State, c: CallId)
    requires ReservationStep(s, a, s') && c in s.calls && PastPlan(s.calls[c].stage)
    ensures c in s'.calls && PastPlan(s'.calls[c].stage)
  {
    hide Begin, CheckUser, FindExisting, MissExisting, LockRow, MakePlan, KeyUnclaimed, KeyFree, Matches, ItemOf;
    if a.ABegin? || a.ACheckUser? || a.AFindExisting? || a.AMissExisting? || a.ALockRow? || a.AMakePlan? {
      UpToPlan(s, a, s');
      ReservationTouchesOne(s, a, s');
    }
  }

  lemma UpToPlan(s: State, a: Action, s': State)
    requires ReservationStep(s, a, s')
    requires a.ABegin? || a.ACheckUser? || a.AFindExisting? || a.AMissExisting? || a.ALockRow? || a.AMakePlan?
    ensures a.c in s.calls ==> !PastPlan(s.calls[a.c].stage)
  {
    hide BuildPlan, RowFree, KeyFree, Requested, Matches;
  }

  lemma PastPlanPayment(k: Config, s: State, a: Action, s': State, c: CallId)
    requires PaymentStep(k, s, a, s') && c in s.calls && PastPlan(s.calls[c].stage)
    ensures c in s'.calls && PastPlan(s'.calls[c].stage)
  {
    hide Payments.AuthorizeIn, OrderRowFree, RowFree;
  }

  lemma {:induction false} PastPlanStays(k: Config, states: seq<State>, actions: seq<Action>, i: nat, j: nat, c: CallId)
    requires Run(k, states, actions) && i <= j <= |actions|
    requires c in states[i].calls && PastPlan(states[i].calls[c].stage)
    ensures c in states[j].calls && PastPlan(states[j].calls[c].stage)
    decreases j - i
  {
    hide Step, PastPlan;
    if i < j {
      PastPlanStays(k, states, actions, i, j - 1, c);
      PastPlanStep(k, states[j - 1], actions[j - 1], states[j], c);
    }
  }

  /**
   * A call that overlaps the one that owns the order, whether it plans before or after that order is
   * committed: barring a crash it ends by reusing the order exactly when its lines are affordable on the
   * stock committed when it plans; otherwise it is refused, although another call gets the order.
   */
  lemma RacingReplayOutcome(k: Config, states: seq<State>, actions: seq<Action>, i: nat, j: nat, c: CallId, first: CallId, o: OrderId)
    requires RunFromInit(k, states, actions) && i < j <= |actions| && actions[i] == AMakePlan(c)
    requires c in states[i].calls && c in states[j].calls && first in states[j].calls && first != c
    requires Owned(states[j].calls[first].stage) == Some(o)
    requires Asks(states[i].calls[c], states[j].calls[first].user, states[j].calls[first].key)
    requires states[j].calls[c].stage.Finished? && states[j].calls[c].stage.result != Aborted
    ensures states[j].calls[c].stage.result.Reused? <==> Affordable(states[i].db.products, states[i].calls[c].lines)
    ensures states[j].calls[c].stage.result.Reused? ==> states[j].calls[c].stage.result.order == o
    ensures !states[j].calls[c].stage.result.Reused? ==>
      states[j].calls[c].stage.result == Refused(BuildPlan(states[i].db.products, states[i].calls[c].lines))
  {
    hide Step, Inv, BuildPlan, Affordable, Reachable, Owned;
    var s, s' := states[i], states[i + 1];
    PlanStep(k, s, c, s');
    PrefixReachable(k, states, actions, i);
    PrefixReachable(k, states, actions, j);
    VerdictIsCurrent(k, s, c, s');
    PlanMeaning(s.db.products, s.calls[c].lines);
    FinishedStays(k, s, actions[i], s', c);
    CallPersists(k, states, actions, i + 1, j, c);
    if BuildPlan(s.db.products, s.calls[c].lines).Planned? {
      PastPlanStays(k, states, actions, i + 1, j, c);
      OthersReuse(k, states[j], first, o, c);
    }
  }

  lemma PlanStep(k: Config, s: State, c: CallId, s': State)
    requires Step(k, s, AMakePlan(c), s')
    ensures MakePlan(s, c, s')
  {
    hide MakePlan;
  }

  lemma PrefixReachable(k: Config, states: seq<State>, actions: seq<Action>, n: nat)
    requires RunFromInit(k, states, actions) && n <= |actions|
    ensures Reachable(k, states[n])
  {
    hide Step;
    assert RunFromInit(k, states[..n + 1], actions[..n]);
    assert states[..n + 1][|actions[..n]|] == states[n];
  }
}
