/** When a call gets which answer: requests that are refused at the door, and where a reused order was found. */
module Answers {
  import opened Common
  import opened OrderPolicy
  import opened Payments
  import opened Ledger
  import opened Protocol
  import opened Invariant
  import opened Frames
  import opened Preservation
  import opened Theorems

  // ----- Refused at the door -----

  /** A request without key or items is answered at once and no other is; an unknown user gets no further. */
  predicate AtTheDoor(users: set<UserId>, call: Call)
  {
    && (call.stage == Finished(BadRequest) <==> call.key == "" || call.lines == [])
    && (call.stage == Finished(UserMissing) ==> call.user !in users)
    && (call.user !in users ==>
          call.stage.Started? || (call.stage.Finished? && (call.stage.result.BadRequest? || call.stage.result.UserMissing? || call.stage.result.Aborted?)))
  }

  lemma DoorReservation(s: State, a: Action, s': State, c: CallId)
    requires ReservationStep(s, a, s') && c in s'.calls
    requires c in s.calls ==> AtTheDoor(s.db.users, s.calls[c])
    ensures AtTheDoor(s.db.users, s'.calls[c])
  {
    hide LockRow, MakePlan, WriteRow, InsertOrder, HitUniqueKey, InsertItem, CommitCreate, Resolve, ResolveNone, KeyFree;
    if !a.ABegin? && !a.ACheckUser? && !a.AFindExisting? && !a.AMissExisting? {
      PastLookup(s, a, s');
    }
  }

  lemma DoorPayment(k: Config, s: State, a: Action, s': State, users: set<UserId>)
    requires PaymentStep(k, s, a, s') && forall c :: c in s.calls ==> AtTheDoor(users, s.calls[c])
    ensures forall c :: c in s'.calls ==> AtTheDoor(users, s'.calls[c])
    ensures s'.db.users == s.db.users
  {
    hide AuthorizeIn, OrderRowFree, RowFree;
  }

  lemma WorkerKeepsUsers(k: Config, s: State, a: Action, s': State)
    requires WorkerStep(k, s, a, s')
    ensures s'.db.users == s.db.users
  {
    hide OrderRowFree, MessageUnclaimed, Republished, Count;
  }

  lemma DoorStep(k: Config, s: State, a: Action, s': State)
    requires Step(k, s, a, s') && forall c :: c in s.calls ==> AtTheDoor(s.db.users, s.calls[c])
    ensures s'.db.users == s.db.users && forall c :: c in s'.calls ==> AtTheDoor(s.db.users, s'.calls[c])
  {
    hide ReservationStep, PaymentStep, WorkerStep, AtTheDoor;
    if ReservationStep(s, a, s') {
      ReservationFrame(s, a, s');
      forall c | c in s'.calls
        ensures AtTheDoor(s.db.users, s'.calls[c])
      {
        DoorReservation(s, a, s', c);
      }
    } else if PaymentStep(k, s, a, s') {
      DoorPayment(k, s, a, s', s.db.users);
    } else {
      WorkerFrame(k, s, a, s');
      WorkerKeepsUsers(k, s, a, s');
    }
  }

  lemma {:induction false} DoorRun(k: Config, states: seq<State>, actions: seq<Action>, n: nat)
    requires RunFromInit(k, states, actions) && n <= |actions|
    ensures states[n].db.users == k.users && forall c :: c in states[n].calls ==> AtTheDoor(k.users, states[n].calls[c])
  {
    hide Step, AtTheDoor;
    if n > 0 {
      DoorRun(k, states, actions, n - 1);
      DoorStep(k, states[n - 1], actions[n - 1], states[n]);
    }
  }

  /** A call is answered with a bad request exactly when it has no key or no items. */
  lemma BadRequestsAreRefused(k: Config, s: State, c: CallId)
    requires Reachable(k, s) && c in s.calls
    ensures s.calls[c].stage == Finished(BadRequest) <==> s.calls[c].key == "" || s.calls[c].lines == []
  {
    hide Step, Init;
    var states, actions :| RunFromInit(k, states, actions) && s == states[|actions|];
    DoorRun(k, states, actions, |actions|);
  }

  /** A valid call that ends without a crash is answered with a missing user exactly when its user is unknown. */
  lemma UnknownUsersAreRefused(k: Config, s: State, c: CallId)
    requires Reachable(k, s) && c in s.calls && s.calls[c].key != "" && s.calls[c].lines != []
    requires s.calls[c].stage.Finished? && s.calls[c].stage.result != Aborted
    ensures s.calls[c].stage == Finished(UserMissing) <==> s.calls[c].user !in k.users
  {
    hide Step, Init;
    var states, actions :| RunFromInit(k, states, actions) && s == states[|actions|];
    DoorRun(k, states, actions, |actions|);
  }

  // ----- Reused orders -----

  /** At step `n` the call looks up order `o` of its user and key: at its start, or after its insert was rejected. */
  ghost predicate LooksUp(states: seq<State>, actions: seq<Action>, n: nat, c: CallId, o: OrderId)
  {
    && n < |actions| && n < |states|
    && (actions[n] == AFindExisting(c, o) || actions[n] == AResolve(c, o))
    && c in states[n].calls && Matches(states[n], c, o)
  }

  predicate Reuses(stage: Stage)
  {
    stage.Finished? && stage.result.Reused?
  }

  lemma ReuseReservation(s: State, a: Action, s': State)
    requires ReservationStep(s, a, s') && a.c in s'.calls && Reuses(s'.calls[a.c].stage)
    ensures a.AFindExisting? || a.AResolve?
    ensures a.c in s.calls && Matches(s, a.c, a.o) && s'.calls[a.c].stage == Finished(Reused(a.o, s.db.orders[a.o].payment))
  {
    hide BuildPlan, ItemOf, RowFree, KeyUnclaimed, KeyFree, Requested;
  }

  lemma ReusePayment(k: Config, s: State, a: Action, s': State, c: CallId)
    requires PaymentStep(k, s, a, s') && c in s'.calls && Reuses(s'.calls[c].stage)
    ensures c in s.calls && s.calls[c].stage == s'.calls[c].stage
  {
    hide AuthorizeIn, OrderRowFree, RowFree;
  }

  /** A call reuses an order from now on only by a lookup that finds it. */
  lemma ReuseStep(k: Config, s: State, a: Action, s': State, c: CallId)
    requires Step(k, s, a, s') && c in s'.calls && Reuses(s'.calls[c].stage)
    ensures c in s.calls
    ensures
      || s.calls[c].stage == s'.calls[c].stage
      || ((a.AFindExisting? || a.AResolve?) && a.c == c && Matches(s, c, a.o)
          && s'.calls[c].stage == Finished(Reused(a.o, s.db.orders[a.o].payment)))
  {
    hide PaymentStep, WorkerStep, Matches, BuildPlan;
    if ReservationStep(s, a, s') {
      ReuseOwnOrOther(s, a, s', c);
    } else if PaymentStep(k, s, a, s') {
      ReusePayment(k, s, a, s', c);
    } else {
      WorkerFrame(k, s, a, s');
    }
  }

  lemma ReuseOwnOrOther(s: State, a: Action, s': State, c: CallId)
    requires ReservationStep(s, a, s') && c in s'.calls && Reuses(s'.calls[c].stage)
    ensures c in s.calls
    ensures
      || s.calls[c].stage == s'.calls[c].stage
      || ((a.AFindExisting? || a.AResolve?) && a.c == c && Matches(s, c, a.o)
          && s'.calls[c].stage == Finished(Reused(a.o, s.db.orders[a.o].payment)))
  {
    hide Begin, CheckUser, FindExisting, MissExisting, LockRow, MakePlan, WriteRow, InsertOrder, HitUniqueKey, InsertItem, CommitCreate, Resolve, ResolveNone, Matches;
    ReservationTouchesOne(s, a, s');
    if a.c == c {
      ReuseReservation(s, a, s');
    }
  }

  /**
   * Whoever reuses an order found it by a lookup, at its start or after a unique violation, and answers with
   * the payment that the order had at that lookup.
   */
  lemma {:induction false} ReusedAtLookup(k: Config, states: seq<State>, actions: seq<Action>, j: nat, c: CallId)
    requires RunFromInit(k, states, actions) && j <= |actions| && c in states[j].calls && Reuses(states[j].calls[c].stage)
    ensures var Reused(o, payment) := states[j].calls[c].stage.result;
      exists n: nat :: n < j && LooksUp(states, actions, n, c, o) && payment == states[n].db.orders[o].payment
  {
    hide Step, Reuses, Matches;
    assert j > 0;
    ReuseStep(k, states[j - 1], actions[j - 1], states[j], c);
    if states[j - 1].calls[c].stage == states[j].calls[c].stage {
      ReusedAtLookup(k, states, actions, j - 1, c);
    } else {
      assert LooksUp(states, actions, j - 1, c, actions[j - 1].o);
    }
  }
}
