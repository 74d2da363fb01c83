/** What each group of steps leaves alone. */
module Frames {
  import opened Common
  import opened OrderPolicy
  import opened Payments
  import opened Ledger
  import opened Protocol
  import opened Invariant

  /** A reservation step changes nothing but its call, and its commit nothing more than the orders and products. */
  lemma ReservationFrame(s: State, a: Action, s': State)
    requires ReservationStep(s, a, s')
    ensures s' == s.(calls := s'.calls, db := s'.db, log := s'.log)
    ensures s'.db == s.db.(products := s'.db.products, orders := s'.db.orders)
    ensures !a.ACommitCreate? ==> s'.db == s.db && s'.log == s.log
  {
    hide BuildPlan, ItemOf, RowFree, KeyUnclaimed, KeyFree, Requested, Matches;
  }

  lemma ReservationTouchesOne(s: State, a: Action, s': State)
    requires ReservationStep(s, a, s')
    ensures a.c in s'.calls && s'.calls == s.calls[a.c := s'.calls[a.c]]
  {
    hide BuildPlan, ItemOf, RowFree, KeyUnclaimed, KeyFree, Requested, Matches;
  }

  /** The answers of a call that never had an order of its own. */
  predicate WithoutOrder(result: Result)
  {
    result.BadRequest? || result.UserMissing? || result.Refused? || result.DuplicateKey? || result.Reused?
  }

  /** It takes a call that has not committed on towards its commit, or to an answer without an order. */
  lemma ReservationStage(s: State, a: Action, s': State)
    requires ReservationStep(s, a, s')
    ensures a.c in s.calls ==> Early(s.calls[a.c].stage) && !s.calls[a.c].stage.Committed?
    ensures a.c in s'.calls
    ensures var stage := s'.calls[a.c].stage;
      && (Early(stage) || (stage.Finished? && WithoutOrder(stage.result)))
      && (stage.Committed? <==> a.ACommitCreate?)
  {
    hide BuildPlan, ItemOf, RowFree, KeyUnclaimed, KeyFree, Requested, Matches;
  }

  /** The other steps of a reservation are steps of a call that missed the lookup, and of no other. */
  lemma PastLookup(s: State, a: Action, s': State)
    requires ReservationStep(s, a, s')
    requires !a.ABegin? && !a.ACheckUser? && !a.AFindExisting? && !a.AMissExisting?
    ensures a.c in s.calls
    ensures var stage := s.calls[a.c].stage; !stage.Started? && !stage.UserFound? && !stage.Finished?
    ensures a.c in s'.calls && s'.calls == s.calls[a.c := s.calls[a.c].(stage := s'.calls[a.c].stage)]
    ensures var stage := s'.calls[a.c].stage;
      !stage.Started? && !stage.UserFound? && (stage.Finished? ==> !stage.result.BadRequest? && !stage.result.UserMissing?)
  {
    hide BuildPlan, ItemOf, RowFree, KeyUnclaimed, KeyFree, Requested;
  }

  /** A step after the commit changes its own call and no answer, but for the payments service's, which changes no call. */
  lemma PaymentTouchesOne(k: Config, s: State, a: Action, s': State)
    requires PaymentStep(k, s, a, s')
    ensures a.AServeAuthorize? ==> s'.calls == s.calls && s'.responses.Keys == s.responses.Keys + {a.c}
    ensures !a.AServeAuthorize? ==> a.c in s.calls && a.c in s'.calls && s'.calls == s.calls[a.c := s'.calls[a.c]] && s'.responses == s.responses
  {
    hide AddBack, AuthorizeIn, OrderRowFree, RowFree;
  }

  /** A step of a handler or the broker changes no call and nothing of payments or publications. */
  lemma WorkerFrame(k: Config, s: State, a: Action, s': State)
    requires WorkerStep(k, s, a, s')
    ensures s' == s.(tokens := s'.tokens, deliveries := s'.deliveries, db := s'.db, log := s'.log)
  {
    hide OrderRowFree, MessageUnclaimed, Republished, Count;
  }
}
