/** The queues and the worker: token counting without faults, and termination with finitely many faults. */
module Queue {
  import opened Common
  import opened Sums
  import opened OrderPolicy
  import opened Ledger
  import opened Protocol
  import opened Invariant
  import opened Frames
  import opened Preservation
  import opened Theorems

  /** A crash of a worker, a nack of a thrown handler or a lost channel. */
  predicate Fault(a: Action)
  {
    a.ARedeliver? || a.ALoseChannel? || a.AVanish?
  }

  // ----- Runs without faults: each message has exactly one token -----

  predicate Live(token: Token)
  {
    !token.place.Settled?
  }

  /** How often a copy's message has been handed to a handler, read off the copy. */
  function Handled(token: Token): nat
  {
    token.copy.attempt + if token.place.ProcessQueue? || token.place.RetryQueue? then 0 else 1
  }

  ghost predicate OneToken(k: Config, s: State)
  {
    && (forall t :: t in s.tokens ==> s.tokens[t].Token?)
    && (forall t, u :: t in s.tokens && u in s.tokens && t != u && Live(s.tokens[t]) && Live(s.tokens[u]) ==>
          s.tokens[t].copy.message != s.tokens[u].copy.message)
    && (forall t :: t in s.tokens && Live(s.tokens[t]) ==> s.tokens[t].copy.message !in s.db.processed)
    && (forall t :: t in s.tokens && Live(s.tokens[t]) ==> Count(s.deliveries, s.tokens[t].copy.message) == Handled(s.tokens[t]))
    && (forall m :: m in s.deliveries ==> m in s.published && s.deliveries[m] <= Limit(k) + 1)
  }

  /** Calls change neither the copies nor the dedup rows, except by publishing a new message. */
  lemma CallsLeaveTokens(k: Config, s: State, a: Action, s': State)
    requires ReservationStep(s, a, s') || (PaymentStep(k, s, a, s') && !a.APublish?)
    ensures s'.tokens == s.tokens && s'.db.processed == s.db.processed
    ensures s'.deliveries == s.deliveries && s'.published == s.published
  {
    hide ReservationStep, PaymentStep;
    if ReservationStep(s, a, s') {
      ReservationFrame(s, a, s');
    } else {
      PaymentLeavesTokens(k, s, a, s');
    }
  }

  lemma PaymentLeavesTokens(k: Config, s: State, a: Action, s': State)
    requires PaymentStep(k, s, a, s') && !a.APublish?
    ensures s'.tokens == s.tokens && s'.db.processed == s.db.processed
    ensures s'.deliveries == s.deliveries && s'.published == s.published
  {
    hide AddBack, Payments.AuthorizeIn, OrderRowFree, RowFree;
  }

  lemma PublishKeepsOneToken(k: Config, s: State, c: CallId, m: MessageId, t: TokenId, s': State)
    requires Inv(k, s) && OneToken(k, s) && Publish(s, c, m, t, s')
    ensures OneToken(k, s')
  {
    hide Inv, Limit;
    TokensArePublished(k, s);
    assert Count(s.deliveries, m) == 0;
  }

  lemma TokensArePublished(k: Config, s: State)
    requires Inv(k, s)
    ensures forall t :: t in s.tokens ==> s.tokens[t].copy.message in s.published && s.tokens[t].copy.attempt <= Limit(k)
    ensures forall m :: m in s.db.processed ==> m in s.published
  {
    hide CallsInv, StoreInv, WireInv, AskInv, LogInv, CarriedInv, Limit;
    assert forall t :: t in s.tokens ==> GoodToken(k, s.db.processed, s.published, s.tokens[t]);
  }

  /** A live copy moves, staying live, and is counted as before. */
  lemma LiveMove(k: Config, s: State, t: TokenId, place: Place, s': State)
    requires OneToken(k, s) && t in s.tokens && Live(s.tokens[t])
    requires s'.tokens == s.tokens[t := s.tokens[t].(place := place)] && s'.db.processed == s.db.processed
    requires s'.deliveries == s.deliveries && s'.published == s.published
    requires place.Settled? || Handled(s.tokens[t].(place := place)) == Handled(s.tokens[t])
    ensures OneToken(k, s')
  {
    hide Limit;
  }

  lemma DeliverKeepsOneToken(k: Config, s: State, t: TokenId, s': State)
    requires Inv(k, s) && OneToken(k, s) && Deliver(s, t, s')
    ensures OneToken(k, s')
  {
    hide Inv, Limit;
    TokensArePublished(k, s);
    DeliveryCounted(k, s.tokens, s.deliveries, s.published, t);
  }

  /** One more delivery of a queued copy is one more handling read off it, for it and for no other message. */
  lemma DeliveryCounted(k: Config, tokens: map<TokenId, Token>, deliveries: map<MessageId, nat>,
                        published: map<MessageId, OrderId>, t: TokenId)
    requires t in tokens && tokens[t].place.ProcessQueue? && tokens[t].copy.attempt <= Limit(k)
    requires tokens[t].copy.message in published
    requires Count(deliveries, tokens[t].copy.message) == Handled(tokens[t])
    requires forall m :: m in deliveries ==> m in published && deliveries[m] <= Limit(k) + 1
    ensures var (m, moved) := (tokens[t].copy.message, tokens[t].(place := Delivered));
      var after := deliveries[m := Count(deliveries, m) + 1];
      && Count(after, m) == Handled(moved)
      && (forall n :: n != m ==> Count(after, n) == Count(deliveries, n))
      && (forall n :: n in after ==> n in published && after[n] <= Limit(k) + 1)
  {}

  lemma CommitKeepsOneToken(k: Config, s: State, t: TokenId, s': State)
    requires OneToken(k, s) && CommitWork(s, t, s')
    ensures OneToken(k, s')
  {
    hide Limit;
  }

  lemma RepublishKeepsOneToken(k: Config, s: State, t: TokenId, u: TokenId, s': State)
    requires OneToken(k, s) && Republish(k, s, t, u, s')
    ensures OneToken(k, s')
  {
    hide Limit;
  }

  lemma AckKeepsOneToken(k: Config, s: State, t: TokenId, s': State)
    requires OneToken(k, s) && Ack(s, t, s')
    ensures OneToken(k, s')
  {
    hide Limit;
  }

  lemma WorkerKeepsOneToken(k: Config, s: State, a: Action, s': State)
    requires Inv(k, s) && OneToken(k, s) && WorkerStep(k, s, a, s') && !Fault(a)
    ensures OneToken(k, s')
  {
    hide Inv, OneToken, Deliver, CommitSeen, CommitWork, Republish, Ack;
    match a {
      case ADeliver(t) => DeliverKeepsOneToken(k, s, t, s');
      case ACommitSeen(t) => CommitSeenNever(k, s, t, s');
      case ACommitWork(t) => CommitKeepsOneToken(k, s, t, s');
      case ARepublish(t, u) => RepublishKeepsOneToken(k, s, t, u, s');
      case AAck(t) => AckKeepsOneToken(k, s, t, s');
      case _ => MoveKeepsOneToken(k, s, a, s');
    }
  }

  lemma MoveKeepsOneToken(k: Config, s: State, a: Action, s': State)
    requires OneToken(k, s) && WorkerStep(k, s, a, s')
    requires a.AInsertDedup? || a.ALockOrder? || a.AUpdateOrder? || a.AFailWork? || a.AExpire?
    ensures OneToken(k, s')
  {
    hide OneToken, MessageUnclaimed, OrderRowFree;
    LiveMove(k, s, a.t, s'.tokens[a.t].place, s');
  }

  lemma {:induction false} FaultFreeOneToken(k: Config, states: seq<State>, actions: seq<Action>, n: nat)
    requires RunFromInit(k, states, actions) && n <= |actions|
    requires forall i :: 0 <= i < |actions| ==> !Fault(actions[i])
    ensures OneToken(k, states[n])
  {
    hide Inv, OneToken, Step, Fault;
    if n == 0 {
      NoTokens(k, states[0]);
    } else {
      var s, a, s' := states[n - 1], actions[n - 1], states[n];
      FaultFreeOneToken(k, states, actions, n - 1);
      LogIsCommitted(k, states, actions, n - 1);
      CallOrWorker(k, s, a, s');
    }
  }

  lemma NoTokens(k: Config, s: State)
    requires s.tokens == map[] && s.deliveries == map[]
    ensures OneToken(k, s)
  {}

  lemma CallOrWorker(k: Config, s: State, a: Action, s': State)
    requires Inv(k, s) && OneToken(k, s) && Step(k, s, a, s') && !Fault(a)
    ensures OneToken(k, s')
  {
    hide Inv, ReservationStep, WorkerStep, Limit;
    if WorkerStep(k, s, a, s') {
      WorkerKeepsOneToken(k, s, a, s');
    } else if a.APublish? && PaymentStep(k, s, a, s') {
      PublishKeepsOneToken(k, s, a.c, a.m, a.t, s');
    } else {
      CallsLeaveTokens(k, s, a, s');
    }
  }

  /**
   * In a run without crash, nack or lost channel of a worker, every published message is in exactly one of
   * processed_messages and the live copies, and has at most one live copy.
   */
  lemma ExactlyOneToken(k: Config, states: seq<State>, actions: seq<Action>, m: MessageId)
    requires RunFromInit(k, states, actions)
    requires forall i :: 0 <= i < |actions| ==> !Fault(actions[i])
    requires m in states[|actions|].published
    ensures var s := states[|actions|];
      && (m in s.db.processed <==> forall t :: t in s.tokens ==> !Carries(s.tokens[t], m))
      && (forall t, u :: t in s.tokens && u in s.tokens && Carries(s.tokens[t], m) && Carries(s.tokens[u], m) ==> t == u)
  {
    var n := |actions|;
    hide Step, CallsInv, StoreInv, WireInv, AskInv, LogInv, MessagesInv, TokensInv, Limit;
    FaultFreeOneToken(k, states, actions, n);
    LogIsCommitted(k, states, actions, n);
    assert Carried(states[n].db.processed, states[n].tokens, m);
  }

  /** In such a run a message is handed to a handler at most maxAttempts + 1 times. */
  lemma HandledAtMostLimit(k: Config, states: seq<State>, actions: seq<Action>, m: MessageId)
    requires RunFromInit(k, states, actions)
    requires forall i :: 0 <= i < |actions| ==> !Fault(actions[i])
    ensures Count(states[|actions|].deliveries, m) <= Limit(k) + 1
  {
    hide Step, Limit;
    FaultFreeOneToken(k, states, actions, |actions|);
  }

  /** In such a run the order of a dead-lettered message is still pending, so its stock stays reserved. */
  lemma DeadLetterLeavesOrderPending(k: Config, states: seq<State>, actions: seq<Action>, t: TokenId)
    requires RunFromInit(k, states, actions)
    requires forall i :: 0 <= i < |actions| ==> !Fault(actions[i])
    requires t in states[|actions|].tokens && states[|actions|].tokens[t].place.DeadLetters?
    ensures var (s, o) := (states[|actions|], states[|actions|].tokens[t].copy.order);
      o in s.db.orders && s.db.orders[o].status == Pending && s.db.orders[o].payment.Some?
  {
    var s := states[|actions|];
    hide Step, CallsInv, StoreInv, WireInv, AskInv, LogInv, CarriedInv, StockSound, OrdersSound, Limit;
    FaultFreeOneToken(k, states, actions, |actions|);
    LogIsCommitted(k, states, actions, |actions|);
    InvSound(k, s);
    assert GoodToken(k, s.db.processed, s.published, s.tokens[t]);
    forall m | m in s.db.processed
      ensures s.db.processed[m] != s.tokens[t].copy.order
    {
      assert s.published[m] == s.db.processed[m];
    }
    assert s.tokens[t].copy.order !in s.db.processed.Values;
  }

  // ----- Runs without failing work, whatever crashes -----

  /** Nothing was rejected, and so nothing was ever handed on. */
  ghost predicate Untried(tokens: map<TokenId, Token>)
  {
    forall t :: t in tokens ==>
      && tokens[t].copy.attempt == 0
      && !tokens[t].place.Rejected? && !tokens[t].place.RetryQueue? && !tokens[t].place.DeadLetters?
  }

  lemma UntriedWorker(k: Config, s: State, a: Action, s': State)
    requires Inv(k, s) && WorkerStep(k, s, a, s') && !a.AFailWork? && Untried(s.tokens)
    ensures Untried(s'.tokens)
  {
    hide Inv, Republished, OrderRowFree, MessageUnclaimed, Count;
    if a.ALockOrder? {
      CopiedOrderExists(k, s, a.t);
    }
  }

  lemma CopiedOrderExists(k: Config, s: State, t: TokenId)
    requires Inv(k, s) && t in s.tokens
    ensures s.tokens[t].copy.order in s.db.orders
  {
    hide CallsInv, StoreInv, WireInv, AskInv, LogInv, CarriedInv;
    assert GoodToken(k, s.db.processed, s.published, s.tokens[t]);
  }

  lemma UntriedStep(k: Config, s: State, a: Action, s': State)
    requires Inv(k, s) && Step(k, s, a, s') && !a.AFailWork? && Untried(s.tokens)
    ensures Untried(s'.tokens)
  {
    hide Inv, ReservationStep, WorkerStep;
    if WorkerStep(k, s, a, s') {
      UntriedWorker(k, s, a, s');
    } else if a.APublish? && PaymentStep(k, s, a, s') {
    } else {
      CallsLeaveTokens(k, s, a, s');
    }
  }

  /**
   * In a run in which no handler's work fails, however often workers crash, channels are lost and copies are
   * redelivered, no copy is ever rejected, retried or dead-lettered: a duplicate is acknowledged, never sent on.
   */
  lemma {:induction false} OnlyFailuresAreRetried(k: Config, states: seq<State>, actions: seq<Action>, n: nat, t: TokenId)
    requires RunFromInit(k, states, actions) && n <= |actions| && t in states[n].tokens
    requires forall i :: 0 <= i < |actions| ==> !actions[i].AFailWork?
    ensures states[n].tokens[t].copy.attempt == 0
    ensures var place := states[n].tokens[t].place; !place.Rejected? && !place.RetryQueue? && !place.DeadLetters?
  {
    hide Step, Inv;
    UntriedRun(k, states, actions, n);
  }

  lemma {:induction false} UntriedRun(k: Config, states: seq<State>, actions: seq<Action>, n: nat)
    requires RunFromInit(k, states, actions) && n <= |actions|
    requires forall i :: 0 <= i < |actions| ==> !actions[i].AFailWork?
    ensures Untried(states[n].tokens)
  {
    hide Step, Inv;
    if n > 0 {
      hide Untried;
      UntriedRun(k, states, actions, n - 1);
      LogIsCommitted(k, states, actions, n - 1);
      UntriedStep(k, states[n - 1], actions[n - 1], states[n]);
    }
  }

  /** A rejected copy waits in the retry queue, one attempt further, while attempts are left; then it is dead-lettered as it is. */
  lemma RejectedCopyIsHandedOn(k: Config, s: State, t: TokenId, u: TokenId, s': State)
    requires Reachable(k, s) && Republish(k, s, t, u, s')
    ensures var copy := s.tokens[t].copy;
      && (copy.attempt < k.maxAttempts ==> s'.tokens[u] == Token(Copy(copy.message, copy.order, copy.attempt + 1), RetryQueue))
      && (copy.attempt >= k.maxAttempts ==> s'.tokens[u] == Token(copy, DeadLetters) && copy.attempt == Limit(k))
  {
    hide Reachable, Inv;
    ReachableInv(k, s);
    TokensArePublished(k, s);
  }

  // ----- Termination -----

  /** A step of the broker or of a handler that is not a fault. */
  predicate Work(a: Action)
  {
    match a
    case ADeliver(_) => true
    case AInsertDedup(_) => true
    case ALockOrder(_) => true
    case ACommitSeen(_) => true
    case AUpdateOrder(_) => true
    case AFailWork(_) => true
    case ACommitWork(_) => true
    case ARepublish(_, _) => true
    case AAck(_) => true
    case AExpire(_) => true
    case _ => false
  }

  /** The steps left for a copy: attempts still allowed, then the distance to the end of the handler. */
  function Weight(k: Config, token: Token): nat
  {
    var left := if token.copy.attempt <= Limit(k) then Limit(k) - token.copy.attempt else 0;
    match token.place
    case DeadLetters => 0
    case Settled => 1
    case Rejected => 12 * left + 13
    case Updated => 12 * left + 17
    case OrderLocked(_) => 12 * left + 18
    case DedupInserted => 12 * left + 19
    case Delivered => 12 * left + 20
    case ProcessQueue => 12 * left + 21
    case RetryQueue => 12 * left + 22
  }

  /** The most one copy can weigh. */
  function Top(k: Config): nat
  {
    12 * Limit(k) + 22
  }

  ghost function WeightOf(k: Config, tokens: map<TokenId, Token>): nat -> int
  {
    t => if t in tokens then Weight(k, tokens[t]) else 0
  }

  ghost function Potential(k: Config, tokens: map<TokenId, Token>): int
  {
    Sum(tokens.Keys, WeightOf(k, tokens))
  }

  lemma PotentialOfChange(k: Config, tokens: map<TokenId, Token>, t: TokenId, token: Token)
    requires t in tokens
    ensures Potential(k, tokens[t := token]) == Potential(k, tokens) - Weight(k, tokens[t]) + Weight(k, token)
  {
    hide Weight;
    assert tokens[t := token].Keys == tokens.Keys;
    SumChange(tokens.Keys, WeightOf(k, tokens), WeightOf(k, tokens[t := token]), t);
  }

  lemma PotentialOfAdd(k: Config, tokens: map<TokenId, Token>, t: TokenId, token: Token)
    requires t !in tokens
    ensures Potential(k, tokens[t := token]) == Potential(k, tokens) + Weight(k, token)
  {
    hide Weight;
    assert tokens[t := token].Keys == tokens.Keys + {t};
    SumAdd(tokens.Keys, WeightOf(k, tokens), WeightOf(k, tokens[t := token]), t);
  }

  lemma PotentialOfRemove(k: Config, tokens: map<TokenId, Token>, t: TokenId)
    requires t in tokens
    ensures Potential(k, tokens - {t}) == Potential(k, tokens) - Weight(k, tokens[t])
  {
    PotentialOfAdd(k, tokens - {t}, t, tokens[t]);
    assert (tokens - {t})[t := tokens[t]] == tokens;
  }

  lemma PotentialNonNegative(k: Config, tokens: map<TokenId, Token>)
    ensures Potential(k, tokens) >= 0
  {
    SumNonNegative(tokens.Keys, WeightOf(k, tokens));
  }

  /** Handing a rejected copy on costs less than it had left. */
  lemma RepublishDescends(k: Config, s: State, t: TokenId, u: TokenId, s': State)
    requires Republish(k, s, t, u, s') && s.tokens[t].copy.attempt <= Limit(k)
    ensures Potential(k, s'.tokens) < Potential(k, s.tokens)
  {
    var settled := s.tokens[t].(place := Settled);
    var next := Republished(k, s.tokens[t].copy);
    assert Weight(k, settled) + Weight(k, next) < Weight(k, s.tokens[t]);
    PotentialOfChange(k, s.tokens, t, settled);
    PotentialOfAdd(k, s.tokens[t := settled], u, next);
  }

  lemma MoveDescends(k: Config, s: State, a: Action, s': State)
    requires WorkerStep(k, s, a, s') && Work(a) && !a.ARepublish? && !a.AAck?
    ensures a.t in s.tokens && s'.tokens == s.tokens[a.t := s'.tokens[a.t]]
    ensures Weight(k, s'.tokens[a.t]) < Weight(k, s.tokens[a.t])
  {
    hide Limit;
  }

  lemma WorkDescends(k: Config, s: State, a: Action, s': State)
    requires Inv(k, s) && WorkerStep(k, s, a, s') && Work(a)
    ensures Potential(k, s'.tokens) < Potential(k, s.tokens)
  {
    hide Inv, Potential, Limit;
    TokensArePublished(k, s);
    if a.ARepublish? {
      RepublishDescends(k, s, a.t, a.u, s');
    } else if a.AAck? {
      PotentialOfRemove(k, s.tokens, a.t);
    } else {
      MoveDescends(k, s, a, s');
      PotentialOfChange(k, s.tokens, a.t, s'.tokens[a.t]);
    }
  }

  /** The steps that put a copy into the process queue from outside the broker's own routing. */
  predicate Brings(a: Action)
  {
    a.APublish? || a.ARedeliver? || a.ALoseChannel?
  }

  /** A redelivery or a publication adds at most one full weight; every other step of the system adds nothing. */
  lemma OtherStepsAdd(k: Config, s: State, a: Action, s': State)
    requires Inv(k, s) && Step(k, s, a, s') && !Work(a)
    ensures Potential(k, s'.tokens) <= Potential(k, s.tokens) + if Brings(a) then Top(k) else 0
  {
    if a.ARedeliver? {
      hide Inv, Potential;
      PotentialOfChange(k, s.tokens, a.t, s'.tokens[a.t]);
    } else if a.ALoseChannel? {
      hide Inv, Potential;
      var Token(copy, place) := s.tokens[a.t];
      PotentialOfChange(k, s.tokens, a.t, Orphan(copy, place));
      PotentialOfAdd(k, s.tokens[a.t := Orphan(copy, place)], a.u, s'.tokens[a.u]);
    } else if a.AVanish? {
      hide Inv, Potential;
      PotentialOfRemove(k, s.tokens, a.t);
    } else if a.APublish? {
      hide Inv, Potential;
      PotentialOfAdd(k, s.tokens, a.t, s'.tokens[a.t]);
    } else {
      hide Inv, Potential, ReservationStep, PaymentStep;
      CallsLeaveTokens(k, s, a, s');
    }
  }

  function WorkSteps(actions: seq<Action>): nat
  {
    if actions == [] then 0
    else WorkSteps(actions[..|actions| - 1]) + if Work(actions[|actions| - 1]) then 1 else 0
  }

  /** Publications and faults: what a run brings into the queues. */
  function Inflow(actions: seq<Action>): nat
  {
    if actions == [] then 0
    else
      var last := actions[|actions| - 1];
      Inflow(actions[..|actions| - 1]) + if Brings(last) then 1 else 0
  }

  /**
   * Retry termination: the queue and worker steps of any run, whatever else is interleaved, number at
   * most the potential at the start plus a constant per publication and per fault.
   */
  lemma {:induction false} WorkIsBounded(k: Config, states: seq<State>, actions: seq<Action>)
    requires Run(k, states, actions) && Inv(k, states[0])
    ensures WorkSteps(actions) + Potential(k, states[|actions|].tokens) <= Potential(k, states[0].tokens) + Top(k) * Inflow(actions)
    ensures WorkSteps(actions) <= Potential(k, states[0].tokens) + Top(k) * Inflow(actions)
  {
    hide Inv, Step, Potential, Top;
    PotentialNonNegative(k, states[|actions|].tokens);
    if actions != [] {
      var n := |actions| - 1;
      WorkIsBounded(k, states[..n + 1], actions[..n]);
      RunKeepsInv(k, states, actions, n);
      BoundedStep(k, states[n], actions[n], states[n + 1], Inflow(actions[..n]));
    }
  }

  lemma BoundedStep(k: Config, s: State, a: Action, s': State, inflow: nat)
    requires Inv(k, s) && Step(k, s, a, s')
    ensures (if Work(a) then 1 else 0) + Potential(k, s'.tokens) + Top(k) * inflow
         <= Potential(k, s.tokens) + Top(k) * (inflow + if Brings(a) then 1 else 0)
  {
    hide Inv, Potential, ReservationStep, PaymentStep, Top;
    assert Top(k) * (inflow + 1) == Top(k) * inflow + Top(k);
    if Work(a) {
      WorkIsWorkerStep(k, s, a, s');
      WorkDescends(k, s, a, s');
    } else {
      OtherStepsAdd(k, s, a, s');
    }
  }

  lemma WorkIsWorkerStep(k: Config, s: State, a: Action, s': State)
    requires Step(k, s, a, s') && Work(a)
    ensures WorkerStep(k, s, a, s')
  {
    hide WorkerStep;
  }
}
