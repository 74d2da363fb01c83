/**
 * The broker's queues and the protocol's copies: whatever steps the system takes, the queues and the
 * unacknowledged copies that the service's own publications, acks and nacks leave behind hold exactly the
 * copies the protocol has in each place.
 */
module Broker {
  import opened Common
  import opened Sums
  import opened Protocol
  import opened Invariant
  import opened Frames
  import opened Theorems
  import opened RabbitService
  import opened OrdersWorker
  import opened Queue

  datatype Broker = Broker(queues: Queues, unacked: multiset<Copy>)

  datatype Spot = InQueue(name: QueueName) | Unacked

  function Copies(b: Broker, spot: Spot): multiset<Copy>
  {
    match spot
    case InQueue(name) => Messages(b.queues, name)
    case Unacked => b.unacked
  }

  function SpotOf(place: Place): Spot
  {
    match place
    case ProcessQueue => InQueue(PROCESS_QUEUE)
    case RetryQueue => InQueue(RETRY_QUEUE)
    case DeadLetters => InQueue(DLQ_QUEUE)
    case _ => Unacked
  }

  /** The protocol has the copy in this spot of the broker; an orphan is nowhere. */
  predicate Lies(token: Token, spot: Spot)
  {
    token.Token? && spot == SpotOf(token.place)
  }

  function One(token: Token, spot: Spot, copy: Copy): int
  {
    if token.copy == copy && Lies(token, spot) then 1 else 0
  }

  ghost function OneOf(tokens: map<TokenId, Token>, spot: Spot, copy: Copy): nat -> int
  {
    t => if t in tokens then One(tokens[t], spot, copy) else 0
  }

  ghost function Tally(tokens: map<TokenId, Token>, spot: Spot, copy: Copy): int
  {
    Sum(tokens.Keys, OneOf(tokens, spot, copy))
  }

  /** Each spot of the broker holds each copy as often as the protocol has it there. */
  ghost predicate Mirrors(b: Broker, tokens: map<TokenId, Token>)
  {
    forall spot, copy :: Copies(b, spot)[copy] == Tally(tokens, spot, copy)
  }

  lemma TallyOfChange(tokens: map<TokenId, Token>, t: TokenId, token: Token, spot: Spot, copy: Copy)
    requires t in tokens
    ensures Tally(tokens[t := token], spot, copy) == Tally(tokens, spot, copy) - One(tokens[t], spot, copy) + One(token, spot, copy)
  {
    hide One;
    assert tokens[t := token].Keys == tokens.Keys;
    SumChange(tokens.Keys, OneOf(tokens, spot, copy), OneOf(tokens[t := token], spot, copy), t);
  }

  lemma TallyOfAdd(tokens: map<TokenId, Token>, t: TokenId, token: Token, spot: Spot, copy: Copy)
    requires t !in tokens
    ensures Tally(tokens[t := token], spot, copy) == Tally(tokens, spot, copy) + One(token, spot, copy)
  {
    hide One;
    assert tokens[t := token].Keys == tokens.Keys + {t};
    SumAdd(tokens.Keys, OneOf(tokens, spot, copy), OneOf(tokens[t := token], spot, copy), t);
  }

  lemma TallyOfRemove(tokens: map<TokenId, Token>, t: TokenId, spot: Spot, copy: Copy)
    requires t in tokens
    ensures Tally(tokens - {t}, spot, copy) == Tally(tokens, spot, copy) - One(tokens[t], spot, copy)
  {
    hide One, Tally;
    TallyOfAdd(tokens - {t}, t, tokens[t], spot, copy);
    assert (tokens - {t})[t := tokens[t]] == tokens;
  }

  /** A copy the protocol has in a spot is there for the broker to take. */
  lemma CopyIsThere(b: Broker, tokens: map<TokenId, Token>, t: TokenId, spot: Spot)
    requires Mirrors(b, tokens) && t in tokens && Lies(tokens[t], spot)
    ensures tokens[t].copy in Copies(b, spot)
  {
    var copy := tokens[t].copy;
    TallyOfRemove(tokens, t, spot, copy);
    SumNonNegative((tokens - {t}).Keys, OneOf(tokens - {t}, spot, copy));
    assert Copies(b, spot)[copy] == Tally(tokens, spot, copy);
  }

  /** `after` differs from `before` as leaving with `was` and coming back with `now` makes it differ. */
  ghost predicate Swapped(after: Broker, before: Broker, was: Token, now: Token)
  {
    forall spot, copy :: Copies(after, spot)[copy] == Copies(before, spot)[copy] - One(was, spot, copy) + One(now, spot, copy)
  }

  ghost predicate Gained(after: Broker, before: Broker, now: Token)
  {
    forall spot, copy :: Copies(after, spot)[copy] == Copies(before, spot)[copy] + One(now, spot, copy)
  }

  ghost predicate Lost(after: Broker, before: Broker, was: Token)
  {
    forall spot, copy :: Copies(after, spot)[copy] == Copies(before, spot)[copy] - One(was, spot, copy)
  }

  lemma MirrorChange(b: Broker, after: Broker, tokens: map<TokenId, Token>, t: TokenId, token: Token)
    requires Mirrors(b, tokens) && t in tokens && Swapped(after, b, tokens[t], token)
    ensures Mirrors(after, tokens[t := token])
  {
    hide Tally, One, Copies;
    forall spot, copy
      ensures Copies(after, spot)[copy] == Tally(tokens[t := token], spot, copy)
    {
      TallyOfChange(tokens, t, token, spot, copy);
    }
  }

  lemma MirrorAdd(b: Broker, after: Broker, tokens: map<TokenId, Token>, t: TokenId, token: Token)
    requires Mirrors(b, tokens) && t !in tokens && Gained(after, b, token)
    ensures Mirrors(after, tokens[t := token])
  {
    hide Tally, One, Copies;
    forall spot, copy
      ensures Copies(after, spot)[copy] == Tally(tokens[t := token], spot, copy)
    {
      TallyOfAdd(tokens, t, token, spot, copy);
    }
  }

  lemma MirrorRemove(b: Broker, after: Broker, tokens: map<TokenId, Token>, t: TokenId)
    requires Mirrors(b, tokens) && t in tokens && Lost(after, b, tokens[t])
    ensures Mirrors(after, tokens - {t})
  {
    hide Tally, One, Copies;
    forall spot, copy
      ensures Copies(after, spot)[copy] == Tally(tokens - {t}, spot, copy)
    {
      TallyOfRemove(tokens, t, spot, copy);
    }
  }

  function Put(b: Broker, spot: Spot, copy: Copy): Broker
  {
    match spot
    case InQueue(name) => b.(queues := Sent(b.queues, name, copy))
    case Unacked => b.(unacked := b.unacked + multiset{copy})
  }

  function Take(b: Broker, spot: Spot, copy: Copy): Broker
  {
    match spot
    case InQueue(name) => b.(queues := Removed(b.queues, name, copy))
    case Unacked => b.(unacked := b.unacked - multiset{copy})
  }

  lemma PutGains(b: Broker, token: Token)
    requires token.Token?
    ensures Gained(Put(b, SpotOf(token.place), token.copy), b, token)
  {
    hide SpotOf;
  }

  lemma TakeLoses(b: Broker, token: Token)
    requires token.Token? && token.copy in Copies(b, SpotOf(token.place))
    ensures Lost(Take(b, SpotOf(token.place), token.copy), b, token)
  {
    hide SpotOf;
  }

  /** The broker moves a copy from its spot to the spot of its new place. */
  lemma MoveMirrored(b: Broker, tokens: map<TokenId, Token>, t: TokenId, place: Place)
    requires Mirrors(b, tokens) && t in tokens && tokens[t].Token?
    ensures var Token(copy, was) := tokens[t];
      Mirrors(Put(Take(b, SpotOf(was), copy), SpotOf(place), copy), tokens[t := Token(copy, place)])
  {
    hide Mirrors, One, Copies, Put, Take, SpotOf;
    var Token(copy, was) := tokens[t];
    CopyIsThere(b, tokens, t, SpotOf(was));
    TakeLoses(b, tokens[t]);
    PutGains(Take(b, SpotOf(was), copy), Token(copy, place));
    MirrorChange(b, Put(Take(b, SpotOf(was), copy), SpotOf(place), copy), tokens, t, Token(copy, place));
  }

  // ----- What each step does to the broker -----

  function Published(b: Broker, key: RoutingKey, copy: Copy): Broker
  {
    b.(queues := Sent(b.queues, Bound(key), copy))
  }

  function DeliveredTo(b: Broker, copy: Copy): Broker
  {
    Broker(Removed(b.queues, PROCESS_QUEUE, copy), b.unacked + multiset{copy})
  }

  function Acked(b: Broker, copy: Copy): Broker
  {
    b.(unacked := b.unacked - multiset{copy})
  }

  function Requeued(b: Broker, copy: Copy): Broker
  {
    Broker(Sent(b.queues, PROCESS_QUEUE, copy), b.unacked - multiset{copy})
  }

  function Expired(b: Broker, copy: Copy): Broker
  {
    b.(queues := Sent(Removed(b.queues, RETRY_QUEUE, copy), PROCESS_QUEUE, copy))
  }

  /** The broker after a step: the effects of RabbitService's PublishJson, Deliver, Ack, Requeue and ExpireRetry. */
  function After(k: Config, b: Broker, s: State, a: Action): Broker
  {
    match a
    case APublish(c, m, _) =>
      if c in s.calls && s.calls[c].stage.PaymentRecorded? then Published(b, RK_PROCESS, Copy(m, s.calls[c].stage.order, 0)) else b
    case ADeliver(t) => if t in s.tokens then DeliveredTo(b, s.tokens[t].copy) else b
    case ARepublish(t, _) =>
      if t in s.tokens then
        var (key, next) := NextRoute(s.tokens[t].copy, k.maxAttempts);
        Published(b, key, next)
      else b
    case AAck(t) => if t in s.tokens && s.tokens[t].Token? then Acked(b, s.tokens[t].copy) else b
    case AExpire(t) => if t in s.tokens then Expired(b, s.tokens[t].copy) else b
    case ARedeliver(t) => if t in s.tokens then Requeued(b, s.tokens[t].copy) else b
    case ALoseChannel(t, _) => if t in s.tokens then Requeued(b, s.tokens[t].copy) else b
    case _ => b
  }

  /** Losing a channel is, for the broker, the same as a nack: the copy is back in its queue and nobody's to acknowledge. */
  lemma LoseChannelMirrored(b: Broker, tokens: map<TokenId, Token>, t: TokenId, u: TokenId)
    requires Mirrors(b, tokens) && t in tokens && tokens[t].Token? && InFlight(tokens[t].place) && u !in tokens
    ensures var Token(copy, place) := tokens[t];
      Mirrors(Requeued(b, copy), tokens[t := Orphan(copy, place)][u := Token(copy, ProcessQueue)])
  {
    hide Mirrors, One, Copies;
    var Token(copy, place) := tokens[t];
    CopyIsThere(b, tokens, t, Unacked);
    TakeLoses(b, tokens[t]);
    OrphanIsNowhere(copy, place);
    MirrorChange(b, Acked(b, copy), tokens, t, Orphan(copy, place));
    PutGains(Acked(b, copy), Token(copy, ProcessQueue));
    MirrorAdd(Acked(b, copy), Requeued(b, copy), tokens[t := Orphan(copy, place)], u, Token(copy, ProcessQueue));
  }

  lemma OrphanIsNowhere(copy: Copy, place: Place)
    ensures forall spot, other :: One(Orphan(copy, place), spot, other) == 0
  {}

  /** Publishing under the handler's routing key puts the new copy where the protocol has it. */
  lemma RoutedToItsSpot(k: Config, b: Broker, copy: Copy)
    ensures var ((key, next), token) := (NextRoute(copy, k.maxAttempts), Republished(k, copy));
      Published(b, key, next) == Put(b, SpotOf(token.place), token.copy)
  {}

  lemma SameSpot(b: Broker, was: Token, now: Token)
    requires was.Token? && now.Token? && was.copy == now.copy && SpotOf(was.place) == SpotOf(now.place)
    ensures Swapped(b, b, was, now)
  {}

  lemma RepublishMirrored(k: Config, b: Broker, s: State, t: TokenId, u: TokenId, s': State)
    requires Mirrors(b, s.tokens) && Republish(k, s, t, u, s')
    ensures Mirrors(After(k, b, s, ARepublish(t, u)), s'.tokens)
  {
    hide Mirrors, One, Copies, Swapped, Gained, Put, Republished, NextRoute;
    var settled, next := s.tokens[t].(place := Settled), Republished(k, s.tokens[t].copy);
    SameSpot(b, s.tokens[t], settled);
    MirrorChange(b, b, s.tokens, t, settled);
    NextIsToken(k, s.tokens[t].copy);
    PutGains(b, next);
    RoutedToItsSpot(k, b, s.tokens[t].copy);
    MirrorAdd(b, After(k, b, s, ARepublish(t, u)), s.tokens[t := settled], u, next);
  }

  lemma NextIsToken(k: Config, copy: Copy)
    ensures Republished(k, copy).Token?
  {}

  lemma AckMirrored(k: Config, b: Broker, s: State, t: TokenId, s': State)
    requires Mirrors(b, s.tokens) && Ack(s, t, s')
    ensures Mirrors(After(k, b, s, AAck(t)), s'.tokens)
  {
    hide Mirrors;
    if s.tokens[t].Token? {
      CopyIsThere(b, s.tokens, t, Unacked);
    }
    MirrorRemove(b, After(k, b, s, AAck(t)), s.tokens, t);
  }

  lemma VanishMirrored(b: Broker, s: State, t: TokenId, s': State)
    requires Mirrors(b, s.tokens) && Vanish(s, t, s')
    ensures Mirrors(b, s'.tokens)
  {
    hide Mirrors;
    MirrorRemove(b, b, s.tokens, t);
  }

  lemma PublishMirrored(k: Config, b: Broker, s: State, c: CallId, m: MessageId, t: TokenId, s': State)
    requires Mirrors(b, s.tokens) && Publish(s, c, m, t, s')
    ensures Mirrors(After(k, b, s, APublish(c, m, t)), s'.tokens)
  {
    hide Mirrors, One, Copies, Gained;
    PutGains(b, s'.tokens[t]);
    MirrorAdd(b, After(k, b, s, APublish(c, m, t)), s.tokens, t, s'.tokens[t]);
  }

  /** A step inside a handler moves nothing that the broker can see. */
  lemma HandlingMirrored(k: Config, b: Broker, s: State, a: Action, s': State)
    requires Mirrors(b, s.tokens) && WorkerStep(k, s, a, s')
    requires a.AInsertDedup? || a.ALockOrder? || a.ACommitSeen? || a.AUpdateOrder? || a.AFailWork? || a.ACommitWork?
    ensures Mirrors(b, s'.tokens)
  {
    hide Mirrors;
    assert s'.tokens == s.tokens[a.t := s'.tokens[a.t]];
    assert Swapped(b, b, s.tokens[a.t], s'.tokens[a.t]);
    MirrorChange(b, b, s.tokens, a.t, s'.tokens[a.t]);
  }

  lemma QueuedAreNotOrphans(k: Config, s: State)
    requires Inv(k, s)
    ensures forall t :: t in s.tokens && !InFlight(s.tokens[t].place) ==> s.tokens[t].Token?
  {
    hide CallsInv, StoreInv, WireInv, AskInv, LogInv, CarriedInv, MessagesInv;
    assert forall t :: t in s.tokens ==> GoodToken(k, s.db.processed, s.published, s.tokens[t]);
  }

  lemma WorkerMirrored(k: Config, b: Broker, s: State, a: Action, s': State)
    requires Inv(k, s) && WorkerStep(k, s, a, s') && Mirrors(b, s.tokens)
    ensures Mirrors(After(k, b, s, a), s'.tokens)
  {
    hide Inv, Mirrors, NextRoute, Republished;
    QueuedAreNotOrphans(k, s);
    match a {
      case ADeliver(t) => MoveMirrored(b, s.tokens, t, Delivered);
      case ARepublish(t, u) => RepublishMirrored(k, b, s, t, u, s');
      case AAck(t) => AckMirrored(k, b, s, t, s');
      case AExpire(t) => MoveMirrored(b, s.tokens, t, ProcessQueue);
      case ARedeliver(t) => MoveMirrored(b, s.tokens, t, ProcessQueue);
      case ALoseChannel(t, u) => LoseChannelMirrored(b, s.tokens, t, u);
      case AVanish(t) => VanishMirrored(b, s, t, s');
      case _ => HandlingMirrored(k, b, s, a, s');
    }
  }

  /** Each step of the system does to the broker exactly what the service's call for it does. */
  lemma StepMirrored(k: Config, b: Broker, s: State, a: Action, s': State)
    requires Inv(k, s) && Step(k, s, a, s') && Mirrors(b, s.tokens)
    ensures Mirrors(After(k, b, s, a), s'.tokens)
  {
    hide Inv, Mirrors, ReservationStep, WorkerStep;
    if WorkerStep(k, s, a, s') {
      WorkerMirrored(k, b, s, a, s');
    } else if a.APublish? && PaymentStep(k, s, a, s') {
      PublishMirrored(k, b, s, a.c, a.m, a.t, s');
    } else {
      CallsLeaveTokens(k, s, a, s');
      CallActionsLeaveBroker(k, b, s, a, s');
    }
  }

  lemma CallActionsLeaveBroker(k: Config, b: Broker, s: State, a: Action, s': State)
    requires ReservationStep(s, a, s') || (PaymentStep(k, s, a, s') && !a.APublish?)
    ensures After(k, b, s, a) == b
  {
    hide Published, DeliveredTo, Acked, Requeued, Expired, NextRoute;
  }

  /** The broker after the first `n` steps of a run, starting from empty queues. */
  function BrokerAfter(k: Config, states: seq<State>, actions: seq<Action>, n: nat): Broker
    requires n <= |actions| && n <= |states|
  {
    if n == 0 then Broker(map[], multiset{}) else After(k, BrokerAfter(k, states, actions, n - 1), states[n - 1], actions[n - 1])
  }

  /** Along every run the broker's queues and unacknowledged copies are those of the protocol. */
  lemma {:induction false} RunMirrored(k: Config, states: seq<State>, actions: seq<Action>, n: nat)
    requires RunFromInit(k, states, actions) && n <= |actions|
    ensures Mirrors(BrokerAfter(k, states, actions, n), states[n].tokens)
  {
    hide Step, Inv, After;
    if n > 0 {
      hide Mirrors;
      RunMirrored(k, states, actions, n - 1);
      LogIsCommitted(k, states, actions, n - 1);
      StepMirrored(k, BrokerAfter(k, states, actions, n - 1), states[n - 1], actions[n - 1], states[n]);
    }
  }
}
