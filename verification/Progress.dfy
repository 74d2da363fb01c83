/** The queues never get stuck: while a copy is not dead-lettered some handler or broker step is possible. */
module Progress {
  import opened Common
  import opened Sums
  import opened Ledger
  import opened Protocol
  import opened Invariant
  import opened Preservation
  import opened Theorems
  import opened Queue

  /** Some step of the broker or of a handler, not a fault, is possible. */
  ghost predicate CanWork(k: Config, s: State)
  {
    exists a, s' :: Work(a) && WorkerStep(k, s, a, s')
  }

  lemma Works(k: Config, s: State, a: Action, s': State)
    requires Work(a) && WorkerStep(k, s, a, s')
    ensures CanWork(k, s)
  {
    hide WorkerStep, Work;
  }

  lemma OrderOfCopyExists(k: Config, s: State, t: TokenId)
    requires Inv(k, s) && t in s.tokens
    ensures s.tokens[t].copy.order in s.db.orders
  {
    PublishedExist(k, s);
    TokensNamePublished(k, s);
  }

  lemma TokensNamePublished(k: Config, s: State)
    requires Inv(k, s)
    ensures forall t :: t in s.tokens ==>
      s.tokens[t].copy.message in s.published && s.published[s.tokens[t].copy.message] == s.tokens[t].copy.order
  {
    hide CallsInv, StoreInv, WireInv, AskInv, LogInv, CarriedInv, Limit;
    assert forall t :: t in s.tokens ==> GoodToken(k, s.db.processed, s.published, s.tokens[t]);
  }

  /** The holder of an order row can always go on. */
  lemma OrderHolderWorks(k: Config, s: State, t: TokenId)
    requires Inv(k, s) && t in s.tokens && HoldsOrder(s.tokens[t].place)
    ensures CanWork(k, s)
  {
    hide Inv, CanWork;
    var Copy(m, o, _) := s.tokens[t].copy;
    OrderOfCopyExists(k, s, t);
    if s.tokens[t].place == OrderLocked(true) {
      Works(k, s, ACommitSeen(t), Move(s, t, Settled).(db := s.db.(processed := s.db.processed[m := o])));
    } else if s.tokens[t].place == OrderLocked(false) {
      Works(k, s, AUpdateOrder(t), Move(s, t, Updated));
    } else {
      var db := s.db.(processed := s.db.processed[m := o], orders := s.db.orders[o := s.db.orders[o].(status := Processed)]);
      Works(k, s, ACommitWork(t), Move(s, t, Settled).(db := db, log := s.log + [Process(m, o)]));
    }
  }

  /** No compensation holds the row of an order that has a copy. */
  lemma NoCompensationOfCopied(k: Config, s: State, t: TokenId, c: CallId)
    requires Inv(k, s) && t in s.tokens && c in s.calls && s.calls[c].stage.Marked?
    ensures s.calls[c].stage.order != s.tokens[t].copy.order
  {
    hide Inv, WorkOk, HeldOk, OrderOk, Compatible, GrantOk;
    TokensNamePublished(k, s);
    CallIsGood(k, s, c);
  }

  lemma DedupHolderWorks(k: Config, s: State, t: TokenId)
    requires Inv(k, s) && t in s.tokens && HoldsDedup(s.tokens[t].place)
    ensures CanWork(k, s)
  {
    hide Inv, CanWork;
    if HoldsOrder(s.tokens[t].place) {
      OrderHolderWorks(k, s, t);
    } else {
      var o := s.tokens[t].copy.order;
      if u :| u in s.tokens && HoldsOrder(s.tokens[u].place) && s.tokens[u].copy.order == o {
        OrderHolderWorks(k, s, u);
      } else {
        forall c | c in s.calls && s.calls[c].stage.Marked?
          ensures s.calls[c].stage.order != o
        {
          NoCompensationOfCopied(k, s, t, c);
        }
        var place := if o !in s.db.orders then Rejected else OrderLocked(s.db.orders[o].status == Processed);
        Works(k, s, ALockOrder(t), Move(s, t, place));
      }
    }
  }

  /** Waiting for a row or a key never blocks for good: whoever holds it can go on. */
  lemma CopyCanMove(k: Config, s: State, t: TokenId)
    requires Inv(k, s) && t in s.tokens && !s.tokens[t].place.DeadLetters?
    ensures CanWork(k, s)
  {
    hide Inv, CanWork;
    var Copy(m, _, _) := s.tokens[t].copy;
    match s.tokens[t].place {
      case ProcessQueue =>
        Works(k, s, ADeliver(t), Move(s, t, Delivered).(deliveries := s.deliveries[m := Count(s.deliveries, m) + 1]));
      case RetryQueue => Works(k, s, AExpire(t), Move(s, t, ProcessQueue));
      case Settled => Works(k, s, AAck(t), s.(tokens := s.tokens - {t}));
      case Rejected =>
        if s.tokens[t].Orphan? {
          Works(k, s, AAck(t), s.(tokens := s.tokens - {t}));
          return;
        }
        var u := UnusedId(s.tokens.Keys);
        Works(k, s, ARepublish(t, u),
              s.(tokens := s.tokens[t := s.tokens[t].(place := Place.Settled)][u := Republished(k, s.tokens[t].copy)]));
      case Delivered =>
        if u :| u in s.tokens && HoldsDedup(s.tokens[u].place) && s.tokens[u].copy.message == m {
          DedupHolderWorks(k, s, u);
        } else {
          Works(k, s, AInsertDedup(t), Move(s, t, if m in s.db.processed then Place.Settled else DedupInserted));
        }
      case _ => DedupHolderWorks(k, s, t);
    }
  }

  ghost predicate Quiet(s: State)
  {
    forall t :: t in s.tokens ==> s.tokens[t].place.DeadLetters?
  }

  /** Where no more queue work is possible every published message is consumed or dead-lettered, and conversely. */
  lemma StuckMeansConsumed(k: Config, s: State)
    requires Reachable(k, s)
    ensures !CanWork(k, s) <==> Quiet(s)
    ensures Quiet(s) ==> forall m :: m in s.published ==>
      m in s.db.processed || exists t :: t in s.tokens && s.tokens[t].place.DeadLetters? && s.tokens[t].copy.message == m
  {
    hide Reachable, CallsInv, StoreInv, WireInv, AskInv, LogInv, MessagesInv, TokensInv, CanWork;
    ReachableInv(k, s);
    if t :| t in s.tokens && !s.tokens[t].place.DeadLetters? {
      CopyCanMove(k, s, t);
    } else {
      QuietIsStuck(k, s);
      forall m | m in s.published
        ensures m in s.db.processed || exists t :: t in s.tokens && s.tokens[t].place.DeadLetters? && s.tokens[t].copy.message == m
      {
        assert Carried(s.db.processed, s.tokens, m);
      }
    }
  }

  lemma QuietIsStuck(k: Config, s: State)
    requires Quiet(s)
    ensures !CanWork(k, s)
  {
    forall a, s' | Work(a)
      ensures !WorkerStep(k, s, a, s')
    {}
  }

  /** The run uses queue work only, starts in `s`, and ends quiet. */
  ghost predicate DrainingRun(k: Config, s: State, states: seq<State>, actions: seq<Action>)
  {
    && Run(k, states, actions) && states[0] == s
    && (forall i :: 0 <= i < |actions| ==> Work(actions[i]))
    && Quiet(states[|actions|])
  }

  /** From every reachable state the queues can be drained by fault-free work alone, in a bounded number of steps. */
  lemma {:induction false} QueuesDrain(k: Config, s: State) returns (states: seq<State>, actions: seq<Action>)
    requires Inv(k, s)
    ensures DrainingRun(k, s, states, actions)
    ensures |actions| <= Potential(k, s.tokens)
    decreases Potential(k, s.tokens)
  {
    hide Inv, Potential, WorkerStep, Work, CanWork, Quiet;
    PotentialNonNegative(k, s.tokens);
    if CanWork(k, s) {
      var a, s' := SomeWork(k, s);
      WorkDescends(k, s, a, s');
      StepKeepsInv(k, s, a, s');
      PotentialNonNegative(k, s'.tokens);
      var rest, more := QueuesDrain(k, s');
      states, actions := [s] + rest, [a] + more;
    } else {
      StuckIsQuiet(k, s);
      states, actions := [s], [];
    }
  }

  lemma SomeWork(k: Config, s: State) returns (a: Action, s': State)
    requires CanWork(k, s)
    ensures Work(a) && WorkerStep(k, s, a, s')
  {
    hide Work, WorkerStep;
    a, s' :| Work(a) && WorkerStep(k, s, a, s');
  }

  lemma StuckIsQuiet(k: Config, s: State)
    requires Inv(k, s) && !CanWork(k, s)
    ensures Quiet(s)
  {
    hide Inv, CanWork;
    forall t | t in s.tokens
      ensures s.tokens[t].place.DeadLetters?
    {
      if !s.tokens[t].place.DeadLetters? {
        CopyCanMove(k, s, t);
      }
    }
  }
}
