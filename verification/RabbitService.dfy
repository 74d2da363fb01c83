/**
 * The broker as the service sets it up: a direct exchange, three durable queues, and a retry queue whose
 * expired messages are dead-lettered back to the process queue.
 */
module RabbitService {
  import opened Common
  import opened Protocol

  // orders.process, orders.retry.5s and orders.dlq; the routing keys are orders.process, orders.retry and orders.dlq.
  datatype QueueName = PROCESS_QUEUE | RETRY_QUEUE | DLQ_QUEUE

  datatype RoutingKey = RK_PROCESS | RK_RETRY | RK_DLQ

  datatype QueueArgs = QueueArgs(durable: bool, messageTtl: Option<int>, deadLetterKey: Option<RoutingKey>)

  function Bound(key: RoutingKey): QueueName
  {
    match key
    case RK_PROCESS => PROCESS_QUEUE
    case RK_RETRY => RETRY_QUEUE
    case RK_DLQ => DLQ_QUEUE
  }

  /** How the service declares a queue: only the retry queue has a time-to-live and a dead-letter key. */
  function Declaration(name: QueueName, retryDelayMs: int): QueueArgs
  {
    if name == RETRY_QUEUE then QueueArgs(true, Some(retryDelayMs), Some(RK_PROCESS)) else QueueArgs(true, None, None)
  }

  type Queues = map<QueueName, multiset<Copy>>

  function Messages(queues: Queues, name: QueueName): multiset<Copy>
  {
    if name in queues then queues[name] else multiset{}
  }

  function Sent(queues: Queues, name: QueueName, copy: Copy): Queues
  {
    queues[name := Messages(queues, name) + multiset{copy}]
  }

  function Removed(queues: Queues, name: QueueName, copy: Copy): Queues
  {
    queues[name := Messages(queues, name) - multiset{copy}]
  }

  /** The same messages everywhere; queues may have been declared. */
  ghost predicate Keeps(after: Queues, before: Queues)
  {
    before.Keys <= after.Keys && forall name :: Messages(after, name) == Messages(before, name)
  }

  /** No queue of ours exists with other arguments. */
  ghost predicate NothingElseDeclared(declared: map<QueueName, QueueArgs>, retryDelayMs: int)
  {
    forall name :: name in declared ==> declared[name] == Declaration(name, retryDelayMs)
  }

  lemma DeclaredAlike(declared: map<QueueName, QueueArgs>, retryDelayMs: int)
    ensures NothingElseDeclared(declared, retryDelayMs) <==>
      && (PROCESS_QUEUE in declared ==> declared[PROCESS_QUEUE] == QueueArgs(true, None, None))
      && (RETRY_QUEUE in declared ==> declared[RETRY_QUEUE] == QueueArgs(true, Some(retryDelayMs), Some(RK_PROCESS)))
      && (DLQ_QUEUE in declared ==> declared[DLQ_QUEUE] == QueueArgs(true, None, None))
  {
    if !NothingElseDeclared(declared, retryDelayMs) {
      var name :| name in declared && declared[name] != Declaration(name, retryDelayMs);
      assert name == PROCESS_QUEUE || name == RETRY_QUEUE || name == DLQ_QUEUE;
    }
  }

  lemma KeepsItself(queues: Queues)
    ensures Keeps(queues, queues)
  {}

  lemma KeepsOn(after: Queues, mid: Queues, before: Queues)
    requires Keeps(after, mid) && Keeps(mid, before)
    ensures Keeps(after, before)
  {}

  lemma AllNamed(declared: map<QueueName, QueueArgs>, bindings: map<RoutingKey, QueueName>, retryDelayMs: int)
    requires {PROCESS_QUEUE, RETRY_QUEUE, DLQ_QUEUE} <= declared.Keys
    requires {RK_PROCESS, RK_RETRY, RK_DLQ} <= bindings.Keys
    requires declared[PROCESS_QUEUE] == declared[DLQ_QUEUE] == QueueArgs(true, None, None)
    requires declared[RETRY_QUEUE] == QueueArgs(true, Some(retryDelayMs), Some(RK_PROCESS))
    requires bindings[RK_PROCESS] == PROCESS_QUEUE && bindings[RK_RETRY] == RETRY_QUEUE && bindings[RK_DLQ] == DLQ_QUEUE
    ensures forall name: QueueName :: name in declared && declared[name] == Declaration(name, retryDelayMs)
    ensures forall key: RoutingKey :: key in bindings && bindings[key] == Bound(key)
  {
    forall name: QueueName
      ensures name in declared
    {
      assert name == PROCESS_QUEUE || name == RETRY_QUEUE || name == DLQ_QUEUE;
    }
    forall key: RoutingKey
      ensures key in bindings && bindings[key] == Bound(key)
    {
      assert key == RK_PROCESS || key == RK_RETRY || key == RK_DLQ;
    }
  }

  class RabbitService {
    const retryDelayMs: int
    // Queue contents, how each queue was declared, and the bindings of the exchange.
    var queues: map<QueueName, multiset<Copy>>
    var declared: map<QueueName, QueueArgs>
    var bindings: map<RoutingKey, QueueName>
    // Copies delivered to a consumer and not yet acknowledged.
    var unacked: multiset<Copy>

    constructor (retryDelayMs: int)
      ensures this.retryDelayMs == retryDelayMs
      ensures queues == map[] && declared == map[] && bindings == map[] && unacked == multiset{}
    {
      this.retryDelayMs := retryDelayMs;
      queues, declared, bindings, unacked := map[], map[], map[], multiset{};
    }

    /** The topology is in place. */
    ghost predicate Ready()
      reads this
    {
      && queues.Keys == declared.Keys
      && (forall name: QueueName :: name in declared && declared[name] == Declaration(name, retryDelayMs))
      && (forall key: RoutingKey :: key in bindings && bindings[key] == Bound(key))
    }

    /** Declaring an existing queue keeps its messages, and fails when its arguments differ. */
    method AssertQueue(name: QueueName, args: QueueArgs) returns (ok: bool)
      requires queues.Keys == declared.Keys
      modifies this`queues, this`declared
      ensures queues.Keys == declared.Keys && Keeps(queues, old(queues))
      ensures ok <==> name in old(declared) ==> old(declared)[name] == args
      ensures declared == if ok then old(declared)[name := args] else old(declared)
    {
      if name in declared {
        return declared[name] == args;
      }
      queues, declared := queues[name := multiset{}], declared[name := args];
      return true;
    }

    /** Declares a queue and binds it to its routing key. */
    method DeclareAndBind(name: QueueName, args: QueueArgs, key: RoutingKey) returns (ok: bool)
      requires queues.Keys == declared.Keys
      modifies this`queues, this`declared, this`bindings
      ensures queues.Keys == declared.Keys && Keeps(queues, old(queues))
      ensures ok <==> name in old(declared) ==> old(declared)[name] == args
      ensures declared == if ok then old(declared)[name := args] else old(declared)
      ensures ok ==> bindings == old(bindings)[key := name]
    {
      ok := AssertQueue(name, args);
      if ok {
        bindings := bindings[key := name];
      }
    }

    /**
     * From any broker that has no queue declared in another way, such as a fresh one or one set up before
     * with the same retry delay, leaves the topology in place; otherwise it fails.  No message is lost.
     */
    method AssertTopology() returns (ok: bool)
      requires queues.Keys == declared.Keys
      modifies this`queues, this`declared, this`bindings
      ensures ok <==> NothingElseDeclared(old(declared), retryDelayMs)
      ensures ok ==> Ready()
      ensures ok ==>
        && declared[PROCESS_QUEUE] == declared[DLQ_QUEUE] == QueueArgs(true, None, None)
        && declared[RETRY_QUEUE] == QueueArgs(true, Some(retryDelayMs), Some(RK_PROCESS))
        && bindings[RK_PROCESS] == PROCESS_QUEUE && bindings[RK_RETRY] == RETRY_QUEUE && bindings[RK_DLQ] == DLQ_QUEUE
      ensures Keeps(queues, old(queues))
    {
      hide Keeps, NothingElseDeclared, Declaration, Bound;
      DeclaredAlike(declared, retryDelayMs);
      KeepsItself(queues);
      ghost var before := queues;
      ok := DeclareAndBind(PROCESS_QUEUE, QueueArgs(true, None, None), RK_PROCESS);
      if !ok {
        return;
      }
      ghost var first := queues;
      ok := DeclareAndBind(RETRY_QUEUE, QueueArgs(true, Some(retryDelayMs), Some(RK_PROCESS)), RK_RETRY);
      KeepsOn(queues, first, before);
      if !ok {
        return;
      }
      ghost var second := queues;
      ok := DeclareAndBind(DLQ_QUEUE, QueueArgs(true, None, None), RK_DLQ);
      KeepsOn(queues, second, before);
      if ok {
        AllNamed(declared, bindings, retryDelayMs);
      }
    }

    /** A direct exchange: the copy goes to the queue bound to its routing key. */
    method PublishJson(routingKey: RoutingKey, copy: Copy)
      requires Ready()
      modifies this`queues
      ensures Ready()
      ensures queues == Sent(old(queues), Bound(routingKey), copy)
    {
      var name := bindings[routingKey];
      queues := queues[name := queues[name] + multiset{copy}];
    }

    /** The broker hands a queued copy to the consumer of the process queue. */
    method Deliver(copy: Copy)
      requires Ready() && copy in queues[PROCESS_QUEUE]
      modifies this`queues, this`unacked
      ensures Ready()
      ensures queues == Removed(old(queues), PROCESS_QUEUE, copy) && unacked == old(unacked) + multiset{copy}
    {
      queues := queues[PROCESS_QUEUE := queues[PROCESS_QUEUE] - multiset{copy}];
      unacked := unacked + multiset{copy};
    }

    method Ack(copy: Copy)
      requires copy in unacked
      modifies this`unacked
      ensures unacked == old(unacked) - multiset{copy}
    {
      unacked := unacked - multiset{copy};
    }

    /** The consumer's rule for a handler that throws: nack with requeue. */
    method Requeue(copy: Copy)
      requires Ready() && copy in unacked
      modifies this`queues, this`unacked
      ensures Ready()
      ensures queues == Sent(old(queues), PROCESS_QUEUE, copy) && unacked == old(unacked) - multiset{copy}
    {
      unacked := unacked - multiset{copy};
      queues := queues[PROCESS_QUEUE := queues[PROCESS_QUEUE] + multiset{copy}];
    }

    /** The retry queue's time-to-live: the copy leaves it and is routed by the dead-letter key. */
    method ExpireRetry(copy: Copy)
      requires Ready() && copy in queues[RETRY_QUEUE]
      modifies this`queues
      ensures Ready()
      ensures queues == Sent(Removed(old(queues), RETRY_QUEUE, copy), PROCESS_QUEUE, copy)
    {
      queues := queues[RETRY_QUEUE := queues[RETRY_QUEUE] - multiset{copy}];
      assert declared[RETRY_QUEUE] == Declaration(RETRY_QUEUE, retryDelayMs);
      PublishJson(declared[RETRY_QUEUE].deadLetterKey.value, copy);
    }
  }
}
