/** The worker's handler as written: one transaction, then an ack, a retry or a dead letter. */
module OrdersWorker {
  import opened Common
  import opened Ledger
  import opened Protocol
  import opened Database
  import opened RabbitService

  /** What the handler publishes after a failed attempt, and under which routing key. */
  function NextRoute(copy: Copy, maxAttempts: int): (RoutingKey, Copy)
  {
    if copy.attempt < maxAttempts then (RK_RETRY, copy.(attempt := copy.attempt + 1)) else (RK_DLQ, copy)
  }

  /** What goes wrong: nothing, the connection, the work between lock and commit, or that and then its rollback. */
  datatype Trouble = NoTrouble | CannotConnect | WorkFails | RollbackFails

  datatype Ending = Duplicate | Failure | SeenBefore | Success

  /** How a handler that has a connection ends, given the tables it finds. */
  function Course(db: Db, copy: Copy, trouble: Trouble): Ending
  {
    if copy.message in db.processed then Duplicate
    else if copy.order !in db.orders then Failure
    else if db.orders[copy.order].status == Processed then SeenBefore
    else if trouble.NoTrouble? then Success
    else Failure
  }

  ghost predicate Throws(db: Db, copy: Copy, trouble: Trouble)
  {
    || trouble.CannotConnect?
    || (trouble.RollbackFails? && (Course(db, copy, trouble).Duplicate? || Course(db, copy, trouble).Failure?))
  }

  function TablesAfter(db: Db, copy: Copy, ending: Ending): Db
    requires ending.Success? ==> copy.order in db.orders
  {
    match ending
    case Success => Apply(db, Process(copy.message, copy.order))
    case SeenBefore => db.(processed := db.processed[copy.message := copy.order])
    case _ => db
  }

  /** Only a failure is published, under the key of its route. */
  function QueuesAfter(queues: Queues, copy: Copy, maxAttempts: int, ending: Ending): Queues
  {
    if ending.Failure? then
      var (key, next) := NextRoute(copy, maxAttempts);
      Sent(queues, Bound(key), next)
    else queues
  }

  /** What the course of a handler comes to, spelled out in the tables and the queues. */
  lemma CoursesSpelledOut(db: Db, queues: Queues, copy: Copy, trouble: Trouble, maxAttempts: int)
    requires !trouble.CannotConnect?
    ensures var ending := Course(db, copy, trouble);
      var (tables, after) := (TablesAfter(db, copy, ending), QueuesAfter(queues, copy, maxAttempts, ending));
      && (copy.message in db.processed ==>
            tables == db && after == queues && (Throws(db, copy, trouble) <==> trouble.RollbackFails?))
      && (copy.message !in db.processed && copy.order in db.orders && db.orders[copy.order].status == Processed ==>
            && tables == db.(processed := db.processed[copy.message := copy.order]) && after == queues
            && !Throws(db, copy, trouble))
      && (trouble.NoTrouble? && copy.message !in db.processed && copy.order in db.orders && db.orders[copy.order].status != Processed ==>
            && tables == db.(processed := db.processed[copy.message := copy.order],
                             orders := db.orders[copy.order := db.orders[copy.order].(status := Processed)])
            && after == queues && !Throws(db, copy, trouble))
      && (copy.message !in db.processed
          && (copy.order !in db.orders || (db.orders[copy.order].status != Processed && !trouble.NoTrouble?)) ==>
            && tables == db && (Throws(db, copy, trouble) <==> trouble.RollbackFails?)
            && after == if copy.attempt < maxAttempts then Sent(queues, RETRY_QUEUE, copy.(attempt := copy.attempt + 1))
                        else Sent(queues, DLQ_QUEUE, copy))
  {
    hide Sent;
  }

  lemma EndsOrThrows(db: Db, copy: Copy, trouble: Trouble)
    ensures var ending := Course(db, copy, trouble);
      && (ending.Success? ==> copy.order in db.orders)
      && (Throws(db, copy, trouble) <==> trouble.CannotConnect? || ((ending.Duplicate? || ending.Failure?) && trouble.RollbackFails?))
  {}

  lemma UnconnectedThrows(db: Db, copy: Copy, trouble: Trouble)
    ensures trouble.CannotConnect? ==> Throws(db, copy, trouble)
  {}

  lemma OnlyFailuresArePublished(queues: Queues, copy: Copy, maxAttempts: int)
    ensures forall ending: Ending :: !ending.Failure? ==> QueuesAfter(queues, copy, maxAttempts, ending) == queues
  {}

  class OrdersWorker {
    const db: Database
    const rabbit: RabbitService
    const maxAttempts: int

    constructor (db: Database, rabbit: RabbitService, maxAttempts: int)
      ensures this.db == db && this.rabbit == rabbit && this.maxAttempts == maxAttempts
    {
      this.db, this.rabbit, this.maxAttempts := db, rabbit, maxAttempts;
    }

    /** The transaction of the handler: its tables are committed, or rolled back for a duplicate or a failure. */
    method RunTransaction(copy: Copy, trouble: Trouble) returns (ending: Ending)
      modifies db`orders, db`processed
      ensures ending == Course(old(db.Contents()), copy, trouble)
      ensures db.Contents() == TablesAfter(old(db.Contents()), copy, ending)
      ensures ending.Duplicate? <==> copy.message in old(db.processed)
      ensures ending.SeenBefore? <==>
        copy.message !in old(db.processed) && copy.order in old(db.orders) && old(db.orders)[copy.order].status == Processed
      ensures ending.Success? <==>
        && trouble.NoTrouble? && copy.message !in old(db.processed)
        && copy.order in old(db.orders) && old(db.orders)[copy.order].status != Processed
      ensures ending.Duplicate? || ending.Failure? ==> db.Contents() == old(db.Contents())
      ensures ending.SeenBefore? ==> db.Contents() == old(db.Contents()).(processed := old(db.processed)[copy.message := copy.order])
      ensures ending.Success? ==>
        db.Contents() == old(db.Contents()).(
          processed := old(db.processed)[copy.message := copy.order],
          orders := old(db.orders)[copy.order := old(db.orders)[copy.order].(status := Processed)])
    {
      hide Taken, Returned, ItemsOf;
      // The transaction's own view; nothing reaches the tables before the commit.
      var processed, orders := db.processed, db.orders;
      if copy.message in processed {
        return Duplicate;
      }
      processed := processed[copy.message := copy.order];
      if copy.order !in orders {
        return Failure;
      }
      if orders[copy.order].status == Processed {
        db.processed := processed;
        return SeenBefore;
      }
      if !trouble.NoTrouble? {
        return Failure;
      }
      orders := orders[copy.order := orders[copy.order].(status := Processed)];
      db.processed, db.orders := processed, orders;
      return Success;
    }

    /**
     * Handles one delivered copy.  Either it throws, having changed no table and published nothing, or the copy
     * is acknowledged, and after a failure sent on first.
     */
    method Handle(copy: Copy, trouble: Trouble) returns (thrown: bool)
      requires rabbit.Ready() && copy in rabbit.unacked
      modifies db`orders, db`processed, rabbit`queues, rabbit`unacked
      ensures rabbit.Ready()
      ensures thrown <==> Throws(old(db.Contents()), copy, trouble)
      ensures thrown ==> db.Contents() == old(db.Contents()) && rabbit.queues == old(rabbit.queues) && rabbit.unacked == old(rabbit.unacked)
      ensures !thrown ==>
        var ending := Course(old(db.Contents()), copy, trouble);
        && db.Contents() == TablesAfter(old(db.Contents()), copy, ending)
        && rabbit.queues == QueuesAfter(old(rabbit.queues), copy, maxAttempts, ending)
        && rabbit.unacked == old(rabbit.unacked) - multiset{copy}
      // The outcome, case by case.
      ensures trouble.CannotConnect? ==> thrown
      ensures !trouble.CannotConnect? && copy.message in old(db.processed) ==>
        && (thrown <==> trouble.RollbackFails?)
        && db.Contents() == old(db.Contents()) && rabbit.queues == old(rabbit.queues)
      ensures (!trouble.CannotConnect? && copy.message !in old(db.processed)
               && copy.order in old(db.orders) && old(db.orders)[copy.order].status == Processed) ==>
        && !thrown && rabbit.queues == old(rabbit.queues)
        && db.Contents() == old(db.Contents()).(processed := old(db.processed)[copy.message := copy.order])
      ensures (trouble.NoTrouble? && copy.message !in old(db.processed)
               && copy.order in old(db.orders) && old(db.orders)[copy.order].status != Processed) ==>
        && !thrown && rabbit.queues == old(rabbit.queues)
        && db.Contents() == old(db.Contents()).(
             processed := old(db.processed)[copy.message := copy.order],
             orders := old(db.orders)[copy.order := old(db.orders)[copy.order].(status := Processed)])
      ensures (!trouble.CannotConnect? && copy.message !in old(db.processed)
               && (copy.order !in old(db.orders) || (old(db.orders)[copy.order].status != Processed && !trouble.NoTrouble?))) ==>
        && (thrown <==> trouble.RollbackFails?) && db.Contents() == old(db.Contents())
        && rabbit.queues ==
             if thrown then old(rabbit.queues)
             else if copy.attempt < maxAttempts then Sent(old(rabbit.queues), RETRY_QUEUE, copy.(attempt := copy.attempt + 1))
             else Sent(old(rabbit.queues), DLQ_QUEUE, copy)
    {
      hide TablesAfter, QueuesAfter, Course, Apply, Sent, NextRoute, Throws;
      UnconnectedThrows(db.Contents(), copy, trouble);
      EndsOrThrows(db.Contents(), copy, trouble);
      if !trouble.CannotConnect? {
        CoursesSpelledOut(db.Contents(), rabbit.queues, copy, trouble, maxAttempts);
      }
      OnlyFailuresArePublished(rabbit.queues, copy, maxAttempts);
      if trouble.CannotConnect? {
        return true;
      }
      var ending := RunTransaction(copy, trouble);
      if (ending.Duplicate? || ending.Failure?) && trouble.RollbackFails? {
        return true;
      }
      if ending.Failure? {
        HandOn(copy);
      }
      rabbit.Ack(copy);
      return false;
    }

    /** A retry while attempts are left, else the dead-letter queue. */
    method HandOn(copy: Copy)
      requires rabbit.Ready()
      modifies rabbit`queues
      ensures rabbit.Ready() && rabbit.queues == QueuesAfter(old(rabbit.queues), copy, maxAttempts, Failure)
    {
      hide Sent;
      if copy.attempt < maxAttempts {
        rabbit.PublishJson(RK_RETRY, copy.(attempt := copy.attempt + 1));
      } else {
        rabbit.PublishJson(RK_DLQ, copy);
      }
    }

    /** The consumer around the handler: a copy whose handler threw is queued again, any other is settled. */
    method Consume(copy: Copy, trouble: Trouble)
      requires rabbit.Ready() && copy in rabbit.unacked
      modifies db`orders, db`processed, rabbit`queues, rabbit`unacked
      ensures rabbit.Ready() && rabbit.unacked == old(rabbit.unacked) - multiset{copy}
      ensures var (thrown, ending) := (Throws(old(db.Contents()), copy, trouble), Course(old(db.Contents()), copy, trouble));
        && db.Contents() == (if thrown then old(db.Contents()) else TablesAfter(old(db.Contents()), copy, ending))
        && rabbit.queues == (if thrown then Sent(old(rabbit.queues), PROCESS_QUEUE, copy)
                             else QueuesAfter(old(rabbit.queues), copy, maxAttempts, ending))
      // The outcome, case by case.
      ensures trouble.CannotConnect? ==>
        db.Contents() == old(db.Contents()) && rabbit.queues == Sent(old(rabbit.queues), PROCESS_QUEUE, copy)
      ensures !trouble.CannotConnect? && copy.message in old(db.processed) ==>
        && db.Contents() == old(db.Contents())
        && rabbit.queues == if trouble.RollbackFails? then Sent(old(rabbit.queues), PROCESS_QUEUE, copy) else old(rabbit.queues)
      ensures (!trouble.CannotConnect? && copy.message !in old(db.processed)
               && copy.order in old(db.orders) && old(db.orders)[copy.order].status == Processed) ==>
        && rabbit.queues == old(rabbit.queues)
        && db.Contents() == old(db.Contents()).(processed := old(db.processed)[copy.message := copy.order])
      ensures (trouble.NoTrouble? && copy.message !in old(db.processed)
               && copy.order in old(db.orders) && old(db.orders)[copy.order].status != Processed) ==>
        && rabbit.queues == old(rabbit.queues)
        && db.Contents() == old(db.Contents()).(
             processed := old(db.processed)[copy.message := copy.order],
             orders := old(db.orders)[copy.order := old(db.orders)[copy.order].(status := Processed)])
      ensures (!trouble.CannotConnect? && copy.message !in old(db.processed)
               && (copy.order !in old(db.orders) || (old(db.orders)[copy.order].status != Processed && !trouble.NoTrouble?))) ==>
        && db.Contents() == old(db.Contents())
        && rabbit.queues ==
             if trouble.RollbackFails? then Sent(old(rabbit.queues), PROCESS_QUEUE, copy)
             else if copy.attempt < maxAttempts then Sent(old(rabbit.queues), RETRY_QUEUE, copy.(attempt := copy.attempt + 1))
             else Sent(old(rabbit.queues), DLQ_QUEUE, copy)
    {
      hide TablesAfter, QueuesAfter, Course, Throws, Sent;
      UnconnectedThrows(db.Contents(), copy, trouble);
      var thrown := Handle(copy, trouble);
      if thrown {
        rabbit.Requeue(copy);
      }
    }
  }

  /** Whatever the tables and whatever goes wrong, a consumed copy has its row in processed_messages or a copy of its message in a queue. */
  lemma ConsumedIsNotLost(db: Db, queues: Queues, copy: Copy, trouble: Trouble, maxAttempts: int)
    ensures var (thrown, ending) := (Throws(db, copy, trouble), Course(db, copy, trouble));
      var tables := if thrown then db else TablesAfter(db, copy, ending);
      var after := if thrown then Sent(queues, PROCESS_QUEUE, copy) else QueuesAfter(queues, copy, maxAttempts, ending);
      || copy.message in tables.processed
      || exists name, next :: next in Messages(after, name) && next.message == copy.message && next.order == copy.order
  {
    var (key, next) := NextRoute(copy, maxAttempts);
    if Throws(db, copy, trouble) {
      assert copy in Messages(Sent(queues, PROCESS_QUEUE, copy), PROCESS_QUEUE);
    } else if Course(db, copy, trouble).Failure? {
      assert next in Messages(Sent(queues, Bound(key), next), Bound(key));
    }
  }

  /** The handler's routing is the protocol's: the queue bound to its routing key is where the protocol puts the new copy. */
  lemma RouteIsRepublished(k: Config, copy: Copy)
    ensures var ((key, next), token) := (NextRoute(copy, k.maxAttempts), Republished(k, copy));
      && token.copy == next
      && (token.place.RetryQueue? <==> Bound(key) == RETRY_QUEUE)
      && (token.place.DeadLetters? <==> Bound(key) == DLQ_QUEUE)
  {}
}
