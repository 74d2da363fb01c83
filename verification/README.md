# Order fulfilment: a model and its proofs

The repository takes an order, reserves stock in one database transaction, authorizes a payment over gRPC,
compensates when that fails, publishes one message when it succeeds, and lets a worker process the message at
least once.  No single function keeps these promises: they hold of the database tables, the payments store,
the queues, the concurrent requests and the concurrent handlers taken together.  This project models that system
as one state machine, proves an inductive invariant of it, and draws the promises from the invariant.

## Layout

| file | what it holds |
|---|---|
| `Common.dfy` | identifiers, and sums over finite sets |
| `OrderPolicy.dfy` | aggregation and the order plan: the loops, the functions they compute, what the functions mean |
| `Cents.dfy` | the conversion of prices to cents and the running total in floating point |
| `Payments.dfy` | the payments store as a class over two maps, and its behaviour over any history of calls |
| `Ledger.dfy` | the tables, and the committed transactions as atomic events (reserve, pay, release, process) |
| `Protocol.dfy` | the state machine: 37 small steps of calls, payments, broker and handlers |
| `Invariant.dfy`, `Preservation.dfy`, `Frames.dfy` | the inductive invariant, one preservation lemma per step, and what each group of steps leaves alone |
| `Theorems.dfy`, `Agreement.dfy`, `Answers.dfy`, `Outcomes.dfy`, `Replays.dfy` | safety over states and runs, which order a payment names, which answer is given when and what it means, replays |
| `Queue.dfy`, `Progress.dfy` | counting copies without faults, the termination measure, the queues never block |
| `Broker.dfy` | the service's publications, acks and nacks keep the broker's queues equal to the protocol's copies |
| `Solo.dfy`, `Witness.dfy` | calls and handlers that run alone reach their end; three concrete runs |
| `Database.dfy`, `RabbitService.dfy`, `OrdersService.dfy`, `OrdersWorker.dfy` | the classes, with loops and fields as the source has them, proved to have the effects of the atomic events |

The four layers meet as follows.  The loops of the policy equal the functions the state machine uses.  The
transactions of `OrdersService` and `OrdersWorker`, run by one caller, have exactly the effect of the atomic
events of `Ledger`.  The state machine breaks the same transactions into single statements that interleave in
any order, and `Theorems.RunIsSerializable` shows that what it commits is again those atomic events, one at a
time in commit order.  What `Ledger` proves of event sequences therefore holds of every run.

## The state machine

A call's uncommitted work (locked rows as read, new row values, inserted order and items) is part of its stage;
a handler's is the place of its message copy.  A commit moves that work into the tables; a crash, a rollback or
an abort forgets it.  A lock is held by whichever stage or place says so.

| steps | source |
|---|---|
| Begin, CheckUser, FindExisting, MissExisting | `src/modules/orders/orders.service.ts` 121-168 |
| LockRow, MakePlan, WriteRow | `src/modules/orders/orders.service.ts` 170-186 |
| InsertOrder, HitUniqueKey, InsertItem, CommitCreate | `src/modules/orders/orders.service.ts` 188-208 |
| Resolve, ResolveNone | `src/modules/orders/orders.service.ts` 267-293 |
| SendAuthorize, ServeAuthorize, ReceivePayment, FailPayment | `src/modules/orders/orders.service.ts` 217-233, `src/payments/payments.store.ts` 25-53 |
| ReadForRelease, MarkFailed, ReturnItem, CommitRelease | `src/modules/orders/orders.service.ts` 301-330 |
| RecordPayment, Publish | `src/modules/orders/orders.service.ts` 235-257 |
| Deliver, InsertDedup, LockOrder, CommitSeen, UpdateOrder, FailWork, CommitWork, Republish, Ack | `src/worker/orders.worker.ts` 49-147 |
| Expire, Redeliver, LoseChannel, Vanish | `src/rabbit/rabbit.service.ts` 87-95 and 124-143, `src/worker/orders.worker.ts` 62-109 |
| Abort | a crash, a lost connection, a deadlock or any other error in the orders service |

A handler and the copy it was given part ways when a channel is lost: the broker queues the copy again while the
handler, an orphan from then on, may still commit its transaction, but can neither acknowledge nor publish.  A
crash of the worker process ends the handler as well.

A request to the payments service and its answer are separate from the call that waits for them: the call may
give up before the server records, or after, and the server may still record after the call has compensated.

### Assumptions about the environment

- Postgres at READ COMMITTED: a statement sees committed rows; `FOR UPDATE` and `UPDATE` lock rows until the
  transaction ends; a unique insert waits for a concurrent holder of the key and then fails or proceeds.
- A publication that returns is stored by the broker; an unacknowledged copy of a dead channel is queued again;
  declaring a queue that exists with other arguments is an error.
- Generated identifiers are new.  The payments process does not restart.
- Users, orders and products are never deleted, and stock and prices change only through orders.
- Configuration is fixed over a run; `maxAttempts` is any integer, and a negative one allows no retry.

### Modelling choices

- Identifiers are natural numbers and idempotency keys are strings.  Money is an integer number of hundredths;
  `Cents.PriceToCents` and `Cents.FloatPlanIsExact` say when the source's floating-point arithmetic agrees.
- Stock is an unbounded integer; an `int` column that overflows would raise an error, which is an `Abort`.
- A queue is a map from copies' identities to copies, so equal copies count separately, in no order.

## Where the code gives less than one might expect

- **A replay that overlaps the first call can be refused.**  The plan is made before the insert meets the unique
  index, so a call that missed the lookup plans on whatever stock is left.  In
  `Witness.OverlappingReplayCanBeRefused` the call that wins has taken the last unit itself; in
  `Witness.ReplayRefusedBeforeOrderExists` an identical call is refused while an order under another key holds the
  last unit, and the winner comes after.  `Replays.RacingReplayOutcome` gives the exact condition for every call that
  plans while or before another call owns the order: it ends with that order if and only if its lines are
  affordable on the stock committed when it plans.  A call that starts after the order is committed is never
  refused (`Replays.LaterReplaysReuse`).  `README-hm-micro.md` line 55 promises the existing order for every
  repetition.
- **Payments are keyed globally, orders per user.**  Two users who send the same key share one payment record:
  `Witness.SharedKeySharesPayment` is a run in which a processed order of 200 cents carries a payment of 100
  cents made for someone else's order.  `Agreement.PaymentNamesOrderWhenKeyIsNew` gives the exact condition: an
  order's payment was made for that order if and only if the payments service did not know the key when it
  handled the order's request.
- **Two branches are never taken**: the worker's "already processed" commit (`Theorems.AlreadyProcessedNeverSeen`)
  and the "Duplicate idempotency key" answer (`Theorems.DuplicateKeyNeverAnswered`).

## Model

| member | source | states |
|---|---|---|
| OrderPolicy.AggregateItemQuantities | src/modules/orders/order-policy.ts:22-35 | the map holds exactly the ids named in the lines, each with its quantity over all lines |
| OrderPolicy.AggregateTotals | src/modules/orders/order-policy.ts:22-35 | each requested id occurs once as a key; its total is the sum over its lines, and 0 for any other id |
| OrderPolicy.KeysInOrderOfAppearance | src/modules/orders/order-policy.ts:27-32 | iteration runs over products in the order in which the lines first name them |
| OrderPolicy.KeysInLineOrder | src/modules/orders/order-policy.ts:27-32 | of two products in the map the one first named by an earlier line comes first |
| OrderPolicy.ByIdIsLast | src/modules/orders/order-policy.ts:42-44 | a row is found by its id, and of several with one id the last |
| OrderPolicy.BuildOrderPlan | src/modules/orders/order-policy.ts:37-71 | the loops compute the plan function; it succeeds iff every id exists and its total fits the stock, and then charges the lines; a refusal lists each absent id once in line order, or the first short product with its true figures |
| OrderPolicy.PlanMeaning | src/modules/orders/order-policy.ts:46-70 | a plan exists iff every requested product exists with stock for all lines together; the amount over the map equals the sum over the original lines; "missing" iff some product is absent |
| OrderPolicy.RefusalMeaning | src/modules/orders/order-policy.ts:46-65 | "missing" lists exactly the absent products, each once, in the order in which lines first name them; "insufficient" names the first short product in that order with the true requested and available figures |
| OrderPolicy.AggregatedCentsAreLineCents | src/modules/orders/order-policy.ts:54-68 | charging the aggregated totals equals charging line by line |
| OrderPolicy.PlanLocal | src/modules/orders/order-policy.ts:42-68 | the plan depends only on the rows of the requested products |
| OrderPolicy.PermutationKeepsPlan | src/modules/orders/order-policy.ts:22-71 | reordering lines keeps verdict, missing products, totals and amount |
| OrderPolicy.SplitKeepsPlan | src/modules/orders/order-policy.ts:22-71 | splitting a line in two keeps verdict, missing products, totals and amount |
| Cents.PriceToCents | src/modules/orders/order-policy.ts:67 | for every numeric(10,2) price n/100 the two roundings of Number(price) * 100 followed by Math.round give exactly n |
| Cents.MathRoundIsNearest | src/modules/orders/order-policy.ts:67 | Math.round gives a nearest integer, and the greater one at a tie |
| Cents.FloatTotalIsExact | src/modules/orders/order-policy.ts:54-68 | the running total over integer charges is exact while charges and partial sums stay within 2^53 |
| Cents.FloatPlanIsExact | src/modules/orders/order-policy.ts:22-71 | from price text and line quantities through every rounding, the aggregated quantities and the total are exactly the plan's while they stay within 2^53 |
| Cents.SafeTotalIsEnough | src/modules/orders/order-policy.ts:54-68 | with no negative price it suffices that the final total is within 2^53 |
| Payments.PaymentsStore.Authorize | src/payments/payments.store.ts:25-53 | the new maps and the answer are those of the store function; without a key or with a new one the record carries the order, amount and currency asked for; a known key changes nothing; no earlier entry changes |
| Payments.AuthorizeKeepsValid | src/payments/payments.store.ts:31-52 | one call keeps the two maps consistent, adds a record iff the key is not indexed, and changes no entry |
| Payments.HistoryIsConsistent | src/payments/payments.store.ts:31-52 | after any calls every indexed id has a record, the index holds exactly the keys used, and records number the distinct keys plus the calls without a key |
| Payments.RecordsNeverChange | src/payments/payments.store.ts:49-50 | records and index entries never change once made |
| Payments.EqualKeysEqualAnswers | src/payments/payments.store.ts:32-38 | two calls with one non-empty key get the same record, whatever lies between them and whatever else they ask |
| Payments.AnswerNamesOwnCall | src/payments/payments.store.ts:32-52 | a call gets a record of its own, with its order, amount and currency, iff no earlier call used its key |
| Payments.LookupMatchesAnswers | src/payments/payments.store.ts:49-57 | a status lookup finds an id iff some call answered with it, and then the very record of that answer |
| Ledger.ItemsMirrorLines | src/modules/orders/orders.service.ts:196-206 | the inserted items carry per product what the lines asked for and cost what the lines cost |
| Ledger.ItemOfEachLine | src/modules/orders/orders.service.ts:196-206 | one item per line, in order, with the line's product and quantity at the row's price |
| Ledger.ReleaseUndoesReserve | src/modules/orders/orders.service.ts:301-329 | giving back item by item returns, per product, exactly what the aggregated decrement took, whatever happened to stock in between and with repeated products |
| Ledger.EventKeepsSound | src/modules/orders/orders.service.ts:170-208 | every committed transaction keeps stock conserved and non-negative, keys unique, status and payment consistent, and dedup rows matching processed orders |
| Ledger.LawfulLogIsSound | src/modules/orders/orders.service.ts:170-330 | after any sequence of allowed transactions from the initial tables all of this holds |
| Ledger.EventKeepsOrder | src/modules/orders/order.entity.ts:31-32 | no transaction changes an order's user, key or items, a status other than pending, or a recorded payment |
| Ledger.SettledOnce | src/modules/orders/orders.service.ts:312-317 | in any sequence of transactions an order is processed or released at most once |
| Ledger.MessageCommittedOnce | src/modules/orders/processed-message.entity.ts:9-16 | in any sequence two dedup rows differ in message and in order |
| Ledger.ReservedOnce | src/modules/orders/order.entity.ts:16 | in any sequence stock is reserved at most once per user and key |
| Ledger.FailedOrderIsUndone | src/modules/orders/orders.service.ts:301-329 | a failed order was reserved once and released later, and the two changes of every product cancel |
| Preservation.CommitIsReserve | src/modules/orders/orders.service.ts:170-208 | whatever interleaved since its locks, what a create transaction commits is the atomic reservation on the tables as committed at that moment, and the plan's amount is what its items cost |
| Preservation.CommitIsRelease | src/modules/orders/orders.service.ts:301-329 | the same for the compensation: its increments amount to the atomic release on the tables at commit, although it read the order without a lock |
| Preservation.CommitIsProcess | src/worker/orders.worker.ts:66-107 | the same for the worker: the dedup row and the status change are the atomic processing of a pending, paid order |
| Preservation.HandledOrderIsPending | src/worker/orders.worker.ts:73-105 | while a handler holds its dedup row, its order exists, is paid and pending, and its message has no committed row |
| Preservation.StepKeepsInv | src/modules/orders/orders.service.ts:116-330 | each of the 37 steps keeps the invariant |
| Preservation.ReachableInv | src/modules/orders/orders.service.ts:116-330 | the invariant holds in every reachable state |
| Theorems.StepIsAtomic | src/modules/orders/orders.service.ts:170-208 | every step either leaves the tables alone or has exactly the effect of one allowed atomic event |
| Theorems.RunIsSerializable | src/modules/orders/orders.service.ts:170-330 | however steps interleave, the tables are those of running the committed transactions one at a time in commit order, so no absolute stock write loses an increment |
| Theorems.VerdictIsCurrent | src/modules/orders/orders.service.ts:170-177 | a plan made on locked rows has the verdict of the tables committed at that moment |
| Theorems.StockIsConserved | src/modules/orders/orders.service.ts:182-206 | in every reachable state stock plus the quantities of all orders that have not failed is the initial stock, and stock is not negative |
| Theorems.OneOrderPerKey | src/modules/orders/order.entity.ts:16 | in every reachable state there is one order per user and key, whatever raced |
| Theorems.StockTakenOncePerKey | src/modules/orders/orders.service.ts:144-198 | along a run stock is taken at most once per user and key |
| Theorems.OrderOnlySettles | src/modules/orders/orders.service.ts:312-317 | along a run an order leaves pending at most once and keeps its owner, key, items and payment |
| Theorems.OrderSettledOnce | src/worker/orders.worker.ts:85-105 | along a run an order is processed once or released once, never both, although neither writer checks for the other |
| Theorems.CopiesNamePaidOrders | src/modules/orders/orders.service.ts:243-257 | every copy anywhere names an existing, paid order that has not failed; copies share a message iff they share an order |
| Theorems.OpenOrdersHaveNoCopies | src/modules/orders/orders.service.ts:217-257 | while a call still has its order to settle no copy for that order exists anywhere |
| Theorems.ProcessedMatchesDedup | src/worker/orders.worker.ts:66-107 | the processed orders are exactly those named in processed_messages, one row each, each for a message published for that order |
| Theorems.AlreadyProcessedNeverSeen | src/worker/orders.worker.ts:85-94 | the branch for an order processed before is never taken |
| Theorems.DuplicateKeyNeverAnswered | src/modules/orders/orders.service.ts:272-293 | after a unique violation the lookup always finds the winner's order |
| Theorems.NoMessageIsLost | src/worker/orders.worker.ts:107-143 | from publication on, the message has its row or a live copy queued, waiting, in flight or dead-lettered, across crashes at any point |
| Theorems.AttemptsAreBounded | src/worker/orders.worker.ts:126-143 | no copy exceeds the attempt limit and dead-lettered copies have reached it |
| Theorems.ProcessedOrdersArePaid | src/modules/orders/orders.service.ts:217-238 | a processed order carries the id of an authorized record, which names an order with its key and was priced at that order's items; the order named has the same user only if it is this one |
| Theorems.PaymentNamesItsOrder | src/modules/orders/orders.service.ts:217-238 | if no other user shares the order's key, the record names the order and its amount is the sum over its stored items |
| Agreement.AnswerNamesOrderWhenKeyIsNew | src/payments/payments.store.ts:31-52 | when the service handles a request, the payment it answers with was made for the asking order, at its amount, iff its key is new to the store |
| Agreement.PaymentNamesOrderWhenKeyIsNew | src/modules/orders/orders.service.ts:217-238 | along a run, the payment recorded on an order names that order iff its key was new when its request was handled |
| Agreement.PaidOrderWasServed | src/modules/orders/orders.service.ts:217-238 | every paid order had its own request handled, so that condition decides for all of them |
| Agreement.StorePersists | src/payments/payments.store.ts:49-50 | along a run payment records and their keys are only added |
| Agreement.RecordsAreInCurrency | src/modules/orders/orders.service.ts:219-224 | every record of a reachable store is authorized, under its own id and in the configured currency |
| Outcomes.AnswerWithoutOrderLeavesNoTrace | src/modules/orders/orders.service.ts:177-194 | a call that is refused or reuses an order changed nothing but its own progress in any of its steps |
| Outcomes.UncommittedCallLeavesNoTrace | src/modules/orders/orders.service.ts:131-208 | so did a call that has not committed, whether it was answered, aborted by an error, a crash or a deadlock at any point, or is open: rollback leaves nothing, and the payments service is not asked |
| Outcomes.RefusedPaymentLeavesOneFailedOrder | src/modules/orders/orders.service.ts:225-233 | after a committed compensation the user and key have exactly one order: failed, without payment, message or copy |
| Outcomes.FailedOrderHasNoStockEffect | src/modules/orders/orders.service.ts:319-328 | along a run the release of a failed order undid its reservation product by product |
| Outcomes.CreatedCallIsPaidAndPublished | src/modules/orders/orders.service.ts:235-266 | an answer `reused: false` means a paid order, not failed, with exactly one published message, which is not lost |
| Answers.BadRequestsAreRefused | src/modules/orders/orders.service.ts:121-127 | in every reachable state a call is answered with a bad request iff it has no key or no items |
| Answers.UnknownUsersAreRefused | src/modules/orders/orders.service.ts:134-142 | a valid call that ends without a crash is answered with a missing user iff its user is unknown |
| Answers.ReusedAtLookup | src/modules/orders/orders.service.ts:144-168 | whoever reuses an order found it by a lookup, at the start or after a unique violation, and answers with the payment it had at that lookup |
| Replays.LaterReplaysReuse | src/modules/orders/orders.service.ts:144-168 | a call that starts after the order is committed, whatever became of the call that made it, ends, unless it crashes, with `reused: true`, that order and the payment the order had at its lookup |
| Replays.LaterReplaysAgree | src/modules/orders/orders.service.ts:144-168 | a call that starts after `reused: false` was answered ends, unless it crashes, with `reused: true`, the same order and exactly the same payment |
| Replays.OneOwnerPerKey | src/modules/orders/orders.service.ts:188-208 | of all calls for one user and key at most one is about to create, settles or has answered with an order as its own |
| Replays.OthersReuse | src/modules/orders/orders.service.ts:272-290 | every other call for that user and key that answers with an order reuses this one, with payment null or the order's |
| Replays.AnswersAgree | src/modules/orders/orders.service.ts:272-290 | only one call per user and key ever answers `reused: false`; the others that answer with an order name the same one, with payment null or the same |
| Replays.RacingReplayOutcome | src/modules/orders/orders.service.ts:170-198 | a call that overlaps the one that owns the order, whether it plans before or after that order is committed, ends with the order iff its lines are affordable on the stock at its plan; otherwise it gets the plan's refusal |
| Queue.ExactlyOneToken | src/worker/orders.worker.ts:66-143 | without crash, nack or lost channel, a published message is either in processed_messages or in exactly one live copy |
| Queue.HandledAtMostLimit | src/worker/orders.worker.ts:126-143 | without crash, nack or lost channel, a message is handed to a handler at most maxAttempts + 1 times |
| Queue.DeadLetterLeavesOrderPending | src/worker/orders.worker.ts:138-143 | without crash, nack or lost channel, the order of a dead-lettered message is paid and still pending |
| Queue.OnlyFailuresAreRetried | src/worker/orders.worker.ts:110-121 | as long as no handler's work fails, whatever crashes, nacks, lost channels and duplicates occur, no copy is ever rejected, retried or dead-lettered |
| Queue.RejectedCopyIsHandedOn | src/worker/orders.worker.ts:126-143 | below the limit a rejected copy waits in the retry queue one attempt further; at the limit it is dead-lettered as it is |
| Queue.WorkDescends | src/worker/orders.worker.ts:126-143 | every queue or handler step that is not a fault lowers a measure over attempts left and stage of each copy |
| Queue.WorkIsBounded | src/rabbit/rabbit.service.ts:90-95 | in any run the number of such steps is bounded by the measure at the start plus a constant per publication and per fault |
| Progress.StuckMeansConsumed | src/rabbit/rabbit.service.ts:90-95 | no queue or handler step is possible iff all remaining copies are dead-lettered, and then every published message is consumed or dead-lettered |
| Progress.QueuesDrain | src/worker/orders.worker.ts:66-143 | from every state of the invariant the queues can be drained by fault-free work within the measure |
| Solo.SoloReserve | src/modules/orders/orders.service.ts:170-208 | a call with nobody in its way can run from its lookup to its commit, with exactly the effect of the atomic reservation |
| Solo.SoloComplete | src/modules/orders/orders.service.ts:217-266 | and from its commit through payment to its answer and one queued message |
| Solo.SoloRelease | src/modules/orders/orders.service.ts:225-330 | and from a failed payment through the compensation |
| Solo.SoloWork | src/worker/orders.worker.ts:66-109 | a handler with nobody in its way can run from delivery to its ack with exactly the atomic processing |
| Solo.SoloDuplicate | src/worker/orders.worker.ts:110-121 | a queued copy whose message has its row reaches its ack with tables and other copies unchanged |
| Witness.OverlappingReplayCanBeRefused | src/modules/orders/orders.service.ts:170-198 | a reachable state in which a replay was refused although the order with its user and key exists |
| Witness.ReplayRefusedBeforeOrderExists | src/modules/orders/orders.service.ts:170-198 | a run in which one of two identical calls is refused while no order with their key exists, and the other then creates it |
| Witness.SharedKeySharesPayment | src/payments/payments.store.ts:31-38 | a reachable state in which a processed order carries another user's payment of a different amount |
| Database.Database.SelectForUpdate | src/modules/orders/orders.service.ts:171-175 | the existing rows among the ids, each with its current value |
| OrdersService.OrdersService.TakeStock | src/modules/orders/orders.service.ts:182-186 | the written rows are the planned products, each lowered by its total |
| OrdersService.OrdersService.InsertItems | src/modules/orders/orders.service.ts:196-206 | one item per line in order, at the locked price |
| OrdersService.OrdersService.DistinctProducts | src/modules/orders/orders.service.ts:170 | each id named by the lines once, and no others |
| OrdersService.OrdersService.FindExisting | src/modules/orders/orders.service.ts:144-147 | finds an order of the user with the key iff there is one |
| OrdersService.OrdersService.Reserve | src/modules/orders/orders.service.ts:131-208 | unknown user, reuse at the lookup, the plan's refusal, reuse after a unique violation, or exactly the atomic reservation on the tables other connections left; only the last changes a table |
| OrdersService.OrdersService.FailOrderAndReleaseStock | src/modules/orders/orders.service.ts:301-330 | exactly the atomic release, or nothing for an absent or failed order; an item whose product is gone is skipped |
| OrdersService.OrdersService.CreateOrder | src/modules/orders/orders.service.ts:116-266 | exactly when each answer is given, with other connections at work between lookup and locks; `reused: true` names the order and payment of the tables; `reused: false` means reserved, paid and one message queued; a failed payment leaves the product rows as they were and one failed order; other answers change nothing |
| OrdersService.PlacedProducts | src/modules/orders/orders.service.ts:182-206 | the compensation of a reservation just made gives back the original rows |
| OrdersWorker.OrdersWorker.RunTransaction | src/worker/orders.worker.ts:62-122 | a duplicate iff the message has its row, seen before iff its order is processed, success iff the order is open and nothing goes wrong; then the row alone, or the row and the status; otherwise no change |
| OrdersWorker.OrdersWorker.Handle | src/worker/orders.worker.ts:49-147 | for each case of tables and trouble: whether it throws, the new tables, and that only a failure is sent on, to the retry queue below the limit and to the dead-letter queue at it; one ack unless it throws |
| OrdersWorker.OrdersWorker.Consume | src/rabbit/rabbit.service.ts:130-142 | the same cases around the handler: a thrown copy is queued again, any other is settled, and none stays unacknowledged |
| OrdersWorker.CoursesSpelledOut | src/worker/orders.worker.ts:62-143 | what each ending comes to in tables and queues, by the row, the order and the trouble found |
| OrdersWorker.ConsumedIsNotLost | src/worker/orders.worker.ts:107-143 | whatever the tables and whatever goes wrong, a consumed copy has its row or a copy of its message is in a queue |
| OrdersWorker.RouteIsRepublished | src/worker/orders.worker.ts:126-143 | attempt + 1 under the retry key below the limit, the same copy under the dead-letter key at the limit, as the protocol's step has it |
| RabbitService.RabbitService.AssertTopology | src/rabbit/rabbit.service.ts:78-100 | succeeds iff no queue exists with other durability, time-to-live or dead-letter key, then has three queues, three bindings and the retry queue dead-lettering to process; messages are kept either way |
| RabbitService.RabbitService.PublishJson | src/rabbit/rabbit.service.ts:102-115 | the copy goes to the queue bound to the key and to no other |
| RabbitService.RabbitService.ExpireRetry | src/rabbit/rabbit.service.ts:90-95 | an expired copy moves from the retry queue by its dead-letter key to the process queue |
| Broker.StepMirrored | src/rabbit/rabbit.service.ts:102-153 | each step of the system does to the broker exactly what the service's publish, ack, nack or the broker's delivery and expiry for it does, starting from queues that hold the protocol's copies |
| Broker.RunMirrored | src/rabbit/rabbit.service.ts:78-153 | along every run the three queues and the unacknowledged copies hold each copy as often as the protocol has it there |
| Broker.RoutedToItsSpot | src/worker/orders.worker.ts:126-143 | publishing under the handler's routing key puts the next copy in the queue where the protocol puts it |

## Left out

- NestJS modules, controllers, guards, DTO decorators, the exception filter, logging, metrics and health checks: wiring.
- Of the DTO, only the emptiness check of `createOrder` is modelled; quantities are natural numbers, so 0 is allowed as well.
- `getOrder`, `findOrders` and the GraphQL resolvers: reads; filtering and ordering happen in the database.
- The product data loader, the files module with S3, users and authentication.
- `GetPaymentStatus` over gRPC, `Capture` and `Refund`: stubs.  Transport, deadlines in time and gRPC codes: a call to the payments service is answered, or fails before or after the server recorded.
- HTTP mapping of payment errors: `PaymentRefused` stands for all of them.
- Whether a failed order has no authorized payment: the code does not give it (a deadline after the server recorded), and neither does the model.
- Liveness that the code does not give: a crash between commit and publication leaves a pending order without a message; a dead-lettered order stays pending; a message that cannot be parsed is requeued without end and is not modelled.
- Postgres deadlock detection: an `Abort` or a `FailWork`.  Deadlocks among calls are not excluded, so `QueuesDrain` is about the queues and handlers alone.
- The prefetch limit of 10, the length of the retry delay and the worker's sleep: the order of steps does not depend on them.
- Timestamps, titles, images, correlation ids and the handler column of `processed_messages`.
- OrdersService.OrdersService.CreateOrder: other connections commit only between its lookup and its locks; crashes and every other interleaving are steps of the protocol.
- OrdersService.OrdersService.FailOrderAndReleaseStock: runs in one go; its interleavings are steps of the protocol.
- OrdersWorker.OrdersWorker.Handle: a copy whose payload cannot be parsed, and a crash, are not among its troubles; a crash is the step Redeliver in the protocol.
- RabbitService.RabbitService.AssertTopology: the durability of the exchange and the prefetch limit.
- OrderPolicy.BuildOrderPlan: works on integer hundredths; the floating-point run of the same loops is Cents.FloatPlanIsExact.
- Cents.FloatPlanIsExact: sums above 2^53 are not characterised.
