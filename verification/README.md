# The order saga, verified

A Dafny model of how an order travels through catalog-, order-, inventory- and payment-service, and
proofs of what the handlers guarantee together: nobody is charged for a cancelled order, nothing is oversold,
and a run without failures ends with all services in agreement. Compensation is exact inside
inventory-service; across services a lost answer can leave a cancelled order with reserved goods, and the
project says exactly when, and what else failures can leave behind.
`dafny verify dfyconfig.toml` checks the whole project.

## How the model is built

| file | content |
|---|---|
| `domain.dfy` | order lines, demand per product, totals, counting |
| `inventory.dfy` | `reserve`, `confirm`, `release` as functions on the two tables, and the class that computes them in place, with rollback |
| `reserve_test.dfy` | the reserve loop against a test on the whole item list |
| `stock_laws.dfy`, `compensation.dfy` | conservation over runs of requests; undoing a reservation |
| `concurrent_reserve.dfy` | reserve transactions interleaved statement by statement, seeding rows as they go |
| `concurrent_requests.dfy` | reserve, confirm and release interleaved statement by statement, with row locks and with their reads outside the transactions |
| `ordering.dfy` | catalog lookup, pricing, what goods cost, `createOrder` with its outbox row |
| `relay.dfy`, `relay_in_system.dfy` | the outbox relay's consumer, equal to the relay of the composed system |
| `payments.dfy` | one delivery of `payment.requested`, and its journey through the retry queues |
| `saga.dfy` | the composed system: tables, relay, and everything in motion |
| `environment.dfy` | the fault model as laws of single steps |
| `orchestrator.dfy` | the saga handlers as a class, equal to following one task through the composed system |
| `dossier.dfy`, `effects.dfy`, `safety.dfy`, `invariants.dfy` | what a step can change, order by order, and the invariants it keeps |
| `guarantees.dfy` | theorems about every reachable state |
| `single_request.dfy` | what one payment request per order is enough for |
| `repeated_deliveries.dfy` | runs that show which deliveries must be handled once, and the exact conditions |
| `leftovers.dfy`, `leftover_runs.dfy` | what failures can leave of an order, and why goods stay reserved |
| `agreement.dfy`, `final_agreement.dfy`, `endless_retries.dfy` | whether runs without failures end, and that then all services agree |
| `duplicates.dfy` | extra deliveries of payment results change nothing |

The composed system (`Saga.Sys`) holds the databases, the relay's offsets and a list of tasks. A task is a
message in a queue, a handler suspended at an `await`, or an inventory request whose caller has given up;
`Saga.Advance` takes it to its next await under a choice of the environment. An RPC may run and answer, run and
lose its answer, run after its caller has given up, or never run (`Proceed`, then `Proceed` or `Fault`;
`TimeOut`; `Fault`). Status writes and publishes may fail, messages and handler processes may vanish, and payment
results and abandoned requests may be delivered any number of times. A handler that dies before its
acknowledgement gets its message again (`Redeliver`): for `order.created` before the payment request is out, for
`payment.requested` before the gateway's answer is in, after the row is saved, or after the request is parked.
The relay's consumer may stop and join again at any point. An action that is impossible in a state leaves the
state alone, so "for every list of actions" means every run and every interleaving.

## Assumptions

* In the composed system `confirm` and `release` are atomic. In the source both read the reservation outside
  their transaction (inventory.service.ts:176 and 189, 240 and 253). `ConcurrentRequests` has all three handlers
  statement by statement: stock is conserved exactly if no confirm or release of goods commits on a reservation
  that is not RESERVED (`InterleavingConservesIff`), and then the outcome is serial (`InterleavingIsSerial`). One
  confirm or release per order at a time is enough (`ApartIsAtomic`); two confirms at once take the goods twice
  (`ConfirmedTwice`).
* `Config.repeatCreated` says whether `order.created` may be handled again after its handler has gone as far as
  requesting payment or cancelling (a relay that joins again at an older offset, a second delivery);
  `repeatRequested` whether the broker may deliver a queued `payment.requested` twice; `repeatRetried` whether a
  request may be redelivered to a handler that has already published it to a retry queue. Theorems with
  `Once(cfg)` exclude all three. For charge safety, a single payment result, the discharge of `confirm`'s
  precondition, truthful announcements and absorbing terminal statuses, the lemmas whose names end in `Iff`
  in `RepeatedDeliveries` prove that `Once` is exactly what they need.
* A single payment outcome and the discharge of `confirm`'s precondition need less of a given run: that it publishes
  at most one `payment.requested` for the order, which is neither copied nor redelivered after a retry
  (`SingleRequest`). There `order.created` may be handled any number of times.
* Order ids are fresh when an order is placed (database-generated uuids).
* Publishing to the retry exchange and to the DLQ and saving the payment row succeed
  (payment.service.ts:115, 153 and 161 are not caught in the source).
* A seed is a set of stock rows with nothing reserved and a non-negative quantity; a product without a row
  reads as 1000 available, as `ensureStockExists` would make it.

## Where the source and its comments disagree

* payment.service.ts:142-144 says that `x-death` keeps incrementing. The retry publish at 153-157 carries no
  headers, so a message dead-lettered out of a retry queue starts with a count of 1. `HeaderModel` has both
  readings. With the count kept, a request makes at most 3 gateway calls; with it restarted, the DLQ is never
  reached and the calls are unbounded (`CallsBoundedIff`). The work left in the composed system is bounded exactly
  if the count is kept (`DrainsIff`); if it restarts, each transient failure can add six steps (`EveryRunDrains`).
  Safety theorems hold for both.
* outbox-relay.service.ts:18-21 says that an event can no longer be lost. The consumer subscribes with
  `fromBeginning: false` (line 79), which sends a group without a committed offset to the end of the topic, and
  joining commits nothing. A row written before the group first joins, or between that and a restart before the
  first commit, is never published (`PlacedBeforeJoining`, `PlacedBeforeJoiningAgain`). `NothingLostIff` gives the
  exact condition: the group never joins without a committed offset while it has rows to read.
* saga-orchestrator.service.ts:159-175 is the only place that releases goods. A reserve call whose answer is lost or
  late cancels the order at 89-96 without one, and nothing is left to release the goods (`CancelledWithGoods`);
  `CancelledKeepsGoodsIff` gives the exact condition. The idempotency check at payment.service.ts:98-106 is for a
  crash before the acknowledgement; after a crash before the result is published it also keeps the result from
  ever being sent, and nothing is left to complete the paid order (`ChargedForNothing`).
* `confirm` accepts a RELEASED reservation (inventory.service.ts:179-187) and then drives the reserved counter
  below zero (`ReleasedThenConfirmed`). `SagaDischargesConfirm` proves that the saga never asks for
  that of an order with a single payment request.

## Model

| member | source | states |
|---|---|---|
| Domain.UnitsAreTheQuantity | inventory-service/src/inventory/inventory.service.ts:97-100 | the quantity test passes exactly the positive whole numbers, and the counters move by that number |
| Domain.DemandIsAsked | inventory-service/src/inventory/inventory.service.ts:96-119 | what is counted for a product is the sum of the quantities that the request's own lines ask of it |
| Domain.AskedLaws | inventory-service/src/inventory/inventory.service.ts:96-119 | that sum is a line's own quantity for one line, nothing for none, and additive over lists |
| Inventory.InventoryService.EnsureStockExists | inventory-service/src/inventory/inventory.service.ts:277-300 | a missing product gets a row of 1000 available and 0 reserved; an existing row is left alone |
| Inventory.InventoryService.ConditionalUpdate | inventory-service/src/inventory/inventory.service.ts:109-119 | the increment happens exactly if the row exists and has enough free stock, and the affected count says so |
| Inventory.InventoryService.Reserve | inventory-service/src/inventory/inventory.service.ts:68-153 | tables and answer after the loop, with rollback of seeded rows and increments on refusal, are those of the specification; a database error at any statement the loop reaches rolls all back and answers internal_error; a redelivered message is Nacked and changes nothing |
| Inventory.InventoryService.Confirm | inventory-service/src/inventory/inventory.service.ts:164-217 | both counters go down line by line and the status becomes CONFIRMED; missing and confirmed reservations short-circuit; a database error undoes everything and answers internal_error; Nack on redelivery |
| Inventory.InventoryService.Release | inventory-service/src/inventory/inventory.service.ts:228-275 | only the reserved counter goes down, only for a RESERVED reservation; a database error undoes everything and answers internal_error; Nack on redelivery |
| Inventory.RefusalIsFinal | inventory-service/src/inventory/inventory.service.ts:96-124 | once a line is refused, the lines after it do not matter |
| ReserveTest.LoopMeetsTest | inventory-service/src/inventory/inventory.service.ts:96-124 | the loop succeeds iff every quantity is a positive integer and each product's demand over the whole list is at most its free stock; then exactly the demand is added to the reserved counters |
| ReserveTest.RefusalNamesFirstMisfit | inventory-service/src/inventory/inventory.service.ts:98-147 | the refused product is p iff p is the product of the first line whose prefix no longer fits |
| ReserveTest.FreshReserve | inventory-service/src/inventory/inventory.service.ts:95-147 | verdict, counters and reservation row for an order not seen before; a refusal changes neither table, seeded rows included, and its reply names the product of the first misfitting line |
| ReserveTest.ReserveAddsWhatIsAsked | inventory-service/src/inventory/inventory.service.ts:95-134 | in the request's own quantities: granted iff they are positive whole numbers and each product's sum is at most its free stock, and then exactly that sum is added to its reserved counter |
| ReserveTest.NewProductHasAThousand | inventory-service/src/inventory/inventory.service.ts:277-300 | of a product without a row exactly 1 to 1000 units can be reserved, leaving 1000 available and those reserved |
| ReserveTest.VerdictIgnoresOrder | inventory-service/src/inventory/inventory.service.ts:95-134 | permuting the lines changes neither the verdict nor any counter |
| StockLaws.ServeMoves | inventory-service/src/inventory/inventory.service.ts:95-275 | a request changes nothing, or moves every product's counters by the demand of its items |
| StockLaws.ConfirmTakesWhatWasAsked | inventory-service/src/inventory/inventory.service.ts:175-207 | the whole effect of confirm: answer, status, and both counters less exactly what the reservation asked for |
| StockLaws.ReleaseFreesWhatWasAsked | inventory-service/src/inventory/inventory.service.ts:239-265 | the whole effect of release: a RESERVED reservation's goods leave the reserved counter and it becomes RELEASED, anything else is left alone |
| StockLaws.FaultsLeaveNothingHalfDone | inventory-service/src/inventory/inventory.service.ts:95-153 | a database fault leaves a request its whole effect or none with internal_error, and strikes every transaction that would have written something |
| StockLaws.ServeConservesIff | inventory-service/src/inventory/inventory.service.ts:175-207 | a request keeps reserved = RESERVED quantities and available = seed - CONFIRMED quantities iff it does not confirm released goods |
| StockLaws.StockConservation | inventory-service/src/inventory/inventory.service.ts:95-275 | over a whole run from a seed: conserved at every point, with 0 <= reserved <= available, iff the run never confirms released goods |
| StockLaws.ReleasedThenConfirmed | inventory-service/src/inventory/inventory.service.ts:179-207 | reserve, release, confirm of one unit leaves 999 available and -1 reserved |
| StockLaws.ConfirmKeepsFreeStock | inventory-service/src/inventory/inventory.service.ts:189-207 | confirm never changes available - reserved, released reservations included |
| StockLaws.WhatAlwaysSurvives | inventory-service/src/inventory/inventory.service.ts:189-207 | over every run at all: available = seed - CONFIRMED quantities and available - reserved >= 0 |
| Compensation.OtherRequest | inventory-service/src/inventory/inventory.service.ts:85-265 | a request of another order gets the same reply with and without an outstanding reservation and keeps the two stores apart by its items |
| Compensation.ExactCompensation | inventory-service/src/inventory/inventory.service.ts:253-265 | taking a granted reserve and its release out of a run in which nothing was refused in between changes no other reply, no other reservation and no product's effective stock |
| ConcurrentReserve.StepIsSound | inventory-service/src/inventory/inventory.service.ts:104-123 | after any statement of any transaction, seeding included: reserved = start + committed + pending <= available, and a seeded row belongs to one running transaction |
| ConcurrentReserve.StepIsSerial | inventory-service/src/inventory/inventory.service.ts:126-134 | the committed requests, served one by one in commit order, all succeed and give the committed tables, seeded rows included |
| ConcurrentReserve.ConcurrentReservesNeverOversell | inventory-service/src/inventory/inventory.service.ts:104-134 | both of these for any number of transactions over any products under any interleaving with breaks at any point |
| ConcurrentReserve.NextStatement | inventory-service/src/inventory/inventory.service.ts:96-134 | a transaction that is not broken off stands still iff it waits for a seeded row, aborts iff its next line does not fit the free rows or its order has a reservation at the end, and else goes on or commits |
| ConcurrentReserve.AloneCommitsIff | inventory-service/src/inventory/inventory.service.ts:95-134 | a transaction that runs alone commits iff its order is new and its list fits, adding the demand; otherwise no table changes, seeded rows included |
| ConcurrentRequests.CommitIsServe | inventory-service/src/inventory/inventory.service.ts:104-207 | a reserve, confirm or release transaction that commits, its reservation still as its read found it, leaves the tables of the same request served atomically |
| ConcurrentRequests.NextStatement | inventory-service/src/inventory/inventory.service.ts:85-265 | a handler that is not broken off stands still iff it waits for a row, is through without a commit iff for one of the listed reasons, and else starts its transaction, goes to the next line or commits |
| ConcurrentRequests.NobodyGivesUpWithoutReason | inventory-service/src/inventory/inventory.service.ts:85-265 | after any interleaving: a handler gets through without a commit iff serving it would have changed nothing at its read, a line does not fit, or the unique orderId stops it |
| ConcurrentRequests.AloneIsServe | inventory-service/src/inventory/inventory.service.ts:85-265 | a request of any kind handled alone, statement by statement, leaves exactly the tables of the request served atomically, and commits iff it takes effect |
| ConcurrentRequests.StepConservesIff | inventory-service/src/inventory/inventory.service.ts:95-265 | a statement of any handler keeps the committed stock conserved iff it does not commit a confirm or release of goods on a reservation that is not RESERVED |
| ConcurrentRequests.InterleavingConservesIff | inventory-service/src/inventory/inventory.service.ts:95-265 | any interleaving of reserve, confirm and release handlers under row locks, broken off at any point, conserves stock throughout iff no such commit happens |
| ConcurrentRequests.InterleavingIsSerial | inventory-service/src/inventory/inventory.service.ts:95-265 | if every confirm and release that commits still finds what it read, the committed requests served in commit order are all granted and give the committed tables |
| ConcurrentRequests.ApartIsAtomic | inventory-service/src/inventory/inventory.service.ts:176-265 | with one confirm or release per order, no confirm of released goods and any number of reserve requests the reads outside the transactions do no harm |
| ConcurrentRequests.ConfirmedTwice | inventory-service/src/inventory/inventory.service.ts:176-207 | two confirms of one order at once: 998 available and -1 reserved of 1000 and 1 |
| Catalog.CatalogService.Create | catalog-service/src/catalog/catalog.service.ts:35-46 | a new productId is stored, a known one is refused and unchanged |
| Catalog.CatalogService.GetPrices | catalog-service/src/catalog/catalog.service.ts:62-99 | the loop's partition into priced and missing ids; all ids missing if the read fails; no reply on redelivery |
| Catalog.LookUpLaws | catalog-service/src/catalog/catalog.service.ts:62-99 | a known id gets its price and an unknown one is listed, each id in its turn and as often as it is asked for |
| Ordering.PricingIsDirectLookUp | order-service/src/order/order.service.ts:113-145 | getPrices then priceItems is a direct lookup per line, in line order and with repetitions; accepted iff every product is known; a rejection lists the unknown ones; no price is ever undefined |
| Ordering.OrderService.SumUp | order-service/src/order/order.service.ts:55-58 | the accumulated total is the sum of price times quantity |
| Domain.TotalLaws | order-service/src/order/order.service.ts:55-58 | the total of one line is its price times its quantity, of none 0, and totals add up |
| Domain.TotalOfPermutation | order-service/src/order/order.service.ts:55-58 | the order of the lines makes no difference to the total |
| Domain.TotalScales | order-service/src/order/order.service.ts:55-58 | k times the quantities cost k times as much |
| Ordering.TotalIsWorth | order-service/src/order/order.service.ts:55-145 | lines that bear the catalog's prices total what their goods cost at the catalog |
| Ordering.WorthLaws | order-service/src/order/order.service.ts:55-145 | cost at the catalog is price times quantity for a line, 0 for none, and additive |
| Ordering.OrderService.CreateOrder | order-service/src/order/order.service.ts:53-97 | succeeds iff pricing and the transaction do; then a PENDING order at catalog cost and an outbox row with the same customer, lines and total are both written, else neither is |
| OutboxRelay.OutboxRelayService.Connect | order-service/src/outbox-relay/outbox-relay.service.ts:58-121 | nothing once destroyed, disconnected if Kafka is not reachable; a group without a committed offset starts at the end of the topic, another at its offset; joining commits nothing |
| OutboxRelay.OutboxRelayService.EachMessage | order-service/src/outbox-relay/outbox-relay.service.ts:83-107 | a message without value is skipped, one that cannot be parsed throws, any other is unwrapped and published, and is done only if the publish worked; a null is published and then throws |
| OutboxRelay.OutboxRelayService.Consume | order-service/src/outbox-relay/outbox-relay.service.ts:82-113 | stops at the end, at the first message that throws or at the first failing publish, with exactly the messages up to there published, and a null once more |
| OutboxRelay.OutboxRelayService.OnModuleDestroy | order-service/src/outbox-relay/outbox-relay.service.ts:126-129 | the relay is destroyed and its consumer disconnected |
| OutboxRelay.NothingSkipped | order-service/src/outbox-relay/outbox-relay.service.ts:88-107 | rows encoded once or twice: exactly events of rows are published, and none between start and position is skipped |
| RelayInSystem.ConnectIsJoin | order-service/src/outbox-relay/outbox-relay.service.ts:58-80 | connecting is the composed system's RelayJoin |
| RelayInSystem.CommitIsCommit | order-service/src/outbox-relay/outbox-relay.service.ts:58-107 | committing an offset is the composed system's RelayCommit |
| RelayInSystem.ConsumeIsNexts | order-service/src/outbox-relay/outbox-relay.service.ts:82-107 | consuming n rows, encoded either way, is n times RelayNext, with one order.created for each row in outbox order |
| RelayInSystem.ConsumeInStep | order-service/src/outbox-relay/outbox-relay.service.ts:82-113 | the service's own loop, run next to the composed system, ends in the state of that many RelayNext actions |
| RelayInSystem.PassedPublishes | order-service/src/outbox-relay/outbox-relay.service.ts:82-107 | handling the messages from one offset to another publishes exactly the events of those rows, in order |
| RelayInSystem.RestartAndConsume | order-service/src/outbox-relay/outbox-relay.service.ts:18-21 | a group with a committed offset that connects again publishes every row from that offset on once more; one without publishes nothing that is in the topic |
| RelayInSystem.JoinResumes | order-service/src/outbox-relay/outbox-relay.service.ts:77-107 | the same in the composed system, with an order.created for each of those rows |
| Payments.PaymentService.PublishResult | payment-service/src/payment/payment.service.ts:183-198 | the result is published, or a failed publish is swallowed |
| Payments.PaymentService.ProcessPaymentRequested | payment-service/src/payment/payment.service.ts:91-181 | rows, DLQ, retry queue, results and gateway calls after one delivery: skipped on an existing row, DLQ at count 3, retry queue count + 1 on a transient failure, else a saved row |
| Payments.KeptCountIsStaged | payment-service/src/payment/payment.service.ts:108-158 | with the count kept: retry queues in order, each at most once, then a row with the first decision of the gateway, or the DLQ iff every remaining attempt was transient |
| Payments.RetryBound | payment-service/src/payment/payment.service.ts:108-158 | at most 3 gateway calls over 4 deliveries, and after 3 rolls the request has ended in a row or in the DLQ |
| Payments.RestartedNeverParks | payment-service/src/payment/payment.service.ts:152-157 | with the count restarted: never the DLQ, the second retry queue for ever, n calls for n transient rolls |
| Payments.CallsBoundedIff | payment-service/src/payment/payment.service.ts:142-157 | some bound on gateway calls exists iff the count is kept |
| Saga.PlacingIsCreating | order-service/src/order/order.service.ts:53-97 | placing writes a PENDING order with its priced lines and catalog cost and the outbox row that says the same, or nothing if a product is unknown |
| Environment.RpcFates | order-service/src/saga/saga-orchestrator.service.ts:65-96 | an inventory call may be executed and answered, given up with its request still queued, or never executed; a request left behind may run at any later time |
| Environment.LostAnswers | order-service/src/saga/saga-orchestrator.service.ts:80-175 | an answer that has arrived may be lost, and is handled like a failed call |
| Environment.LostMessagesAndWrites | order-service/src/saga/saga-orchestrator.service.ts:107-216 | messages may vanish, status writes and publishes may fail |
| Environment.RepeatedMessages | payment-service/src/payment/payment.service.ts:95-106 | payment results may be delivered twice, the two requests where the configuration says so |
| Environment.Redeliveries | payment-service/src/payment/payment.service.ts:95-181 | a handler that dies before its acknowledgement gets its message again, wherever it has died |
| Orchestrator.SagaOrchestrator.Fire | order-service/src/saga/saga-orchestrator.service.ts:65-96 | what an RPC leaves in inventory-service and in the queue, and what its caller gets, for each way it can end, internal_error included |
| Orchestrator.SagaOrchestrator.SetStatus | order-service/src/saga/saga-orchestrator.service.ts:177-192 | the row is written or not; only a written COMPLETED or CANCELLED is announced |
| Orchestrator.SagaOrchestrator.PublishStatusChanged | order-service/src/saga/saga-orchestrator.service.ts:194-216 | the announcement names the order's customer; none for an unknown order or a failed publish |
| Orchestrator.SagaOrchestrator.HandleOrderCreated | order-service/src/saga/saga-orchestrator.service.ts:80-119 | the handler run to its end equals following order.created through the composed system |
| Orchestrator.SagaOrchestrator.HandlePaymentSucceeded | order-service/src/saga/saga-orchestrator.service.ts:127-151 | the same for payment.succeeded |
| Orchestrator.SagaOrchestrator.HandlePaymentFailed | order-service/src/saga/saga-orchestrator.service.ts:159-175 | the same for payment.failed |
| Orchestrator.CreatedScript | order-service/src/saga/saga-orchestrator.service.ts:80-119 | what following order.created leaves behind: a payment request only after a granted reserve call, CANCELLED after a refused, failed or timed-out one, with a timed-out request still in its queue |
| Orchestrator.SucceededScript | order-service/src/saga/saga-orchestrator.service.ts:127-151 | COMPLETED only after confirm has answered success; otherwise the order is left as it is |
| Orchestrator.FailedScript | order-service/src/saga/saga-orchestrator.service.ts:159-175 | CANCELLED however the release call ends |
| Orchestrator.PaymentScript | payment-service/src/payment/payment.service.ts:91-181 | one uninterrupted delivery in the composed system has the outcome that payment-service computes |
| Effects.AdvanceEffect | order-service/src/saga/saga-orchestrator.service.ts:80-192 | which tasks can follow which, and which of them can write an order row, a reservation, a payment row, the DLQ or an announcement |
| Dossiers.RunView | order-service/src/saga/saga-orchestrator.service.ts:80-192 | a step changes the traces of one order as stated, and of no other order |
| Safety.TracedStep | order-service/src/saga/saga-orchestrator.service.ts:85-112 | every message, reservation and row of an order keeps carrying that order's own data |
| Safety.JustifiedStep | order-service/src/saga/saga-orchestrator.service.ts:127-151 | whatever leads to COMPLETED keeps resting on a charge and a confirmed reservation |
| Safety.SafeStep | order-service/src/saga/saga-orchestrator.service.ts:80-192 | the claim on the customer's money stays in one place, and nothing that leads to CANCELLED coexists with anything that could charge |
| Safety.TerminalStep | order-service/src/saga/saga-orchestrator.service.ts:97-105 | no task takes an order out of COMPLETED or CANCELLED |
| Invariants.SoundStep | order-service/src/saga/saga-orchestrator.service.ts:80-192 | provenance, justification, outbox agreement and backed stock are kept by every action under every fault |
| Invariants.ExclusiveStep | order-service/src/saga/saga-orchestrator.service.ts:80-192 | with each request handled once, safety and exact stock are kept too |
| Guarantees.CompletedIsJustified | order-service/src/saga/saga-orchestrator.service.ts:127-151 | in every reachable state, under any loss, reordering and duplication, a COMPLETED order has a SUCCESS row and a CONFIRMED reservation |
| Guarantees.MoneyAndGoods | payment-service/src/payment/payment.service.ts:161-168 | every payment row's amount is the sum over the reserved goods of catalog price times quantity, its customer is the order's, and a reservation exists of exactly the order's goods in positive whole quantities |
| Guarantees.PricesAreFixed | catalog-service/src/catalog/catalog.service.ts:35-46 | a product keeps the price it was first created with, through every run |
| Guarantees.OutboxAgreement | order-service/src/order/order.service.ts:60-96 | orders and outbox rows are in bijection with equal contents; only rows are published; across restarts none between the end at the last join without an offset and the position is skipped |
| Guarantees.NothingLostIff | order-service/src/outbox-relay/outbox-relay.service.ts:77-80 | every row below the position, and below the committed offset, has been published iff the group never joined without a committed offset while it had rows to read |
| Guarantees.PlacedBeforeJoining | order-service/src/outbox-relay/outbox-relay.service.ts:77-80 | the row of an order placed before the join is never published, whatever follows |
| Guarantees.PlacedBeforeJoiningAgain | order-service/src/outbox-relay/outbox-relay.service.ts:77-80 | nor is the row of an order placed between the join and a restart before the first commit |
| Guarantees.StockIsBacked | inventory-service/src/inventory/inventory.service.ts:189-207 | in every reachable state available = seed - CONFIRMED quantities >= reserved |
| Guarantees.ChargeSafety | order-service/src/saga/saga-orchestrator.service.ts:80-192 | with lost, late and refused RPCs, failed writes, repeated payment results and handlers that die before the gateway's answer, after the saved row or after the DLQ publish, a CANCELLED order has no SUCCESS row and no CONFIRMED reservation |
| Guarantees.RedeliveredRequestIsHarmless | payment-service/src/payment/payment.service.ts:95-106 | under any fault: a payment request redelivered after its row was saved is skipped, and one redelivered after it was parked is at most parked again; nobody is charged |
| Guarantees.OneClaim | payment-service/src/payment/payment.service.ts:98-180 | with each request handled once, an order's claim is in one place only: outbox, a queue or handler, a row, or the DLQ |
| SingleRequest.OnePaymentOutcome | payment-service/src/payment/payment.service.ts:98-180 | at most one payment.requested published, order.created handled any number of times: the request is on its way, or the only row, or parked, and never reported both ways |
| SingleRequest.OutcomeIsFinal | payment-service/src/payment/payment.service.ts:98-180 | over whole runs with one such request payment.succeeded and payment.failed are never both sent, and a failed one is never charged later |
| SingleRequest.SagaDischargesConfirm | inventory-service/src/inventory/inventory.service.ts:179-207 | no call that is about to be executed confirms a RELEASED reservation of an order with one such request, late and repeated calls included |
| SingleRequest.StockIsExact | inventory-service/src/inventory/inventory.service.ts:95-265 | if every order has at most one such request, stock is conserved exactly in every reachable state |
| SingleRequest.OnceIssuesOne | order-service/src/saga/saga-orchestrator.service.ts:80-119 | handling order.created once publishes at most one request per order |
| Guarantees.CustomerIsToldTheTruth | order-service/src/saga/saga-orchestrator.service.ts:187-216 | every announced status is terminal, is the order's status from then on, and goes to the order's customer |
| Guarantees.TerminalStatusesAbsorb | order-service/src/saga/saga-orchestrator.service.ts:97-105 | once COMPLETED or CANCELLED, an order stays so whatever follows |
| Leftovers.CancelledKeepsGoodsIff | order-service/src/saga/saga-orchestrator.service.ts:85-175 | a CANCELLED order holds RESERVED goods iff a reserve call was executed and granted and either no granted answer reached a caller (lost or late) or no release call was ever executed |
| Leftovers.AnsweredCallsFreeGoods | order-service/src/saga/saga-orchestrator.service.ts:85-175 | whatever fails elsewhere, an order whose own inventory calls are all executed and answered holds nothing RESERVED once it is CANCELLED |
| Leftovers.AnsweredCallsKeepGoodsIff | order-service/src/saga/saga-orchestrator.service.ts:105-175 | such an order ends with RESERVED goods iff they were granted and no payment result was ever handled |
| LeftoverRuns.CancelledWithGoods | order-service/src/saga/saga-orchestrator.service.ts:89-96 | one lost answer to reserve: drained and CANCELLED, the goods RESERVED and nothing left to release them |
| LeftoverRuns.ChargedForNothing | payment-service/src/payment/payment.service.ts:98-180 | a crash between the saved row and its publish: drained and charged, still INVENTORY_RESERVED and nothing left to complete it |
| LeftoverRuns.OnlyThePossible | order-service/src/saga/saga-orchestrator.service.ts:80-192 | in every reachable state an order's status, goods and charge are one of thirteen combinations |
| LeftoverRuns.LeavesIffPossible | order-service/src/saga/saga-orchestrator.service.ts:80-192 | drained runs with failures end with exactly those thirteen combinations |
| RepeatedDeliveries.TwoOutcomes | payment-service/src/payment/payment.service.ts:98-168 | each kind of repetition has a run to a CANCELLED order that has been charged, its success report still to come |
| RepeatedDeliveries.ChargedAndRedelivered | payment-service/src/payment/payment.service.ts:95-106 | a reachable state in which a charged request is redelivered, and the idempotency check that skips it |
| RepeatedDeliveries.PaidAndCancelled | order-service/src/saga/saga-orchestrator.service.ts:86-96 | one payment request is not enough for charge safety: the second copy of order.created fails at reserve and cancels the paid order |
| RepeatedDeliveries.CompletedAndReopened | inventory-service/src/inventory/inventory.service.ts:88-93 | order.created handled twice: a run that takes a COMPLETED order back to INVENTORY_RESERVED |
| RepeatedDeliveries.ChargeSafetyIff | order-service/src/saga/saga-orchestrator.service.ts:80-192 | charge safety in all reachable states iff order.created is handled once, payment.requested is not copied and not redelivered after its retry publish |
| RepeatedDeliveries.OneResultIff | payment-service/src/payment/payment.service.ts:98-180 | no order ever has both payment results in motion iff the same holds |
| RepeatedDeliveries.SagaDischargesConfirmIff | inventory-service/src/inventory/inventory.service.ts:179-207 | no call in motion ever confirms released goods iff the same holds |
| RepeatedDeliveries.CustomerIsToldTheTruthIff | order-service/src/saga/saga-orchestrator.service.ts:187-216 | every announcement agrees with its order for ever iff the same holds |
| RepeatedDeliveries.TerminalStatusesAbsorbIff | order-service/src/saga/saga-orchestrator.service.ts:97-105 | absorbing terminal statuses in all runs iff the same holds |
| Agreement.WorkLowersMeasure | order-service/src/saga/saga-orchestrator.service.ts:80-175 | every step of a system at work lowers a natural number, but for a transient failure whose count starts afresh, which can raise it by five |
| Agreement.WorkingRunsEnd | order-service/src/saga/saga-orchestrator.service.ts:80-175 | no working run is longer than that number and, if the count starts afresh, six steps for each transient failure |
| Agreement.WorkStopsWhenDrained | order-service/src/saga/saga-orchestrator.service.ts:80-175 | no step is possible iff no message, handler or outbox row is left |
| FinalAgreement.AllServicesAgree | order-service/src/saga/saga-orchestrator.service.ts:80-175 | after a drained run without failures every order is COMPLETED with CONFIRMED goods and a charge, or CANCELLED with neither; nothing is reserved; available is the seed less what was sold |
| FinalAgreement.EveryRunDrains | payment-service/src/payment/payment.service.ts:108-158 | from every reachable state, with either header model, the work left is bounded up to the transient failures on the way, and stops only when drained |
| EndlessRetries.RetriedForEver | payment-service/src/payment/payment.service.ts:142-157 | with a count that starts afresh, a reachable state has work of any length ahead of it |
| EndlessRetries.DrainsIff | payment-service/src/payment/payment.service.ts:142-157 | every reachable state has a bound on the work left iff the count is kept |
| Duplicates.LaggardIsIdle | order-service/src/saga/saga-orchestrator.service.ts:127-175 | a superfluous copy of a payment result writes nothing but a further announcement |
| Duplicates.MirrorStep | order-service/src/saga/saga-orchestrator.service.ts:127-175 | a step of a task present in both systems keeps them alike up to superfluous copies |
| Duplicates.DuplicatesChangeNothing | order-service/src/saga/saga-orchestrator.service.ts:127-175 | every run with repeated payment results has a run without them that ends with the same statuses, reservations, stock and payments |

## Left out

- Row locks in `ConcurrentReserve`: there every statement sees the increments of the others at once, so its interleavings include those that locks allow; `ConcurrentRequests` has the locks.
- Inventory.InventoryService.Confirm: runs without interleaving; the gap between its read and its transaction is the subject of `ConcurrentRequests`.
- Inventory.InventoryService.Release: as Confirm.
- Database errors inside an inventory handler, in the composed system: they answer internal_error, which for the saga is the same as a call that never runs (`Orchestrator.Errs`).
- The 32-bit range of the stock columns and non-numeric quantities: counters are integers, and quantities are real numbers of which only positive integers are accepted.
- Floating-point rounding of prices and totals: prices and totals are real numbers.
- Wall-clock time, backoff, TTLs, breaker thresholds and the gateway's random roll: the environment chooses freely instead.
- Redelivered inventory messages in the composed system: they are Nacked, so they appear there as calls that never run.
- A crash of payment-service between the gateway's decision and the saved row: the gateway is asked again, as after a crash before the decision, and only saved rows count as charges.
- Kafka's own offset expiry and rebalancing: the consumer group has one member, and a committed offset stays valid.
- Debezium, Kafka and RabbitMQ internals, HTTP controllers, authentication, gateway, notification sender, health, metrics and tracing.
- `createdAt` of orders and events.
- `findAll` and `findOne` of the catalog.
