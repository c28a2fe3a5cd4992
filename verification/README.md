# Delivery, checkout and outbox verification

A Dafny model of the grocery-delivery backend's transactional core and proofs about it, for every moment of
every run of any requests by anyone.

- **Delivery and cash** (`DeliveryStatus`, `Workflow`, `Pickup`, `DeliveryOtp`, `CodLedger`,
  `FailureDecision`, `Payments`, `DeliveryProtocol`): dispatch offers, travel, pickup challenges, delivery
  codes, failures, returns and cash on delivery are requests on one database value. Each committed
  transaction is one atomic step and a throw changes nothing. `DeliverySafety` proves one invariant for
  all of them, `DeliveryTheorems` states what follows, and `DeliveryServices` holds the services as
  classes whose methods write rows table by table and are proved to answer exactly as the protocol does.
- **Version race** (`VersionRace`): the status change again, with its read and its conditional write as
  separate steps of any number of requests.
- **Shop** (`Cart`, `StoreChoice`, `Pricing`, `Inventory`, `Inspection`, `Shop`): cart merging, coupons,
  stock and its ledger, orders, payments, refunds, returns. Several services read the order *before*
  their transaction opens and do not read it again; such reads are kept as snapshots that a later request
  may use however old they are. `ShopSafety` proves the invariant, `ShopTheorems`, `ShopLimits`,
  `ShopRaces` and `ShopForced` the results, `ShopServices` the loops over carts and stock rows.
- **Projection** (`Projection`, `Reopening`): every step of a job in the delivery protocol is, on job status,
  order status and payment, a committing request of the shop or nothing, so the two descriptions of a job agree
  over whole runs.
- **Examples** (`ShopExamples`, `DeliveryExamples`): concrete runs from an opening state that reach the
  exceptions below.
- **Outbox** (`Outbox`, `Notifications`, `OutboxServices`): workers that recover, read, claim and mark
  events in any interleaving, and the materialisation of notifications.

Amounts are paise (`int`), times are milliseconds (`int`), rows keep their order of creation, and one row
of a table with its dependent rows is one datatype value. Codes are compared as the stored hashes are: by
equality. Database constraints that the migrations declare (one open offer and one active job per rider,
unique keys, positive expected cash) are part of the steps.

## What turned out not to hold

Each of these is proved of the code as it is, with the exact condition under which the expected property does
hold and a concrete run that reaches the exception.

- Two cancellations of an order that is not paid yet, on two snapshots that both show it open, restock it twice
  (`ShopRaces.TwoSnapshotsCancelTwice`, run `ShopExamples.DoubleCancelHappens`). A restocking cancellation leaves
  the order's rows adding up to nothing if and only if none went before it
  (`ShopTheorems.CancelUndoesExactlyWhenFirst`). A paid order is protected by the refund check, which is made
  inside the transaction (`ShopRaces.PaidCancelsOnlyOnce`).
- A forced cancellation leaves the order's delivery job running. A cancelled order can be opened again by its
  job if and only if that job waits or is carried by a rider (`ShopForced.CancelledReopensExactlyWhen`; the
  protocol's requests that do it are in `Reopening.CarriedJobReopens` and `TakenJobReopens`), and with a job that is
  delivered, returned or cancelled it stays closed (`ShopForced.ClosedStaysClosed`). A second forced cancellation, on a
  perfectly current read, then restocks it again (`ShopForced.JobOutlivesForcedCancel`, run
  `ShopExamples.ForcedTwice`). The comment at
  `apps/api-gateway/src/orders/order.service.ts:895` ("if not already restored") is not what the code checks;
  the model follows the code.
- A forced cancellation of an inspected return puts back the whole order on top of the sellable units, so a
  product is counted twice if and only if some unit of it was sellable (`ShopForced.InspectedThenForced`, run
  `ShopExamples.CountedTwice`).
- A payment capture or decline that read the order before its transaction follows the order's transition table
  if and only if the order is still waiting for its payment, and it keeps the refunds it meets
  (`ShopRaces.PaymentFollowsTableExactlyWhen`): an order that was cancelled and refunded in full becomes
  confirmed and captured (run `ShopExamples.CaptureRevivesRefunded`).
- Refunds pass what was paid if and only if a failed delivery was cancelled at some moment with live refunds on
  a captured online payment, none of them of the full amount (`ShopRaces.RefundsPassCapExactlyWhen`, run
  `ShopExamples.RefundsPassCap`).
- A paid order whose total was raised by a substitution cannot be cancelled by its customer
  (`ShopRaces.PaidOrderCancelsExactlyWhen`, run `ShopExamples.RaisedTotalTraps`).
- After a reassignment a parcel that already has a pickup proof cannot be handed over again
  (`DeliveryTheorems.HandsOverOnlyOnce`, run `DeliveryExamples.SecondHandoffStalls`).
- A job cancelled while it still waits would end without the rider that every other job outside the queue has;
  it is the one permitted change that does so, and no request of the delivery protocol makes it
  (`Workflow.AdvanceKeepsRowInv`).
- A processed outbox event comes back when a stalled worker marks it failed
  (`Outbox.ProcessedEndsExactlyWhenMarkedFailed`, run `Outbox.StalledWorkerReopens`).

## Model

| member | source | states |
|---|---|---|
| Workflow.AdvanceKeepsRowInv | apps/api-gateway/src/orders/delivery-workflow.service.ts:236-303 | a permitted change keeps the history a path from WAITING_FOR_DISPATCH, the version its length, a rider exactly outside the queue, and the order the mirror of the job, if and only if it does not cancel a waiting job |
| Workflow.SimulatesOrder | apps/api-gateway/src/orders/delivery-workflow.service.ts:79-105 | every job history maps to an order history of table steps, stutters and returns to PACKED |
| Workflow.CreationMirrors | apps/api-gateway/src/orders/delivery-job.service.ts:96-106 | creating a job for an order mirrors it at once exactly for the statuses a job may be created from |
| DeliveryServices.DeliveryWorkflowService.TransitionWithinTransaction | apps/api-gateway/src/orders/delivery-workflow.service.ts:206-325 | the writes to job, order, log and rider amount to the protocol's transition, and a refusal writes nothing |
| DeliveryServices.DeliveryWorkflowService.Travelled | apps/api-gateway/src/orders/dispatch.controller.ts:101-149 | a rider's leg commits the transition of the protocol or leaves the database alone |
| VersionRace.RaceIsSerial | apps/api-gateway/src/orders/delivery-workflow.service.ts:213-294 | under any interleaving of reads and conditional writes, the committed changes equal atomic transitions in their own order |
| VersionRace.CommittedChangesArePath | apps/api-gateway/src/orders/delivery-workflow.service.ts:26-59 | committed log entries chain along the table and the version is its start plus their number |
| VersionRace.EachVersionWonOnce | apps/api-gateway/src/orders/delivery-workflow.service.ts:250-258 | no version is consumed by two requests and no request consumes two |
| VersionRace.WinsExactlyWhenUndisturbed | apps/api-gateway/src/orders/delivery-workflow.service.ts:250-258 | a write goes through if and only if nobody committed since its read, and then every other open read loses |
| DeliveryServices.DeliveryJobService.EnsureCodLedger | apps/api-gateway/src/orders/delivery-job.service.ts:108-133 | opens one ledger with its EXPECTED entry for a cash order and none otherwise |
| DeliveryServices.DeliveryJobService.EnsureForPackedOrder | apps/api-gateway/src/orders/delivery-job.service.ts:135-213 | creates the job once, and completes it on later calls, as the protocol does |
| DeliveryServices.DispatchAssignmentService.ExpireOffers | apps/api-gateway/src/notifications/notification-worker.service.ts:63-84 | the loop expires exactly the overdue offers |
| DeliveryServices.DispatchAssignmentService.Swept | apps/api-gateway/src/notifications/notification-worker.service.ts:63-84 | sweeping a job is the protocol's sweep |
| DeliveryServices.DispatchAssignmentService.Offered | apps/api-gateway/src/orders/dispatch-assignment.service.ts:51-182 | an offer goes to an online, unoccupied rider of a waiting job without an open offer, after the sweep of overdue ones, error for error as the protocol |
| DeliveryServices.DispatchAssignmentService.Accepted | apps/api-gateway/src/orders/dispatch-assignment.service.ts:184-320 | assignment, job, rider and cash ledger are written together; an expired offer's EXPIRED write is undone with the rest |
| DeliveryServices.DispatchAssignmentService.Rejected | apps/api-gateway/src/orders/dispatch-assignment.service.ts:322-405 | rejecting an offer touches only it; rejecting an accepted one requeues the job and frees the rider in the same step |
| DeliverySafety.RunSafe | apps/api-gateway/src/orders/dispatch-assignment.service.ts:184-405 | the whole invariant over jobs, riders, assignments, codes, decisions and cash holds after every run |
| DeliverySafety.HandleSafe | apps/api-gateway/src/orders/delivery-operations.service.ts:524-2111 | every kind of request keeps that invariant and rewrites no history |
| DeliveryTheorems.WaitingOrHeld | apps/api-gateway/src/orders/dispatch-assignment.service.ts:184-405 | a job waits if and only if it has no rider and nothing accepted; otherwise exactly one accepted assignment names its rider |
| DeliveryTheorems.RidersExclusive | apps/api-gateway/src/orders/dispatch-assignment.service.ts:212-282 | no rider carries two active jobs, and a rider is BUSY exactly while carrying one |
| DeliveryTheorems.AcceptsExactlyWhen | apps/api-gateway/src/orders/dispatch-assignment.service.ts:184-282 | in reachable states a rider can accept exactly its own unexpired offer while carrying nothing else: the job never objects |
| DeliveryTheorems.OfferLasts | apps/api-gateway/src/orders/dispatch-assignment.service.ts:51-150 | an offer just made can be accepted for exactly its 15 to 300 seconds |
| DeliveryTheorems.CashStaysWithItsRider | apps/api-gateway/src/orders/delivery-operations.service.ts:1330-1401 | cash still held belongs to the job's current rider, on a job that left the store and is not cancelled |
| DeliveryTheorems.CashIsConserved | apps/api-gateway/src/orders/delivery-operations.service.ts:1782-2111 | holding plus deposits is what was collected, which is nothing or everything; settled and variance say what they should; the entries replay to the row; deposits are bounded |
| DeliveryTheorems.DeliveredGate | apps/api-gateway/src/orders/delivery-operations.service.ts:1032-1153 | delivered if and only if there is a proof, which points at the only verified code, of a completed issue, with the cash in |
| DeliveryTheorems.CompletesExactlyWhen | apps/api-gateway/src/orders/delivery-operations.service.ts:1032-1153 | an attempt at the customer delivers if and only if the right person shows a pending unexpired code and the cash is in |
| DeliveryTheorems.MissingCashKeepsCodePending | apps/api-gateway/src/orders/delivery-operations.service.ts:1066-1090 | a correct code without the cash changes nothing, and the same code delivers once the cash is collected |
| DeliveryTheorems.OtpLadder | apps/api-gateway/src/orders/delivery-operations.service.ts:929-1030 | one pending code at most; wrong tries on a code are numbered 1 to at most 5, fewer than 5 while it is pending |
| DeliveryTheorems.PickupAgrees | apps/api-gateway/src/orders/delivery-operations.service.ts:524-819 | pickups in the log equal proofs, at most one; one pending challenge; FAILED means five attempts; a proof's challenge is USED and agrees with it |
| DeliveryTheorems.IssuedPickupCodeHandsOver | apps/api-gateway/src/orders/delivery-operations.service.ts:524-785 | issuing and entering a pickup code are inverse, for fifteen minutes and the right number of parcels |
| DeliveryTheorems.HandsOverOnlyOnce | apps/api-gateway/src/orders/delivery-operations.service.ts:600-673 | a handoff moves the job on if and only if it has no proof from before |
| DeliveryExamples.SecondHandoffStalls | apps/api-gateway/src/orders/delivery-operations.service.ts:600-673 | a run after which a second rider stands at the store and the handoff no longer moves the job |
| DeliveryTheorems.DecisionsMatchFailures | apps/api-gateway/src/orders/delivery-operations.service.ts:1155-1254 | exactly one open decision while failed and none otherwise, as many decisions as failures, each traceable to the policy or marked overridden |
| DeliveryTheorems.DefaultFollowsPolicy | apps/api-gateway/src/orders/delivery-failure-policy.ts:6-66 | a failure left to its decision goes where the policy's reason sends it, except that cash keeps its rider |
| DeliveryTheorems.AdminExits | apps/api-gateway/src/orders/delivery-operations.service.ts:1256-1477 | from every reachable failure retry, return and escalation always work; reassigning and cancelling work if and only if the rider holds no cash |
| DeliveryTheorems.OrderFollowsJob | apps/api-gateway/src/orders/delivery-workflow.service.ts:260-276 | the order always mirrors the job's status and rider, and its statuses form an order history with rollbacks to PACKED |
| DeliveryTheorems.HistoryIsNeverRewritten | apps/api-gateway/src/orders/delivery-operations.service.ts:524-2111 | later requests only extend logs and ledgers; closed codes, challenges, offers and decisions and final jobs stay as they are |
| DeliveryTheorems.CanAlwaysComeBack | apps/api-gateway/src/orders/delivery-operations.service.ts:1155-1629 | no active job is stuck: its rider and an administrator can always bring the parcel back |
| Pickup.IssueKeeps | apps/api-gateway/src/orders/delivery-operations.service.ts:524-598 | a new challenge supersedes the pending one and changes no closed one |
| Pickup.CountAttemptKeeps | apps/api-gateway/src/orders/delivery-operations.service.ts:729-757 | a wrong code keeps a challenge pending only below five attempts |
| Pickup.ProveKeeps | apps/api-gateway/src/orders/delivery-operations.service.ts:758-785 | the challenge a new proof names is used and says the same parcels and store user |
| DeliveryOtp.VerifyKeeps | apps/api-gateway/src/orders/delivery-operations.service.ts:929-1030 | checking a code keeps the ladders of attempts, reopens nothing, and adds a verified row exactly when it succeeds |
| DeliveryOtp.IssuedCodeVerifies | apps/api-gateway/src/orders/delivery-operations.service.ts:821-1030 | a fresh code verifies if and only if it is entered as issued within five minutes |
| DeliveryOtp.FailureIsNew | apps/api-gateway/src/orders/delivery-operations.service.ts:965-1000 | the next attempt number is never taken, so no wrong try goes uncounted |
| CodLedger.CollectKeeps | apps/api-gateway/src/orders/delivery-operations.service.ts:1883-1910 | collecting the expected amount keeps the ledger audited and conserved |
| CodLedger.DepositKeeps | apps/api-gateway/src/orders/delivery-operations.service.ts:1998-2075 | a deposit conserves cash, strictly lowers the holding and only appends entries |
| CodLedger.DepositsEnd | apps/api-gateway/src/orders/delivery-operations.service.ts:1946-2111 | a ledger takes at most as many deposits as it expects paise |
| FailureDecision.CloseKeeps | apps/api-gateway/src/orders/delivery-operations.service.ts:1429-1460 | the open decision is the last one and closes exactly when the job leaves the failed status |
| DeliveryServices.DeliveryOperationsService.IssuePickupChallenge | apps/api-gateway/src/orders/delivery-operations.service.ts:524-598 | the rows it leaves are the protocol's: one new pending challenge, the earlier one superseded, and nothing on any refusal |
| DeliveryServices.DeliveryOperationsService.VerifyPickupChallenge | apps/api-gateway/src/orders/delivery-operations.service.ts:675-785 | a wrong code stays counted and a late challenge stays expired; the right code writes proof, status and challenge together; every other refusal writes nothing |
| DeliveryServices.DeliveryOperationsService.RecordProof | apps/api-gateway/src/orders/delivery-operations.service.ts:600-673 | the first handoff writes proof and transition together, a later one returns the old proof and moves nothing |
| DeliveryServices.DeliveryOperationsService.ConfirmStorePickup | apps/api-gateway/src/orders/delivery-operations.service.ts:787-819 | the store's handoff without a code, with the same effect and the same refusals as the protocol's |
| DeliveryServices.DeliveryOperationsService.IssueDeliveryOtp | apps/api-gateway/src/orders/delivery-operations.service.ts:821-901 | one new pending code per key; a known key of another job or operation is a conflict |
| DeliveryServices.DeliveryOperationsService.VerifyOtp | apps/api-gateway/src/orders/delivery-operations.service.ts:929-1030 | the expiry, numbered failure or verified row it writes and its verdict are the specification's |
| DeliveryServices.DeliveryOperationsService.Completed | apps/api-gateway/src/orders/delivery-operations.service.ts:1032-1153 | a refused code is committed, a verified one without cash or rider is undone, and a delivered job is answered again |
| DeliveryServices.DeliveryOperationsService.FailureRecorded | apps/api-gateway/src/orders/delivery-operations.service.ts:1155-1254 | status, decision and key are written together, and the key answers afterwards |
| DeliveryServices.DeliveryOperationsService.HandBack | apps/api-gateway/src/orders/delivery-operations.service.ts:1338-1358 | the search from the latest hands back exactly the latest accepted assignment |
| DeliveryServices.DeliveryOperationsService.Resolved | apps/api-gateway/src/orders/delivery-operations.service.ts:1256-1477 | for every action the job, assignment, payment, rider and decision rows end as the protocol's, or nothing is written |
| DeliveryServices.DeliveryOperationsService.ReturnBegun | apps/api-gateway/src/orders/delivery-operations.service.ts:1479-1568 | only a decided return starts, with its decision closed in the same step |
| DeliveryServices.DeliveryOperationsService.ReturnReceived | apps/api-gateway/src/orders/delivery-operations.service.ts:1570-1629 | the store closes the return and the rider is released in the same step |
| DeliveryServices.DeliveryOperationsService.CodCollected | apps/api-gateway/src/orders/delivery-operations.service.ts:1817-1944 | payment, ledger and entry are written together, once per job |
| DeliveryServices.DeliveryOperationsService.CodSettled | apps/api-gateway/src/orders/delivery-operations.service.ts:1946-2111 | deposit, variance and status are written together; a reference used by another ledger voids them |
| Cart.NormalizeItems | apps/api-gateway/src/checkout/checkout.service.ts:27-34 | the loop over an insertion-ordered map computes the merge of the cart |
| Cart.NormalizeMeans | apps/api-gateway/src/checkout/checkout.service.ts:27-34 | merged lines are of different products, the same products, with the same totals and the same worth at any prices |
| Cart.SplittingChangesNothing | apps/api-gateway/src/checkout/checkout.service.ts:27-34 | carts with equal totals merge to the same lines up to order and are worth the same at any prices |
| StoreChoice.CheckoutLocator.NearestStore | apps/api-gateway/src/checkout/checkout.service.ts:44-55 | the loop returns the first store of least distance |
| StoreChoice.CheckoutLocator.ResolveStore | apps/api-gateway/src/checkout/checkout.service.ts:135-168 | a store that has the whole cart is never passed over for one that has not, and the choice is nearest of its kind |
| Pricing.AcceptedExactlyWhen | apps/api-gateway/src/promotions/promotions.service.ts:740-864 | a valid coupon is accepted if and only if it is live, meant for this store and cart, within its limits and worth a paisa |
| Pricing.DiscountBounds | apps/api-gateway/src/promotions/promotions.service.ts:802-842 | a discount is positive, at most the eligible lines unless it is free delivery, and at most subtotal plus fee |
| Pricing.PercentageRoundsDown | apps/api-gateway/src/promotions/promotions.service.ts:821-827 | an uncapped percentage loses less than one paisa to rounding |
| Pricing.AutomaticPicksBest | apps/api-gateway/src/promotions/promotions.service.ts:866-915 | without a code the best-ranked acceptable automatic coupon among the twenty best candidates applies, and none exactly when none is acceptable |
| Pricing.AppliedExactlyWhenDiscounted | apps/api-gateway/src/promotions/promotions.service.ts:866-915 | a coupon is named if and only if there is a discount |
| Pricing.SplittingChangesNoPrice | apps/api-gateway/src/checkout/checkout.service.ts:201-297 | splitting or reordering a cart changes neither subtotal nor coupon nor discount |
| Pricing.PromotionsService.EvaluateCoupon | apps/api-gateway/src/promotions/promotions.service.ts:740-864 | the checks and the reassigned discount give the specified result |
| Pricing.PromotionsService.CalculateDiscountFor | apps/api-gateway/src/promotions/promotions.service.ts:866-915 | the loop over automatic coupons gives the specified result |
| Inventory.ReservesExactlyWhen | apps/api-gateway/src/checkout/checkout.service.ts:452-492 | different lines can all be reserved if and only if each is on its shelf |
| Inventory.ReserveTakes | apps/api-gateway/src/checkout/checkout.service.ts:452-492 | reserving takes exactly the totals and never takes a shelf below zero |
| Inventory.LinkTagsNewRows | apps/api-gateway/src/checkout/checkout.service.ts:581-591 | when no earlier reservation is unlinked, the link step tags exactly the rows just written |
| Inventory.WriteReplays | apps/api-gateway/src/stores/store.service.ts:137-165 | a row that moves its shelf by its delta keeps the ledger replaying to the stock |
| Inventory.RestoreReplays | apps/api-gateway/src/orders/order.service.ts:813-838 | restoring keeps the ledger replaying provided every item has a stock row |
| ShopSafety.RunKeeps | apps/api-gateway/src/orders/order.service.ts:801-962 | ledger, orders, row tags and snapshots stay consistent after every run |
| ShopTheorems.InventoryReplays | apps/api-gateway/src/stores/store.service.ts:137-165 | after every run stock is its start plus the ledger, and every row's balances are the replayed ones |
| ShopTheorems.RowsChain | apps/api-gateway/src/orders/delivery-workflow.service.ts:174-204 | each row of a shelf starts where the previous one ended |
| ShopTheorems.NothingDangles | apps/api-gateway/src/checkout/checkout.service.ts:452-591 | no committed reservation is unlinked and every order item has a stock row |
| ShopTheorems.RowsMatchHistory | apps/api-gateway/src/orders/order.service.ts:801-962 | rows of an untouched order add up to minus the quantity plus once the quantity for each restocking cancellation, whatever interleaves |
| ShopTheorems.CancelUndoesExactlyWhenFirst | apps/api-gateway/src/orders/order.service.ts:801-962 | however stale its snapshot, a restocking cancellation brings the order's rows to nothing if and only if no restocking cancellation went before it |
| ShopTheorems.CalmRunsUndoOnce | apps/api-gateway/src/orders/order.service.ts:801-962 | with current snapshots and no job outliving its order, an order is restocked at most once, which closes it |
| ShopTheorems.CalmCancelUndoes | apps/api-gateway/src/orders/order.service.ts:801-962 | then a cancellation leaves the order's rows adding up to nothing |
| ShopTheorems.CalmRunsCapRefunds | apps/api-gateway/src/payments/refunds.service.ts:14-72 | then a captured payment has no refunds and refunds never exceed the payment, substitutions or not |
| ShopLimits.CouponLimitsHold | apps/api-gateway/src/promotions/promotions.service.ts:779-800 | while no limit is lowered, counted redemptions stay within both limits over every run |
| ShopLimits.ReleasedIsFinal | apps/api-gateway/src/orders/order.service.ts:46-60 | an order has at most its one redemption, and RELEASED is terminal |
| ShopLimits.CommittedAmountsAgree | apps/api-gateway/src/checkout/checkout.service.ts:494-603 | order, payment and redemption carry the same amounts, and a redemption exists if and only if there is a discount |
| ShopLimits.OneOrderPerKey | apps/api-gateway/src/checkout/checkout.service.ts:339-348 | at most one order per idempotency key |
| ShopRaces.CheckoutCommitsExactlyWhen | apps/api-gateway/src/checkout/checkout.service.ts:328-632 | a checkout that is not a repeat of an earlier one commits if and only if its quote still stands and every merged line is on the shelf |
| ShopRaces.CheckoutTakesTheCart | apps/api-gateway/src/checkout/checkout.service.ts:452-492 | it then takes exactly what the raw cart asks for |
| ShopRaces.NeverOversold | apps/api-gateway/src/checkout/checkout.service.ts:462-477 | no run takes a shelf below zero unless it is set there by hand |
| ShopRaces.TwoSnapshotsCancelTwice | apps/api-gateway/src/orders/order.service.ts:801-876 | two cancellations on two open unpaid snapshots both commit and restock twice |
| ShopRaces.PaidCancelsOnlyOnce | apps/api-gateway/src/payments/refunds.service.ts:22-53 | the second cancellation of a paid, unsubstituted order is refused however stale its snapshot |
| ShopRaces.RefundedAtMostOnce | apps/api-gateway/src/payments/refunds.service.ts:14-72 | an unsubstituted order has at most one refund and never more than was paid, over every run |
| ShopRaces.RefundsPassCapExactlyWhen | apps/api-gateway/src/orders/delivery-operations.service.ts:1402-1429 | over every run refunds add up to more than was paid if and only if a failed delivery was cancelled on a captured online payment with live refunds, none in full |
| ShopRaces.PaymentFollowsTableExactlyWhen | apps/api-gateway/src/payments/payments.service.ts:6-111 | a capture or decline follows the order table if and only if the order still waits for its payment, and keeps the refunds it meets |
| ShopRaces.PaidOrderCancelsExactlyWhen | apps/api-gateway/src/orders/order.service.ts:840-855 | with current reads a paid order can be cancelled if and only if its total is from one paisa to what was paid |
| ShopForced.CancelledReopensExactlyWhen | apps/api-gateway/src/orders/delivery-workflow.service.ts:206-325 | a job step that a caller asks for can open a cancelled order again if and only if its job waits for a rider or is carried by one |
| ShopForced.ClosedStaysClosed | apps/api-gateway/src/orders/delivery-job.service.ts:24-28 | with current reads, whatever the jobs do, a cancelled order without a job or with a delivered, returned or cancelled one stays cancelled for the rest of the run |
| ShopForced.JobOutlivesForcedCancel | apps/api-gateway/src/orders/order.service.ts:878-962 | after a forced cancellation any further step of the job short of delivery opens the order, and forcing it again commits if and only if its refund does, restocking it once more |
| ShopForced.ForcedCancelIgnoresInspection | apps/api-gateway/src/orders/order.service.ts:878-962 | with a current read a forced cancellation commits if and only if the order is open and its payment refundable, and puts everything ordered back, inspected or not |
| ShopForced.InspectedThenForced | apps/api-gateway/src/orders/order.service.ts:894-922 | an inspected order that is then cancelled by force leaves the ordered plus the sellable units on the shelf: too many if and only if some unit was sellable |
| ShopForced.InspectionRaisesStock | apps/api-gateway/src/orders/delivery-operations.service.ts:1704-1748 | an accepted inspection raises each shelf by exactly the sellable units of its product |
| ShopForced.InspectedOnce | apps/api-gateway/src/orders/delivery-operations.service.ts:1643-1652 | a parcel is inspected at most once |
| Projection.HandleSteps | apps/api-gateway/src/orders/delivery-operations.service.ts:600-1629 | every committed request of the protocol leaves a job alone, takes one of the served moves, cancels a failed delivery with its refund, or takes its cash |
| Projection.StepIsShown | apps/api-gateway/src/orders/delivery-workflow.service.ts:260-276 | each such step is a request of the shop that commits, gives the order the same job status and payment, and its mirrored status whatever it was |
| Projection.RunIsShown | apps/api-gateway/src/orders/delivery-workflow.service.ts:206-325 | over every run of the protocol a shop can follow a job by committing requests and mirrors it at the end |
| Projection.CreationIsShown | apps/api-gateway/src/orders/delivery-job.service.ts:135-213 | creating the job of a packed order is the shop's creation of it |
| Projection.MovesOnlyWhileLive | apps/api-gateway/src/orders/delivery-job.service.ts:24-39 | only a waiting or carried job ever moves |
| Reopening.CarriedJobReopens | apps/api-gateway/src/orders/delivery-workflow.service.ts:260-276 | at every moment of every run a carried job has a request that commits and opens its cancelled order again |
| Reopening.TakenJobReopens | apps/api-gateway/src/orders/dispatch-assignment.service.ts:184-320 | accepting the offer of a waiting job opens its cancelled order again |
| ShopExamples.DoubleCancelHappens | apps/api-gateway/src/orders/order.service.ts:801-876 | a run of two cancellations of one order whose rows then add up to two units never bought |
| ShopExamples.ForcedTwice | apps/api-gateway/src/orders/order.service.ts:878-962 | a run in which the job of a cancelled order is taken and the order cancelled and restocked again |
| ShopExamples.CaptureRevivesRefunded | apps/api-gateway/src/payments/payments.service.ts:6-62 | a run in which a late capture confirms an order that was refunded in full |
| ShopExamples.RefundsPassCap | apps/api-gateway/src/orders/delivery-operations.service.ts:1402-1429 | runs that refund 300 paise of 200 paid, on every route to the failed delivery |
| ShopExamples.CountedTwice | apps/api-gateway/src/orders/order.service.ts:894-922 | runs of a paid, returned and inspected order, on every route back, after which a shelf of five holds seven |
| ShopExamples.RaisedTotalTraps | apps/api-gateway/src/orders/order.service.ts:840-855 | a run with current reads only in which a paid order can no longer be cancelled by its customer |
| ShopServices.StockTransaction.Reserve | apps/api-gateway/src/checkout/checkout.service.ts:452-492 | the loop takes every line or reports the first that is missing |
| ShopServices.StockTransaction.Link | apps/api-gateway/src/checkout/checkout.service.ts:581-591 | the loop of updates tags the rows the specification tags |
| ShopServices.StockTransaction.Restore | apps/api-gateway/src/orders/order.service.ts:813-838 | the loop raises each shelf that has a row and writes every movement |
| ShopServices.StockTransaction.Finalize | apps/api-gateway/src/orders/delivery-workflow.service.ts:174-204 | the loop writes one zero row per item and moves no stock |
| ShopServices.StockTransaction.PutBack | apps/api-gateway/src/orders/delivery-operations.service.ts:1704-1748 | the loop raises or creates each shelf with sellable units and skips the others |
| ShopServices.CheckoutService.OrderPlaced | apps/api-gateway/src/checkout/checkout.service.ts:328-632 | checkout answers as the shop says: all of it or nothing |
| ShopServices.RefundsService.CreateRefundForPayment | apps/api-gateway/src/payments/refunds.service.ts:14-72 | the summing loop and its checks give the specified refund |
| ShopServices.OrderService.CancelMyOrder | apps/api-gateway/src/orders/order.service.ts:801-876 | restoring loop, refund, release and status are committed together on the snapshot's word, or not at all |
| ShopServices.OrderService.ForceCancelled | apps/api-gateway/src/orders/order.service.ts:878-962 | the same for an administrator, without restoring when the snapshot shows a failed payment |
| ShopServices.OrderService.StatusUpdated | apps/api-gateway/src/orders/order.service.ts:429-575 | the table is checked on the snapshot; cancelling releases the coupon and restores nothing, delivering writes zero rows |
| ShopServices.PaymentsService.CaptureSimulatedPayment | apps/api-gateway/src/payments/payments.service.ts:6-62 | payment, order and reserved redemption are written together after checks on two snapshots |
| ShopServices.PaymentsService.FailSimulatedPayment | apps/api-gateway/src/payments/payments.service.ts:64-111 | the same for a failed payment, whose reserved redemption is released |
| ShopServices.StoreService.UpdateInventory | apps/api-gateway/src/stores/store.service.ts:128-165 | sets the shelf and writes the row that accounts for the difference |
| ShopServices.ReturnsService.ReturnInspected | apps/api-gateway/src/orders/delivery-operations.service.ts:1631-1780 | inspects once and puts back what the lines call sellable |
| Inspection.AcceptedExactlyWhen | apps/api-gateway/src/orders/delivery-operations.service.ts:1665-1702 | lines are accepted if and only if they name ordered items only and split each ordered quantity |
| Inspection.InspectLines | apps/api-gateway/src/orders/delivery-operations.service.ts:1665-1702 | grouping in a map and comparing sizes and totals decides exactly that |
| Inspection.BuildInspectionLines | apps/mobile-partners/src/domain/deliveryOperations.ts:52-76 | the client's loop builds the specified lines or refuses the form |
| Inspection.BuiltLinesAreAccepted | apps/mobile-partners/src/domain/deliveryOperations.ts:52-76 | whatever the client builds the server accepts, putting back the units entered as sellable |
| Inspection.AcceptedLinesCanBeBuilt | apps/mobile-partners/src/domain/deliveryOperations.ts:52-76 | every accepted inspection can be entered in the client's form with the same effect |
| Outbox.ClaimsMatchAttempts | apps/api-gateway/src/notifications/outbox.service.ts:45-91 | claims of an event equal its attempts, numbered from 1, at most 5, under any interleaving |
| Outbox.EachAttemptWonOnce | apps/api-gateway/src/notifications/outbox.service.ts:70-84 | later claims of an event carry larger numbers, so no attempt is won twice |
| Outbox.OneWinnerPerAttempt | apps/api-gateway/src/notifications/outbox.service.ts:70-84 | of two workers that read the same attempt only one can claim it |
| Outbox.ClaimingEnds | apps/api-gateway/src/notifications/outbox.service.ts:59-66 | claims made and attempts left add up to five for every event |
| Outbox.ExhaustedStaysExhausted | apps/api-gateway/src/notifications/outbox.service.ts:45-118 | after five attempts an event is never claimed again |
| Outbox.MaterialisedOnce | apps/api-gateway/src/notifications/notification.service.ts:198-275 | the first notification of an event is the only one, with one row per user |
| Outbox.OneEventPerKey | apps/api-gateway/src/notifications/outbox.service.ts:16-37 | no two events carry one idempotency key |
| Outbox.ProcessedEndsExactlyWhenMarkedFailed | apps/api-gateway/src/notifications/outbox.service.ts:93-118 | a processed event is reopened by a failure mark and by nothing else |
| Outbox.StalledWorkerReopens | apps/api-gateway/src/notifications/outbox.service.ts:93-118 | a concrete interleaving in which that happens |
| Outbox.RetryWaits | apps/api-gateway/src/notifications/outbox.service.ts:105-118 | the wait doubles from ten seconds to at most five minutes |
| OutboxServices.BatchIsRanked | apps/api-gateway/src/notifications/outbox.service.ts:59-67 | a batch reads eligible events in order and leaves one out only for better-ranked ones |
| OutboxServices.BatchIsARun | apps/api-gateway/src/notifications/outbox.service.ts:45-91 | an undisturbed batch is a run of the interleaved machine |
| OutboxServices.OutboxService.EnqueueOutboxEvent | apps/api-gateway/src/notifications/outbox.service.ts:16-37 | adds the event or finds the one with its key |
| OutboxServices.OutboxService.ClaimBatch | apps/api-gateway/src/notifications/outbox.service.ts:45-91 | undisturbed, the loop claims every event it read, once each, in order |
| OutboxServices.NotificationWorkerService.ProcessBatch | apps/api-gateway/src/notifications/notification-worker.service.ts:109-144 | a running worker does nothing; otherwise every claimed event is marked by its outcome and the counters add up |
| Notifications.RowsMean | apps/api-gateway/src/notifications/notification.service.ts:223-250 | rows are written if and only if no wanting user is routed twice, one per wanting user in order, hidden as preferred |
| Notifications.NotificationService.WriteRecipients | apps/api-gateway/src/notifications/notification.service.ts:223-250 | the loop over routed users writes those rows |

## Left out

- Hashing, encryption and random codes: a code is compared with the stored one by equality, and entered codes are taken as trimmed.
- HTTP, push delivery, sockets, tracking, the event and notification texts, and the database triggers that enqueue order and delivery events.
- Interleaving inside one transaction: a transaction is atomic. The reads that services make before their transaction are not (`Shop.Snapshot`), and the job's version check is also modelled as two steps.
- Client idempotency keys that spell a key the services make up themselves: the two kinds are separate constructors of `Key`, and keys made from fresh random identifiers are no key at all.
- Role look-up of users and riders (users are identified with their roles), coordinates, notes, dates that only document, and the dispatcher's board.
- Jobs created for orders that already have a rider or are past packing: runs start from packed orders without one; `Workflow.CreationMirrors` covers the statuses.
- A job step to the status the job already has, which the workflow answers without change, is refused by the shop's `MoveJob`.
- Order updates that bypass the job machine (`updateStatus`, `assignRider`, `reassignRider`, forced cancellation) and riders changing their own status are not steps of the delivery protocol; in the shop, `updateStatus` and forced cancellation are steps, without the checks on who may ask.
- The rider put online by a forced cancellation, and the cash ledger, are not part of the shop; the shop's delivery job is its status only. It takes every move that some request asks for (`DeliveryStatus.IsServed`), also when held cash would refuse it.
- Rupee floats, haversine distances and ETAs: amounts are paise and distance is a function; integers beyond the exact range of a JavaScript number are not modelled.
- The store page's listing of substitutes and unavailable items; substitution itself is a step of the shop, with its price given.
- Idempotency keys of return inspections: a second inspection is refused whatever its key.
- OutboxServices.OutboxService.ClaimBatch: states what a batch does undisturbed; interference between its statements is covered by the `Outbox` machine instead.
- OutboxServices.NotificationWorkerService.ProcessBatch: states an undisturbed batch whose outcomes are a function of the event; the reconciliation of overdue offers that the worker makes first is `DispatchAssignmentService.ExpireOffers`.
- DeliveryServices.DeliveryJobService.EnsureForPackedOrder: states creation for packed orders without a rider; jobs made for orders past packing are covered by `Workflow.CreationMirrors` only.
- ShopServices.OrderService.ForceCancelled: does not put the order's rider online, because riders are not part of the shop.
- ShopServices.OrderService.StatusUpdated: does not check the caller's role or whose order it is.
- ShopServices.StoreService.UpdateInventory: does not check that the store is the caller's.
- ShopServices.ReturnsService.ReturnInspected: does not check the caller's store or role, and has no idempotency key.
- Outbox.MaterialisedOnce: routing is a parameter, so who is routed is not modelled.
- Refund status changes after creation: no code in the repository makes them.
- Campaigns, analytics, inbox rendering, addresses and the product cache are not modelled.
