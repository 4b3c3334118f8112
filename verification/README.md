# Verified model of the money engine and its concurrency protocols

This project models, in Dafny, the parts of the `services/api` back end where a mistake costs money, and
proves what they keep over every run.

* **Books, payments, payouts, refunds** (`Ledger`, `Money`, `Finance*`). `Finance` gives every service call as
  one atomic step from database to database. `FinanceInvariants`, `FinanceSteps` and `FinanceBooks` prove what
  every step keeps, from any state that satisfies the invariant (payouts may start in any status, as seeded
  ones do). `FinanceOutcomes`, `FinancePayoutOutcomes`, `FinanceRefundOutcomes` and `FinanceStepOutcomes` say, case by
  case and with every sign written out, what each call leaves behind, and `FinanceStatement` what each balance is made
  of. `FinancePostings` proves that what happened is what is posted, `FinanceResults` what is paid and what is
  taken back, `FinanceUnpaid` what can be reached from empty tables at all, `FinanceRefunds` how often a payment is
  refunded and what is left of it, and `FinanceWitness` gives the runs that show the failing cases. `FinanceStore` is
  the same code as it is written, methods that read, return early and update tables, each proved equal to its step.
* **Provider events** (`Webhooks`, `WebhookOutcomes`): recording, processing, retrying and dead-lettering on top of the
  store, and what each event type does.
* **The join of charge confirmation and trip completion** (`CaptureJoin`, `CaptureHandlers`), one database access at a
  time: first one confirmation, then any number of them in flight.
* **Reversals of multi-entry transactions** (`Reversal`).
* **The outbox** (`Outbox`, `OutboxProtocol`, `OutboxProgress`, `OutboxLease`, `OutboxDeliveries`): the worker, then any
  number of workers with stale snapshots, leases, crashes at any point and a shared clock.
* **Idempotency keys** (`Idempotency`, `IdempotencyProtocol`, `IdempotencyBounds`), where a process can die at any
  point, also between the work and its storing, and the **canonical JSON text** they are hashed from (`StableJson`,
  `PrintInjective`, `CanonicalJson`, `JsonOrder`), with a reader for it (`JsonParse`).
* **The trip PIN** (`TripPin`, `TripRides`), the **daily close** (`DailyClose`, `DailyEarnings`) and **card numbers**
  (`Luhn`).

`dafny verify dfyconfig.toml` checks everything.

## What turned out not to hold, and exactly when it does

* `approvePayout` balance-checks one of two one-entry transactions, so it commits exactly for the amount 0
  (`FinanceBooks.ApproveCommitsIff`). Hence, over every run from empty tables, no payout of a positive amount is ever
  APPROVED, PROCESSING, FAILED or PAID (`FinanceUnpaid.NoPositivePayoutIsPaid`).
* A driver earning can be both reversed and paid, because APPROVED payouts are neither withheld nor cancelled. From empty
  tables it can exactly for payments of at most one minor unit, whose earning is 0 (`FinanceWitness.ReversedAndPaidIff`,
  with the run). In tables that hold a payout in any status, a reversed earning can still be paid exactly if its
  payout was APPROVED when it was reversed (`FinanceResults.ReversedThenPaidIff`).
* The guard of that reversal reads the wallet balance back from text. Between -1.00 and 0 the sign is lost
  (`Money.ReadBackGuard`). From empty tables no wallet is negative and the guard is exact
  (`FinanceUnpaid.GuardIsExact`); from tables with a PROCESSING payout above its driver's wallet a run leads to a wallet
  at -50 that passes for a share of 40 (`FinanceWitness.GuardLetsNegativeThrough`).
* A payout request is held against DRIVER_PAYABLE, the liability to all drivers, not against the wallet of the driver
  who asks. A driver's accepted requests are covered by the driver's wallet exactly if all wallets together are below the
  minimum or that wallet holds all there is (`FinanceWitness.RunRequestsCoveredIff`); a run shows a driver with an empty
  wallet being accepted (`FinanceWitness.UncoveredRequestAccepted`).
* A transfer is asked of the provider before the payout row is looked at again, so it can be accepted without being
  recorded. It is recorded exactly if the payout was APPROVED (`FinanceResults.TransferRecordedIff`), so from empty tables
  no accepted transfer of a positive amount ever is (`FinanceWitness.PositiveTransferLeavesNoTrace`).
* Two refunds of one payment can both be reversed in the ledger (`FinanceRefunds.TwoRefundsAreReachable`), because
  `handleRefundEvent` does not look at other refunds. When an event reports a FAILED refund as processing or processed,
  this becomes possible exactly if another refund of the payment is pending, processing, processed or reversed by then
  (`FinanceRefunds.RevivalCostsIff`). Without such an event at most one is reversed in every run, and from given tables
  that is so exactly if no payment has two such refunds now (`FinanceRefunds.OneClaimIsExact`).
* Charge confirmations in flight and a trip completion capture once in every interleaving exactly if there is one
  confirmation in all, in flight or earlier (`CaptureHandlers.CapturesOnceIffOneConfirmation`). With more, a handler's
  stale status write reopens a captured payment and a second payout is created. Deliveries of one event are in flight
  together until one of them marks it processed.
* An outbox worker that overruns its lease can take an event out of PUBLISHED, because `markFailed` is not conditional.
  Every run whose claims are held for at most D is safe exactly if D is less than the lease
  (`OutboxLease.SafeIffWithinLease`). The outbox's own README says that only due PENDING and FAILED events are claimed;
  the code also claims PROCESSING events whose lease has ended, and so does the model.
* A handler that overruns its lock can succeed beside a second one. Every run whose handlers take at most D stores at
  most one success per key exactly if D is less than the lock (`IdempotencyBounds.StoredAtMostOnceIff`).
* Inside its lease the outbox still publishes an event again when a worker dies between publishing and marking it, or
  fails to mark it. Every publication but the one that is marked is such a loss (`OutboxDeliveries.DeliveriesAddUp`), so
  an event is published at most m times in every run with at most k losses exactly if k < m
  (`OutboxDeliveries.PublishedAtMostIff`).
* Inside their locks handlers do their work again when it was lost: when a process dies between the work and its storing,
  or when the response has no JSON form, which marks the key FAILED. The work is done at most m times in every run that
  loses it at most k times exactly if k < m (`IdempotencyBounds.WorkAtMostIff`), and nothing is lost if the response can
  be stored and no process dies there (`IdempotencyBounds.StorableWorkAtMostOnce`).
* `stableStringify` drops `__proto__` keys, so it tells values apart exactly where there are none
  (`CanonicalJson.InjectiveIffProtoFree`).
* A daily report that was just generated stays exact, whatever is recorded later, exactly if its day had ended
  (`DailyClose.StaysExactIff`). The hourly timer closes the current day only, so no report is generated after its day,
  and what is recorded after the last one of a day is in no report (`DailyClose.ScheduledReportsAreEarly`,
  `DailyClose.LateCommissionIsMissed`).

## Model

The theorems come first. The last group, from `FinanceStore.Store.RecordAccountEvent` on, is the code as it is written,
methods over tables and loops, each proved to amount to the step or function that the theorems are about.

| member | source | states |
|---|---|---|
| Money.ParsePrint | services/api/src/payments/payments.service.ts:49-61 | parsing a printed amount n >= 0 gives n, and parsing the printed -n gives -n + 2(n mod 100) |
| Money.PrintParse | services/api/src/payments/payments.service.ts:49-61 | printing a parsed canonical two-decimal text returns the text |
| Money.ParseDatabaseText | services/api/src/payments/payments.service.ts:49-53 | the same for the text a database Decimal prints, trailing zeros dropped |
| Money.ReadBackGuard | services/api/src/payments/paystack.service.ts:1209-1211 | which balances pass a "balance at least s" check after being read back, negative ones included |
| Money.CommissionResidue | services/api/src/payments/payments.service.ts:67-69 | the driver's share never exceeds the gross, and share plus the separately rounded commission fall one unit short of it exactly when 5 does not divide it |
| Ledger.PostLedgerOk | services/api/src/payments/payments.service.ts:725-868 | one posting keeps: balance = opening + signed entries, balanceAfter = running sum, wallet chain, one entry per reference |
| Ledger.WalletTransactionsMeet | services/api/src/payments/payments.service.ts:785-868 | consecutive transactions of a wallet meet: the later one starts at the balance the earlier one left |
| Ledger.ReplayChangesNothing | services/api/src/payments/payments.service.ts:725-800 | replaying any of the postings made, in any order, changes nothing |
| Ledger.OnePostingTotal | services/api/src/payments/ledger.service.ts:14-40 | debits and credits under a reference of `recordAccountEvent` are those of its only entry |
| FinanceSteps.StepKept | services/api/src/payments/paystack.service.ts:358-1511 | every service call keeps the cross-table invariant, advances life cycles only, and takes an earning back only from an open refund with an unpaid payout |
| FinanceSteps.RunKept | services/api/src/payments/paystack.service.ts:358-1511 | the same over every run: PAID, REJECTED, CANCELLED, FAILED payments and REFUNDED are never left, posted rows are never rewritten and carry exactly the account, side and amount written out for their reference |
| FinanceStepOutcomes.StepOutcome | services/api/src/payments/paystack.service.ts:358-1511 | every service call relates the tables before and after exactly as `StepDoes` says, which writes out rows, references, sides and amounts for each case without the functions that compute them |
| FinanceStepOutcomes.RunOutcomes | services/api/src/payments/paystack.service.ts:358-1511 | the same for every step of every run |
| FinanceOutcomes.CaptureOutcome | services/api/src/payments/payments.service.ts:211-343 | an open payment is captured: CASH_CLEARING gets the gross, COMMISSION_REVENUE what 4/5 leave over, the driver's wallet, DRIVER_PAYABLE and PAYOUT_CLEARING 4/5 each, no other balance moves, and one REQUESTED payout of 4/5 is created; any other payment is left alone |
| FinanceOutcomes.CompletionOutcome | services/api/src/trips/trips.service.ts:164-195 | a running trip is completed and its payment captured for the trip's driver |
| FinanceOutcomes.ChargeSuccessOutcome | services/api/src/payments/paystack.service.ts:358-414 | only a verified charge of an open payment changes anything: the payment is confirmed, and captured at once if its trip is completed |
| FinanceOutcomes.ChargeFailedOutcome | services/api/src/payments/paystack.service.ts:416-457 | an open payment becomes FAILED, and nothing else changes |
| FinanceOutcomes.FailedIsNeverCaptured | services/api/src/payments/paystack.service.ts:416-457 | over every later run such a payment stays FAILED and neither a capture nor an earning nor a payout of it is ever posted |
| FinancePayoutOutcomes.TransferOutcome | services/api/src/payments/paystack.service.ts:509-626 | without the provider an APPROVED or PROCESSING payout is paid at once; through it only an APPROVED one becomes PROCESSING, under a code that no other payout has |
| FinancePayoutOutcomes.ProviderTransferOutcome | services/api/src/payments/paystack.service.ts:509-626 | when a transfer through the provider throws, and that it then changes nothing |
| FinancePayoutOutcomes.SentOutcome | services/api/src/payments/paystack.service.ts:521-592 | which transfers the provider is asked for and accepts |
| FinancePayoutOutcomes.RetryOutcome | services/api/src/payments/paystack.service.ts:838-924 | a FAILED payout is paid at once, gets a new code, or is FAILED again without one; every other payout is left alone |
| FinancePayoutOutcomes.TransferEventOutcome | services/api/src/payments/paystack.service.ts:1334-1386 | a transfer event pays or fails the PROCESSING payout of its code, debiting wallet and DRIVER_PAYABLE and crediting PAYOUT_CLEARING only when it pays |
| FinancePayoutOutcomes.RequestOutcome | services/api/src/payments/payouts.service.ts:110-197 | a payout request is accepted exactly if the driver is eligible, the amount is at least 1000.00 and DRIVER_PAYABLE holds it, and then there is one new REQUESTED row of that driver and amount |
| FinancePayoutOutcomes.MarkFailedOutcome | services/api/src/payments/payouts.service.ts:445-515 | the first failure of a PROCESSING payout moves its amount from PAYOUT_CLEARING back to DRIVER_PAYABLE, a second one posts nothing |
| FinanceRefundOutcomes.TakenBackIff | services/api/src/payments/paystack.service.ts:1186-1265 | an earning is taken back if and only if its payout is neither PAID nor PROCESSING and the wallet, read back from text, holds the share |
| FinanceRefundOutcomes.ReversalOutcome | services/api/src/payments/paystack.service.ts:1113-1285 | for each of the seven payout statuses what a reversal posts, what it does to the payout, and that refund and payment are closed |
| FinanceRefundOutcomes.RequestRefundOutcome | services/api/src/payments/paystack.service.ts:628-726 | only a CAPTURED payment without a refund in place gets one, over the full amount, and in which status |
| FinanceRefundOutcomes.RefundEventOutcome | services/api/src/payments/paystack.service.ts:1388-1417 | what each kind of refund event does to the refund it finds |
| FinanceStatement.RunStatement | services/api/src/payments/payments.service.ts:725-868 | over every run each balance is the opening one plus the amounts of the references posted, with the sign of each kind of reference written out: PAYOUT_CLEARING has pending, paid and approved amounts in and failed ones out |
| FinanceBooks.RunLedgerOk | services/api/src/payments/payments.service.ts:725-868 | over every run of service calls the ledger refines its entries: all four ledger laws hold |
| FinanceBooks.DriverLiability | services/api/src/payments/payouts.service.ts:243-254 | over every run the wallets minus DRIVER_PAYABLE change by exactly failed:driver-payable minus approved:driver-payable postings; without those steps they stay equal |
| FinanceBooks.ApproveCommitsIff | services/api/src/payments/payouts.service.ts:199-277 | an approval commits for amount 0 and is rolled back for every positive amount |
| FinanceUnpaid.NoPositivePayoutIsPaid | services/api/src/payments/payouts.service.ts:243-277 | over every run from empty tables, or from any tables without an advanced positive payout and without a negative wallet, no positive payout is ever APPROVED, PROCESSING, FAILED or PAID, and no wallet is ever negative |
| FinanceUnpaid.GuardIsExact | services/api/src/payments/paystack.service.ts:1209-1211 | over those runs the read-back guard passes exactly the wallets that hold the share |
| FinanceUnpaid.LiabilityNeverDrifts | services/api/src/payments/payouts.service.ts:243-254 | over those runs the wallets minus DRIVER_PAYABLE never change, administrative steps included |
| FinancePostings.StatusIffPosted | services/api/src/payments/payments.service.ts:211-343 | over every run a payment exists, was captured, a refund is closed, a driver earned exactly if the references of that event are posted; the payout created has the earning's amount |
| FinancePostings.CaptureHappensOnce | services/api/src/payments/payments.service.ts:211-227 | after a capture, at any later point of any run, another capture of the trip changes nothing |
| FinanceResults.ReversedThenPaidIff | services/api/src/payments/paystack.service.ts:1186-1265 | from any tables that keep the invariant: after an earning was reversed some run makes its payout PAID if and only if it was APPROVED then |
| FinanceWitness.ReversedAndPaidIff | services/api/src/payments/paystack.service.ts:1186-1265 | from empty tables some run leaves a payment of a given gross both reversed and paid if and only if the gross is at most 1 |
| FinanceWitness.PaidEarningIsZero | services/api/src/payments/payouts.service.ts:243-277 | over every run from empty tables the payout of a PAID earning is of a payment of at most 1, with share 0 |
| FinanceWitness.GuardLetsNegativeThrough | services/api/src/payments/paystack.service.ts:1209-1211 | a run from tables with one PROCESSING payout in which a wallet at -50 passes for a share of 40 and the earning is taken back |
| FinanceResults.WithheldForGood | services/api/src/payments/paystack.service.ts:1196-1208 | for a PROCESSING or PAID payout the reversal of this refund is withheld in every later run |
| FinanceResults.PaidNeverReversed | services/api/src/payments/paystack.service.ts:1178-1265 | once a payout is PAID no refund of its payment, old or new, ever takes the earning back |
| FinanceRefunds.OneRefundWithoutClash | services/api/src/payments/paystack.service.ts:628-726 | over every run in which no FAILED refund is revived beside another open or closed refund of its payment, a payment has at most one such refund, so at most one is reversed in the ledger |
| FinanceRefunds.OneClaimIsExact | services/api/src/payments/paystack.service.ts:1388-1417 | from any tables in which reversed refunds have a REFUNDED payment: every such run reverses at most one refund of each payment if and only if no payment has two open or closed refunds now |
| FinanceRefunds.RevivalCostsIff | services/api/src/payments/paystack.service.ts:1388-1417 | an event that revives a FAILED refund lets some run reverse two refunds of one payment if and only if another refund of the payment is pending, processing, processed or reversed when it arrives |
| FinanceRefunds.PaymentNetsOut | services/api/src/payments/paystack.service.ts:1127-1244 | all postings of a payment whose earning was taken back net to 0 on wallet and DRIVER_PAYABLE, to 0 or 1 on commission by divisibility by 5, and in CASH_CLEARING to the credits of the earlier stages |
| FinanceRefunds.RefundedPaymentNetsOut | services/api/src/payments/paystack.service.ts:1127-1244 | the same over every run from empty tables that revives no refund beside another one of its payment |
| FinanceResults.FirstTransferEventDecides | services/api/src/payments/paystack.service.ts:1334-1386 | of transfer.success and transfer.failed the first to come decides a PROCESSING payout, the other one changes nothing |
| FinanceResults.RequestsCoveredIff | services/api/src/payments/payouts.service.ts:146-162 | while DRIVER_PAYABLE equals the wallets, every accepted request of a driver is covered by the own wallet if and only if all wallets are below the minimum or that wallet holds everything |
| FinanceWitness.RunRequestsCoveredIff | services/api/src/payments/payouts.service.ts:146-162 | the same after every run from empty tables |
| FinanceWitness.UncoveredRequestAccepted | services/api/src/payments/payouts.service.ts:146-162 | a run from empty tables after which a driver with an empty wallet is accepted for what another one earned |
| FinanceWitness.PositiveTransferLeavesNoTrace | services/api/src/payments/paystack.service.ts:556-592 | over every run from empty tables an accepted transfer of a positive amount changes no row |
| FinanceResults.PaidIffPostedRun | services/api/src/payments/paystack.service.ts:1309-1355 | over every run a payout is PAID through the provider if and only if its three paid references are posted |
| FinanceResults.MissingLedgerIsManual | services/api/src/payments/paystack.service.ts:1097-1111 | the PAID payouts without ledger rows are exactly those `markPayoutPaid` moved |
| Webhooks.EventLifeCycle | services/api/src/payments/paystack.service.ts:276-356 | over every run processedAt is set exactly when the event is PROCESSED, and PROCESSED is never left |
| Webhooks.HandlerIdempotent | services/api/src/payments/paystack.service.ts:298-356 | a handler that is run again at once, after a crash before the event was marked, changes nothing more whatever the provider then answers about the charge, and with the same answer reports the same; after a "not processed" the second run counts as the first |
| Webhooks.DuplicatesChangeNothing | services/api/src/payments/paystack.service.ts:276-296 | a run with redeliveries of finished events ends as the run without them |
| Webhooks.RunHooksKept | services/api/src/payments/paystack.service.ts:276-356 | over every run of deliveries, retries, dead-letterings and service calls the tables keep the invariant and life cycles only advance |
| Webhooks.DeadLetterStays | services/api/src/payments/paystack.service.ts:808-836 | a dead-lettered event is never processed or changed again, however often it is delivered, until it is retried |
| WebhookOutcomes.DeliveryOutcome | services/api/src/payments/paystack.service.ts:276-356 | for each event type what a delivery does to the tables: transfer.success pays and transfer.failed fails the payout, a verified charge confirms and a rejected one fails the payment, refund events move the refund; the event ends PROCESSED or FAILED with one attempt more, and finished events are left alone |
| WebhookOutcomes.RetryOutcome | services/api/src/payments/paystack.service.ts:782-806 | a retry does the same with the stored payload, for dead-lettered events too |
| CaptureJoin.EveryInterleavingCaptures | services/api/src/payments/paystack.service.ts:373-411 | every finished interleaving on an unconfirmed payment ends CAPTURED with each reference posted and exactly one payout |
| CaptureJoin.ConfirmedPaymentPaysTwice | services/api/src/payments/paystack.service.ts:398-405 | with `externalId` set before, one schedule creates two payouts |
| CaptureJoin.CapturesOnceIffUnconfirmed | services/api/src/payments/payments.service.ts:211-227 | all finished interleavings of one handler and one completion capture exactly once if and only if the payment was not confirmed before |
| CaptureHandlers.CapturesOnceIffOneConfirmation | services/api/src/payments/paystack.service.ts:358-414 | n handlers of the confirmation and one completion capture exactly once in every finished interleaving if and only if n is 1 and the payment was not confirmed before, or n is 0 and it was |
| CaptureHandlers.SecondPaysTwice | services/api/src/payments/paystack.service.ts:276-296 | any number of handlers from two on can create two payouts, whether the payment was confirmed or not |
| CaptureJoin.ReadyIsReachable | services/api/src/payments/paystack.service.ts:398-405 | service calls lead to both cases, so a first charge.success before completion sets up the losing one |
| Reversal.SucceedsIff | services/api/src/payments/ledger.service.ts:68-145 | a reversal succeeds exactly if the original is POSTED, has entries, balances, and the reference is free |
| Reversal.ReversalWrites | services/api/src/payments/ledger.service.ts:68-145 | every row and entry that a reversal writes, sides exchanged and balances copied |
| Reversal.FailureOutcome | services/api/src/payments/ledger.service.ts:68-145 | which failure a refused reversal reports |
| Reversal.ReversalCancels | services/api/src/payments/ledger.service.ts:105-141 | the reversal balances and stores its totals, cancels the original on every account and wallet, touches no other entry, and a second one fails |
| Reversal.RunKeepsPairs | services/api/src/payments/ledger.service.ts:68-145 | over every run a row is REVERSED exactly when one row reverses it, and the two cancel |
| Reversal.RunShowsWhatIsInForce | services/api/src/payments/ledger.service.ts:105-141 | over every run the entries net to the transactions in force; reversing a reversal reinstates |
| Outbox.BackoffGrowsToCap | services/api/src/outbox/outbox.service.ts:232-235 | later attempts never wait less, and none longer than the cap |
| Outbox.BackoffDoubles | services/api/src/outbox/outbox.service.ts:232-235 | the first attempt waits the smaller of base and cap, and each later one the smaller of twice the one before and the cap |
| Outbox.BackoffReachesCap | services/api/src/outbox/outbox.service.ts:232-235 | with a positive base the cap is reached |
| Outbox.AttemptOutcome | services/api/src/outbox/outbox.service.ts:189-221 | what one attempt leaves: PUBLISHED, FAILED until its delay has passed, DEAD_LETTER at the maximum, or nothing on a stale snapshot |
| Outbox.ListedIsOldestFirst | services/api/src/outbox/outbox.service.ts:93-109 | the listing holds only listable events, oldest first, and leaves one out only for the limit |
| Outbox.FailureWaits | services/api/src/outbox/outbox.service.ts:123-154 | a failed event is listed again exactly from its delay on, never before the base delay, and never at the maximum of attempts |
| OutboxProtocol.RunIsSafe | services/api/src/outbox/outbox.service.ts:189-221 | over every timely run at most one live worker holds an event, and PUBLISHED and DEAD_LETTER are never left |
| OutboxProtocol.ClaimsAreCurrentAndDue | services/api/src/outbox/outbox.service.ts:93-109 | a claim that wins saw the row as it is, the event is due, and nobody live holds it |
| OutboxProgress.ClaimsAreBounded | services/api/src/outbox/outbox.service.ts:123-140 | with k crashes an event is claimed at most maxAttempts + k times and is then PUBLISHED or DEAD_LETTER once let go |
| OutboxProgress.RoundsFinish | services/api/src/outbox/outbox.service.ts:177-221 | an unheld event is finished by the attempts left, and the last attempt decides how |
| OutboxLease.SafeIffWithinLease | services/api/src/outbox/outbox.service.ts:123-221 | every run whose claims are held for at most D excludes a second worker and keeps PUBLISHED and DEAD_LETTER if and only if D is less than the lease |
| OutboxLease.OverrunLeavesPublished | services/api/src/outbox/outbox.service.ts:131-140 | for every configuration a claim held for just the lease can lose PUBLISHED |
| OutboxDeliveries.DeliveriesAddUp | services/api/src/outbox/outbox.service.ts:210-220 | over every timely run an event was published once for each attempt lost after publishing, plus once if it is PUBLISHED or about to be marked; so PUBLISHED means published |
| OutboxDeliveries.DeliveryBoundIsReached | services/api/src/outbox/outbox.service.ts:210-220 | for every number of losses a timely run publishes the event once more than that |
| OutboxDeliveries.PublishedAtMostIff | services/api/src/outbox/outbox.service.ts:210-220 | an event is published at most m times in every timely run with at most k losses if and only if k < m, a lease of 0 aside |
| IdempotencyProtocol.AtMostOneStoredSuccess | services/api/src/idempotency/idempotency.service.ts:100-184 | over every timely run one stored success per key, no handler beside it, replays equal to it |
| IdempotencyProtocol.ReplaysAreStored | services/api/src/idempotency/idempotency.service.ts:137-139 | every replay is the response of a handler that succeeded with the same hash |
| IdempotencyProtocol.LaterRequestsReplay | services/api/src/idempotency/idempotency.service.ts:128-142 | after a stored success, however much later, the same hash gets its response and another hash is rejected |
| IdempotencyProtocol.DifferentHashIsRejected | services/api/src/idempotency/idempotency.service.ts:134-136 | a used key rejects another hash for good; neither FAILED nor expiresAt frees it |
| IdempotencyProtocol.RetryAfterFailureRuns | services/api/src/idempotency/idempotency.service.ts:50-52 | after a handler threw, or its response could not be stored, the next request with the key goes to its handler whatever the clock and the lock, over every run in between that does not reserve the key |
| Idempotency.ReservedIff | services/api/src/idempotency/idempotency.service.ts:100-157 | when a key is reserved, replayed or rejected, and the row that a reservation leaves |
| IdempotencyBounds.StoredAtMostOnceIff | services/api/src/idempotency/idempotency.service.ts:140-157 | every run whose handlers take at most D stores at most one success per key if and only if D is less than the lock |
| IdempotencyBounds.WorkIsBounded | services/api/src/idempotency/idempotency.service.ts:46-53 | over every timely run the work behind a key is done at most once plus once for each time it was lost |
| IdempotencyBounds.WorkBoundIsReached | services/api/src/idempotency/idempotency.service.ts:46-53 | for every number of losses a timely run reaches that bound |
| IdempotencyBounds.WorkAtMostIff | services/api/src/idempotency/idempotency.service.ts:46-53 | the work behind a key is done at most m times in every timely run that loses it at most k times if and only if k < m |
| IdempotencyBounds.StorableWorkAtMostOnce | services/api/src/idempotency/idempotency.service.ts:46-53 | over every timely run with storable responses and no process dying between the work and its storing, the work behind each key is done at most once |
| PrintInjective.PrintIsInjective | services/api/src/idempotency/idempotency.service.ts:201-203 | two values print to the same JSON text if and only if they are the same, key order included |
| CanonicalJson.SortCanonical | services/api/src/idempotency/idempotency.service.ts:209-220 | two values sort to the same value if and only if they are equal up to key order, `__proto__` aside |
| CanonicalJson.SortIdempotent | services/api/src/idempotency/idempotency.service.ts:209-220 | sorting twice is sorting once |
| CanonicalJson.StringifyIff | services/api/src/idempotency/idempotency.service.ts:201-203 | equal texts if and only if equal up to key order, `__proto__` aside |
| CanonicalJson.InjectiveIffProtoFree | services/api/src/idempotency/idempotency.service.ts:214-217 | a value's text is its own among `__proto__`-free values if and only if it has no such key |
| CanonicalJson.RequestTextIff | services/api/src/idempotency/idempotency.service.ts:88-98 | requests hash the same text if and only if actor, endpoint, method, scope agree and bodies are equal up to key order |
| JsonOrder.KeysInOrder | services/api/src/idempotency/idempotency.service.ts:209-220 | the keys of a canonical object stand in order, array indices first and by value, then the others by code units, `__proto__` left out |
| JsonParse.PrintReadsBack | services/api/src/idempotency/idempotency.service.ts:201-203 | a reader by the grammar of RFC 8259 reads the printed text back to the same value, to its end |
| JsonParse.EscapeIsShort | services/api/src/idempotency/idempotency.service.ts:201-203 | each code unit is written as itself, with one letter, or with four lower-case hexadecimal digits, in that preference |
| JsonParse.RequestReadsBack | services/api/src/idempotency/idempotency.service.ts:88-98 | the hashed text reads as the object of `actorId`, `body`, `endpoint`, `method` and `scope`, in that order, values sorted |
| TripPin.AtMostThreeWrongPins | services/api/src/trips/trips.service.ts:107-147 | in every run at most three wrong PINs are checked, flagged exactly at a failed count of three |
| TripPin.FlaggedNeverStarts | services/api/src/trips/trips.service.ts:117-119 | a flagged trip never starts and no further PIN is checked |
| TripPin.TerminalIsAbsorbing | services/api/src/trips/trips.service.ts:11-25 | no run changes a trip in a terminal state |
| TripPin.StartsOnlyWithIssuedPin | services/api/src/trips/trips.service.ts:97-198 | IN_PROGRESS only after a PIN was issued, given unexpired, accepted, and the trip started from PIN_VERIFIED, in that order |
| TripPin.TimesAreInOrder | services/api/src/trips/trips.service.ts:157-165 | arrivedAt <= startedAt <= completedAt, none set without the earlier |
| TripPin.AcceptedOnce | services/api/src/trips/trips.service.ts:551-626 | in every run at most one driver accepts a trip, and once accepted every further driver is refused |
| TripRides.GoesThroughIff | services/api/src/trips/trips.service.ts:97-155 | a transition goes through exactly from the sources of its target, listed by target, and into PIN_VERIFIED exactly with the issued, unexpired PIN on an unflagged trip |
| TripRides.Refused | services/api/src/trips/trips.service.ts:107-147 | a refused transition changes nothing, except that an expired PIN is cleared and a wrong one counted, the third one flagging the trip |
| TripRides.AcceptGoesThroughIff | services/api/src/trips/trips.service.ts:551-626 | a driver gets a trip exactly if eligible and the trip is REQUESTED, with a PIN for fifteen minutes |
| TripRides.DispatchOutcome | services/api/src/trips/trips.service.ts:295-351 | only the assigned driver's answer counts: a yes makes the driver arrive, a no clears the PIN and gives the trip back |
| TripRides.RideCompletesIff | services/api/src/trips/trips.service.ts:97-198 | a requested trip can be ridden to COMPLETED exactly if the PIN is given within fifteen minutes of the acceptance |
| DailyClose.WindowsTile | services/api/src/scheduler/finance-scheduler.service.ts:269-273 | the window of a date contains it, and two windows are equal or apart |
| DailyClose.ClosedReportsAreExact | services/api/src/scheduler/finance-scheduler.service.ts:136-193 | over every run a report generated after its window ended stays exact |
| DailyClose.StaysExactIff | services/api/src/scheduler/finance-scheduler.service.ts:121-193 | a report just generated stays exact under every later run that does not generate it again if and only if its window has ended |
| DailyClose.ReportsTile | services/api/src/scheduler/finance-scheduler.service.ts:151-158 | such reports of consecutive days add up to exactly the transactions of the span |
| DailyClose.ScheduledReportsAreEarly | services/api/src/scheduler/finance-scheduler.service.ts:23 | over every run of the timer alone no report is generated after its day ended |
| DailyClose.LateCommissionIsMissed | services/api/src/scheduler/finance-scheduler.service.ts:121-122 | a run of the timer that leaves a commission of any amount out of both days' reports |
| DailyEarnings.ReportHasEachShareOnce | services/api/src/scheduler/finance-scheduler.service.ts:136-193 | after any captures a day's report has each driver's share of the day once, although two rows are recorded for it, and the commission that it leaves over |
| Luhn.ValidateCardNumber | apps/mobile/src/utils/validation.ts:34-58 | the loop accepts exactly the numbers of 13 to 19 digits that pass the recursive check |
| Luhn.AcceptedIff | apps/mobile/src/utils/validation.ts:38-57 | acceptance said by positions: every second digit from the right counts as the digits of its double |
| Luhn.OneCheckDigit | apps/mobile/src/utils/validation.ts:38-57 | every 12 to 18 digits are completed by exactly one check digit |
| Luhn.DigitsInOrder | apps/mobile/src/utils/validation.ts:36 | all digits of the text are read, in order, and nothing else |
| Luhn.SingleErrorIsCaught | apps/mobile/src/utils/validation.ts:40-57 | one changed digit makes an accepted number rejected |
| Luhn.SwapIsCaughtIff | apps/mobile/src/utils/validation.ts:40-57 | swapping neighbours keeps it accepted if and only if they are equal or are 0 and 9 |
| FinanceStore.Store.RecordAccountEvent | services/api/src/payments/payments.service.ts:725-783 | equals `Ledger.Post` on an account, whole new state |
| FinanceStore.Store.RecordWalletEvent | services/api/src/payments/payments.service.ts:785-868 | equals `Ledger.Post` on a wallet, whole new state |
| FinanceStore.Store.InitiatePayment | services/api/src/payments/payments.service.ts:76-136 | equals its step and keeps the invariant |
| FinanceStore.Store.CapturePaymentForTrip | services/api/src/payments/payments.service.ts:211-343 | equals its step and keeps the invariant |
| FinanceStore.Store.CompleteTripAndCapture | services/api/src/trips/trips.service.ts:164-195 | completing a trip equals the trip update followed by the capture step |
| FinanceStore.Store.HandleChargeSuccess | services/api/src/payments/paystack.service.ts:358-414 | equals its step, answer included |
| FinanceStore.Store.InitiatePayoutTransfer | services/api/src/payments/paystack.service.ts:509-626 | equals its step, error exits included, keeps the invariant, and reports exactly the transfers the provider accepted, recorded or not |
| FinanceStore.Store.RetryPayoutTransfer | services/api/src/payments/paystack.service.ts:838-924 | equals its step, with FAILED restored when the transfer throws |
| FinanceStore.Store.RecordPayoutPaidLedger | services/api/src/payments/paystack.service.ts:1468-1522 | the three paid postings in order |
| FinanceStore.Store.MarkPayoutPaidByMock | services/api/src/payments/paystack.service.ts:1309-1332 | equals its step, missing payouts and the FAILED error included, and keeps the invariant |
| FinanceStore.Store.HandleTransferSuccess | services/api/src/payments/paystack.service.ts:1334-1355 | equals its step, answer included |
| FinanceStore.Store.HandleTransferFailed | services/api/src/payments/paystack.service.ts:1357-1386 | equals its step, answer included |
| FinanceStore.Store.FindPaidPayoutsMissingLedger | services/api/src/payments/paystack.service.ts:1097-1111 | lists only PAID payouts without ledger, and with a large enough limit all of them |
| FinanceStore.Store.ReverseFullRefundLedger | services/api/src/payments/paystack.service.ts:1113-1285 | equals its step and keeps the invariant |
| FinanceStore.Store.RequestFullRefund | services/api/src/payments/paystack.service.ts:628-726 | equals its step and keeps the invariant |
| FinanceStore.Store.HandleRefundEvent | services/api/src/payments/paystack.service.ts:1388-1417 | equals its step, answer included |
| FinanceStore.Store.RunManualReconciliation | services/api/src/payments/paystack.service.ts:988-1045 | lists exactly the processed refunds that are not reversed, equals one reconcile step per listed one, and leaves no processed refund unreversed |
| FinanceStore.Store.RequestDriverPayout | services/api/src/payments/payouts.service.ts:110-197 | equals its step and keeps the invariant |
| FinanceStore.Store.ValidateLedgerBalance | services/api/src/payments/ledger.service.ts:14-51 | the two loop totals decide whether the transaction has entries and balances |
| FinanceStore.Store.ApproveDriverPayout | services/api/src/payments/payouts.service.ts:199-317 | equals its step; an imbalance rolls everything back |
| Webhooks.WebhookService.HandleWebhookEvent | services/api/src/payments/paystack.service.ts:276-296 | records once, skips finished events, processes the rest: equals its step |
| Webhooks.WebhookService.ProcessProviderEvent | services/api/src/payments/paystack.service.ts:298-356 | attempt count, handler, status and processedAt as specified |
| Webhooks.WebhookService.RetryProviderEvent | services/api/src/payments/paystack.service.ts:782-806 | refuses processed events, otherwise processes the stored payload |
| Reversal.LedgerService.ValidateLedgerBalance | services/api/src/payments/ledger.service.ts:14-51 | the loop totals are stored when they agree, and the error is reported otherwise |
| Reversal.LedgerService.Reverse | services/api/src/payments/ledger.service.ts:68-145 | equals the specification, rolls back on failure, and succeeds exactly if reversible |
| Outbox.OutboxService.ListPendingEvents | services/api/src/outbox/outbox.service.ts:93-109 | the loop computes the listing |
| Outbox.OutboxService.ProcessEvent | services/api/src/outbox/outbox.service.ts:189-221 | claim, publish and mark equal the row function; a published event is appended once |
| Outbox.OutboxService.ProcessPendingEvents | services/api/src/outbox/outbox.service.ts:177-187 | each listed event is attempted once at its own clock reading, the counters add up to the listing and match the final statuses |
| Idempotency.IdempotencyService.RunRequest | services/api/src/idempotency/idempotency.service.ts:34-54 | the handler runs exactly if the key was reserved; row and answer in every case |
| TripPin.TripsService.TransitionTrip | services/api/src/trips/trips.service.ts:97-198 | equals the row function in every branch |

## Left out

- Calls to Paystack, signature checks, authentication, audit logs, notifications, list and summary queries: a provider's answer is a parameter of the step, the rest has no effect on the rows modelled.
- Faults of the database inside a transaction: each transaction commits whole or not at all, and one that reports an error wrote nothing.
- Interleaving inside a service call, except in `CaptureJoin`, `CaptureHandlers`, `OutboxProtocol` and `IdempotencyProtocol`: a call is one atomic step.
- Financial operation rows, payout comments, timestamps of payouts and refunds: written, never read by the modelled code.
- FinanceStore.Store.HandleRefundEvent: which refund the provider's reference finds is an input of the event, because that reference is not unique and the code takes the first one the database returns.
- Random identifiers: new rows take the next number, which is fresh as a UUID is.
- The link from driver profile to user: one number stands for both, as the link is unique and never changes.
- Payments of shipments, which have no trip: no modelled step finds them.
- Several currencies in the payment engine: amounts are minor units of one currency; `DailyClose` keeps the currency.
- Partial refunds: every refund is created with the payment's amount, so that branch is not reached.
- `recordManualAdjustment`: it increments the balance once and writes two opposite entries on the same account; the steps here have none of it.
- `createReversal` on the balances of accounts and wallets: it adds entries without updating them, and `Reversal` is about entries only.
- Signs, spaces and prefixes that `BigInt` accepts beyond decimal digits with a sign: no database Decimal prints them.
- FinanceStore.Store.FindPaidPayoutsMissingLedger: does not model that the payouts listed under a limit are the latest ones.
- OutboxProtocol.RunIsSafe: stated for runs in which every live worker finishes inside its lease; `OutboxLease.SafeIffWithinLease` shows that this is exactly what is needed.
- IdempotencyProtocol.AtMostOneStoredSuccess: stated for runs in which every handler finishes before its lock ends, with `reserveKey` as one step; `IdempotencyBounds.StoredAtMostOnceIff` gives the exact bound.
- Requests without an idempotency key, which run their handler directly, and the difference between a response and its JSON form.
- `Date` values, `undefined` properties and the conversion of numbers to text in `JSON.stringify`: a value is what `JSON.parse` yields, with its numbers in printed form; sha256 is taken to be injective.
- `dispatchTrip`, the dispatch lock and sessions, administrative overrides of a trip's status: trip properties are stated without those steps.
- DailyClose.ScheduledReportsAreEarly: a report is generated in one step, so a generation that straddles midnight is not modelled.
- The daily close's payment, refund and payout sums and its review counts: they follow the current status of rows, not when something was recorded.
- Retries of provider events by the timer, which only choose when `retryProviderEvent` runs; that call also revives dead-lettered events, and the model does so too.
- Fare quotes, distances, shipments, support, safety, onboarding and the user interfaces.
