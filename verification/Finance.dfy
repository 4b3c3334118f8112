/** Payments, payouts and refunds over the books: every service call that touches them, as
    one atomic step from database to database. */
module Finance {
  import opened Common
  import opened Ledger
  import Money

  type TripId = nat
  type TransferCode = nat

  datatype Provider = Paystack | OtherProvider
  datatype PaymentStatus = Pending | Authorized | Captured | Failed | Refunded | Cancelled
  datatype PayoutStatus = Requested | Approved | Processing | Paid | PayoutFailed | Rejected | PayoutCancelled
  datatype RefundStatus = RefundPending | RefundProcessing | Processed | RefundFailed | RefundCancelled

  /** The trip columns read here. `driver` stands for the driver profile and its one user. */
  datatype Trip = Trip(completed: bool, driver: Option<DriverId>)

  /** `confirmed` is whether `externalId` has been set. */
  datatype Payment = Payment(trip: TripId, amount: nat, provider: Provider, status: PaymentStatus, confirmed: bool)

  datatype Payout = Payout(
    driver: DriverId, amount: nat, provider: Provider, status: PayoutStatus, transferCode: Option<TransferCode>)

  /** `reversed` is whether `ledgerReversedAt` has been set. */
  datatype Refund = Refund(payment: PaymentId, amount: nat, status: RefundStatus, reversed: bool)

  /** New rows take `nextId` as their identifier. */
  datatype Db = Db(
    trips: map<TripId, Trip>,
    payments: map<PaymentId, Payment>,
    payouts: map<PayoutId, Payout>,
    refunds: map<RefundId, Refund>,
    books: Books,
    nextId: nat)

  /** The tables of a new installation. */
  const EMPTY: Db := Db(map[], map[], map[], map[], Opened(map[], map[]), 0)

  const MIN_PAYOUT_THRESHOLD := 100000

  function DriverShare(gross: nat): nat {
    Money.CalculateShare(gross, Money.DRIVER_EARNINGS_BPS)
  }

  /** The commission that a full refund takes back, rounded on its own. */
  function CommissionShare(gross: nat): nat {
    Money.CalculateShare(gross, Money.PLATFORM_COMMISSION_BPS)
  }

  // ---------------------------------------------------------------- lookups by unique column

  ghost predicate IsPaymentOf(payments: map<PaymentId, Payment>, t: TripId, p: PaymentId) {
    p in payments && payments[p].trip == t
  }

  ghost function PaymentOfTrip(payments: map<PaymentId, Payment>, t: TripId): Option<PaymentId> {
    if p :| IsPaymentOf(payments, t, p) then Some(p) else None
  }

  ghost predicate HasCode(payouts: map<PayoutId, Payout>, code: TransferCode, q: PayoutId) {
    q in payouts && payouts[q].transferCode == Some(code)
  }

  ghost function PayoutOfCode(payouts: map<PayoutId, Payout>, code: TransferCode): Option<PayoutId> {
    if q :| HasCode(payouts, code, q) then Some(q) else None
  }

  /** The payout that capture created for payment `p`, found through its pending transaction. */
  ghost predicate IsPendingPayoutOf(txs: map<Ref, Posting>, p: PaymentId, q: PayoutId) {
    PayoutPending(q) in txs && txs[PayoutPending(q)].payment == Some(p)
  }

  ghost function PendingPayoutOf(txs: map<Ref, Posting>, p: PaymentId): Option<PayoutId> {
    if q :| IsPendingPayoutOf(txs, p, q) then Some(q) else None
  }

  // ---------------------------------------------------------------- postings of each event

  function PendingPaymentPosting(p: PaymentId, amount: nat): Posting {
    Posting(PaymentPending(p), OnAccount(CashClearing), Credit, amount, Some(p))
  }

  function AuthorizedPosting(p: PaymentId, amount: nat): Posting {
    Posting(PaymentAuthorized(p), OnAccount(CashClearing), Credit, amount, Some(p))
  }

  function CapturedPosting(p: PaymentId, gross: nat): Posting {
    Posting(PaymentCaptured(p), OnAccount(CashClearing), Credit, gross, Some(p))
  }

  function CommissionPosting(p: PaymentId, gross: nat): (r: Posting)
  {
    Money.CommissionResidue(gross);
    Posting(PaymentCommission(p), OnAccount(CommissionRevenue), Credit, gross - DriverShare(gross), Some(p))
  }

  function EarningPosting(p: PaymentId, d: DriverId, gross: nat): Posting {
    Posting(PaymentEarning(p), OnWallet(d), Credit, DriverShare(gross), Some(p))
  }

  function PayablePosting(p: PaymentId, gross: nat): Posting {
    Posting(PaymentPayable(p), OnAccount(DriverPayable), Credit, DriverShare(gross), Some(p))
  }

  function PendingPosting(q: PayoutId, p: PaymentId, gross: nat): Posting {
    Posting(PayoutPending(q), OnAccount(PayoutClearing), Credit, DriverShare(gross), Some(p))
  }

  function PaidPostings(q: PayoutId, d: DriverId, amount: nat): seq<Posting> {
    [Posting(PayoutPaidWallet(q), OnWallet(d), Debit, amount, None),
     Posting(PayoutPaidPayable(q), OnAccount(DriverPayable), Debit, amount, None),
     Posting(PayoutPaidClearing(q), OnAccount(PayoutClearing), Credit, amount, None)]
  }

  function RefundPostings(r: RefundId, p: PaymentId, gross: nat): seq<Posting> {
    [Posting(RefundProcessed(r), OnAccount(CashClearing), Debit, gross, Some(p)),
     Posting(RefundCommission(r), OnAccount(CommissionRevenue), Debit,
             CommissionShare(gross), Some(p))]
  }

  function ReversalPostings(r: RefundId, p: PaymentId, d: DriverId, gross: nat): seq<Posting> {
    [Posting(RefundEarningWallet(r), OnWallet(d), Debit, DriverShare(gross), Some(p)),
     Posting(RefundEarningPayable(r), OnAccount(DriverPayable), Debit, DriverShare(gross), Some(p))]
  }

  // ---------------------------------------------------------------- payments

  function InitiatePayment(db: Db, t: TripId, amount: nat, provider: Provider): Db
  {
    var p := db.nextId;
    db.(payments := db.payments[p := Payment(t, amount, provider, Pending, false)],
        books := Post(db.books, PendingPaymentPosting(p, amount)),
        nextId := p + 1)
  }

  /** `initiateMockPayment` / `initiatePaystackPayment`: a trip that has a payment keeps it. */
  ghost function Initiate(db: Db, t: TripId, amount: nat, provider: Provider): Db {
    if t !in db.trips || PaymentOfTrip(db.payments, t).Some? then db
    else InitiatePayment(db, t, amount, provider)
  }

  ghost function Authorize(db: Db, t: TripId): Db {
    match PaymentOfTrip(db.payments, t)
    case None => db
    case Some(p) =>
      var payment := db.payments[p];
      if payment.status != Pending then db
      else
        db.(payments := db.payments[p := payment.(status := Authorized)],
            books := Post(db.books, AuthorizedPosting(p, payment.amount)))
  }

  /** Whether `capturePaymentForTrip` goes past its guards for this payment. */
  predicate Capturable(payment: Payment) {
    && (payment.status == Pending || payment.status == Authorized)
    && (payment.provider == Paystack ==> payment.confirmed)
  }

  function CapturePostings(p: PaymentId, gross: nat): seq<Posting> {
    [CapturedPosting(p, gross), CommissionPosting(p, gross)]
  }

  function EarningPostings(p: PaymentId, d: DriverId, q: PayoutId, gross: nat): seq<Posting> {
    [EarningPosting(p, d, gross), PayablePosting(p, gross), PendingPosting(q, p, gross)]
  }

  function CaptureRow(db: Db, p: PaymentId, driver: Option<DriverId>): Db
    requires p in db.payments
  {
    var payment := db.payments[p];
    var captured := db.(payments := db.payments[p := payment.(status := Captured)],
                        books := PostAll(db.books, CapturePostings(p, payment.amount)));
    match driver
    case None => captured
    case Some(d) =>
      var q := db.nextId;
      captured.(payouts := db.payouts[q := Payout(d, DriverShare(payment.amount), payment.provider, Requested, None)],
                books := PostAll(captured.books, EarningPostings(p, d, q, payment.amount)),
                nextId := q + 1)
  }

  ghost function Capture(db: Db, t: TripId, driver: Option<DriverId>): Db {
    match PaymentOfTrip(db.payments, t)
    case None => db
    case Some(p) => if Capturable(db.payments[p]) then CaptureRow(db, p, driver) else db
  }

  /** The completing transition: the trip row, then the capture. */
  ghost function CompleteTrip(db: Db, t: TripId): Db {
    if t !in db.trips || db.trips[t].completed then db
    else
      var trip := db.trips[t];
      Capture(db.(trips := db.trips[t := trip.(completed := true)]), t, trip.driver)
  }

  /** The payment update of `handleChargeSuccess`, on the status it read. */
  function ConfirmPayment(payment: Payment, readStatus: PaymentStatus): Payment {
    payment.(confirmed := true, status := if readStatus == Pending then Authorized else readStatus)
  }

  predicate ChargeSettled(status: PaymentStatus) {
    status == Captured || status == Failed || status == Refunded
  }

  /** The event's payment by reference (None: no reference in the event). The flag is the
      handler's answer: was the event processed. */
  ghost function ChargeSuccess(db: Db, reference: Option<PaymentId>, verified: bool): (Db, bool) {
    if reference.None? || !verified then (db, false)
    else
      var p := reference.value;
      if p !in db.payments || ChargeSettled(db.payments[p].status) then (db, true)
      else
        var payment := db.payments[p];
        var confirmed := db.(payments := db.payments[p := ConfirmPayment(payment, payment.status)]);
        if payment.trip in db.trips && db.trips[payment.trip].completed
        then (Capture(confirmed, payment.trip, db.trips[payment.trip].driver), true)
        else (confirmed, true)
  }

  function ChargeFailed(db: Db, reference: Option<PaymentId>): (Db, bool) {
    if reference.None? then (db, false)
    else
      var p := reference.value;
      if p !in db.payments || ChargeSettled(db.payments[p].status) then (db, true)
      else (db.(payments := db.payments[p := db.payments[p].(status := Failed)]), true)
  }

  // ---------------------------------------------------------------- payouts through the provider

  function SetPayout(db: Db, q: PayoutId, payout: Payout): Db {
    db.(payouts := db.payouts[q := payout])
  }

  /** The status update to PAID together with `recordPayoutPaidLedger`. */
  function PayPayout(db: Db, q: PayoutId): Db
    requires q in db.payouts
  {
    var payout := db.payouts[q];
    SetPayout(db, q, payout.(status := Paid)).(books := PostAll(db.books, PaidPostings(q, payout.driver, payout.amount)))
  }

  /** `markMockPayoutPaid`; the flag is false where it throws. */
  function MarkMockPayoutPaid(db: Db, q: PayoutId): (Db, bool) {
    if q !in db.payouts then (db, true)
    else if db.payouts[q].status == PayoutFailed then (db, false)
    else if db.payouts[q].status == Approved || db.payouts[q].status == Processing then (PayPayout(db, q), true)
    else (db, true)
  }

  /** What the provider and the configuration contribute to one transfer attempt. */
  datatype TransferEnv = TransferEnv(secretKey: bool, recipient: bool, response: Option<TransferCode>)

  /** `initiatePayoutTransfer`; the flag is false where it throws. A transfer code that another
      payout already holds violates the unique column, and the transaction rolls back. */
  ghost function InitiateTransfer(db: Db, q: PayoutId, env: TransferEnv): (Db, bool) {
    if q !in db.payouts then (db, false)
    else
      var payout := db.payouts[q];
      if payout.status == Paid then (db, true)
      else if payout.status == PayoutFailed then (db, false)
      else if !env.secretKey || payout.provider != Paystack then MarkMockPayoutPaid(db, q)
      else if !env.recipient then (db, false)
      else if payout.status == Processing && payout.transferCode.Some? then (db, true)
      else if env.response.None? then (db, false)
      else if payout.status != Approved then (db, true)
      else if PayoutOfCode(db.payouts, env.response.value).Some? && PayoutOfCode(db.payouts, env.response.value) != Some(q)
      then (db, false)
      else (SetPayout(db, q, payout.(status := Processing, transferCode := env.response)), true)
  }

  ghost function RetryTransfer(db: Db, q: PayoutId, env: TransferEnv): Db {
    if q !in db.payouts || db.payouts[q].status != PayoutFailed || PayoutPaidWallet(q) in db.books.txs then db
    else
      var reopened := SetPayout(db, q, db.payouts[q].(status := Approved, transferCode := None));
      var (after, ok) := InitiateTransfer(reopened, q, env);
      if ok then after else SetPayout(reopened, q, reopened.payouts[q].(status := PayoutFailed))
  }

  ghost function TransferSuccess(db: Db, code: Option<TransferCode>): (Db, bool) {
    if code.None? then (db, false)
    else
      match PayoutOfCode(db.payouts, code.value)
      case None => (db, true)
      case Some(q) => (if db.payouts[q].status == Processing then PayPayout(db, q) else db, true)
  }

  ghost function TransferFailed(db: Db, code: Option<TransferCode>): (Db, bool) {
    if code.None? then (db, false)
    else
      match PayoutOfCode(db.payouts, code.value)
      case None => (db, true)
      case Some(q) =>
        (if db.payouts[q].status == Processing then SetPayout(db, q, db.payouts[q].(status := PayoutFailed)) else db, true)
  }

  // ---------------------------------------------------------------- refunds

  /** How the earning part of a refund ends. */
  datatype Earning = NoEarning | Withheld | Reverse(q: PayoutId)

  /** The decision of `reverseFullRefundLedger` about the driver's earning. The wallet balance
      is compared after it went through text, so a negative one can read too high. */
  ghost function EarningDecision(db: Db, p: PaymentId, gross: nat): Earning {
    if PaymentEarning(p) !in db.books.txs then NoEarning
    else
      match PendingPayoutOf(db.books.txs, p)
      case None => NoEarning
      case Some(q) =>
        if q !in db.payouts then NoEarning
        else if db.payouts[q].status == Paid || db.payouts[q].status == Processing then Withheld
        else if Money.ReadBack(Balance(db.books, OnWallet(db.payouts[q].driver))) >= DriverShare(gross) then Reverse(q)
        else Withheld
  }

  function CloseRefund(db: Db, r: RefundId): Db
    requires r in db.refunds && db.refunds[r].payment in db.payments
  {
    var p := db.refunds[r].payment;
    db.(refunds := db.refunds[r := db.refunds[r].(reversed := true)],
        payments := db.payments[p := db.payments[p].(status := Refunded)])
  }

  /** The payout after its earning was reversed: REQUESTED and FAILED are cancelled. */
  function AfterReversal(payout: Payout): Payout {
    if payout.status == Requested || payout.status == PayoutFailed then payout.(status := PayoutCancelled) else payout
  }

  ghost function ReverseRefund(db: Db, r: RefundId): Db {
    if r !in db.refunds || db.refunds[r].payment !in db.payments then db
    else
      var refund := db.refunds[r];
      var p := refund.payment;
      var gross := db.payments[p].amount;
      if refund.status != Processed || refund.reversed || refund.amount != gross then db
      else
        var debited := db.(books := PostAll(db.books, RefundPostings(r, p, gross)));
        match EarningDecision(debited, p, gross)
        case Reverse(q) =>
          var payout := db.payouts[q];
          CloseRefund(SetPayout(debited, q, AfterReversal(payout)).(
            books := PostAll(debited.books, ReversalPostings(r, p, payout.driver, gross))), r)
        case _ => CloseRefund(debited, r)
  }

  datatype RefundResponse = Unreachable | Declined | Accepted

  ghost predicate HasOpenRefund(db: Db, p: PaymentId) {
    exists r :: r in db.refunds && db.refunds[r].payment == p &&
      (db.refunds[r].status == RefundPending || db.refunds[r].status == RefundProcessing || db.refunds[r].status == Processed)
  }

  ghost function RequestRefund(db: Db, p: PaymentId, secretKey: bool, response: RefundResponse): Db {
    if p !in db.payments || db.payments[p].status != Captured || HasOpenRefund(db, p) then db
    else
      var r := db.nextId;
      var external := secretKey && db.payments[p].provider == Paystack;
      var refund := Refund(p, db.payments[p].amount, if external then RefundProcessing else Processed, false);
      var created := db.(refunds := db.refunds[r := refund], nextId := r + 1);
      if !external then ReverseRefund(created, r)
      else if response == Declined then created.(refunds := created.refunds[r := refund.(status := RefundFailed)])
      else created
  }

  datatype RefundEventKind = EventPending | EventProcessed | EventFailed

  /** `reference`: None when the event has none; otherwise the refund row it finds, if any. */
  ghost function RefundEvent(db: Db, kind: RefundEventKind, reference: Option<Option<RefundId>>): (Db, bool) {
    match reference
    case None => (db, false)
    case Some(None) => (db, true)
    case Some(Some(r)) =>
      if r !in db.refunds || db.refunds[r].payment !in db.payments then (db, true)
      else
        var status := match kind { case EventProcessed => Processed case EventFailed => RefundFailed case EventPending => RefundProcessing };
        var p := db.refunds[r].payment;
        var updated := db.(refunds := db.refunds[r := db.refunds[r].(status := status)]);
        if kind == EventProcessed
        then (ReverseRefund(updated.(payments := db.payments[p := db.payments[p].(status := Refunded)]), r), true)
        else (updated, true)
  }

  // ---------------------------------------------------------------- payouts through the admin

  /** `eligible` stands for the KYC, bank account and cooldown checks. */
  function RequestPayout(db: Db, d: DriverId, amount: int, eligible: bool): Db {
    if !eligible || amount < MIN_PAYOUT_THRESHOLD || DriverPayable !in db.books.accounts
       || Money.ReadBack(db.books.accounts[DriverPayable]) < amount then db
    else
      db.(payouts := db.payouts[db.nextId := Payout(d, amount, Paystack, Requested, None)], nextId := db.nextId + 1)
  }

  function ApprovedPostings(q: PayoutId, amount: nat): seq<Posting> {
    [Posting(PayoutApprovedPayable(q), OnAccount(DriverPayable), Debit, amount, None),
     Posting(PayoutApprovedClearing(q), OnAccount(PayoutClearing), Credit, amount, None)]
  }

  function FailedPostings(q: PayoutId, amount: nat): seq<Posting> {
    [Posting(PayoutFailedPayable(q), OnAccount(DriverPayable), Credit, amount, None),
     Posting(PayoutFailedClearing(q), OnAccount(PayoutClearing), Debit, amount, None)]
  }

  /** `validateLedgerBalance`: the transaction has entries and its debits equal its credits. */
  ghost predicate TransactionBalances(b: Books, r: Ref) {
    && (exists i :: 0 <= i < |b.journal| && b.journal[i].posting.ref == r)
    && Total(b.journal, OneKind(r, Debit)) == Total(b.journal, OneKind(r, Credit))
  }

  predicate HasPayoutAccounts(db: Db) {
    DriverPayable in db.books.accounts && PayoutClearing in db.books.accounts
  }

  /** `approvePayout`; everything is rolled back when the last transaction does not balance. */
  ghost function ApprovePayout(db: Db, q: PayoutId): Db {
    if q !in db.payouts || db.payouts[q].status != Requested || !HasPayoutAccounts(db) then db
    else
      var payout := db.payouts[q];
      var books := PostAll(db.books, ApprovedPostings(q, payout.amount));
      if TransactionBalances(books, PayoutApprovedClearing(q))
      then SetPayout(db, q, payout.(status := Approved)).(books := books)
      else db
  }

  function MovePayout(db: Db, q: PayoutId, from: PayoutStatus, to: PayoutStatus): Db {
    if q in db.payouts && db.payouts[q].status == from then SetPayout(db, q, db.payouts[q].(status := to)) else db
  }

  function MarkPayoutFailed(db: Db, q: PayoutId): Db {
    if q !in db.payouts || db.payouts[q].status != Processing then db
    else
      var failed := MovePayout(db, q, Processing, PayoutFailed);
      if HasPayoutAccounts(db) then failed.(books := PostAll(db.books, FailedPostings(q, db.payouts[q].amount)))
      else failed
  }

  // ---------------------------------------------------------------- runs

  datatype Step =
    | OpenTrip(t: TripId)
    | AssignDriver(t: TripId, driver: DriverId)
    | StepInitiate(t: TripId, amount: nat, provider: Provider)
    | StepAuthorize(t: TripId)
    | StepComplete(t: TripId)
    | StepCapture(t: TripId)
    | StepChargeSuccess(reference: Option<PaymentId>, verified: bool)
    | StepChargeFailed(reference: Option<PaymentId>)
    | StepTransfer(q: PayoutId, env: TransferEnv)
    | StepRetry(q: PayoutId, env: TransferEnv)
    | StepTransferSuccess(code: Option<TransferCode>)
    | StepTransferFailed(code: Option<TransferCode>)
    | StepRequestRefund(p: PaymentId, secretKey: bool, response: RefundResponse)
    | StepRefundEvent(kind: RefundEventKind, refund: Option<Option<RefundId>>)
    | StepReconcile(r: RefundId)
    | StepRequestPayout(d: DriverId, requested: int, eligible: bool)
    | StepApprove(q: PayoutId)
    | StepReject(q: PayoutId)
    | StepMarkProcessing(q: PayoutId)
    | StepMarkPaid(q: PayoutId)
    | StepMarkFailed(q: PayoutId)

  ghost function Apply(db: Db, step: Step): Db {
    match step
    case OpenTrip(t) => if t in db.trips then db else db.(trips := db.trips[t := Trip(false, None)])
    case AssignDriver(t, d) =>
      if t in db.trips && !db.trips[t].completed
      then db.(trips := db.trips[t := db.trips[t].(driver := Some(d))])
      else db
    case StepInitiate(t, amount, provider) => Initiate(db, t, amount, provider)
    case StepAuthorize(t) => Authorize(db, t)
    case StepComplete(t) => CompleteTrip(db, t)
    case StepCapture(t) => if t in db.trips then Capture(db, t, db.trips[t].driver) else db
    case StepChargeSuccess(reference, verified) => ChargeSuccess(db, reference, verified).0
    case StepChargeFailed(reference) => ChargeFailed(db, reference).0
    case StepTransfer(q, env) => InitiateTransfer(db, q, env).0
    case StepRetry(q, env) => RetryTransfer(db, q, env)
    case StepTransferSuccess(code) => TransferSuccess(db, code).0
    case StepTransferFailed(code) => TransferFailed(db, code).0
    case StepRequestRefund(p, secretKey, response) => RequestRefund(db, p, secretKey, response)
    case StepRefundEvent(kind, refund) => RefundEvent(db, kind, refund).0
    case StepReconcile(r) => ReverseRefund(db, r)
    case StepRequestPayout(d, requested, eligible) => RequestPayout(db, d, requested, eligible)
    case StepApprove(q) => ApprovePayout(db, q)
    case StepReject(q) => MovePayout(db, q, Requested, Rejected)
    case StepMarkProcessing(q) => MovePayout(db, q, Approved, Processing)
    case StepMarkPaid(q) => MovePayout(db, q, Processing, Paid)
    case StepMarkFailed(q) => MarkPayoutFailed(db, q)
  }

  ghost function Run(db: Db, steps: seq<Step>): Db {
    if steps == [] then db else Apply(Run(db, steps[..|steps| - 1]), steps[|steps| - 1])
  }
}
