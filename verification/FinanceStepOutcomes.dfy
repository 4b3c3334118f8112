/** What every service call does, as one relation between the tables before and after, said without
    the functions that compute it. */
module FinanceStepOutcomes {
  import opened Common
  import opened Ledger
  import opened Finance
  import opened FinanceInvariants
  import opened FinanceSteps
  import opened FinanceBooks
  import opened FinanceOutcomes
  import opened FinancePayoutOutcomes
  import opened FinanceRefundOutcomes

  ghost predicate StepDoes(db: Db, db': Db, step: Step) {
    match step
    case OpenTrip(t) => db' == if t in db.trips then db else db.(trips := db.trips[t := Trip(false, None)])
    case AssignDriver(t, d) =>
      db' == if t in db.trips && !db.trips[t].completed then db.(trips := db.trips[t := Trip(false, Some(d))]) else db
    case StepInitiate(t, amount, provider) => Initiates(db, db', t, amount, provider)
    case StepAuthorize(t) => Authorizes(db, db', t)
    case StepComplete(t) => Completes(db, db', t)
    case StepCapture(t) => if t in db.trips then Captures(db, db', t, db.trips[t].driver) else db' == db
    case StepChargeSuccess(reference, verified) => ChargeSucceeds(db, db', reference, verified)
    case StepChargeFailed(reference) => ChargeFails(db, db', reference)
    case StepTransfer(q, env) => Transfers(db, db', q, env)
    case StepRetry(q, env) => Retries(db, db', q, env)
    case StepTransferSuccess(code) => TransferSettles(db, db', code, true)
    case StepTransferFailed(code) => TransferSettles(db, db', code, false)
    case StepRequestRefund(p, secretKey, response) => RequestsRefund(db, db', p, secretKey, response)
    case StepRefundEvent(kind, refund) => MovesRefund(db, db', kind, refund)
    case StepReconcile(r) => Reconciles(db, db', r)
    case StepRequestPayout(d, amount, eligible) => RequestsPayout(db, db', d, amount, eligible)
    case StepApprove(q) => Approves(db, db', q)
    case StepReject(q) => ChangesStatus(db, db', q, Requested, Rejected)
    case StepMarkProcessing(q) => ChangesStatus(db, db', q, Approved, Processing)
    case StepMarkPaid(q) => ChangesStatus(db, db', q, Processing, Paid)
    case StepMarkFailed(q) => MarksFailed(db, db', q)
  }

  lemma AdminDoes(open: Books, db: Db, step: Step)
    requires Inv(db) && LedgerOk(open, db.books) && IsAdminPayoutStep(step)
    ensures StepDoes(db, Apply(db, step), step)
  {
    match step
    case StepRequestPayout(d, amount, eligible) => RequestOutcome(db, d, amount, eligible);
    case StepApprove(q) => ApproveOutcome(open, db, q);
    case StepMarkFailed(q) => MarkFailedOutcome(db, q);
    case StepReject(q) => MoveOutcome(db, q);
    case StepMarkProcessing(q) => MoveOutcome(db, q);
    case StepMarkPaid(q) => MoveOutcome(db, q);
  }

  lemma PaymentDoes(db: Db, step: Step)
    requires Inv(db) && IsPaymentStep(step)
    ensures StepDoes(db, Apply(db, step), step)
  {
    match step
    case StepInitiate(t, amount, provider) => InitiateOutcome(db, t, amount, provider);
    case StepAuthorize(t) => AuthorizeOutcome(db, t);
    case StepComplete(t) => CompletionOutcome(db, t);
    case StepCapture(t) => if t in db.trips { CaptureOutcome(db, t, db.trips[t].driver); }
    case StepChargeSuccess(reference, verified) => ChargeSuccessOutcome(db, reference, verified);
    case StepChargeFailed(reference) => ChargeFailedOutcome(db, reference);
    case _ =>
  }

  lemma ProviderDoes(db: Db, step: Step)
    requires Inv(db) && !IsPaymentStep(step) && !IsAdminPayoutStep(step)
    ensures StepDoes(db, Apply(db, step), step)
  {
    match step
    case StepTransfer(q, env) => TransferOutcome(db, q, env);
    case StepRetry(q, env) => RetryOutcome(db, q, env);
    case StepTransferSuccess(code) => TransferEventOutcome(db, code);
    case StepTransferFailed(code) => TransferEventOutcome(db, code);
    case StepRequestRefund(p, secretKey, response) => RequestRefundOutcome(db, p, secretKey, response);
    case StepRefundEvent(kind, refund) => RefundEventOutcome(db, kind, refund);
    case StepReconcile(r) => ReconcileOutcome(db, r);
  }

  /** Every service call changes the tables exactly as `StepDoes` says, from any tables in order. */
  lemma StepOutcome(open: Books, db: Db, step: Step)
    requires Inv(db) && LedgerOk(open, db.books)
    ensures StepDoes(db, Apply(db, step), step)
  {
    if IsAdminPayoutStep(step) {
      AdminDoes(open, db, step);
    } else if IsPaymentStep(step) {
      PaymentDoes(db, step);
    } else {
      ProviderDoes(db, step);
    }
  }

  /** So does every step of every run from such tables. */
  lemma RunOutcomes(open: Books, db: Db, steps: seq<Step>, k: nat)
    requires Inv(db) && LedgerOk(open, db.books) && k < |steps|
    ensures StepDoes(Run(db, steps[..k]), Run(db, steps[..k + 1]), steps[k])
  {
    RunKept(db, steps[..k]);
    RunLedgerOk(open, db, steps[..k]);
    StepOutcome(open, Run(db, steps[..k]), steps[k]);
    assert steps[..k + 1][..k] == steps[..k];
  }
}
