/** What each payout operation leaves behind, case by case. */
module FinancePayoutOutcomes {
  import opened Common
  import opened Ledger
  import opened Finance
  import opened FinanceInvariants
  import opened FinanceSteps
  import opened FinanceBooks
  import opened FinanceOutcomes
  import FinanceResults
  import Money

  /** Only the status of this payout changes. */
  ghost predicate StatusOnly(db: Db, db': Db, q: PayoutId, status: PayoutStatus)
    requires q in db.payouts
  {
    db' == db.(payouts := db.payouts[q := db.payouts[q].(status := status)])
  }

  // ---------------------------------------------------------------- paid

  /** PAID, the amount taken from the driver's wallet and from DRIVER_PAYABLE, and PAYOUT_CLEARING
      credited with it. */
  ghost predicate PaidOut(db: Db, db': Db, q: PayoutId)
    requires q in db.payouts
  {
    var d, amount := db.payouts[q].driver, db.payouts[q].amount;
    && db' == db.(payouts := db.payouts[q := db.payouts[q].(status := Paid)], books := db'.books)
    && Posts(db.books, db'.books, {PayoutPaidWallet(q), PayoutPaidPayable(q), PayoutPaidClearing(q)},
             map[OnWallet(d) := 0 - amount, OnAccount(DriverPayable) := 0 - amount, OnAccount(PayoutClearing) := amount])
  }

  lemma PayOutcome(db: Db, q: PayoutId)
    requires Inv(db) && q in db.payouts && db.payouts[q].status != Paid
    ensures PaidOut(db, PayPayout(db, q), q)
  {
    NothingPaid(db, q);
    var ps := PaidPostings(q, db.payouts[q].driver, db.payouts[q].amount);
    ThreePost(db.books, ps[0], ps[1], ps[2]);
  }

  // ---------------------------------------------------------------- transfers

  /** The provider is asked for this payout: a key is configured and the payout is Paystack's. */
  predicate ThroughProvider(payout: Payout, env: TransferEnv) {
    env.secretKey && payout.provider == Paystack
  }

  /** Without the provider an APPROVED or PROCESSING payout is paid at once. */
  lemma DirectTransferOutcome(db: Db, q: PayoutId, env: TransferEnv)
    requires Inv(db) && q in db.payouts && !ThroughProvider(db.payouts[q], env)
    ensures var (db', ok) := InitiateTransfer(db, q, env);
            && (ok <==> db.payouts[q].status != PayoutFailed)
            && if db.payouts[q].status in {Approved, Processing} then PaidOut(db, db', q) else db' == db
  {
    if db.payouts[q].status != Paid {
      PayOutcome(db, q);
    }
  }

  ghost predicate CodeTaken(db: Db, q: PayoutId, code: TransferCode) {
    exists other :: other != q && HasCode(db.payouts, code, other)
  }

  lemma CodeIsTakenIff(db: Db, q: PayoutId, code: TransferCode)
    requires Keys(db)
    ensures CodeTaken(db, q, code) <==> PayoutOfCode(db.payouts, code).Some? && PayoutOfCode(db.payouts, code) != Some(q)
  {
    if other :| other != q && HasCode(db.payouts, code, other) {
      assert PayoutOfCode(db.payouts, code) == Some(other);
    }
  }

  /** The transfer that is asked of the provider is recorded. */
  predicate IsRecorded(payout: Payout, env: TransferEnv) {
    payout.status == Approved && env.recipient && env.response.Some?
  }

  /** Through the provider only an APPROVED payout changes: it becomes PROCESSING under the code that
      the provider gave, unless another payout has that code. No posting is made. */
  lemma ProviderTransferOutcome(db: Db, q: PayoutId, env: TransferEnv)
    requires Inv(db) && q in db.payouts && ThroughProvider(db.payouts[q], env)
    ensures var payout := db.payouts[q];
            var (db', ok) := InitiateTransfer(db, q, env);
            && (payout.status == Paid ==> ok)
            && (payout.status == PayoutFailed ==> !ok)
            && (payout.status !in {Paid, PayoutFailed} ==>
                  (ok <==> env.recipient
                           && ((payout.status == Processing && payout.transferCode.Some?)
                               || (env.response.Some? && !(payout.status == Approved && CodeTaken(db, q, env.response.value))))))
            && if IsRecorded(payout, env) && !CodeTaken(db, q, env.response.value)
               then db' == db.(payouts := db.payouts[q := payout.(status := Processing, transferCode := env.response)])
               else db' == db
  {
    if env.response.Some? {
      CodeIsTakenIff(db, q, env.response.value);
    }
  }

  /** A transfer that is asked for: without the provider the payout is paid, through it at most recorded. */
  ghost predicate Transfers(db: Db, db': Db, q: PayoutId, env: TransferEnv) {
    if q !in db.payouts then db' == db
    else if !ThroughProvider(db.payouts[q], env)
    then (if db.payouts[q].status in {Approved, Processing} then PaidOut(db, db', q) else db' == db)
    else if IsRecorded(db.payouts[q], env) && !CodeTaken(db, q, env.response.value)
    then db' == db.(payouts := db.payouts[q := db.payouts[q].(status := Processing, transferCode := env.response)])
    else db' == db
  }

  lemma TransferOutcome(db: Db, q: PayoutId, env: TransferEnv)
    requires Inv(db)
    ensures Transfers(db, InitiateTransfer(db, q, env).0, q, env)
  {
    if q in db.payouts {
      if ThroughProvider(db.payouts[q], env) {
        ProviderTransferOutcome(db, q, env);
      } else {
        DirectTransferOutcome(db, q, env);
      }
    }
  }

  /** What the provider was asked for and accepted, whatever became of the row. */
  lemma SentOutcome(db: Db, q: PayoutId, env: TransferEnv)
    ensures FinanceResults.SentTransfer(db, q, env) ==
            if q in db.payouts && ThroughProvider(db.payouts[q], env) && env.recipient
               && db.payouts[q].status !in {Paid, PayoutFailed}
               && !(db.payouts[q].status == Processing && db.payouts[q].transferCode.Some?)
            then env.response else None
  {
  }

  /** A retry of a failed, unpaid payout: PAID at once without the provider, PROCESSING with its new
      code, or FAILED again without a code. Every other payout is left alone. */
  ghost predicate Retries(db: Db, db': Db, q: PayoutId, env: TransferEnv) {
    if q !in db.payouts || db.payouts[q].status != PayoutFailed then db' == db
    else if !ThroughProvider(db.payouts[q], env)
    then PaidOut(SetPayout(db, q, db.payouts[q].(status := Approved, transferCode := None)), db', q)
    else if env.recipient && env.response.Some? && !CodeTaken(db, q, env.response.value)
    then db' == db.(payouts := db.payouts[q := db.payouts[q].(status := Processing, transferCode := env.response)])
    else db' == db.(payouts := db.payouts[q := db.payouts[q].(transferCode := None)])
  }

  lemma RetryOutcome(db: Db, q: PayoutId, env: TransferEnv)
    requires Inv(db)
    ensures Retries(db, RetryTransfer(db, q, env), q, env)
  {
    if q in db.payouts && db.payouts[q].status == PayoutFailed {
      var payout := db.payouts[q].(status := Approved, transferCode := None);
      var reopened := SetPayout(db, q, payout);
      NothingPaid(db, q);
      KeptPayoutRow(db, q, payout);
      if ThroughProvider(payout, env) {
        ProviderTransferOutcome(reopened, q, env);
        SameCodeTaken(db, reopened, q, env);
      } else {
        DirectTransferOutcome(reopened, q, env);
      }
    }
  }

  lemma SameCodeTaken(db: Db, db': Db, q: PayoutId, env: TransferEnv)
    requires forall other :: other != q ==> (other in db.payouts <==> other in db'.payouts)
    requires forall other :: other != q && other in db.payouts ==> db.payouts[other] == db'.payouts[other]
    ensures env.response.Some? ==> CodeTaken(db, q, env.response.value) == CodeTaken(db', q, env.response.value)
  {
    if env.response.Some? {
      forall other ensures other != q ==>
          HasCode(db.payouts, env.response.value, other) == HasCode(db'.payouts, env.response.value, other) {}
    }
  }

  /** A transfer event settles the PROCESSING payout of its code: success pays it, failure is a status
      change without a posting. All other events change nothing. */
  ghost predicate TransferSettles(db: Db, db': Db, code: Option<TransferCode>, success: bool) {
    && (code.None? || (forall q :: !HasCode(db.payouts, code.value, q)) ==> db' == db)
    && forall q :: code.Some? && HasCode(db.payouts, code.value, q) ==>
         if db.payouts[q].status != Processing then db' == db
         else if success then PaidOut(db, db', q) else StatusOnly(db, db', q, PayoutFailed)
  }

  /** Without a code the event is not processed. */
  lemma TransferEventOutcome(db: Db, code: Option<TransferCode>)
    requires Inv(db)
    ensures TransferSettles(db, TransferSuccess(db, code).0, code, true) && TransferSuccess(db, code).1 == code.Some?
    ensures TransferSettles(db, TransferFailed(db, code).0, code, false) && TransferFailed(db, code).1 == code.Some?
  {
    forall q | code.Some? && HasCode(db.payouts, code.value, q)
      ensures if db.payouts[q].status == Processing
              then PaidOut(db, TransferSuccess(db, code).0, q) && StatusOnly(db, TransferFailed(db, code).0, q, PayoutFailed)
              else TransferSuccess(db, code).0 == TransferFailed(db, code).0 == db
    {
      FinanceResults.FoundByCode(db, q, code.value);
      if db.payouts[q].status == Processing {
        PayOutcome(db, q);
      }
    }
  }

  // ---------------------------------------------------------------- the admin's steps

  /** A request is accepted if and only if the driver is eligible, the amount is at least 1000.00 and
      DRIVER_PAYABLE holds it; then there is a new row, REQUESTED, of that driver and amount. */
  ghost predicate RequestsPayout(db: Db, db': Db, d: DriverId, amount: int, eligible: bool) {
    if eligible && amount >= 100000 && DriverPayable in db.books.accounts
       && Money.ReadBack(db.books.accounts[DriverPayable]) >= amount
    then db' == db.(payouts := db.payouts[db.nextId := Payout(d, amount, Paystack, Requested, None)], nextId := db.nextId + 1)
    else db' == db
  }

  lemma RequestOutcome(db: Db, d: DriverId, amount: int, eligible: bool)
    ensures RequestsPayout(db, RequestPayout(db, d, amount, eligible), d, amount, eligible)
  {
  }

  /** An approval goes through exactly for REQUESTED payouts of amount 0, and then moves no balance. */
  ghost predicate Approves(db: Db, db': Db, q: PayoutId) {
    if q in db.payouts && db.payouts[q].status == Requested && db.payouts[q].amount == 0 && HasPayoutAccounts(db) then
      && db' == db.(payouts := db.payouts[q := db.payouts[q].(status := Approved)], books := db'.books)
      && Posts(db.books, db'.books, {PayoutApprovedPayable(q), PayoutApprovedClearing(q)}, map[])
    else db' == db
  }

  lemma ApproveOutcome(open: Books, db: Db, q: PayoutId)
    requires Inv(db) && LedgerOk(open, db.books)
    ensures Approves(db, ApprovePayout(db, q), q)
  {
    if q in db.payouts && db.payouts[q].status == Requested && HasPayoutAccounts(db) {
      ApproveCommitsIff(open, db, q);
      if db.payouts[q].amount == 0 {
        var ps := ApprovedPostings(q, 0);
        RowOf(db, PayoutApprovedPayable(q));
        RowOf(db, PayoutApprovedClearing(q));
        TwoPost(db.books, ps[0], ps[1]);
      }
    }
  }

  /** Only a payout in the first status gets the second one, with no posting. */
  ghost predicate ChangesStatus(db: Db, db': Db, q: PayoutId, from: PayoutStatus, to: PayoutStatus) {
    if q in db.payouts && db.payouts[q].status == from then StatusOnly(db, db', q, to) else db' == db
  }

  /** REQUESTED can be rejected, APPROVED marked as processing, PROCESSING as paid. */
  lemma MoveOutcome(db: Db, q: PayoutId)
    ensures ChangesStatus(db, Apply(db, StepReject(q)), q, Requested, Rejected)
    ensures ChangesStatus(db, Apply(db, StepMarkProcessing(q)), q, Approved, Processing)
    ensures ChangesStatus(db, Apply(db, StepMarkPaid(q)), q, Processing, Paid)
  {
  }

  /** The first failure moves the amount from PAYOUT_CLEARING back to DRIVER_PAYABLE, if both accounts
      exist; a second failure after a retry posts nothing. */
  ghost predicate MarksFailed(db: Db, db': Db, q: PayoutId) {
    if q !in db.payouts || db.payouts[q].status != Processing then db' == db
    else if !HasPayoutAccounts(db) then StatusOnly(db, db', q, PayoutFailed)
    else
      var amount := db.payouts[q].amount;
      && db' == db.(payouts := db.payouts[q := db.payouts[q].(status := PayoutFailed)], books := db'.books)
      && (PayoutFailedPayable(q) !in db.books.txs && PayoutFailedClearing(q) !in db.books.txs ==>
            Posts(db.books, db'.books, {PayoutFailedPayable(q), PayoutFailedClearing(q)},
                  map[OnAccount(DriverPayable) := amount, OnAccount(PayoutClearing) := 0 - amount]))
      && (PayoutFailedPayable(q) in db.books.txs && PayoutFailedClearing(q) in db.books.txs ==> db'.books == db.books)
  }

  lemma MarkFailedOutcome(db: Db, q: PayoutId)
    ensures MarksFailed(db, MarkPayoutFailed(db, q), q)
  {
    if q in db.payouts {
      var ps := FailedPostings(q, db.payouts[q].amount);
      PostTwo(db.books, ps[0], ps[1]);
      if PayoutFailedPayable(q) !in db.books.txs && PayoutFailedClearing(q) !in db.books.txs {
        TwoPost(db.books, ps[0], ps[1]);
      }
    }
  }
}
