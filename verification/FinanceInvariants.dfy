/** What every service call keeps, from any state that satisfies it. */
module FinanceInvariants {
  import opened Common
  import opened Ledger
  import opened Finance

  // ---------------------------------------------------------------- the invariant

  predicate IsCaptured(status: PaymentStatus) {
    status == Captured || status == Refunded
  }

  ghost predicate CapturedPayment(db: Db, p: PaymentId) {
    p in db.payments && IsCaptured(db.payments[p].status)
  }

  ghost predicate PaidPayout(db: Db, q: PayoutId) {
    q in db.payouts && db.payouts[q].status == Paid
  }

  ghost predicate SettledPayout(db: Db, q: PayoutId) {
    q in db.payouts && db.payouts[q].status != Requested
  }

  ghost predicate ClosedRefund(db: Db, r: RefundId) {
    r in db.refunds && db.refunds[r].reversed && db.refunds[r].payment in db.payments
  }

  /** What a posted reference says about the rows it names and about the other postings: the
      row carries exactly this account, side, amount and payment. */
  ghost predicate RowOk(db: Db, ref: Ref)
    requires ref in db.books.txs
  {
    var txs := db.books.txs;
    var row := txs[ref];
    match ref
    case PaymentPending(p) =>
      p in db.payments && row == Posting(ref, OnAccount(CashClearing), Credit, db.payments[p].amount, Some(p))
    case PaymentAuthorized(p) =>
      && p in db.payments && db.payments[p].status != Pending
      && row == Posting(ref, OnAccount(CashClearing), Credit, db.payments[p].amount, Some(p))
    case PaymentCaptured(p) =>
      CapturedPayment(db, p) && row == Posting(ref, OnAccount(CashClearing), Credit, db.payments[p].amount, Some(p))
    case PaymentCommission(p) =>
      && CapturedPayment(db, p) && DriverShare(db.payments[p].amount) <= db.payments[p].amount
      && row == Posting(ref, OnAccount(CommissionRevenue), Credit, db.payments[p].amount - DriverShare(db.payments[p].amount), Some(p))
    case PaymentEarning(p) =>
      && CapturedPayment(db, p) && row.target.OnWallet?
      && row == Posting(ref, row.target, Credit, DriverShare(db.payments[p].amount), Some(p))
      && PaymentCaptured(p) in txs && PaymentCommission(p) in txs && PaymentPayable(p) in txs
    case PaymentPayable(p) =>
      CapturedPayment(db, p) && row == Posting(ref, OnAccount(DriverPayable), Credit, DriverShare(db.payments[p].amount), Some(p))
    case PayoutPending(q) =>
      && q in db.payouts && row.payment.Some? && row.payment.value in db.payments
      && row == Posting(ref, OnAccount(PayoutClearing), Credit, DriverShare(db.payments[row.payment.value].amount), row.payment)
      && db.payouts[q].amount == row.amount
      && PaymentEarning(row.payment.value) in txs
      && txs[PaymentEarning(row.payment.value)].target == OnWallet(db.payouts[q].driver)
    case PayoutPaidWallet(q) =>
      PaidPayout(db, q) && row == Posting(ref, OnWallet(db.payouts[q].driver), Debit, db.payouts[q].amount, None)
    case PayoutPaidPayable(q) =>
      PaidPayout(db, q) && row == Posting(ref, OnAccount(DriverPayable), Debit, db.payouts[q].amount, None)
    case PayoutPaidClearing(q) =>
      PaidPayout(db, q) && row == Posting(ref, OnAccount(PayoutClearing), Credit, db.payouts[q].amount, None)
    case PayoutApprovedPayable(q) =>
      SettledPayout(db, q) && row == Posting(ref, OnAccount(DriverPayable), Debit, db.payouts[q].amount, None)
    case PayoutApprovedClearing(q) =>
      SettledPayout(db, q) && row == Posting(ref, OnAccount(PayoutClearing), Credit, db.payouts[q].amount, None)
    case PayoutFailedPayable(q) =>
      SettledPayout(db, q) && row == Posting(ref, OnAccount(DriverPayable), Credit, db.payouts[q].amount, None)
    case PayoutFailedClearing(q) =>
      SettledPayout(db, q) && row == Posting(ref, OnAccount(PayoutClearing), Debit, db.payouts[q].amount, None)
    case RefundProcessed(r) =>
      && ClosedRefund(db, r)
      && var p := db.refunds[r].payment;
         row == Posting(ref, OnAccount(CashClearing), Debit, db.payments[p].amount, Some(p))
    case RefundCommission(r) =>
      && ClosedRefund(db, r)
      && var p := db.refunds[r].payment;
         row == Posting(ref, OnAccount(CommissionRevenue), Debit, CommissionShare(db.payments[p].amount), Some(p))
    case RefundEarningWallet(r) =>
      && ClosedRefund(db, r) && row.target.OnWallet?
      && var p := db.refunds[r].payment;
      && row == Posting(ref, row.target, Debit, DriverShare(db.payments[p].amount), Some(p))
      && PaymentEarning(p) in txs && txs[PaymentEarning(p)].target == row.target
      && RefundProcessed(r) in txs && RefundCommission(r) in txs && RefundEarningPayable(r) in txs
    case RefundEarningPayable(r) =>
      && ClosedRefund(db, r)
      && var p := db.refunds[r].payment;
         row == Posting(ref, OnAccount(DriverPayable), Debit, DriverShare(db.payments[p].amount), Some(p))
  }

  ghost predicate RowsOk(db: Db) {
    forall ref {:trigger RowOk(db, ref)} :: ref in db.books.txs ==> RowOk(db, ref)
  }

  /** A payment has at most one capture-created payout. */
  ghost predicate OnePendingPayout(txs: map<Ref, Posting>) {
    forall p, q, q' :: IsPendingPayoutOf(txs, p, q) && IsPendingPayoutOf(txs, p, q') ==> q == q'
  }

  /** Identifiers are below `nextId`; the two unique columns are unique. */
  ghost predicate Keys(db: Db) {
    && (forall p {:trigger p in db.payments} :: p in db.payments ==> p < db.nextId)
    && (forall q {:trigger q in db.payouts} :: q in db.payouts ==> q < db.nextId)
    && (forall r {:trigger r in db.refunds} :: r in db.refunds ==> r < db.nextId)
    && OnePaymentPerTrip(db.payments)
    && OnePayoutPerCode(db.payouts)
  }

  ghost predicate OnePaymentPerTrip(payments: map<PaymentId, Payment>) {
    forall t, p, p' :: IsPaymentOf(payments, t, p) && IsPaymentOf(payments, t, p') ==> p == p'
  }

  ghost predicate OnePayoutPerCode(payouts: map<PayoutId, Payout>) {
    forall c, q, q' :: HasCode(payouts, c, q) && HasCode(payouts, c, q') ==> q == q'
  }

  /** A refund is of a captured payment, in full. */
  ghost predicate RefundOk(db: Db, r: RefundId)
    requires r in db.refunds
  {
    CapturedPayment(db, db.refunds[r].payment) && db.refunds[r].amount == db.payments[db.refunds[r].payment].amount
  }

  ghost predicate RefundsOk(db: Db) {
    forall r {:trigger RefundOk(db, r)} :: r in db.refunds ==> RefundOk(db, r)
  }

  ghost predicate Inv(db: Db) {
    RowsOk(db) && OnePendingPayout(db.books.txs) && Keys(db) && RefundsOk(db)
  }

  // ---------------------------------------------------------------- life cycles only advance

  ghost predicate PaymentAdvances(db: Db, db': Db, p: PaymentId) {
    p in db.payments ==>
      && p in db'.payments
      && var a, b := db.payments[p], db'.payments[p];
      && b.trip == a.trip && b.amount == a.amount && b.provider == a.provider
      && (IsCaptured(a.status) ==> IsCaptured(b.status))
      && (a.status == Refunded ==> b.status == Refunded)
      && (a.status == Failed ==> b.status == Failed)
      && (a.status != Pending ==> b.status != Pending)
      && (a.confirmed ==> b.confirmed)
  }

  ghost predicate PayoutAdvances(db: Db, db': Db, q: PayoutId) {
    q in db.payouts ==>
      && q in db'.payouts
      && var a, b := db.payouts[q], db'.payouts[q];
      && b.driver == a.driver && b.amount == a.amount && b.provider == a.provider
      && (a.status == Paid || a.status == Rejected || a.status == PayoutCancelled ==> b.status == a.status)
      && (a.status != Requested ==> b.status != Requested)
  }

  ghost predicate RefundAdvances(db: Db, db': Db, r: RefundId) {
    r in db.refunds ==>
      && r in db'.refunds
      && db'.refunds[r].payment == db.refunds[r].payment && db'.refunds[r].amount == db.refunds[r].amount
      && (db.refunds[r].reversed ==> db'.refunds[r].reversed)
  }

  /** An earning is taken back only while its refund is open and its payout is not PAID. */
  ghost predicate ReversalAllowed(db: Db, db': Db, r: RefundId) {
    RefundEarningWallet(r) in db'.books.txs && RefundEarningWallet(r) !in db.books.txs ==>
      && (r in db.refunds ==> !db.refunds[r].reversed)
      && r in db'.refunds
      && forall q :: IsPendingPayoutOf(db.books.txs, db'.refunds[r].payment, q) ==> !PaidPayout(db, q)
  }

  ghost predicate ReversalsAllowed(db: Db, db': Db) {
    forall r {:trigger ReversalAllowed(db, db', r)} :: ReversalAllowed(db, db', r)
  }

  ghost predicate PostingKept(db: Db, db': Db, ref: Ref) {
    ref in db.books.txs ==> ref in db'.books.txs && db'.books.txs[ref] == db.books.txs[ref]
  }

  /** No row is lost, amounts and owners never change, terminal states are kept, posted rows
      are never rewritten. */
  ghost predicate Advances(db: Db, db': Db) {
    && db.nextId <= db'.nextId
    && (forall p {:trigger PaymentAdvances(db, db', p)} :: PaymentAdvances(db, db', p))
    && (forall q {:trigger PayoutAdvances(db, db', q)} :: PayoutAdvances(db, db', q))
    && (forall r {:trigger RefundAdvances(db, db', r)} :: RefundAdvances(db, db', r))
    && (forall ref {:trigger PostingKept(db, db', ref)} :: PostingKept(db, db', ref))
  }

  lemma AdvancesTransitive(a: Db, b: Db, c: Db)
    requires Advances(a, b) && Advances(b, c)
    ensures Advances(a, c)
  {
    forall p ensures PaymentAdvances(a, c, p) {
      assert PaymentAdvances(a, b, p) && PaymentAdvances(b, c, p);
    }
    forall q ensures PayoutAdvances(a, c, q) {
      assert PayoutAdvances(a, b, q) && PayoutAdvances(b, c, q);
    }
    forall r ensures RefundAdvances(a, c, r) {
      assert RefundAdvances(a, b, r) && RefundAdvances(b, c, r);
    }
    forall ref ensures PostingKept(a, c, ref) {
      assert PostingKept(a, b, ref) && PostingKept(b, c, ref);
    }
  }

  /** A posted reference stays consistent while rows advance. */
  lemma KeepRow(db: Db, db': Db, ref: Ref)
    requires Advances(db, db') && ref in db.books.txs && RowOk(db, ref)
    ensures ref in db'.books.txs && RowOk(db', ref)
  {
    assert PostingKept(db, db', ref);
    match ref
    case PaymentPending(p) => assert PaymentAdvances(db, db', p);
    case PaymentAuthorized(p) => assert PaymentAdvances(db, db', p);
    case PaymentCaptured(p) => assert PaymentAdvances(db, db', p);
    case PaymentCommission(p) => assert PaymentAdvances(db, db', p);
    case PaymentEarning(p) =>
      assert PaymentAdvances(db, db', p);
      assert PostingKept(db, db', PaymentCaptured(p));
      assert PostingKept(db, db', PaymentCommission(p));
      assert PostingKept(db, db', PaymentPayable(p));
    case PaymentPayable(p) => assert PaymentAdvances(db, db', p);
    case PayoutPending(q) =>
      assert PayoutAdvances(db, db', q);
      assert PaymentAdvances(db, db', db.books.txs[ref].payment.value);
      assert PostingKept(db, db', PaymentEarning(db.books.txs[ref].payment.value));
    case PayoutPaidWallet(q) => assert PayoutAdvances(db, db', q);
    case PayoutPaidPayable(q) => assert PayoutAdvances(db, db', q);
    case PayoutPaidClearing(q) => assert PayoutAdvances(db, db', q);
    case PayoutApprovedPayable(q) => assert PayoutAdvances(db, db', q);
    case PayoutApprovedClearing(q) => assert PayoutAdvances(db, db', q);
    case PayoutFailedPayable(q) => assert PayoutAdvances(db, db', q);
    case PayoutFailedClearing(q) => assert PayoutAdvances(db, db', q);
    case RefundProcessed(r) => KeepClosed(db, db', r);
    case RefundCommission(r) => KeepClosed(db, db', r);
    case RefundEarningWallet(r) =>
      KeepClosed(db, db', r);
      assert PostingKept(db, db', PaymentEarning(db.refunds[r].payment));
      assert PostingKept(db, db', RefundProcessed(r));
      assert PostingKept(db, db', RefundCommission(r));
      assert PostingKept(db, db', RefundEarningPayable(r));
    case RefundEarningPayable(r) => KeepClosed(db, db', r);
  }

  lemma KeepClosed(db: Db, db': Db, r: RefundId)
    requires Advances(db, db') && ClosedRefund(db, r)
    ensures ClosedRefund(db', r) && db'.refunds[r].payment == db.refunds[r].payment
    ensures db'.payments[db'.refunds[r].payment].amount == db.payments[db.refunds[r].payment].amount
  {
    assert RefundAdvances(db, db', r);
    assert PaymentAdvances(db, db', db.refunds[r].payment);
  }

  /** Old rows stay consistent, so only the new ones need a look. */
  lemma KeepRows(db: Db, db': Db)
    requires RowsOk(db) && Advances(db, db')
    requires forall ref {:trigger RowOk(db', ref)} :: ref in db'.books.txs && ref !in db.books.txs ==> RowOk(db', ref)
    ensures RowsOk(db')
  {
    forall ref | ref in db'.books.txs ensures RowOk(db', ref) {
      if ref in db.books.txs {
        assert RowOk(db, ref);
        KeepRow(db, db', ref);
      }
    }
  }
}
