/** What each refund operation leaves behind, case by case. */
module FinanceRefundOutcomes {
  import opened Common
  import opened Ledger
  import opened Finance
  import opened FinanceInvariants
  import opened FinanceSteps
  import opened FinanceBooks
  import opened FinanceOutcomes
  import Money

  // ---------------------------------------------------------------- the reversal

  /** The refund is closed and its payment REFUNDED; payouts and books are said separately. */
  ghost predicate Closes(db: Db, db': Db, r: RefundId)
    requires r in db.refunds && db.refunds[r].payment in db.payments
  {
    var p := db.refunds[r].payment;
    db' == db.(refunds := db.refunds[r := db.refunds[r].(reversed := true)],
               payments := db.payments[p := db.payments[p].(status := Refunded)],
               payouts := db'.payouts, books := db'.books)
  }

  /** The gross leaves CASH_CLEARING and a fifth of it COMMISSION_REVENUE; the driver keeps the earning. */
  ghost predicate EarningKept(db: Db, db': Db, r: RefundId)
    requires r in db.refunds && db.refunds[r].payment in db.payments
  {
    var gross := db.payments[db.refunds[r].payment].amount;
    && Closes(db, db', r) && db'.payouts == db.payouts
    && Posts(db.books, db'.books, {RefundProcessed(r), RefundCommission(r)},
             map[OnAccount(CashClearing) := 0 - gross, OnAccount(CommissionRevenue) := 0 - (gross / 5)])
  }

  /** The payout's status when the earning was taken back. */
  function StatusAfter(status: PayoutStatus): PayoutStatus {
    match status
    case Requested => PayoutCancelled
    case PayoutFailed => PayoutCancelled
    case other => other
  }

  /** Besides, four fifths leave the driver's wallet and DRIVER_PAYABLE. */
  ghost predicate EarningTaken(db: Db, db': Db, r: RefundId, q: PayoutId)
    requires r in db.refunds && db.refunds[r].payment in db.payments && q in db.payouts
  {
    var payout := db.payouts[q];
    var gross, share := db.payments[db.refunds[r].payment].amount, 4 * db.payments[db.refunds[r].payment].amount / 5;
    && Closes(db, db', r) && db'.payouts == db.payouts[q := payout.(status := StatusAfter(payout.status))]
    && Posts(db.books, db'.books,
             {RefundProcessed(r), RefundCommission(r)} + {RefundEarningWallet(r), RefundEarningPayable(r)},
             map[OnAccount(CashClearing) := 0 - gross, OnAccount(CommissionRevenue) := 0 - (gross / 5)]
             + map[OnWallet(payout.driver) := 0 - share, OnAccount(DriverPayable) := 0 - share])
  }

  /** The check before taking an earning back, on the balance as it reads back from text. */
  ghost predicate CanTakeBack(db: Db, r: RefundId, q: PayoutId)
    requires r in db.refunds && db.refunds[r].payment in db.payments && q in db.payouts
  {
    && db.payouts[q].status in {Requested, Approved, PayoutFailed, Rejected, PayoutCancelled}
    && Money.ReadBack(Balance(db.books, OnWallet(db.payouts[q].driver))) >= 4 * db.payments[db.refunds[r].payment].amount / 5
  }

  lemma DebitPosts(db: Db, r: RefundId)
    requires Inv(db) && r in db.refunds && !db.refunds[r].reversed
    ensures db.refunds[r].payment in db.payments
    ensures var p := db.refunds[r].payment;
            var gross := db.payments[p].amount;
            Posts(db.books, PostAll(db.books, RefundPostings(r, p, gross)), {RefundProcessed(r), RefundCommission(r)},
                  map[OnAccount(CashClearing) := 0 - gross, OnAccount(CommissionRevenue) := 0 - (gross / 5)])
  {
    assert RefundOk(db, r);
    var p := db.refunds[r].payment;
    var gross := db.payments[p].amount;
    NothingReversed(db, r);
    Money.CommissionResidue(gross);
    var ps := RefundPostings(r, p, gross);
    TwoPost(db.books, ps[0], ps[1]);
  }

  lemma ReversalPosts(b: Books, r: RefundId, p: PaymentId, d: DriverId, gross: nat)
    requires RefundEarningWallet(r) !in b.txs && RefundEarningPayable(r) !in b.txs
    ensures Posts(b, PostAll(b, ReversalPostings(r, p, d, gross)), {RefundEarningWallet(r), RefundEarningPayable(r)},
                  map[OnWallet(d) := 0 - (4 * gross / 5), OnAccount(DriverPayable) := 0 - (4 * gross / 5)])
  {
    Money.CommissionResidue(gross);
    var ps := ReversalPostings(r, p, d, gross);
    TwoPost(b, ps[0], ps[1]);
  }

  lemma BothPost(db: Db, r: RefundId, d: DriverId)
    requires Inv(db) && r in db.refunds && !db.refunds[r].reversed
    ensures db.refunds[r].payment in db.payments
    ensures var p := db.refunds[r].payment;
            var gross: int, share: int := db.payments[p].amount, 4 * db.payments[p].amount / 5;
            var mid := PostAll(db.books, RefundPostings(r, p, gross));
            Posts(db.books, PostAll(mid, ReversalPostings(r, p, d, gross)),
                  {RefundProcessed(r), RefundCommission(r)} + {RefundEarningWallet(r), RefundEarningPayable(r)},
                  map[OnAccount(CashClearing) := 0 - gross, OnAccount(CommissionRevenue) := 0 - (gross / 5)]
                  + map[OnWallet(d) := 0 - share, OnAccount(DriverPayable) := 0 - share])
  {
    assert RefundOk(db, r);
    var p := db.refunds[r].payment;
    var gross: int, share: int := db.payments[p].amount, 4 * db.payments[p].amount / 5;
    var mid := PostAll(db.books, RefundPostings(r, p, gross));
    DebitPosts(db, r);
    NothingReversed(db, r);
    assert mid.txs.Keys == db.books.txs.Keys + {RefundProcessed(r), RefundCommission(r)};
    ReversalPosts(mid, r, p, d, gross);
    var debits: map<Target, int> := map[OnAccount(CashClearing) := 0 - gross, OnAccount(CommissionRevenue) := 0 - (gross / 5)];
    var taken: map<Target, int> := map[OnWallet(d) := 0 - share, OnAccount(DriverPayable) := 0 - share];
    PostsChain(db.books, mid, PostAll(mid, ReversalPostings(r, p, d, gross)),
               {RefundProcessed(r), RefundCommission(r)}, {RefundEarningWallet(r), RefundEarningPayable(r)}, debits, taken);
  }

  /** The debits come first and leave the wallets and the pending payout as they were. */
  lemma DebitsBefore(db: Db, r: RefundId, q: PayoutId)
    requires Inv(db) && r in db.refunds && !db.refunds[r].reversed && IsPendingPayoutOf(db.books.txs, db.refunds[r].payment, q)
    ensures q in db.payouts && db.refunds[r].payment in db.payments
    ensures var p := db.refunds[r].payment;
            var mid := PostAll(db.books, RefundPostings(r, p, db.payments[p].amount));
            && PendingPayoutOf(mid.txs, p) == Some(q) && PaymentEarning(p) in mid.txs && mid.wallets == db.books.wallets
  {
    PendingPayoutOwner(db, db.refunds[r].payment, q);
    assert RefundOk(db, r);
    DebitPostingsOnly(db, r);
    var p := db.refunds[r].payment;
    var ps := RefundPostings(r, p, db.payments[p].amount);
    var mid := PostAll(db.books, ps);
    PostTwo(db.books, ps[0], ps[1]);
    assert IsPendingPayoutOf(mid.txs, p, q);
    forall x | IsPendingPayoutOf(mid.txs, p, x) ensures x == q {
      assert IsPendingPayoutOf(db.books.txs, p, x);
    }
  }

  /** The reversal of a refund, for every status of the payout of its payment: a PROCESSING or PAID payout,
      or a wallet that does not hold the share, leaves the earning with the driver; in every other case
      it is taken back, and a REQUESTED or FAILED payout is cancelled. */
  lemma ReversalOutcome(db: Db, r: RefundId, q: PayoutId)
    requires Inv(db) && r in db.refunds && db.refunds[r].status == Processed && !db.refunds[r].reversed
    requires IsPendingPayoutOf(db.books.txs, db.refunds[r].payment, q)
    ensures q in db.payouts && db.refunds[r].payment in db.payments
    ensures if CanTakeBack(db, r, q) then EarningTaken(db, ReverseRefund(db, r), r, q) else EarningKept(db, ReverseRefund(db, r), r)
  {
    assert RefundOk(db, r);
    DebitsBefore(db, r, q);
    var p := db.refunds[r].payment;
    Money.CommissionResidue(db.payments[p].amount);
    if CanTakeBack(db, r, q) {
      BothPost(db, r, db.payouts[q].driver);
    } else {
      DebitPosts(db, r);
    }
  }

  /** The earning of a refunded payment is taken back if and only if its payout is neither PAID nor
      PROCESSING and the wallet, read back from text, holds the share. */
  lemma TakenBackIff(db: Db, r: RefundId, q: PayoutId)
    requires Inv(db) && r in db.refunds && db.refunds[r].status == Processed && !db.refunds[r].reversed
    requires IsPendingPayoutOf(db.books.txs, db.refunds[r].payment, q)
    ensures q in db.payouts && db.refunds[r].payment in db.payments
    ensures var payout, gross := db.payouts[q], db.payments[db.refunds[r].payment].amount;
            RefundEarningWallet(r) in ReverseRefund(db, r).books.txs
            <==> payout.status != Paid && payout.status != Processing
                 && Money.ReadBack(Balance(db.books, OnWallet(payout.driver))) >= 4 * gross / 5
  {
    NothingReversed(db, r);
    ReversalOutcome(db, r, q);
  }

  /** A payment that was captured without a driver: only cash and commission are taken back. */
  lemma ReversalWithoutPayout(db: Db, r: RefundId)
    requires Inv(db) && r in db.refunds && db.refunds[r].status == Processed && !db.refunds[r].reversed
    requires forall q :: !IsPendingPayoutOf(db.books.txs, db.refunds[r].payment, q)
    ensures db.refunds[r].payment in db.payments
    ensures EarningKept(db, ReverseRefund(db, r), r)
  {
    assert RefundOk(db, r);
    DebitPosts(db, r);
    DebitPostingsOnly(db, r);
    var p := db.refunds[r].payment;
    var mid := PostAll(db.books, RefundPostings(r, p, db.payments[p].amount));
    forall q ensures !IsPendingPayoutOf(mid.txs, p, q) {
      assert !IsPendingPayoutOf(db.books.txs, p, q);
    }
  }

  /** What a reversal comes to, with or without a payout of the payment. */
  ghost predicate Reverses(db: Db, db': Db, r: RefundId)
    requires r in db.refunds && db.refunds[r].payment in db.payments
  {
    && (forall q :: IsPendingPayoutOf(db.books.txs, db.refunds[r].payment, q) ==>
          q in db.payouts && if CanTakeBack(db, r, q) then EarningTaken(db, db', r, q) else EarningKept(db, db', r))
    && ((forall q :: !IsPendingPayoutOf(db.books.txs, db.refunds[r].payment, q)) ==> EarningKept(db, db', r))
  }

  lemma ReverseOutcome(db: Db, r: RefundId)
    requires Inv(db) && r in db.refunds && db.refunds[r].status == Processed && !db.refunds[r].reversed
    ensures db.refunds[r].payment in db.payments && Reverses(db, ReverseRefund(db, r), r)
  {
    assert RefundOk(db, r);
    forall q | IsPendingPayoutOf(db.books.txs, db.refunds[r].payment, q)
      ensures q in db.payouts
           && if CanTakeBack(db, r, q) then EarningTaken(db, ReverseRefund(db, r), r, q) else EarningKept(db, ReverseRefund(db, r), r)
    {
      ReversalOutcome(db, r, q);
    }
    if forall q :: !IsPendingPayoutOf(db.books.txs, db.refunds[r].payment, q) {
      ReversalWithoutPayout(db, r);
    }
  }

  /** Reconciliation reverses what is processed and not reversed yet. */
  ghost predicate Reconciles(db: Db, db': Db, r: RefundId) {
    if r !in db.refunds || db.refunds[r].status != Processed || db.refunds[r].reversed || db.refunds[r].payment !in db.payments
    then db' == db
    else Reverses(db, db', r)
  }

  lemma ReconcileOutcome(db: Db, r: RefundId)
    requires Inv(db)
    ensures Reconciles(db, ReverseRefund(db, r), r)
  {
    if r in db.refunds && db.refunds[r].status == Processed && !db.refunds[r].reversed {
      ReverseOutcome(db, r);
    }
  }

  // ---------------------------------------------------------------- requests

  /** A refund of this payment is pending, processing or processed. */
  ghost predicate RefundInPlace(db: Db, p: PaymentId) {
    exists r :: r in db.refunds && db.refunds[r].payment == p && db.refunds[r].status in {RefundPending, RefundProcessing, Processed}
  }

  function WithRefund(db: Db, p: PaymentId, status: RefundStatus): Db
    requires p in db.payments
  {
    db.(refunds := db.refunds[db.nextId := Refund(p, db.payments[p].amount, status, false)], nextId := db.nextId + 1)
  }

  /** Only a CAPTURED payment without a refund in place gets one, over the full amount. Through the
      provider it is PROCESSING, or FAILED if the provider declines; otherwise it is processed and
      reversed at once. */
  ghost predicate RequestsRefund(db: Db, db': Db, p: PaymentId, secretKey: bool, response: RefundResponse) {
    if p !in db.payments || db.payments[p].status != Captured || RefundInPlace(db, p) then db' == db
    else if secretKey && db.payments[p].provider == Paystack
    then db' == WithRefund(db, p, if response == Declined then RefundFailed else RefundProcessing)
    else Reverses(WithRefund(db, p, Processed), db', db.nextId)
  }

  lemma RequestRefundOutcome(db: Db, p: PaymentId, secretKey: bool, response: RefundResponse)
    requires Inv(db)
    ensures RequestsRefund(db, RequestRefund(db, p, secretKey, response), p, secretKey, response)
  {
    RefundInPlaceIsOpen(db, p);
    if p in db.payments && db.payments[p].status == Captured && !RefundInPlace(db, p) {
      var r, amount := db.nextId, db.payments[p].amount;
      assert db.refunds[r := Refund(p, amount, RefundProcessing, false)][r := Refund(p, amount, RefundFailed, false)]
          == db.refunds[r := Refund(p, amount, RefundFailed, false)];
      if !(secretKey && db.payments[p].provider == Paystack) {
        var created := WithRefund(db, p, Processed);
        KeptRefundRow(db, r, created.refunds[r], r + 1);
        ReverseOutcome(created, r);
      }
    }
  }

  lemma RefundInPlaceIsOpen(db: Db, p: PaymentId)
    ensures RefundInPlace(db, p) == HasOpenRefund(db, p)
  {
    if r :| r in db.refunds && db.refunds[r].payment == p && db.refunds[r].status in {RefundPending, RefundProcessing, Processed} {
      assert HasOpenRefund(db, p);
    }
  }

  // ---------------------------------------------------------------- events

  /** The refund row with a new status. */
  function WithStatus(db: Db, r: RefundId, status: RefundStatus): Db
    requires r in db.refunds
  {
    db.(refunds := db.refunds[r := db.refunds[r].(status := status)])
  }

  /** A failed event marks the refund FAILED and a pending one PROCESSING; a processed event marks it
      PROCESSED and the payment REFUNDED, and reverses it unless it was reversed before. */
  ghost predicate MovesRefund(db: Db, db': Db, kind: RefundEventKind, found: Option<Option<RefundId>>) {
    if found.None? || found.value.None? || found.value.value !in db.refunds
       || db.refunds[found.value.value].payment !in db.payments then db' == db
    else
      var r, p := found.value.value, db.refunds[found.value.value].payment;
      match kind
      case EventFailed => db' == WithStatus(db, r, RefundFailed)
      case EventPending => db' == WithStatus(db, r, RefundProcessing)
      case EventProcessed =>
        var refunded := WithStatus(db, r, Processed).(payments := db.payments[p := db.payments[p].(status := Refunded)]);
        if db.refunds[r].reversed then db' == refunded else Reverses(refunded, db', r)
  }

  /** Without a reference the event is not processed. */
  lemma RefundEventOutcome(db: Db, kind: RefundEventKind, found: Option<Option<RefundId>>)
    requires Inv(db)
    ensures var (db', processed) := RefundEvent(db, kind, found); MovesRefund(db, db', kind, found) && processed == found.Some?
  {
    if found.Some? && found.value.Some? && found.value.value in db.refunds && kind == EventProcessed {
      var r := found.value.value;
      assert RefundOk(db, r);
      var p := db.refunds[r].payment;
      var updated := WithStatus(db, r, Processed);
      KeptRefundRow(db, r, updated.refunds[r], db.nextId);
      KeptPaymentRow(updated, p, db.payments[p].(status := Refunded));
      if !db.refunds[r].reversed {
        ReverseOutcome(updated.(payments := db.payments[p := db.payments[p].(status := Refunded)]), r);
      }
    }
  }
}
