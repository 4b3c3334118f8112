/** Every step of `Finance.Apply` keeps the invariant and only advances life cycles. */
module FinanceSteps {
  import opened Common
  import opened Ledger
  import opened Finance
  import opened FinanceInvariants

  ghost predicate Kept(db: Db, db': Db) {
    Inv(db') && Advances(db, db') && ReversalsAllowed(db, db')
  }

  lemma KeptChain(a: Db, b: Db, c: Db)
    requires Kept(a, b) && Kept(b, c)
    ensures Kept(a, c)
  {
    AdvancesTransitive(a, b, c);
    forall r ensures ReversalAllowed(a, c, r) {
      assert ReversalAllowed(a, b, r) && ReversalAllowed(b, c, r);
      assert RefundAdvances(a, b, r) && RefundAdvances(b, c, r);
      forall q | r in c.refunds && IsPendingPayoutOf(a.books.txs, c.refunds[r].payment, q) && PaidPayout(a, q)
        ensures IsPendingPayoutOf(b.books.txs, c.refunds[r].payment, q) && PaidPayout(b, q)
      {
        assert PayoutAdvances(a, b, q) && PostingKept(a, b, PayoutPending(q));
      }
    }
  }

  lemma KeptSame(db: Db)
    requires Inv(db)
    ensures Kept(db, db)
  {
  }

  /** A step that posts nothing: only its rows need a look. */
  lemma KeptRowsOnly(db: Db, db': Db)
    requires Inv(db) && db'.books == db.books && Advances(db, db') && Keys(db')
    requires RefundsOk(db')
    ensures Kept(db, db')
  {
    KeepRows(db, db');
  }

  lemma KeepRefunds(db: Db, db': Db)
    requires RefundsOk(db) && Advances(db, db') && db'.refunds.Keys == db.refunds.Keys
    ensures RefundsOk(db')
  {
    forall r | r in db'.refunds ensures RefundOk(db', r) {
      assert RefundOk(db, r);
      assert RefundAdvances(db, db', r);
      assert PaymentAdvances(db, db', db.refunds[r].payment);
    }
  }

  /** A step that only posts: the new transaction rows need a look. */
  lemma KeptBooks(db: Db, db': Db)
    requires Inv(db) && db' == db.(books := db'.books)
    requires forall ref {:trigger PostingKept(db, db', ref)} :: PostingKept(db, db', ref)
    requires forall ref {:trigger RowOk(db', ref)} :: ref in db'.books.txs && ref !in db.books.txs ==> RowOk(db', ref)
    requires OnePendingPayout(db'.books.txs)
    ensures Inv(db') && Advances(db, db')
    ensures ReversalsAllowed(db, db') ==> Kept(db, db')
  {
    assert Advances(db, db');
    KeepRows(db, db');
    KeepRefunds(db, db');
  }

  lemma SamePending(txs: map<Ref, Posting>, txs': map<Ref, Posting>)
    requires OnePendingPayout(txs)
    requires forall p, q {:trigger IsPendingPayoutOf(txs', p, q)} :: IsPendingPayoutOf(txs', p, q) ==> IsPendingPayoutOf(txs, p, q)
    ensures OnePendingPayout(txs')
  {
  }

  lemma RowOf(db: Db, ref: Ref)
    requires RowsOk(db)
    ensures ref in db.books.txs ==> RowOk(db, ref)
  {
    if ref in db.books.txs {
      assert RowOk(db, ref);
    }
  }

  // ---------------------------------------------------------------- payments

  lemma UpdatePaymentKeys(payments: map<PaymentId, Payment>, p: PaymentId, payment: Payment)
    requires OnePaymentPerTrip(payments) && p in payments && payment.trip == payments[p].trip
    ensures OnePaymentPerTrip(payments[p := payment])
  {
    var updated := payments[p := payment];
    forall t, p', p'' | IsPaymentOf(updated, t, p') && IsPaymentOf(updated, t, p'') ensures p' == p'' {
      assert IsPaymentOf(payments, t, p') && IsPaymentOf(payments, t, p'');
    }
  }

  /** A payment row moves on and at most one posting about it, not of a capture, is made. */
  lemma KeptInitiate(db: Db, t: TripId, amount: nat, provider: Provider)
    requires Inv(db)
    ensures Kept(db, Initiate(db, t, amount, provider))
  {
    var db' := Initiate(db, t, amount, provider);
    if db' != db {
      var p := db.nextId;
      forall p' ensures !IsPaymentOf(db.payments, t, p') {}
      forall t', p' ensures IsPaymentOf(db'.payments, t', p') == ((p' == p && t' == t) || IsPaymentOf(db.payments, t', p')) {}
      forall p', q ensures IsPendingPayoutOf(db'.books.txs, p', q) == IsPendingPayoutOf(db.books.txs, p', q) {}
      assert Advances(db, db');
      KeepRows(db, db');
      KeepRefunds(db, db');
    } else {
      KeptSame(db);
    }
  }

  lemma KeptAuthorize(db: Db, t: TripId)
    requires Inv(db)
    ensures Kept(db, Authorize(db, t))
  {
    var db' := Authorize(db, t);
    if db' != db {
      var p := PaymentOfTrip(db.payments, t).value;
      UpdatePaymentKeys(db.payments, p, db'.payments[p]);
      forall p', q ensures IsPendingPayoutOf(db'.books.txs, p', q) == IsPendingPayoutOf(db.books.txs, p', q) {}
      assert Advances(db, db');
      KeepRows(db, db');
      KeepRefunds(db, db');
    } else {
      KeptSame(db);
    }
  }

  /** A payment moves to another status that is not part of a capture. */
  lemma KeptPaymentRow(db: Db, p: PaymentId, payment: Payment)
    requires Inv(db) && p in db.payments
    requires PaymentAdvances(db, db.(payments := db.payments[p := payment]), p)
    ensures Kept(db, db.(payments := db.payments[p := payment]))
  {
    var db' := db.(payments := db.payments[p := payment]);
    UpdatePaymentKeys(db.payments, p, payment);
    assert Advances(db, db');
    KeepRefunds(db, db');
    KeptRowsOnly(db, db');
  }

  // ---------------------------------------------------------------- capture

  /** The transaction table after the two capture postings. */
  lemma CaptureRowTable(db: Db, p: PaymentId)
    requires Inv(db) && p in db.payments && Capturable(db.payments[p])
    ensures var gross := db.payments[p].amount;
            CaptureRow(db, p, None).books.txs
            == db.books.txs[PaymentCaptured(p) := CapturedPosting(p, gross)][PaymentCommission(p) := CommissionPosting(p, gross)]
    ensures PaymentCaptured(p) !in db.books.txs && PaymentCommission(p) !in db.books.txs
  {
    var gross := db.payments[p].amount;
    PostTwo(db.books, CapturedPosting(p, gross), CommissionPosting(p, gross));
    NothingCaptured(db, p);
  }

  lemma CaptureRowAdvances(db: Db, p: PaymentId)
    requires Inv(db) && p in db.payments && Capturable(db.payments[p])
    ensures Advances(db, CaptureRow(db, p, None)) && ReversalsAllowed(db, CaptureRow(db, p, None))
  {
    CaptureRowTable(db, p);
  }

  lemma KeptCaptureRow(db: Db, p: PaymentId)
    requires Inv(db) && p in db.payments && Capturable(db.payments[p])
    ensures Kept(db, CaptureRow(db, p, None))
    ensures PaymentCaptured(p) in CaptureRow(db, p, None).books.txs
    ensures PaymentCommission(p) in CaptureRow(db, p, None).books.txs
  {
    var db' := CaptureRow(db, p, None);
    CaptureRowTable(db, p);
    CaptureRowAdvances(db, p);
    UpdatePaymentKeys(db.payments, p, db'.payments[p]);
    SamePending(db.books.txs, db'.books.txs);
    KeepRows(db, db');
    KeepRefunds(db, db');
  }

  /** Before a capture none of its references is posted, nor anything about the next payout. */
  lemma NothingCaptured(db: Db, p: PaymentId)
    requires Inv(db) && p in db.payments && !IsCaptured(db.payments[p].status)
    ensures PaymentCaptured(p) !in db.books.txs && PaymentCommission(p) !in db.books.txs
    ensures PaymentEarning(p) !in db.books.txs && PaymentPayable(p) !in db.books.txs
    ensures PayoutPending(db.nextId) !in db.books.txs
    ensures forall q :: !IsPendingPayoutOf(db.books.txs, p, q)
  {
    RowOf(db, PaymentCaptured(p));
    RowOf(db, PaymentCommission(p));
    RowOf(db, PaymentEarning(p));
    RowOf(db, PaymentPayable(p));
    RowOf(db, PayoutPending(db.nextId));
    forall q ensures !IsPendingPayoutOf(db.books.txs, p, q) {
      RowOf(db, PayoutPending(q));
    }
  }

  lemma KeptNewPayout(db: Db, payout: Payout)
    requires Inv(db) && payout.transferCode.None?
    ensures Kept(db, db.(payouts := db.payouts[db.nextId := payout], nextId := db.nextId + 1))
  {
    var db' := db.(payouts := db.payouts[db.nextId := payout], nextId := db.nextId + 1);
    forall c, q' ensures HasCode(db'.payouts, c, q') == HasCode(db.payouts, c, q') {}
    assert Advances(db, db');
    KeepRefunds(db, db');
    KeptRowsOnly(db, db');
  }

  /** The transaction table after the three postings for the driver. */
  lemma EarningTable(b: Books, p: PaymentId, d: DriverId, q: PayoutId, gross: nat)
    requires PaymentEarning(p) !in b.txs && PaymentPayable(p) !in b.txs && PayoutPending(q) !in b.txs
    ensures PostAll(b, EarningPostings(p, d, q, gross)).txs
         == b.txs[PaymentEarning(p) := EarningPosting(p, d, gross)][PaymentPayable(p) := PayablePosting(p, gross)]
                 [PayoutPending(q) := PendingPosting(q, p, gross)]
  {
    PostThree(b, EarningPosting(p, d, gross), PayablePosting(p, gross), PendingPosting(q, p, gross));
  }

  /** The three postings for the driver, once the payment is captured and the payout exists. */
  lemma KeptEarningPostings(db: Db, p: PaymentId, d: DriverId, q: PayoutId)
    requires Inv(db) && CapturedPayment(db, p)
    requires q in db.payouts && db.payouts[q].driver == d && db.payouts[q].amount == DriverShare(db.payments[p].amount)
    requires PaymentCaptured(p) in db.books.txs && PaymentCommission(p) in db.books.txs
    requires PaymentEarning(p) !in db.books.txs && PaymentPayable(p) !in db.books.txs
    requires PayoutPending(q) !in db.books.txs && forall q' :: !IsPendingPayoutOf(db.books.txs, p, q')
    ensures var db' := db.(books := PostAll(db.books, EarningPostings(p, d, q, db.payments[p].amount)));
            Kept(db, db') && IsPendingPayoutOf(db'.books.txs, p, q)
  {
    var db' := db.(books := PostAll(db.books, EarningPostings(p, d, q, db.payments[p].amount)));
    EarningTable(db.books, p, d, q, db.payments[p].amount);
    forall p', q' ensures IsPendingPayoutOf(db'.books.txs, p', q')
                       == ((p' == p && q' == q) || IsPendingPayoutOf(db.books.txs, p', q')) {}
    KeptBooks(db, db');
  }

  lemma KeptEarning(db: Db, p: PaymentId, d: DriverId)
    requires Inv(db) && p in db.payments && Capturable(db.payments[p])
    ensures Kept(db, CaptureRow(db, p, Some(d)))
    ensures IsPendingPayoutOf(CaptureRow(db, p, Some(d)).books.txs, p, db.nextId)
  {
    var mid, db' := CaptureRow(db, p, None), CaptureRow(db, p, Some(d));
    var added := db'.(books := mid.books);
    KeptCaptureRow(db, p);
    NothingCaptured(db, p);
    KeptNewPayout(mid, db'.payouts[db.nextId]);
    CapturePostingsOnly(db, p);
    KeptEarningPostings(added, p, d, db.nextId);
    KeptChain(mid, added, db');
    KeptChain(db, mid, db');
  }

  /** The capture postings add two references and no pending payout. */
  lemma CapturePostingsOnly(db: Db, p: PaymentId)
    requires p in db.payments
    ensures var txs := CaptureRow(db, p, None).books.txs;
            && (forall ref :: ref in txs ==> ref in db.books.txs || ref == PaymentCaptured(p) || ref == PaymentCommission(p))
            && (forall p', q :: IsPendingPayoutOf(txs, p', q) == IsPendingPayoutOf(db.books.txs, p', q))
  {
    var gross := db.payments[p].amount;
    PostTwo(db.books, CapturedPosting(p, gross), CommissionPosting(p, gross));
  }

  lemma KeptCapture(db: Db, t: TripId, driver: Option<DriverId>)
    requires Inv(db)
    ensures Kept(db, Capture(db, t, driver))
  {
    KeptSame(db);
    match PaymentOfTrip(db.payments, t)
    case None =>
    case Some(p) =>
      if Capturable(db.payments[p]) {
        match driver
        case None => KeptCaptureRow(db, p);
        case Some(d) => KeptEarning(db, p, d);
      }
  }

  /** The trips table plays no part in the invariant. */
  lemma KeptTrips(db: Db, trips: map<TripId, Trip>)
    requires Inv(db)
    ensures Kept(db, db.(trips := trips))
  {
    var db' := db.(trips := trips);
    assert Advances(db, db');
    KeepRefunds(db, db');
    KeptRowsOnly(db, db');
  }

  lemma KeptCompleteTrip(db: Db, t: TripId)
    requires Inv(db)
    ensures Kept(db, CompleteTrip(db, t))
  {
    KeptSame(db);
    if t in db.trips && !db.trips[t].completed {
      var done := db.(trips := db.trips[t := db.trips[t].(completed := true)]);
      KeptTrips(db, done.trips);
      KeptCapture(done, t, db.trips[t].driver);
      KeptChain(db, done, CompleteTrip(db, t));
    }
  }

  lemma KeptChargeSuccess(db: Db, reference: Option<PaymentId>, verified: bool)
    requires Inv(db)
    ensures Kept(db, ChargeSuccess(db, reference, verified).0)
  {
    KeptSame(db);
    if reference.Some? && verified && reference.value in db.payments && !ChargeSettled(db.payments[reference.value].status) {
      var p := reference.value;
      var payment := db.payments[p];
      var confirmed := db.(payments := db.payments[p := ConfirmPayment(payment, payment.status)]);
      KeptPaymentRow(db, p, ConfirmPayment(payment, payment.status));
      if payment.trip in db.trips && db.trips[payment.trip].completed {
        KeptCapture(confirmed, payment.trip, db.trips[payment.trip].driver);
        KeptChain(db, confirmed, ChargeSuccess(db, reference, verified).0);
      }
    }
  }

  lemma KeptChargeFailed(db: Db, reference: Option<PaymentId>)
    requires Inv(db)
    ensures Kept(db, ChargeFailed(db, reference).0)
  {
    KeptSame(db);
    if reference.Some? && reference.value in db.payments && !ChargeSettled(db.payments[reference.value].status) {
      KeptPaymentRow(db, reference.value, db.payments[reference.value].(status := Failed));
    }
  }

  // ---------------------------------------------------------------- payouts

  /** A payout row moves on; its transfer code is its old one or not taken by another payout. */
  lemma KeptPayoutRow(db: Db, q: PayoutId, payout: Payout)
    requires Inv(db) && q in db.payouts
    requires PayoutAdvances(db, SetPayout(db, q, payout), q)
    requires payout.transferCode.None? || payout.transferCode == db.payouts[q].transferCode
             || PayoutOfCode(db.payouts, payout.transferCode.value).None?
    ensures Kept(db, SetPayout(db, q, payout))
  {
    var db' := SetPayout(db, q, payout);
    forall c: TransferCode, q', q'' | HasCode(db'.payouts, c, q') && HasCode(db'.payouts, c, q'') ensures q' == q'' {
      assert q' != q ==> HasCode(db.payouts, c, q');
      assert q'' != q ==> HasCode(db.payouts, c, q'');
      assert payout.transferCode == db.payouts[q].transferCode == Some(c) ==> HasCode(db.payouts, c, q);
    }
    assert Advances(db, db');
    KeepRefunds(db, db');
    KeptRowsOnly(db, db');
  }

  /** A payout that is not PAID has none of its `paid` references posted. */
  lemma NothingPaid(db: Db, q: PayoutId)
    requires Inv(db) && q in db.payouts && db.payouts[q].status != Paid
    ensures PayoutPaidWallet(q) !in db.books.txs
    ensures PayoutPaidPayable(q) !in db.books.txs
    ensures PayoutPaidClearing(q) !in db.books.txs
  {
    RowOf(db, PayoutPaidWallet(q));
    RowOf(db, PayoutPaidPayable(q));
    RowOf(db, PayoutPaidClearing(q));
  }

  /** The three paid postings of a payout that has just become PAID. */
  lemma KeptPaidPostings(db: Db, q: PayoutId, d: DriverId, amount: nat)
    requires Inv(db) && PaidPayout(db, q) && db.payouts[q].driver == d && db.payouts[q].amount == amount
    requires PayoutPaidWallet(q) !in db.books.txs && PayoutPaidPayable(q) !in db.books.txs
    requires PayoutPaidClearing(q) !in db.books.txs
    ensures Kept(db, db.(books := PostAll(db.books, PaidPostings(q, d, amount))))
  {
    var ps := PaidPostings(q, d, amount);
    var db' := db.(books := PostAll(db.books, ps));
    PostThree(db.books, ps[0], ps[1], ps[2]);
    assert db'.books.txs == db.books.txs[ps[0].ref := ps[0]][ps[1].ref := ps[1]][ps[2].ref := ps[2]];
    SamePending(db.books.txs, db'.books.txs);
    KeptBooks(db, db');
  }

  lemma KeptPayPayout(db: Db, q: PayoutId)
    requires Inv(db) && q in db.payouts && (db.payouts[q].status == Approved || db.payouts[q].status == Processing)
    ensures Kept(db, PayPayout(db, q))
  {
    var payout := db.payouts[q];
    var mid := SetPayout(db, q, payout.(status := Paid));
    KeptPayoutRow(db, q, payout.(status := Paid));
    NothingPaid(db, q);
    KeptPaidPostings(mid, q, payout.driver, payout.amount);
    KeptChain(db, mid, PayPayout(db, q));
  }

  lemma KeptInitiateTransfer(db: Db, q: PayoutId, env: TransferEnv)
    requires Inv(db)
    ensures Kept(db, InitiateTransfer(db, q, env).0)
  {
    KeptSame(db);
    var db' := InitiateTransfer(db, q, env).0;
    if db' != db {
      var payout := db.payouts[q];
      if !env.secretKey || payout.provider != Paystack {
        KeptPayPayout(db, q);
      } else {
        KeptPayoutRow(db, q, payout.(status := Processing, transferCode := env.response));
      }
    }
  }

  lemma KeptRetryTransfer(db: Db, q: PayoutId, env: TransferEnv)
    requires Inv(db)
    ensures Kept(db, RetryTransfer(db, q, env))
  {
    KeptSame(db);
    if q in db.payouts && db.payouts[q].status == PayoutFailed && PayoutPaidWallet(q) !in db.books.txs {
      var reopened := SetPayout(db, q, db.payouts[q].(status := Approved, transferCode := None));
      KeptPayoutRow(db, q, reopened.payouts[q]);
      KeptInitiateTransfer(reopened, q, env);
      KeptPayoutRow(reopened, q, reopened.payouts[q].(status := PayoutFailed));
      KeptChain(db, reopened, RetryTransfer(db, q, env));
    }
  }

  lemma KeptTransferEvents(db: Db, code: Option<TransferCode>)
    requires Inv(db)
    ensures Kept(db, TransferSuccess(db, code).0)
    ensures Kept(db, TransferFailed(db, code).0)
  {
    KeptSame(db);
    if code.Some? {
      match PayoutOfCode(db.payouts, code.value)
      case None =>
      case Some(q) =>
        if db.payouts[q].status == Processing {
          KeptPayPayout(db, q);
          KeptPayoutRow(db, q, db.payouts[q].(status := PayoutFailed));
        }
    }
  }

  // ---------------------------------------------------------------- refunds

  /** An open refund has posted nothing. */
  lemma NothingReversed(db: Db, r: RefundId)
    requires Inv(db) && r in db.refunds && !db.refunds[r].reversed
    ensures RefundProcessed(r) !in db.books.txs && RefundCommission(r) !in db.books.txs
    ensures RefundEarningWallet(r) !in db.books.txs && RefundEarningPayable(r) !in db.books.txs
  {
    RowOf(db, RefundProcessed(r));
    RowOf(db, RefundCommission(r));
    RowOf(db, RefundEarningWallet(r));
    RowOf(db, RefundEarningPayable(r));
  }

  /** The rows of a refund are closed before its postings are made; nothing in between is observed. */
  lemma KeptCloseRefund(db: Db, r: RefundId)
    requires Inv(db) && r in db.refunds
    ensures db.refunds[r].payment in db.payments
    ensures Kept(db, CloseRefund(db, r))
  {
    assert RefundOk(db, r);
    var p := db.refunds[r].payment;
    var db' := CloseRefund(db, r);
    UpdatePaymentKeys(db.payments, p, db'.payments[p]);
    assert Advances(db, db');
    KeepRefunds(db, db');
    KeptRowsOnly(db, db');
  }

  /** The transaction table after the two debits of a refund. */
  lemma DebitTable(db: Db, r: RefundId)
    requires Inv(db) && r in db.refunds && !db.refunds[r].reversed
    ensures db.refunds[r].payment in db.payments
    ensures var ps := RefundPostings(r, db.refunds[r].payment, db.payments[db.refunds[r].payment].amount);
            PostAll(db.books, ps).txs == db.books.txs[RefundProcessed(r) := ps[0]][RefundCommission(r) := ps[1]]
    ensures RefundProcessed(r) !in db.books.txs && RefundCommission(r) !in db.books.txs
  {
    assert RefundOk(db, r);
    NothingReversed(db, r);
    var ps := RefundPostings(r, db.refunds[r].payment, db.payments[db.refunds[r].payment].amount);
    PostTwo(db.books, ps[0], ps[1]);
  }

  lemma KeptDebit(db: Db, r: RefundId)
    requires Inv(db) && r in db.refunds && !db.refunds[r].reversed
    ensures db.refunds[r].payment in db.payments
    ensures var p := db.refunds[r].payment;
            var closed := CloseRefund(db, r);
            var db' := closed.(books := PostAll(db.books, RefundPostings(r, p, db.payments[p].amount)));
            Kept(db, db') && RefundProcessed(r) in db'.books.txs && RefundCommission(r) in db'.books.txs
  {
    KeptCloseRefund(db, r);
    DebitTable(db, r);
    var p := db.refunds[r].payment;
    var closed := CloseRefund(db, r);
    var db' := closed.(books := PostAll(db.books, RefundPostings(r, p, db.payments[p].amount)));
    SamePending(closed.books.txs, db'.books.txs);
    KeptBooks(closed, db');
    KeptChain(db, closed, db');
  }

  /** The pending payout of a payment belongs to the driver whose wallet got the earning. */
  lemma PendingPayoutOwner(db: Db, p: PaymentId, q: PayoutId)
    requires Inv(db) && IsPendingPayoutOf(db.books.txs, p, q)
    ensures q in db.payouts && PaymentEarning(p) in db.books.txs
    ensures db.books.txs[PaymentEarning(p)].target == OnWallet(db.payouts[q].driver)
  {
    assert RowOk(db, PayoutPending(q));
  }

  /** Closing a refund with its debits, and with the driver's earning taken back. */
  lemma KeptReversalPostings(db: Db, r: RefundId, q: PayoutId)
    requires Inv(db) && ClosedRefund(db, r)
    requires RefundProcessed(r) in db.books.txs && RefundCommission(r) in db.books.txs
    requires RefundEarningWallet(r) !in db.books.txs && RefundEarningPayable(r) !in db.books.txs
    requires IsPendingPayoutOf(db.books.txs, db.refunds[r].payment, q)
    ensures q in db.payouts
    ensures var p := db.refunds[r].payment;
            var ps := ReversalPostings(r, p, db.payouts[q].driver, db.payments[p].amount);
            var db' := db.(books := PostAll(db.books, ps));
            && Inv(db') && Advances(db, db') && RefundEarningWallet(r) in db'.books.txs
            && (forall ref :: ref in db'.books.txs ==>
                  ref in db.books.txs || ref == RefundEarningWallet(r) || ref == RefundEarningPayable(r))
  {
    var p := db.refunds[r].payment;
    PendingPayoutOwner(db, p, q);
    var ps := ReversalPostings(r, p, db.payouts[q].driver, db.payments[p].amount);
    var db' := db.(books := PostAll(db.books, ps));
    PostTwo(db.books, ps[0], ps[1]);
    assert db'.books.txs == db.books.txs[ps[0].ref := ps[0]][ps[1].ref := ps[1]];
    SamePending(db.books.txs, db'.books.txs);
    KeptBooks(db, db');
  }

  /** The tables when the refund is closed and its four postings are made, before the payout row. */
  function ReversePosted(db: Db, r: RefundId, q: PayoutId): Db
    requires r in db.refunds && db.refunds[r].payment in db.payments && q in db.payouts
  {
    var p := db.refunds[r].payment;
    var gross := db.payments[p].amount;
    var debited := PostAll(db.books, RefundPostings(r, p, gross));
    CloseRefund(db, r).(books := PostAll(debited, ReversalPostings(r, p, db.payouts[q].driver, gross)))
  }

  /** Closed and debited, before the earning is taken back. */
  function Debited(db: Db, r: RefundId): Db
    requires r in db.refunds && db.refunds[r].payment in db.payments
  {
    var p := db.refunds[r].payment;
    CloseRefund(db, r).(books := PostAll(db.books, RefundPostings(r, p, db.payments[p].amount)))
  }

  lemma DebitedIsOpen(db: Db, r: RefundId, q: PayoutId)
    requires Inv(db) && r in db.refunds && !db.refunds[r].reversed
    requires IsPendingPayoutOf(db.books.txs, db.refunds[r].payment, q)
    ensures q in db.payouts && db.refunds[r].payment in db.payments
    ensures var mid := Debited(db, r);
            && Kept(db, mid) && ClosedRefund(mid, r)
            && RefundProcessed(r) in mid.books.txs && RefundCommission(r) in mid.books.txs
            && RefundEarningWallet(r) !in mid.books.txs && RefundEarningPayable(r) !in mid.books.txs
            && IsPendingPayoutOf(mid.books.txs, db.refunds[r].payment, q)
  {
    NothingReversed(db, r);
    PendingPayoutOwner(db, db.refunds[r].payment, q);
    KeptDebit(db, r);
    DebitPostingsOnly(db, r);
  }

  /** Close and debit, then take the earning back. */
  lemma KeptReversePosted(db: Db, r: RefundId, q: PayoutId)
    requires Inv(db) && r in db.refunds && !db.refunds[r].reversed
    requires IsPendingPayoutOf(db.books.txs, db.refunds[r].payment, q) && !PaidPayout(db, q)
    ensures q in db.payouts && db.refunds[r].payment in db.payments
    ensures Kept(db, ReversePosted(db, r, q)) && RefundEarningWallet(r) in ReversePosted(db, r, q).books.txs
  {
    DebitedIsOpen(db, r, q);
    var mid, posted := Debited(db, r), ReversePosted(db, r, q);
    KeptReversalPostings(mid, r, q);
    AdvancesTransitive(db, mid, posted);
    forall r' ensures ReversalAllowed(db, posted, r') {
      assert ReversalAllowed(db, mid, r');
      assert RefundAdvances(db, mid, r') && RefundAdvances(mid, posted, r');
    }
  }

  /** The whole of a reversal: posted, and the payout cancelled where it was waiting. */
  lemma KeptReverse(db: Db, r: RefundId, q: PayoutId)
    requires Inv(db) && r in db.refunds && !db.refunds[r].reversed
    requires IsPendingPayoutOf(db.books.txs, db.refunds[r].payment, q) && !PaidPayout(db, q)
    ensures q in db.payouts && db.refunds[r].payment in db.payments
    ensures var db' := SetPayout(ReversePosted(db, r, q), q, AfterReversal(db.payouts[q]));
            Kept(db, db') && RefundEarningWallet(r) in db'.books.txs
  {
    KeptReversePosted(db, r, q);
    var posted := ReversePosted(db, r, q);
    KeptPayoutRow(posted, q, AfterReversal(db.payouts[q]));
    KeptChain(db, posted, SetPayout(posted, q, AfterReversal(db.payouts[q])));
  }

  lemma DebitPostingsOnly(db: Db, r: RefundId)
    requires r in db.refunds && db.refunds[r].payment in db.payments
    ensures var p := db.refunds[r].payment;
            var txs := PostAll(db.books, RefundPostings(r, p, db.payments[p].amount)).txs;
            && (forall ref :: ref in txs ==> ref in db.books.txs || ref == RefundProcessed(r) || ref == RefundCommission(r))
            && (forall p', q :: IsPendingPayoutOf(txs, p', q) == IsPendingPayoutOf(db.books.txs, p', q))
            && (forall p' :: PaymentEarning(p') in txs <==> PaymentEarning(p') in db.books.txs)
  {
    var p := db.refunds[r].payment;
    var ps := RefundPostings(r, p, db.payments[p].amount);
    PostTwo(db.books, ps[0], ps[1]);
  }

  lemma KeptReverseRefund(db: Db, r: RefundId)
    requires Inv(db)
    ensures Kept(db, ReverseRefund(db, r))
  {
    KeptSame(db);
    var db' := ReverseRefund(db, r);
    if db' != db {
      var p := db.refunds[r].payment;
      var gross := db.payments[p].amount;
      var debited := db.(books := PostAll(db.books, RefundPostings(r, p, gross)));
      DebitPostingsOnly(db, r);
      match EarningDecision(debited, p, gross)
      case Reverse(q) =>
        KeptReverse(db, r, q);
        assert db' == SetPayout(ReversePosted(db, r, q), q, AfterReversal(db.payouts[q]));
      case _ =>
        KeptDebit(db, r);
        assert db' == CloseRefund(db, r).(books := debited.books);
    }
  }

  /** A refund row is created, or its status changes. */
  lemma KeptRefundRow(db: Db, r: RefundId, refund: Refund, nextId: nat)
    requires Inv(db) && db.nextId <= nextId && r < nextId
    requires refund.payment in db.payments && IsCaptured(db.payments[refund.payment].status)
    requires refund.amount == db.payments[refund.payment].amount
    requires r in db.refunds ==> refund == db.refunds[r].(status := refund.status)
    ensures Kept(db, db.(refunds := db.refunds[r := refund], nextId := nextId))
  {
    var db' := db.(refunds := db.refunds[r := refund], nextId := nextId);
    assert Advances(db, db');
    forall r' | r' in db'.refunds ensures RefundOk(db', r') {
      if r' != r {
        assert RefundOk(db, r');
      }
    }
    KeptRowsOnly(db, db');
  }

  lemma KeptDirectRefund(db: Db, p: PaymentId)
    requires Inv(db) && p in db.payments && db.payments[p].status == Captured
    ensures var created := db.(refunds := db.refunds[db.nextId := Refund(p, db.payments[p].amount, Processed, false)], nextId := db.nextId + 1);
            Kept(db, ReverseRefund(created, db.nextId))
  {
    var r := db.nextId;
    var created := db.(refunds := db.refunds[r := Refund(p, db.payments[p].amount, Processed, false)], nextId := r + 1);
    KeptRefundRow(db, r, created.refunds[r], r + 1);
    KeptReverseRefund(created, r);
    KeptChain(db, created, ReverseRefund(created, r));
  }

  lemma KeptRequestRefund(db: Db, p: PaymentId, secretKey: bool, response: RefundResponse)
    requires Inv(db)
    ensures Kept(db, RequestRefund(db, p, secretKey, response))
  {
    KeptSame(db);
    if p in db.payments && db.payments[p].status == Captured && !HasOpenRefund(db, p) {
      var r, refund := db.nextId, Refund(p, db.payments[p].amount, RefundProcessing, false);
      if !secretKey || db.payments[p].provider != Paystack {
        KeptDirectRefund(db, p);
      } else if response == Declined {
        KeptRefundRow(db, r, refund.(status := RefundFailed), r + 1);
        assert db.refunds[r := refund][r := refund.(status := RefundFailed)] == db.refunds[r := refund.(status := RefundFailed)];
      } else {
        KeptRefundRow(db, r, refund, r + 1);
      }
    }
  }

  lemma KeptRefundEvent(db: Db, kind: RefundEventKind, reference: Option<Option<RefundId>>)
    requires Inv(db)
    ensures Kept(db, RefundEvent(db, kind, reference).0)
  {
    KeptSame(db);
    if reference.Some? && reference.value.Some? && reference.value.value in db.refunds {
      var r := reference.value.value;
      var p := db.refunds[r].payment;
      var status := match kind { case EventProcessed => Processed case EventFailed => RefundFailed case EventPending => RefundProcessing };
      assert RefundOk(db, r);
      var updated := db.(refunds := db.refunds[r := db.refunds[r].(status := status)]);
      KeptRefundRow(db, r, updated.refunds[r], db.nextId);
      if kind == EventProcessed {
        var refunded := updated.(payments := db.payments[p := db.payments[p].(status := Refunded)]);
        KeptPaymentRow(updated, p, refunded.payments[p]);
        KeptReverseRefund(refunded, r);
        KeptChain(db, updated, refunded);
        KeptChain(db, refunded, RefundEvent(db, kind, reference).0);
      }
    }
  }

  // ---------------------------------------------------------------- payouts through the admin

  lemma KeptRequestPayout(db: Db, d: DriverId, amount: int, eligible: bool)
    requires Inv(db)
    ensures Kept(db, RequestPayout(db, d, amount, eligible))
  {
    KeptSame(db);
    if amount >= 0 {
      KeptNewPayout(db, Payout(d, amount, Paystack, Requested, None));
    }
  }

  lemma KeptMovePayout(db: Db, q: PayoutId, from: PayoutStatus, to: PayoutStatus)
    requires Inv(db) && to != Requested
    requires from == Requested || from == Approved || from == Processing
    ensures Kept(db, MovePayout(db, q, from, to))
  {
    KeptSame(db);
    if q in db.payouts && db.payouts[q].status == from {
      KeptPayoutRow(db, q, db.payouts[q].(status := to));
    }
  }

  predicate IsAdminPosting(p: Posting, q: PayoutId, amount: nat) {
    p in ApprovedPostings(q, amount) || p in FailedPostings(q, amount)
  }

  /** A posting about a payout that is past REQUESTED, of the approved or the failed kind. */
  lemma KeptAdminPosting(db: Db, q: PayoutId, p: Posting)
    requires Inv(db) && SettledPayout(db, q) && IsAdminPosting(p, q, db.payouts[q].amount)
    ensures Kept(db, db.(books := Post(db.books, p)))
  {
    var db' := db.(books := Post(db.books, p));
    SamePending(db.books.txs, db'.books.txs);
    KeptBooks(db, db');
  }

  lemma KeptTwoPostings(db: Db, q: PayoutId, x: Posting, y: Posting)
    requires Inv(db) && SettledPayout(db, q)
    requires IsAdminPosting(x, q, db.payouts[q].amount) && IsAdminPosting(y, q, db.payouts[q].amount)
    ensures Kept(db, db.(books := PostAll(db.books, [x, y])))
  {
    var mid := db.(books := Post(db.books, x));
    KeptAdminPosting(db, q, x);
    KeptAdminPosting(mid, q, y);
    PostTwo(db.books, x, y);
    KeptChain(db, mid, mid.(books := Post(mid.books, y)));
  }

  lemma KeptApprovePayout(db: Db, q: PayoutId)
    requires Inv(db)
    ensures Kept(db, ApprovePayout(db, q))
  {
    KeptSame(db);
    var db' := ApprovePayout(db, q);
    if db' != db {
      var mid := SetPayout(db, q, db.payouts[q].(status := Approved));
      KeptPayoutRow(db, q, mid.payouts[q]);
      var ps := ApprovedPostings(q, db.payouts[q].amount);
      KeptTwoPostings(mid, q, ps[0], ps[1]);
      KeptChain(db, mid, db');
    }
  }

  lemma KeptMarkPayoutFailed(db: Db, q: PayoutId)
    requires Inv(db)
    ensures Kept(db, MarkPayoutFailed(db, q))
  {
    KeptSame(db);
    if q in db.payouts && db.payouts[q].status == Processing {
      var mid := MovePayout(db, q, Processing, PayoutFailed);
      KeptMovePayout(db, q, Processing, PayoutFailed);
      var ps := FailedPostings(q, db.payouts[q].amount);
      KeptTwoPostings(mid, q, ps[0], ps[1]);
      KeptSame(mid);
      KeptChain(db, mid, MarkPayoutFailed(db, q));
    }
  }

  // ---------------------------------------------------------------- every step, every run

  predicate IsPaymentStep(step: Step) {
    step.OpenTrip? || step.AssignDriver? || step.StepInitiate? || step.StepAuthorize? || step.StepComplete?
    || step.StepCapture? || step.StepChargeSuccess? || step.StepChargeFailed?
  }

  predicate IsAdminPayoutStep(step: Step) {
    step.StepRequestPayout? || step.StepApprove? || step.StepReject? || step.StepMarkProcessing?
    || step.StepMarkPaid? || step.StepMarkFailed?
  }

  lemma PaymentStepKept(db: Db, step: Step)
    requires Inv(db) && IsPaymentStep(step)
    ensures Kept(db, Apply(db, step))
  {
    KeptSame(db);
    match step
    case OpenTrip(t) => KeptTrips(db, db.trips[t := Trip(false, None)]);
    case AssignDriver(t, d) =>
      if t in db.trips {
        KeptTrips(db, db.trips[t := db.trips[t].(driver := Some(d))]);
      }
    case StepInitiate(t, amount, provider) => KeptInitiate(db, t, amount, provider);
    case StepAuthorize(t) => KeptAuthorize(db, t);
    case StepComplete(t) => KeptCompleteTrip(db, t);
    case StepCapture(t) =>
      if t in db.trips {
        KeptCapture(db, t, db.trips[t].driver);
      }
    case StepChargeSuccess(reference, verified) => KeptChargeSuccess(db, reference, verified);
    case StepChargeFailed(reference) => KeptChargeFailed(db, reference);
  }

  lemma PayoutMoveKept(db: Db, step: Step)
    requires Inv(db) && (step.StepReject? || step.StepMarkProcessing? || step.StepMarkPaid?)
    ensures Kept(db, Apply(db, step))
  {
    match step
    case StepReject(q) => KeptMovePayout(db, q, Requested, Rejected);
    case StepMarkProcessing(q) => KeptMovePayout(db, q, Approved, Processing);
    case StepMarkPaid(q) => KeptMovePayout(db, q, Processing, Paid);
  }

  lemma AdminPayoutStepKept(db: Db, step: Step)
    requires Inv(db) && IsAdminPayoutStep(step)
    ensures Kept(db, Apply(db, step))
  {
    match step
    case StepRequestPayout(d, requested, eligible) => KeptRequestPayout(db, d, requested, eligible);
    case StepApprove(q) => KeptApprovePayout(db, q);
    case StepMarkFailed(q) => KeptMarkPayoutFailed(db, q);
    case _ => PayoutMoveKept(db, step);
  }

  lemma ProviderStepKept(db: Db, step: Step)
    requires Inv(db) && !IsPaymentStep(step) && !IsAdminPayoutStep(step)
    ensures Kept(db, Apply(db, step))
  {
    match step
    case StepTransfer(q, env) => KeptInitiateTransfer(db, q, env);
    case StepRetry(q, env) => KeptRetryTransfer(db, q, env);
    case StepTransferSuccess(code) => KeptTransferEvents(db, code);
    case StepTransferFailed(code) => KeptTransferEvents(db, code);
    case StepRequestRefund(p, secretKey, response) => KeptRequestRefund(db, p, secretKey, response);
    case StepRefundEvent(kind, refund) => KeptRefundEvent(db, kind, refund);
    case StepReconcile(r) => KeptReverseRefund(db, r);
  }

  /** Every service call keeps the invariant, and life cycles only advance. */
  lemma StepKept(db: Db, step: Step)
    requires Inv(db)
    ensures Kept(db, Apply(db, step))
  {
    if IsPaymentStep(step) {
      PaymentStepKept(db, step);
    } else if IsAdminPayoutStep(step) {
      AdminPayoutStepKept(db, step);
    } else {
      ProviderStepKept(db, step);
    }
  }

  lemma {:induction false} RunKept(db: Db, steps: seq<Step>)
    requires Inv(db)
    ensures Kept(db, Run(db, steps))
  {
    if steps == [] {
      KeptSame(db);
    } else {
      var before := Run(db, steps[..|steps| - 1]);
      RunKept(db, steps[..|steps| - 1]);
      StepKept(before, steps[|steps| - 1]);
      KeptChain(db, before, Run(db, steps));
    }
  }
}
