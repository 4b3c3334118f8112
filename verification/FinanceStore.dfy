/** The services as they are written: methods that read rows, return early, update rows and
    post, each proved against its specification function in `Finance`. */
module FinanceStore {
  import opened Common
  import opened Ledger
  import opened Finance
  import opened FinanceInvariants
  import opened FinanceSteps
  import FinanceResults
  import Money

  /** The refunds as they were, except that the processed ones of the list are reversed. */
  ghost predicate Reconciled(was: map<RefundId, Refund>, refunds: map<RefundId, Refund>, listed: seq<RefundId>) {
    && refunds.Keys == was.Keys
    && forall r :: r in was ==>
         refunds[r] == if r in listed && was[r].status == Processed then was[r].(reversed := true) else was[r]
  }

  lemma ReconcileOne(db: Db, r: RefundId)
    requires Inv(db)
    ensures Reconciled(db.refunds, ReverseRefund(db, r).refunds, [r])
  {
    assert r in db.refunds ==> RefundOk(db, r);
  }

  lemma ReconcileMore(was: map<RefundId, Refund>, now: map<RefundId, Refund>, next: map<RefundId, Refund>, done: seq<RefundId>, r: RefundId)
    requires Reconciled(was, now, done) && Reconciled(now, next, [r])
    ensures Reconciled(was, next, done + [r])
  {
  }

  /** When all that were processed and not reversed are on the list, none of them is left. */
  lemma NoneLeft(was: map<RefundId, Refund>, refunds: map<RefundId, Refund>, listed: seq<RefundId>)
    requires Reconciled(was, refunds, listed)
    requires forall r :: r in was && was[r].status == Processed && !was[r].reversed ==> r in listed
    ensures forall r :: r in refunds && refunds[r].status == Processed ==> refunds[r].reversed
  {
  }

  function Reconciling(listed: seq<RefundId>): seq<Step> {
    seq(|listed|, i requires 0 <= i < |listed| => StepReconcile(listed[i]))
  }

  /** The database tables. Every service call runs in one transaction. */
  class Store {
    var trips: map<TripId, Trip>
    var payments: map<PaymentId, Payment>
    var payouts: map<PayoutId, Payout>
    var refunds: map<RefundId, Refund>
    var accounts: map<Account, int>
    var wallets: map<DriverId, int>
    var txs: map<Ref, Posting>
    var journal: seq<Entry>
    var walletLog: seq<WalletTx>
    var nextId: nat

    ghost function View(): Db
      reads this
    {
      Db(trips, payments, payouts, refunds, Books(accounts, wallets, txs, journal, walletLog), nextId)
    }

    constructor ()
      ensures View() == Db(map[], map[], map[], map[], Opened(map[], map[]), 0)
      ensures Inv(View())
    {
      trips, payments, payouts, refunds := map[], map[], map[], map[];
      accounts, wallets, txs, journal, walletLog := map[], map[], map[], [], [];
      nextId := 0;
    }

    // -------------------------------------------------------------- postings

    method RecordAccountEvent(p: Posting)
      requires p.target.OnAccount?
      modifies this
      ensures View() == old(View()).(books := Post(old(View()).books, p))
    {
      if p.ref in txs {
        return;
      }
      var a := p.target.account;
      if a !in accounts {
        accounts := accounts[a := 0];
      }
      accounts := accounts[a := accounts[a] + Signed(p)];
      txs := txs[p.ref := p];
      journal := journal + [Entry(p, accounts[a])];
      assert accounts == old(accounts)[a := accounts[a]];
    }

    method RecordWalletEvent(p: Posting)
      requires p.target.OnWallet?
      modifies this
      ensures View() == old(View()).(books := Post(old(View()).books, p))
    {
      if p.ref in txs {
        return;
      }
      var d := p.target.driver;
      if d !in wallets {
        wallets := wallets[d := 0];
      }
      var balanceBefore := wallets[d];
      wallets := wallets[d := balanceBefore + Signed(p)];
      txs := txs[p.ref := p];
      journal := journal + [Entry(p, wallets[d])];
      walletLog := walletLog + [WalletTx(d, p, balanceBefore, wallets[d])];
      assert wallets == old(wallets)[d := wallets[d]];
    }

    // -------------------------------------------------------------- lookups

    /** `findUnique({ where: { tripId } })` */
    method FindPaymentOfTrip(t: TripId) returns (found: Option<PaymentId>)
      requires OnePaymentPerTrip(payments)
      ensures found == PaymentOfTrip(payments, t)
    {
      if p :| p in payments && payments[p].trip == t {
        assert IsPaymentOf(payments, t, p);
        return Some(p);
      }
      forall p ensures !IsPaymentOf(payments, t, p) {}
      return None;
    }

    /** `findUnique({ where: { providerTransferCode } })` */
    method FindPayoutOfCode(code: TransferCode) returns (found: Option<PayoutId>)
      requires OnePayoutPerCode(payouts)
      ensures found == PayoutOfCode(payouts, code)
    {
      if q :| q in payouts && payouts[q].transferCode == Some(code) {
        assert HasCode(payouts, code, q);
        return Some(q);
      }
      forall q ensures !HasCode(payouts, code, q) {}
      return None;
    }

    /** `findFirst({ where: { paymentId, eventType: 'DRIVER_PAYOUT_PENDING' } })`: at most one
        matches, since `db0`, the state before the two debits of the reversal. */
    method FindPendingPayout(p: PaymentId, ghost db0: Db) returns (found: Option<PayoutId>)
      requires Inv(db0) && payouts == db0.payouts
      requires forall q :: IsPendingPayoutOf(txs, p, q) == IsPendingPayoutOf(db0.books.txs, p, q)
      ensures found == PendingPayoutOf(txs, p)
      ensures found.Some? ==> found.value in payouts
    {
      if q :| q in payouts && PayoutPending(q) in txs && txs[PayoutPending(q)].payment == Some(p) {
        assert IsPendingPayoutOf(txs, p, q);
        return Some(q);
      }
      forall q ensures !IsPendingPayoutOf(txs, p, q) {
        RowOf(db0, PayoutPending(q));
        assert IsPendingPayoutOf(txs, p, q) == IsPendingPayoutOf(db0.books.txs, p, q);
      }
      return None;
    }

    // -------------------------------------------------------------- payments

    method InitiatePayment(t: TripId, amount: nat, provider: Provider)
      requires Inv(View())
      modifies this
      ensures View() == Initiate(old(View()), t, amount, provider) && Inv(View())
    {
      KeptInitiate(View(), t, amount, provider);
      if t !in trips {
        return;
      }
      var existing := FindPaymentOfTrip(t);
      if existing.Some? {
        return;
      }
      var p := nextId;
      payments := payments[p := Payment(t, amount, provider, Pending, false)];
      nextId := p + 1;
      RecordAccountEvent(Posting(PaymentPending(p), OnAccount(CashClearing), Credit, amount, Some(p)));
    }

    method AuthorizePaymentForTrip(t: TripId)
      requires Inv(View())
      modifies this
      ensures View() == Authorize(old(View()), t) && Inv(View())
    {
      KeptAuthorize(View(), t);
      var found := FindPaymentOfTrip(t);
      if found.None? {
        return;
      }
      var p := found.value;
      var payment := payments[p];
      if payment.status != Pending {
        return;
      }
      payments := payments[p := payment.(status := Authorized)];
      RecordAccountEvent(Posting(PaymentAuthorized(p), OnAccount(CashClearing), Credit, payment.amount, Some(p)));
    }

    method CapturePaymentForTrip(t: TripId, driver: Option<DriverId>)
      requires Inv(View())
      modifies this
      ensures View() == Capture(old(View()), t, driver) && Inv(View())
    {
      KeptCapture(View(), t, driver);
      var found := FindPaymentOfTrip(t);
      if found.None? {
        return;
      }
      var p := found.value;
      var payment := payments[p];
      if payment.status == Captured {
        return;
      }
      if payment.status != Pending && payment.status != Authorized {
        return;
      }
      if payment.provider == Paystack && !payment.confirmed {
        return;
      }
      RecordCapturedPayment(p, driver);
    }

    /** The capture transaction: the payment row, its postings, and the driver's payout. */
    method RecordCapturedPayment(p: PaymentId, driver: Option<DriverId>)
      requires p in payments
      modifies this
      ensures View() == CaptureRow(old(View()), p, driver)
    {
      var payment := payments[p];
      payments := payments[p := payment.(status := Captured)];
      RecordCapture(p, payment.amount);
      if driver.Some? {
        var q := nextId;
        payouts := payouts[q := Payout(driver.value, DriverShare(payment.amount), payment.provider, Requested, None)];
        nextId := q + 1;
        RecordEarning(p, driver.value, q, payment.amount);
      }
    }

    method RecordCapture(p: PaymentId, gross: nat)
      modifies this
      ensures View() == old(View()).(books := PostAll(old(View()).books, CapturePostings(p, gross)))
    {
      PostTwo(View().books, CapturedPosting(p, gross), CommissionPosting(p, gross));
      RecordAccountEvent(CapturedPosting(p, gross));
      RecordAccountEvent(CommissionPosting(p, gross));
    }

    method RecordEarning(p: PaymentId, d: DriverId, q: PayoutId, gross: nat)
      modifies this
      ensures View() == old(View()).(books := PostAll(old(View()).books, EarningPostings(p, d, q, gross)))
    {
      PostThree(View().books, EarningPosting(p, d, gross), PayablePosting(p, gross), PendingPosting(q, p, gross));
      RecordWalletEvent(EarningPosting(p, d, gross));
      RecordAccountEvent(PayablePosting(p, gross));
      RecordAccountEvent(PendingPosting(q, p, gross));
    }

    /** Two account postings in a row. */
    method RecordAccountEvents(x: Posting, y: Posting)
      requires x.target.OnAccount? && y.target.OnAccount?
      modifies this
      ensures View() == old(View()).(books := PostAll(old(View()).books, [x, y]))
    {
      PostTwo(View().books, x, y);
      RecordAccountEvent(x);
      RecordAccountEvent(y);
    }

    /** The completing transition of a trip. */
    method CompleteTripAndCapture(t: TripId)
      requires Inv(View())
      modifies this
      ensures View() == CompleteTrip(old(View()), t) && Inv(View())
    {
      if t !in trips || trips[t].completed {
        return;
      }
      var trip := trips[t];
      KeptTrips(View(), trips[t := trip.(completed := true)]);
      trips := trips[t := trip.(completed := true)];
      CapturePaymentForTrip(t, trip.driver);
    }

    method HandleChargeSuccess(reference: Option<PaymentId>, verified: bool) returns (processed: bool)
      requires Inv(View())
      modifies this
      ensures (View(), processed) == ChargeSuccess(old(View()), reference, verified) && Inv(View())
    {
      KeptChargeSuccess(View(), reference, verified);
      if reference.None? {
        return false;
      }
      if !verified {
        return false;
      }
      var p := reference.value;
      if p !in payments {
        return true;
      }
      var payment := payments[p];
      if payment.status == Captured || payment.status == Failed || payment.status == Refunded {
        return true;
      }
      KeptPaymentRow(View(), p, ConfirmPayment(payment, payment.status));
      payments := payments[p := payment.(confirmed := true,
                                         status := if payment.status == Pending then Authorized else payment.status)];
      if payment.trip in trips && trips[payment.trip].completed {
        CapturePaymentForTrip(payment.trip, trips[payment.trip].driver);
      }
      return true;
    }

    method HandleChargeFailed(reference: Option<PaymentId>) returns (processed: bool)
      requires Inv(View())
      modifies this
      ensures (View(), processed) == ChargeFailed(old(View()), reference) && Inv(View())
    {
      KeptChargeFailed(View(), reference);
      if reference.None? {
        return false;
      }
      var p := reference.value;
      if p !in payments {
        return true;
      }
      if payments[p].status == Captured || payments[p].status == Failed || payments[p].status == Refunded {
        return true;
      }
      payments := payments[p := payments[p].(status := Failed)];
      return true;
    }

    // -------------------------------------------------------------- payouts

    method RecordPayoutPaidLedger(q: PayoutId, payout: Payout)
      modifies this
      ensures View() == old(View()).(books := PostAll(old(View()).books, PaidPostings(q, payout.driver, payout.amount)))
    {
      var ps := PaidPostings(q, payout.driver, payout.amount);
      PostThree(View().books, ps[0], ps[1], ps[2]);
      RecordWalletEvent(ps[0]);
      RecordAccountEvent(ps[1]);
      RecordAccountEvent(ps[2]);
    }

    /** False where the source throws. */
    method MarkPayoutPaidByMock(q: PayoutId) returns (ok: bool)
      requires Inv(View())
      modifies this
      ensures (View(), ok) == MarkMockPayoutPaid(old(View()), q) && Inv(View())
    {
      if q !in payouts || payouts[q].status == Paid {
        return true;
      }
      var payout := payouts[q];
      if payout.status == PayoutFailed {
        return false;
      }
      if payout.status != Approved && payout.status != Processing {
        return true;
      }
      KeptPayPayout(View(), q);
      payouts := payouts[q := payout.(status := Paid)];
      RecordPayoutPaidLedger(q, payout);
      return true;
    }

    /** `ok` is false where the source throws; `sent` is the transfer that the provider accepted. */
    method InitiatePayoutTransfer(q: PayoutId, env: TransferEnv) returns (ok: bool, sent: Option<TransferCode>)
      requires Inv(View())
      modifies this
      ensures (View(), ok) == InitiateTransfer(old(View()), q, env) && Inv(View())
      ensures sent == FinanceResults.SentTransfer(old(View()), q, env)
    {
      KeptInitiateTransfer(View(), q, env);
      sent := None;
      if q !in payouts {
        return false, None;
      }
      var payout := payouts[q];
      if payout.status == Paid {
        return true, None;
      }
      if payout.status == PayoutFailed {
        return false, None;
      }
      if !env.secretKey || payout.provider != Paystack {
        ok := MarkPayoutPaidByMock(q);
        return ok, None;
      }
      if !env.recipient {
        return false, None;
      }
      if payout.status == Processing && payout.transferCode.Some? {
        return true, None;
      }
      if env.response.None? {
        return false, None;
      }
      sent := env.response;
      if payout.status == Approved {
        var holder := FindPayoutOfCode(env.response.value);
        if holder.Some? && holder != Some(q) {
          return false, sent;
        }
        payouts := payouts[q := payout.(status := Processing, transferCode := env.response)];
      }
      return true, sent;
    }

    method RetryPayoutTransfer(q: PayoutId, env: TransferEnv)
      requires Inv(View())
      modifies this
      ensures View() == RetryTransfer(old(View()), q, env) && Inv(View())
    {
      KeptRetryTransfer(View(), q, env);
      if q !in payouts || payouts[q].status != PayoutFailed {
        return;
      }
      if PayoutPaidWallet(q) in txs {
        return;
      }
      KeptPayoutRow(View(), q, payouts[q].(status := Approved, transferCode := None));
      payouts := payouts[q := payouts[q].(status := Approved, transferCode := None)];
      ghost var reopened := View();
      var ok, sent := InitiatePayoutTransfer(q, env);
      if !ok {
        assert View() == reopened;
        payouts := payouts[q := payouts[q].(status := PayoutFailed)];
      }
    }

    method HandleTransferSuccess(code: Option<TransferCode>) returns (processed: bool)
      requires Inv(View())
      modifies this
      ensures (View(), processed) == TransferSuccess(old(View()), code) && Inv(View())
    {
      KeptTransferEvents(View(), code);
      if code.None? {
        return false;
      }
      var found := FindPayoutOfCode(code.value);
      if found.None? {
        return true;
      }
      var q := found.value;
      var payout := payouts[q];
      if payout.status == Processing {
        payouts := payouts[q := payout.(status := Paid)];
        RecordPayoutPaidLedger(q, payout);
      }
      return true;
    }

    method HandleTransferFailed(code: Option<TransferCode>) returns (processed: bool)
      requires Inv(View())
      modifies this
      ensures (View(), processed) == TransferFailed(old(View()), code) && Inv(View())
    {
      KeptTransferEvents(View(), code);
      if code.None? {
        return false;
      }
      var found := FindPayoutOfCode(code.value);
      if found.None? {
        return true;
      }
      var q := found.value;
      if payouts[q].status == Processing {
        payouts := payouts[q := payouts[q].(status := PayoutFailed)];
      }
      return true;
    }

    /** Of the PAID payouts, at most `limit` of which are listed, those whose wallet reference is missing. */
    method FindPaidPayoutsMissingLedger(limit: nat) returns (missing: seq<PayoutId>)
      ensures forall q :: q in missing ==> q in FinanceResults.MissingLedger(View())
      ensures limit >= |PaidPayouts()| ==> forall q :: q in FinanceResults.MissingLedger(View()) ==> q in missing
    {
      missing := [];
      var remaining := PaidPayouts();
      var left := limit;
      while remaining != {} && left > 0
        invariant remaining <= PaidPayouts()
        invariant forall q :: q in missing ==> q in FinanceResults.MissingLedger(View())
        invariant limit - left == |PaidPayouts()| - |remaining|
        invariant forall q :: q in FinanceResults.MissingLedger(View()) ==> q in remaining || q in missing
        decreases left
      {
        var q :| q in remaining;
        if PayoutPaidWallet(q) !in txs {
          missing := missing + [q];
        }
        remaining := remaining - {q};
        left := left - 1;
      }
    }

    function PaidPayouts(): set<PayoutId>
      reads this
    {
      set q | q in payouts && payouts[q].status == Paid
    }

    // -------------------------------------------------------------- refunds

    method ReverseFullRefundLedger(r: RefundId)
      requires Inv(View())
      modifies this
      ensures View() == ReverseRefund(old(View()), r) && Inv(View())
    {
      KeptReverseRefund(View(), r);
      if r !in refunds || refunds[r].payment !in payments {
        return;
      }
      var refund := refunds[r];
      var p := refund.payment;
      var gross := payments[p].amount;
      if refund.status != Processed || refund.reversed || refund.amount != gross {
        return;
      }
      ghost var db0 := View();
      DebitPostingsOnly(db0, r);
      var ps := RefundPostings(r, p, gross);
      assert ps == [ps[0], ps[1]];
      RecordAccountEvents(ps[0], ps[1]);
      ReverseEarning(r, p, gross, db0);
      refunds := refunds[r := refund.(reversed := true)];
      payments := payments[p := payments[p].(status := Refunded)];
    }

    /** The driver's part of a reversal, after its two debits. */
    method ReverseEarning(r: RefundId, p: PaymentId, gross: nat, ghost db0: Db)
      requires Inv(db0) && View() == db0.(books := View().books)
      requires forall q :: IsPendingPayoutOf(txs, p, q) == IsPendingPayoutOf(db0.books.txs, p, q)
      modifies this
      ensures match EarningDecision(old(View()), p, gross)
              case Reverse(q) =>
                View() == SetPayout(old(View()), q, AfterReversal(old(View()).payouts[q])).(
                  books := PostAll(old(View()).books, ReversalPostings(r, p, old(View()).payouts[q].driver, gross)))
              case _ => View() == old(View())
    {
      if PaymentEarning(p) !in txs {
        return;
      }
      var found := FindPendingPayout(p, db0);
      if found.None? {
        return;
      }
      var q := found.value;
      var payout := payouts[q];
      if payout.status == Paid || payout.status == Processing {
        return;
      }
      var balance := if payout.driver in wallets then wallets[payout.driver] else 0;
      if Money.ReadBack(balance) < DriverShare(gross) {
        return;
      }
      var qs := ReversalPostings(r, p, payout.driver, gross);
      PostTwo(View().books, qs[0], qs[1]);
      RecordWalletEvent(qs[0]);
      RecordAccountEvent(qs[1]);
      if payout.status == Requested || payout.status == PayoutFailed {
        payouts := payouts[q := payout.(status := PayoutCancelled)];
      }
      assert payouts == old(payouts)[q := AfterReversal(payout)];
    }

    method FindOpenRefund(p: PaymentId) returns (found: bool)
      ensures found == HasOpenRefund(View(), p)
    {
      if r :| r in refunds && refunds[r].payment == p &&
              (refunds[r].status == RefundPending || refunds[r].status == RefundProcessing || refunds[r].status == Processed) {
        return true;
      }
      return false;
    }

    method CreateRefund(p: PaymentId, status: RefundStatus) returns (r: RefundId)
      requires Inv(View()) && p in payments && payments[p].status == Captured
      modifies this
      ensures r == old(nextId) && Inv(View())
      ensures View() == old(View()).(refunds := old(refunds)[r := Refund(p, old(payments)[p].amount, status, false)], nextId := r + 1)
    {
      r := nextId;
      var refund := Refund(p, payments[p].amount, status, false);
      KeptRefundRow(View(), r, refund, r + 1);
      refunds := refunds[r := refund];
      nextId := r + 1;
    }

    /** A refund that needs no provider is processed and reversed at once. */
    method RefundDirectly(p: PaymentId)
      requires Inv(View()) && p in payments && payments[p].status == Captured
      modifies this
      ensures var refund := Refund(p, old(payments)[p].amount, Processed, false);
              var created := old(View()).(refunds := old(refunds)[old(nextId) := refund], nextId := old(nextId) + 1);
              View() == ReverseRefund(created, old(nextId)) && Inv(View())
    {
      var r := CreateRefund(p, Processed);
      ReverseFullRefundLedger(r);
    }

    method RefundAtProvider(p: PaymentId, response: RefundResponse)
      requires Inv(View()) && p in payments && payments[p].status == Captured
      modifies this
      ensures var status := if response == Declined then RefundFailed else RefundProcessing;
              var refund := Refund(p, old(payments)[p].amount, status, false);
              View() == old(View()).(refunds := old(refunds)[old(nextId) := refund], nextId := old(nextId) + 1)
    {
      var r := CreateRefund(p, RefundProcessing);
      if response == Declined {
        refunds := refunds[r := refunds[r].(status := RefundFailed)];
      }
    }

    method RequestFullRefund(p: PaymentId, secretKey: bool, response: RefundResponse)
      requires Inv(View())
      modifies this
      ensures View() == RequestRefund(old(View()), p, secretKey, response) && Inv(View())
    {
      KeptRequestRefund(View(), p, secretKey, response);
      if p !in payments || payments[p].status != Captured {
        return;
      }
      var open := FindOpenRefund(p);
      if open {
        return;
      }
      if secretKey && payments[p].provider == Paystack {
        RefundAtProvider(p, response);
      } else {
        RefundDirectly(p);
      }
    }

    method HandleRefundEvent(kind: RefundEventKind, reference: Option<Option<RefundId>>) returns (processed: bool)
      requires Inv(View())
      modifies this
      ensures (View(), processed) == RefundEvent(old(View()), kind, reference) && Inv(View())
    {
      KeptRefundEvent(View(), kind, reference);
      if reference.None? {
        return false;
      }
      if reference.value.None? {
        return true;
      }
      var r := reference.value.value;
      if r !in refunds || refunds[r].payment !in payments {
        return true;
      }
      var p := refunds[r].payment;
      assert RefundOk(View(), r);
      var refund := refunds[r].(status := match kind
        case EventProcessed => Processed
        case EventFailed => RefundFailed
        case EventPending => RefundProcessing);
      KeptRefundRow(View(), r, refund, nextId);
      refunds := refunds[r := refund];
      if kind == EventProcessed {
        KeptPaymentRow(View(), p, payments[p].(status := Refunded));
        payments := payments[p := payments[p].(status := Refunded)];
        ReverseFullRefundLedger(r);
      }
      return true;
    }

    /** The query of `runManualReconciliation`: processed refunds that are not reversed yet, in
        whatever order the database gives them. */
    method ListUnreversedRefunds() returns (listed: seq<RefundId>)
      ensures forall r :: r in listed <==> r in refunds && refunds[r].status == Processed && !refunds[r].reversed
      ensures forall i, j :: 0 <= i < j < |listed| ==> listed[i] != listed[j]
    {
      listed := [];
      var remaining := set r | r in refunds && refunds[r].status == Processed && !refunds[r].reversed;
      while remaining != {}
        invariant forall r :: r in refunds && refunds[r].status == Processed && !refunds[r].reversed <==> r in remaining || r in listed
        invariant forall r :: r in listed ==> r !in remaining
        invariant forall i, j :: 0 <= i < j < |listed| ==> listed[i] != listed[j]
        decreases |remaining|
      {
        var r :| r in remaining;
        remaining := remaining - {r};
        listed := listed + [r];
      }
    }

    method ReconcileAll(listed: seq<RefundId>)
      requires Inv(View())
      modifies this
      ensures View() == Run(old(View()), Reconciling(listed)) && Inv(View())
      ensures Reconciled(old(refunds), refunds, listed)
    {
      for i := 0 to |listed|
        invariant View() == Run(old(View()), Reconciling(listed[..i])) && Inv(View())
        invariant Reconciled(old(refunds), refunds, listed[..i])
      {
        assert Reconciling(listed[..i + 1])[..i] == Reconciling(listed[..i]);
        assert listed[..i + 1] == listed[..i] + [listed[i]];
        ghost var before := View();
        ReconcileOne(before, listed[i]);
        ReverseFullRefundLedger(listed[i]);
        ReconcileMore(old(refunds), before.refunds, refunds, listed[..i], listed[i]);
      }
      assert listed[..|listed|] == listed;
    }

    /** Afterwards no processed refund is left unreversed. */
    method RunManualReconciliation() returns (listed: seq<RefundId>)
      requires Inv(View())
      modifies this
      ensures forall r :: r in listed <==> r in old(refunds) && old(refunds)[r].status == Processed && !old(refunds)[r].reversed
      ensures View() == Run(old(View()), Reconciling(listed)) && Inv(View())
      ensures forall r :: r in refunds && refunds[r].status == Processed ==> refunds[r].reversed
    {
      listed := ListUnreversedRefunds();
      ReconcileAll(listed);
      NoneLeft(old(refunds), refunds, listed);
    }

    // -------------------------------------------------------------- payouts through the admin

    method RequestDriverPayout(d: DriverId, amount: int, eligible: bool)
      requires Inv(View())
      modifies this
      ensures View() == RequestPayout(old(View()), d, amount, eligible) && Inv(View())
    {
      KeptRequestPayout(View(), d, amount, eligible);
      if !eligible || amount < MIN_PAYOUT_THRESHOLD || DriverPayable !in accounts {
        return;
      }
      if Money.ReadBack(accounts[DriverPayable]) < amount {
        return;
      }
      payouts := payouts[nextId := Payout(d, amount, Paystack, Requested, None)];
      nextId := nextId + 1;
    }

    /** `validateLedgerBalance`: the two totals, entry by entry. */
    method ValidateLedgerBalance(r: Ref) returns (balanced: bool)
      ensures balanced == TransactionBalances(View().books, r)
    {
      var totalDebit, totalCredit, found := 0, 0, false;
      for i := 0 to |journal|
        invariant totalDebit == Total(journal[..i], OneKind(r, Debit))
        invariant totalCredit == Total(journal[..i], OneKind(r, Credit))
        invariant found <==> exists k :: 0 <= k < i && journal[k].posting.ref == r
      {
        assert journal[..i + 1][..i] == journal[..i];
        if journal[i].posting.ref == r {
          found := true;
          if journal[i].posting.kind == Debit {
            totalDebit := totalDebit + journal[i].posting.amount;
          } else {
            totalCredit := totalCredit + journal[i].posting.amount;
          }
        }
      }
      assert journal[..|journal|] == journal;
      return found && totalDebit == totalCredit;
    }

    /** Posts both and balance-checks the second; on an imbalance the transaction is rolled back. */
    method RecordIfBalanced(x: Posting, y: Posting) returns (balanced: bool)
      requires x.target.OnAccount? && y.target.OnAccount?
      modifies this
      ensures balanced == TransactionBalances(PostAll(old(View()).books, [x, y]), y.ref)
      ensures View() == if balanced then old(View()).(books := PostAll(old(View()).books, [x, y])) else old(View())
    {
      var savedAccounts, savedWallets, savedTxs, savedJournal, savedLog := accounts, wallets, txs, journal, walletLog;
      RecordAccountEvents(x, y);
      balanced := ValidateLedgerBalance(y.ref);
      if !balanced {
        accounts, wallets, txs, journal, walletLog := savedAccounts, savedWallets, savedTxs, savedJournal, savedLog;
      }
    }

    method ApproveDriverPayout(q: PayoutId)
      requires Inv(View())
      modifies this
      ensures View() == ApprovePayout(old(View()), q) && Inv(View())
    {
      KeptApprovePayout(View(), q);
      if q !in payouts || payouts[q].status != Requested {
        return;
      }
      if DriverPayable !in accounts || PayoutClearing !in accounts {
        return;
      }
      var ps := ApprovedPostings(q, payouts[q].amount);
      assert ps == [ps[0], ps[1]];
      var balanced := RecordIfBalanced(ps[0], ps[1]);
      if balanced {
        payouts := payouts[q := payouts[q].(status := Approved)];
      }
    }

    method RejectDriverPayout(q: PayoutId)
      requires Inv(View())
      modifies this
      ensures View() == MovePayout(old(View()), q, Requested, Rejected) && Inv(View())
    {
      KeptMovePayout(View(), q, Requested, Rejected);
      if q !in payouts || payouts[q].status != Requested {
        return;
      }
      payouts := payouts[q := payouts[q].(status := Rejected)];
    }

    method MarkPayoutAsProcessing(q: PayoutId)
      requires Inv(View())
      modifies this
      ensures View() == MovePayout(old(View()), q, Approved, Processing) && Inv(View())
    {
      KeptMovePayout(View(), q, Approved, Processing);
      if q !in payouts || payouts[q].status != Approved {
        return;
      }
      payouts := payouts[q := payouts[q].(status := Processing)];
    }

    method MarkPayoutAsPaid(q: PayoutId)
      requires Inv(View())
      modifies this
      ensures View() == MovePayout(old(View()), q, Processing, Paid) && Inv(View())
    {
      KeptMovePayout(View(), q, Processing, Paid);
      if q !in payouts || payouts[q].status != Processing {
        return;
      }
      payouts := payouts[q := payouts[q].(status := Paid)];
    }

    method MarkPayoutAsFailed(q: PayoutId)
      requires Inv(View())
      modifies this
      ensures View() == MarkPayoutFailed(old(View()), q) && Inv(View())
    {
      KeptMarkPayoutFailed(View(), q);
      if q !in payouts || payouts[q].status != Processing {
        return;
      }
      var payout := payouts[q];
      payouts := payouts[q := payout.(status := PayoutFailed)];
      if DriverPayable in accounts && PayoutClearing in accounts {
        var ps := FailedPostings(q, payout.amount);
        assert ps == [ps[0], ps[1]];
        RecordAccountEvents(ps[0], ps[1]);
      }
    }
  }
}
