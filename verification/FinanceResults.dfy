/** Payouts and refunds over whole runs: what is paid, what is taken back, and what is left. */
module FinanceResults {
  import opened Common
  import opened Ledger
  import opened Finance
  import opened FinanceInvariants
  import opened FinanceSteps
  import opened FinanceBooks
  import Money

  lemma {:induction false} RunAppends(db: Db, xs: seq<Step>, ys: seq<Step>)
    ensures Run(db, xs + ys) == Run(Run(db, xs), ys)
  {
    if ys == [] {
      assert xs + ys == xs;
    } else {
      assert (xs + ys)[..|xs + ys| - 1] == xs + ys[..|ys| - 1];
      RunAppends(db, xs, ys[..|ys| - 1]);
    }
  }

  // ---------------------------------------------------------------- paid or reversed, not both

  ghost predicate PaidAfter(db: Db, q: PayoutId, steps: seq<Step>) {
    PaidPayout(Run(db, steps), q)
  }

  /** What `ReverseRefund` did when it took the earning of refund `r` back. */
  lemma ReversalFacts(db: Db, r: RefundId, q: PayoutId)
    requires Inv(db) && r in db.refunds && IsPendingPayoutOf(db.books.txs, db.refunds[r].payment, q)
    requires RefundEarningWallet(r) !in db.books.txs && RefundEarningWallet(r) in ReverseRefund(db, r).books.txs
    ensures q in db.payouts
    ensures ReverseRefund(db, r).payouts == db.payouts[q := AfterReversal(db.payouts[q])]
    ensures db.payouts[q].status != Paid && db.payouts[q].status != Processing
  {
    var p := db.refunds[r].payment;
    assert RefundOk(db, r);
    DebitPostingsOnly(db, r);
  }

  /** A payout whose earning was taken back can still become PAID exactly if it was APPROVED
      at that moment; REQUESTED and FAILED are cancelled, REJECTED and CANCELLED stay. */
  lemma ReversedThenPaidIff(db: Db, r: RefundId, q: PayoutId)
    requires Inv(db) && r in db.refunds && IsPendingPayoutOf(db.books.txs, db.refunds[r].payment, q)
    requires RefundEarningWallet(r) !in db.books.txs && RefundEarningWallet(r) in ReverseRefund(db, r).books.txs
    ensures q in db.payouts
    ensures (exists steps :: PaidAfter(ReverseRefund(db, r), q, steps)) <==> db.payouts[q].status == Approved
  {
    ReversalFacts(db, r, q);
    KeptReverseRefund(db, r);
    var db' := ReverseRefund(db, r);
    if db.payouts[q].status == Approved {
      var steps := [StepTransfer(q, TransferEnv(false, false, None))];
      assert Run(db', steps[..0]) == db';
      assert PaidAfter(db', q, steps);
    } else {
      forall steps ensures !PaidAfter(db', q, steps) {
        RunKept(db', steps);
        assert PayoutAdvances(db', Run(db', steps), q);
      }
    }
  }

  /** While the payout is PROCESSING or PAID the reversal is withheld, and for good. */
  lemma WithheldForGood(db: Db, r: RefundId, q: PayoutId, steps: seq<Step>)
    requires Inv(db) && r in db.refunds && IsPendingPayoutOf(db.books.txs, db.refunds[r].payment, q)
    requires db.refunds[r].status == Processed && !db.refunds[r].reversed
    requires q in db.payouts && (db.payouts[q].status == Paid || db.payouts[q].status == Processing)
    ensures RefundEarningWallet(r) !in Run(ReverseRefund(db, r), steps).books.txs
  {
    var db' := ReverseRefund(db, r);
    NothingReversed(db, r);
    assert RefundOk(db, r);
    if RefundEarningWallet(r) !in db'.books.txs {
      KeptReverseRefund(db, r);
      RunKept(db', steps);
      assert ReversalAllowed(db', Run(db', steps), r);
      ReverseCloses(db, r);
    } else {
      ReversalFacts(db, r, q);
      assert false;
    }
  }

  lemma ReverseCloses(db: Db, r: RefundId)
    requires Inv(db) && r in db.refunds && db.refunds[r].status == Processed
    ensures r in ReverseRefund(db, r).refunds && ReverseRefund(db, r).refunds[r].reversed
  {
    assert RefundOk(db, r);
  }

  /** Once a payout is PAID, no refund of its payment, old or new, ever takes the earning back. */
  lemma PaidNeverReversed(db: Db, q: PayoutId, p: PaymentId, r: RefundId, steps: seq<Step>)
    requires Inv(db) && PaidPayout(db, q) && IsPendingPayoutOf(db.books.txs, p, q)
    requires RefundEarningWallet(r) !in db.books.txs
    ensures var db' := Run(db, steps); r in db'.refunds && db'.refunds[r].payment == p ==> RefundEarningWallet(r) !in db'.books.txs
  {
    RunKept(db, steps);
    assert ReversalAllowed(db, Run(db, steps), r);
  }

  // ---------------------------------------------------------------- capture and full refund

  /** The entries of two posted references on one target add up to the two signed amounts. */
  lemma {:induction false} NetOfTwo(txs: map<Ref, Posting>, journal: seq<Entry>, t: Target, x: Ref, y: Ref)
    requires Matches(txs, journal) && x != y
    ensures Total(journal, NetOf(t, {x, y})) ==
            (if x in txs then Weigh(BalanceOf(t), txs[x]) else 0) + (if y in txs then Weigh(BalanceOf(t), txs[y]) else 0)
  {
    if journal != [] {
      var last := journal[|journal| - 1].posting;
      NetOfTwo(txs - {last.ref}, journal[..|journal| - 1], t, x, y);
    }
  }

  /** What the postings of a reversed refund and of its capture are. */
  lemma ReversedPostings(db: Db, r: RefundId)
    requires Inv(db) && RefundEarningWallet(r) in db.books.txs
    ensures r in db.refunds && db.refunds[r].payment in db.payments
    ensures var txs := db.books.txs;
            var p := db.refunds[r].payment;
            var gross := db.payments[p].amount;
            && PaymentEarning(p) in txs && PaymentPayable(p) in txs && PaymentCaptured(p) in txs && PaymentCommission(p) in txs
            && RefundProcessed(r) in txs && RefundCommission(r) in txs && RefundEarningPayable(r) in txs
            && txs[PaymentEarning(p)].target.OnWallet?
            && txs[PaymentEarning(p)] == EarningPosting(p, txs[PaymentEarning(p)].target.driver, gross)
            && txs[RefundEarningWallet(r)] == ReversalPostings(r, p, txs[PaymentEarning(p)].target.driver, gross)[0]
            && txs[PaymentPayable(p)] == PayablePosting(p, gross)
            && txs[RefundEarningPayable(r)] == ReversalPostings(r, p, 0, gross)[1]
            && txs[PaymentCaptured(p)] == CapturedPosting(p, gross) && txs[PaymentCommission(p)] == CommissionPosting(p, gross)
            && txs[RefundProcessed(r)] == RefundPostings(r, p, gross)[0] && txs[RefundCommission(r)] == RefundPostings(r, p, gross)[1]
  {
    RowOf(db, RefundEarningWallet(r));
    var p := db.refunds[r].payment;
    RowOf(db, PaymentEarning(p));
    RowOf(db, PaymentPayable(p));
    RowOf(db, PaymentCaptured(p));
    RowOf(db, PaymentCommission(p));
    RowOf(db, RefundProcessed(r));
    RowOf(db, RefundCommission(r));
    RowOf(db, RefundEarningPayable(r));
  }

  /** A capture followed by a full refund whose earning reversal went through: nothing is left on
      the wallet, on DRIVER_PAYABLE and in CASH_CLEARING; the commission account keeps one
      minor unit exactly when the gross is not divisible by 5. */
  lemma RefundNetsToZero(open: Books, db: Db, r: RefundId)
    requires Inv(db) && LedgerOk(open, db.books)
    requires RefundEarningWallet(r) in db.books.txs
    ensures r in db.refunds && db.refunds[r].payment in db.payments
    ensures var p := db.refunds[r].payment;
            && PaymentEarning(p) in db.books.txs
            && Total(db.books.journal, NetOf(db.books.txs[PaymentEarning(p)].target, {PaymentEarning(p), RefundEarningWallet(r)})) == 0
            && Total(db.books.journal, NetOf(OnAccount(DriverPayable), {PaymentPayable(p), RefundEarningPayable(r)})) == 0
            && Total(db.books.journal, NetOf(OnAccount(CashClearing), {PaymentCaptured(p), RefundProcessed(r)})) == 0
            && Total(db.books.journal, NetOf(OnAccount(CommissionRevenue), {PaymentCommission(p), RefundCommission(r)}))
               == if db.payments[p].amount % 5 == 0 then 0 else 1
  {
    var txs, journal := db.books.txs, db.books.journal;
    assert Holds(TableMatchesJournal, open, db.books);
    ReversedPostings(db, r);
    var p := db.refunds[r].payment;
    Money.CommissionResidue(db.payments[p].amount);
    NetOfTwo(txs, journal, txs[PaymentEarning(p)].target, PaymentEarning(p), RefundEarningWallet(r));
    NetOfTwo(txs, journal, OnAccount(DriverPayable), PaymentPayable(p), RefundEarningPayable(r));
    NetOfTwo(txs, journal, OnAccount(CashClearing), PaymentCaptured(p), RefundProcessed(r));
    NetOfTwo(txs, journal, OnAccount(CommissionRevenue), PaymentCommission(p), RefundCommission(r));
  }

  // ---------------------------------------------------------------- the race of transfer events

  lemma FoundByCode(db: Db, q: PayoutId, code: TransferCode)
    requires Inv(db) && HasCode(db.payouts, code, q)
    ensures PayoutOfCode(db.payouts, code) == Some(q)
  {
  }

  lemma PaidFirst(db: Db, q: PayoutId, code: TransferCode)
    requires Inv(db) && HasCode(db.payouts, code, q) && db.payouts[q].status == Processing
    ensures var paid := TransferSuccess(db, Some(code)).0;
            paid == PayPayout(db, q) && PaidPayout(paid, q) && PaidPosted(paid, q) && TransferFailed(paid, Some(code)) == (paid, true)
  {
    FoundByCode(db, q, code);
    KeptPayPayout(db, q);
    FoundByCode(PayPayout(db, q), q, code);
    var ps := PaidPostings(q, db.payouts[q].driver, db.payouts[q].amount);
    PostThree(db.books, ps[0], ps[1], ps[2]);
  }

  lemma FailedFirst(db: Db, q: PayoutId, code: TransferCode)
    requires Inv(db) && HasCode(db.payouts, code, q) && db.payouts[q].status == Processing
    ensures var failed := TransferFailed(db, Some(code)).0;
            && q in failed.payouts && failed.payouts[q].status == PayoutFailed && failed.books == db.books
            && TransferSuccess(failed, Some(code)) == (failed, true)
  {
    FoundByCode(db, q, code);
    var failed := SetPayout(db, q, db.payouts[q].(status := PayoutFailed));
    KeptPayoutRow(db, q, db.payouts[q].(status := PayoutFailed));
    FoundByCode(failed, q, code);
  }

  /** For a PROCESSING payout the first transfer event decides: success pays it with its three
      postings and a failure after it changes nothing; failure fails it without a posting and a
      success after it changes nothing. */
  lemma FirstTransferEventDecides(db: Db, q: PayoutId, code: TransferCode)
    requires Inv(db) && HasCode(db.payouts, code, q) && db.payouts[q].status == Processing
    ensures var paid := TransferSuccess(db, Some(code)).0;
            PaidPayout(paid, q) && PaidPosted(paid, q) && TransferFailed(paid, Some(code)) == (paid, true)
    ensures var failed := TransferFailed(db, Some(code)).0;
            && q in failed.payouts && failed.payouts[q].status == PayoutFailed && failed.books == db.books
            && TransferSuccess(failed, Some(code)) == (failed, true)
  {
    PaidFirst(db, q, code);
    FailedFirst(db, q, code);
  }

  // ---------------------------------------------------------------- what a payout request is held against

  ghost predicate Accepted(db: Db, d: DriverId, amount: int) {
    RequestPayout(db, d, amount, true) != db
  }

  /** A request is held against DRIVER_PAYABLE, the liability to all drivers together. While that
      equals the sum of all wallets, every request of driver `d` that is accepted is covered by the
      driver's own wallet if and only if nobody can get anything (all wallets together are below
      the minimum) or the driver's wallet holds all there is. */
  lemma RequestsCoveredIff(db: Db, d: DriverId)
    requires Gap(db.books) == 0
    ensures (forall amount: int :: Accepted(db, d, amount) ==> amount <= Balance(db.books, OnWallet(d)))
       <==> SumWallets(db.books.wallets) < MIN_PAYOUT_THRESHOLD
            || SumWallets(db.books.wallets) <= Balance(db.books, OnWallet(d))
  {
    var all := SumWallets(db.books.wallets);
    assert all == Balance(db.books, OnAccount(DriverPayable));
    if all >= MIN_PAYOUT_THRESHOLD {
      assert Accepted(db, d, all);
    }
    forall amount: int | Accepted(db, d, amount) ensures MIN_PAYOUT_THRESHOLD <= amount <= all {
      Money.ReadBackGuard(all, amount);
    }
  }

  // ---------------------------------------------------------------- transfers asked of the provider

  /** The code of the transfer that the provider accepted, if it was asked: it is asked before the
      payout row is looked at again. */
  function SentTransfer(db: Db, q: PayoutId, env: TransferEnv): Option<TransferCode> {
    if q !in db.payouts then None
    else
      var payout := db.payouts[q];
      if payout.status == Paid || payout.status == PayoutFailed || !env.secretKey || payout.provider != Paystack
         || !env.recipient || (payout.status == Processing && payout.transferCode.Some?)
      then None else env.response
  }

  /** A transfer that the provider accepted, under a code not used before, is recorded if and only
      if the payout was APPROVED; for REQUESTED, REJECTED and CANCELLED payouts, and for PROCESSING
      ones without a code, it is accepted all the same and leaves no trace in the tables. */
  lemma TransferRecordedIff(db: Db, q: PayoutId, env: TransferEnv)
    requires SentTransfer(db, q, env).Some? && PayoutOfCode(db.payouts, env.response.value).None?
    ensures var db' := InitiateTransfer(db, q, env).0;
            && (HasCode(db'.payouts, env.response.value, q) <==> db.payouts[q].status == Approved)
            && (db.payouts[q].status != Approved ==> db' == db)
  {
    assert !HasCode(db.payouts, env.response.value, q);
  }

  // ---------------------------------------------------------------- PAID and the paid references

  ghost predicate PaidPosted(db: Db, q: PayoutId) {
    PayoutPaidWallet(q) in db.books.txs && PayoutPaidPayable(q) in db.books.txs && PayoutPaidClearing(q) in db.books.txs
  }

  /** What became PAID in a step got its three postings in that step, and postings are only
      made for what was not PAID before. */
  ghost predicate PaysThroughLedger(db: Db, db': Db, q: PayoutId) {
    && (PaidPayout(db', q) ==> PaidPayout(db, q) || PaidPosted(db', q))
    && (PayoutPaidWallet(q) in db'.books.txs ==>
          PayoutPaidWallet(q) in db.books.txs || (PaidPosted(db', q) && !PaidPayout(db, q)))
  }

  ghost predicate PaysOnlyThroughLedger(db: Db, db': Db) {
    forall q {:trigger PaysThroughLedger(db, db', q)} :: PaysThroughLedger(db, db', q)
  }

  /** Postings that are not about paid payouts leave those references alone. */
  lemma {:induction false} OtherPostings(b: Books, ps: seq<Posting>, q: PayoutId)
    requires forall i :: 0 <= i < |ps| ==> !ps[i].ref.PayoutPaidWallet?
    ensures PayoutPaidWallet(q) in PostAll(b, ps).txs <==> PayoutPaidWallet(q) in b.txs
  {
    if ps != [] {
      OtherPostings(b, ps[..|ps| - 1], q);
    }
  }

  lemma PayPosts(db: Db, q: PayoutId)
    requires q in db.payouts && db.payouts[q].status != Paid
    ensures PaysOnlyThroughLedger(db, PayPayout(db, q))
  {
    var ps := PaidPostings(q, db.payouts[q].driver, db.payouts[q].amount);
    PostThree(db.books, ps[0], ps[1], ps[2]);
  }

  lemma CapturePays(db: Db, t: TripId, driver: Option<DriverId>)
    ensures PaysOnlyThroughLedger(db, Capture(db, t, driver))
  {
    match PaymentOfTrip(db.payments, t)
    case None =>
    case Some(p) =>
      var gross := db.payments[p].amount;
      forall q ensures PaysThroughLedger(db, Capture(db, t, driver), q) {
        OtherPostings(db.books, CapturePostings(p, gross), q);
        if driver.Some? {
          OtherPostings(PostAll(db.books, CapturePostings(p, gross)), EarningPostings(p, driver.value, db.nextId, gross), q);
        }
      }
  }

  lemma PaymentPays(db: Db, step: Step)
    requires IsPaymentStep(step)
    ensures PaysOnlyThroughLedger(db, Apply(db, step))
  {
    forall q ensures PaysThroughLedger(db, Apply(db, step), q) {
      match step
      case StepComplete(t) =>
        if t in db.trips {
          var done := db.(trips := db.trips[t := db.trips[t].(completed := true)]);
          CapturePays(done, t, db.trips[t].driver);
          assert PaysThroughLedger(done, Capture(done, t, db.trips[t].driver), q);
        }
      case StepCapture(t) =>
        if t in db.trips {
          CapturePays(db, t, db.trips[t].driver);
          assert PaysThroughLedger(db, Capture(db, t, db.trips[t].driver), q);
        }
      case StepChargeSuccess(reference, verified) =>
        if reference.Some? && reference.value in db.payments {
          var p := reference.value;
          var payment := db.payments[p];
          var confirmed := db.(payments := db.payments[p := ConfirmPayment(payment, payment.status)]);
          if payment.trip in db.trips {
            CapturePays(confirmed, payment.trip, db.trips[payment.trip].driver);
            assert PaysThroughLedger(confirmed, Capture(confirmed, payment.trip, db.trips[payment.trip].driver), q);
          }
        }
      case _ =>
    }
  }

  lemma TransferPays(db: Db, q: PayoutId, env: TransferEnv)
    ensures PaysOnlyThroughLedger(db, InitiateTransfer(db, q, env).0)
  {
    if q in db.payouts && db.payouts[q].status != Paid {
      PayPosts(db, q);
    }
  }

  lemma ReversePays(db: Db, r: RefundId)
    ensures PaysOnlyThroughLedger(db, ReverseRefund(db, r))
  {
    if r in db.refunds && db.refunds[r].payment in db.payments {
      var p := db.refunds[r].payment;
      var gross := db.payments[p].amount;
      var debited := db.(books := PostAll(db.books, RefundPostings(r, p, gross)));
      forall q' ensures PaysThroughLedger(db, ReverseRefund(db, r), q') {
        OtherPostings(db.books, RefundPostings(r, p, gross), q');
        match EarningDecision(debited, p, gross)
        case Reverse(q) => OtherPostings(debited.books, ReversalPostings(r, p, db.payouts[q].driver, gross), q');
        case _ =>
      }
    }
  }

  lemma ProviderPays(db: Db, step: Step)
    requires IsTransferStep(step)
    ensures PaysOnlyThroughLedger(db, Apply(db, step))
  {
    match step
    case StepTransfer(q, env) => TransferPays(db, q, env);
    case StepRetry(q, env) =>
      if q in db.payouts && db.payouts[q].status == PayoutFailed {
        var reopened := SetPayout(db, q, db.payouts[q].(status := Approved, transferCode := None));
        TransferPays(reopened, q, env);
        forall q' ensures PaysThroughLedger(db, Apply(db, step), q') {
          assert PaysThroughLedger(reopened, InitiateTransfer(reopened, q, env).0, q');
        }
      }
    case StepTransferSuccess(code) =>
      if code.Some? && PayoutOfCode(db.payouts, code.value).Some? {
        var q := PayoutOfCode(db.payouts, code.value).value;
        if db.payouts[q].status == Processing {
          PayPosts(db, q);
        }
      }
    case StepTransferFailed(code) =>
  }

  /** Changing only refund rows and unpaid payment rows before a step does not matter for payouts. */
  lemma SamePayouts(db: Db, mid: Db, db': Db)
    requires mid.payouts == db.payouts && mid.books == db.books && PaysOnlyThroughLedger(mid, db')
    ensures PaysOnlyThroughLedger(db, db')
  {
    forall q ensures PaysThroughLedger(db, db', q) {
      assert PaysThroughLedger(mid, db', q);
    }
  }

  lemma RequestRefundPays(db: Db, p: PaymentId, secretKey: bool, response: RefundResponse)
    ensures PaysOnlyThroughLedger(db, RequestRefund(db, p, secretKey, response))
  {
    if p in db.payments {
      var refund := Refund(p, db.payments[p].amount, Processed, false);
      var created := db.(refunds := db.refunds[db.nextId := refund], nextId := db.nextId + 1);
      ReversePays(created, db.nextId);
      SamePayouts(db, created, ReverseRefund(created, db.nextId));
    }
  }

  lemma RefundEventPays(db: Db, kind: RefundEventKind, reference: Option<Option<RefundId>>)
    ensures PaysOnlyThroughLedger(db, RefundEvent(db, kind, reference).0)
  {
    if reference.Some? && reference.value.Some? {
      var r := reference.value.value;
      if r in db.refunds && db.refunds[r].payment in db.payments {
        var p := db.refunds[r].payment;
        var updated := db.(refunds := db.refunds[r := db.refunds[r].(status := Processed)],
                           payments := db.payments[p := db.payments[p].(status := Refunded)]);
        ReversePays(updated, r);
        SamePayouts(db, updated, ReverseRefund(updated, r));
      }
    }
  }

  lemma RefundPays(db: Db, step: Step)
    requires IsRefundStep(step)
    ensures PaysOnlyThroughLedger(db, Apply(db, step))
  {
    match step
    case StepRequestRefund(p, secretKey, response) => RequestRefundPays(db, p, secretKey, response);
    case StepRefundEvent(kind, reference) => RefundEventPays(db, kind, reference);
    case StepReconcile(r) => ReversePays(db, r);
  }

  lemma ApprovePays(db: Db, q: PayoutId)
    ensures PaysOnlyThroughLedger(db, ApprovePayout(db, q))
  {
    if q in db.payouts && db.payouts[q].status == Requested {
      var ps := ApprovedPostings(q, db.payouts[q].amount);
      var approved := SetPayout(db, q, db.payouts[q].(status := Approved)).(books := PostAll(db.books, ps));
      assert ApprovePayout(db, q) == db || ApprovePayout(db, q) == approved;
      forall q' ensures PaysThroughLedger(db, db, q') && PaysThroughLedger(db, approved, q') {
        OtherPostings(db.books, ps, q');
      }
    }
  }

  lemma FailPays(db: Db, q: PayoutId)
    ensures PaysOnlyThroughLedger(db, MarkPayoutFailed(db, q))
  {
    if q in db.payouts {
      forall q' ensures PaysThroughLedger(db, MarkPayoutFailed(db, q), q') {
        OtherPostings(db.books, FailedPostings(q, db.payouts[q].amount), q');
      }
    }
  }

  lemma AdminPays(db: Db, step: Step)
    requires IsAdminPayoutStep(step) && !step.StepMarkPaid?
    ensures PaysOnlyThroughLedger(db, Apply(db, step))
  {
    match step
    case StepApprove(q) => ApprovePays(db, q);
    case StepMarkFailed(q) => FailPays(db, q);
    case StepRequestPayout(d, amount, eligible) => forall q ensures PaysThroughLedger(db, Apply(db, step), q) {}
    case StepReject(q) => forall q' ensures PaysThroughLedger(db, Apply(db, step), q') {}
    case StepMarkProcessing(q) => forall q' ensures PaysThroughLedger(db, Apply(db, step), q') {}
  }

  lemma StepPays(db: Db, step: Step)
    requires !step.StepMarkPaid?
    ensures PaysOnlyThroughLedger(db, Apply(db, step))
  {
    if IsTransferStep(step) {
      ProviderPays(db, step);
    } else if IsRefundStep(step) {
      RefundPays(db, step);
    } else if IsPaymentStep(step) {
      PaymentPays(db, step);
    } else {
      AdminPays(db, step);
    }
  }

  /** The payouts that `markPayoutPaid` moved to PAID in a run. */
  ghost function ManuallyPaid(db: Db, steps: seq<Step>): set<PayoutId> {
    if steps == [] then {}
    else
      var front, last := steps[..|steps| - 1], steps[|steps| - 1];
      var before := Run(db, front);
      ManuallyPaid(db, front) +
      if last.StepMarkPaid? && last.q in before.payouts && before.payouts[last.q].status == Processing then {last.q} else {}
  }

  ghost predicate PaidIffPosted(db: Db, manual: set<PayoutId>) {
    forall q {:trigger PaidPayout(db, q)} {:trigger PaidPosted(db, q)} ::
      && (PaidPosted(db, q) <==> PaidPayout(db, q) && q !in manual)
      && (PayoutPaidWallet(q) in db.books.txs <==> PaidPosted(db, q))
  }

  /** In every run a payout is PAID exactly if its three `paid` references are posted, except the
      ones `markPayoutPaid` moved, which are PAID with none of them posted. */
  lemma {:induction false} PaidIffPostedRun(db: Db, steps: seq<Step>)
    requires Inv(db) && PaidIffPosted(db, {})
    ensures PaidIffPosted(Run(db, steps), ManuallyPaid(db, steps))
    ensures forall q :: q in ManuallyPaid(db, steps) ==> PaidPayout(Run(db, steps), q)
  {
    if steps != [] {
      var front, last := steps[..|steps| - 1], steps[|steps| - 1];
      var before, after := Run(db, front), Run(db, steps);
      PaidIffPostedRun(db, front);
      RunKept(db, front);
      StepKept(before, last);
      forall q ensures PaidPayout(before, q) ==> PaidPayout(after, q) {
        assert PayoutAdvances(before, after, q);
      }
      forall q
        ensures PaidPosted(after, q) <==> PaidPayout(after, q) && q !in ManuallyPaid(db, steps)
        ensures PayoutPaidWallet(q) in after.books.txs <==> PaidPosted(after, q)
      {
        PaidStep(before, last, q, ManuallyPaid(db, front));
      }
    }
  }

  /** One step of the argument, for one payout. */
  lemma PaidStep(db: Db, step: Step, q: PayoutId, manual: set<PayoutId>)
    requires Inv(db) && PaidIffPosted(db, manual)
    ensures var db' := Apply(db, step);
            var manual' := manual + if step.StepMarkPaid? && step.q in db.payouts && db.payouts[step.q].status == Processing then {step.q} else {};
            && (q in manual ==> PaidPayout(db, q)) ==>
            && (PaidPosted(db', q) <==> PaidPayout(db', q) && q !in manual')
            && (PayoutPaidWallet(q) in db'.books.txs <==> PaidPosted(db', q))
  {
    var db' := Apply(db, step);
    assert PaidPayout(db, q) || !PaidPayout(db, q);
    StepKept(db, step);
    RowOf(db', PayoutPaidWallet(q));
    assert PayoutAdvances(db, db', q);
    assert PostingKept(db, db', PayoutPaidWallet(q));
    assert PostingKept(db, db', PayoutPaidPayable(q));
    assert PostingKept(db, db', PayoutPaidClearing(q));
    if !step.StepMarkPaid? {
      StepPays(db, step);
      assert PaysThroughLedger(db, db', q);
    }
  }

  /** PAID payouts whose wallet reference is missing, as the reconciliation lists them. */
  ghost function MissingLedger(db: Db): set<PayoutId> {
    set q | q in db.payouts && db.payouts[q].status == Paid && PayoutPaidWallet(q) !in db.books.txs
  }

  /** Reconciliation finds exactly the payouts that were marked PAID by hand. */
  lemma MissingLedgerIsManual(db: Db, steps: seq<Step>)
    requires Inv(db) && PaidIffPosted(db, {})
    ensures MissingLedger(Run(db, steps)) == ManuallyPaid(db, steps)
  {
    PaidIffPostedRun(db, steps);
    var after := Run(db, steps);
    forall q ensures q in MissingLedger(after) <==> q in ManuallyPaid(db, steps) {
      assert PaidPayout(after, q) || !PaidPayout(after, q);
    }
  }
}
