/** What runs of service calls keep in the books: the ledger adds up, and the wallets stay
    equal to the driver liability. */
module FinanceBooks {
  import opened Common
  import opened Ledger
  import opened Finance
  import opened FinanceInvariants
  import opened FinanceSteps

  // ---------------------------------------------------------------- the ledger adds up

  lemma CaptureLedgerOk(open: Books, db: Db, t: TripId, driver: Option<DriverId>)
    requires LedgerOk(open, db.books)
    ensures LedgerOk(open, Capture(db, t, driver).books)
  {
    match PaymentOfTrip(db.payments, t)
    case None =>
    case Some(p) =>
      var gross := db.payments[p].amount;
      var captured := PostAll(db.books, CapturePostings(p, gross));
      PostAllLedgerOk(open, db.books, CapturePostings(p, gross));
      if driver.Some? {
        PostAllLedgerOk(open, captured, EarningPostings(p, driver.value, db.nextId, gross));
      }
  }

  lemma PayLedgerOk(open: Books, db: Db, q: PayoutId)
    requires LedgerOk(open, db.books) && q in db.payouts
    ensures LedgerOk(open, PayPayout(db, q).books)
  {
    PostAllLedgerOk(open, db.books, PaidPostings(q, db.payouts[q].driver, db.payouts[q].amount));
  }

  lemma ReverseLedgerOk(open: Books, db: Db, r: RefundId)
    requires LedgerOk(open, db.books)
    ensures LedgerOk(open, ReverseRefund(db, r).books)
  {
    if r in db.refunds && db.refunds[r].payment in db.payments {
      var p := db.refunds[r].payment;
      var gross := db.payments[p].amount;
      var debited := db.(books := PostAll(db.books, RefundPostings(r, p, gross)));
      PostAllLedgerOk(open, db.books, RefundPostings(r, p, gross));
      match EarningDecision(debited, p, gross)
      case Reverse(q) =>
        PostAllLedgerOk(open, debited.books, ReversalPostings(r, p, db.payouts[q].driver, gross));
      case _ =>
    }
  }

  lemma TransferLedgerOk(open: Books, db: Db, q: PayoutId, env: TransferEnv)
    requires LedgerOk(open, db.books)
    ensures LedgerOk(open, InitiateTransfer(db, q, env).0.books)
  {
    if q in db.payouts {
      PayLedgerOk(open, db, q);
    }
  }

  lemma AdminLedgerOk(open: Books, db: Db, step: Step)
    requires LedgerOk(open, db.books) && IsAdminPayoutStep(step)
    ensures LedgerOk(open, Apply(db, step).books)
  {
    if PostsForAdmin(step) && step.q in db.payouts {
      PostAllLedgerOk(open, db.books, ApprovedPostings(step.q, db.payouts[step.q].amount));
      PostAllLedgerOk(open, db.books, FailedPostings(step.q, db.payouts[step.q].amount));
    }
  }

  lemma PaymentLedgerOk(open: Books, db: Db, step: Step)
    requires LedgerOk(open, db.books) && IsPaymentStep(step)
    ensures LedgerOk(open, Apply(db, step).books)
  {
    match step
    case StepInitiate(t, amount, provider) =>
      PostLedgerOk(open, db.books, PendingPaymentPosting(db.nextId, amount));
    case StepAuthorize(t) =>
      if PaymentOfTrip(db.payments, t).Some? {
        var p := PaymentOfTrip(db.payments, t).value;
        PostLedgerOk(open, db.books, AuthorizedPosting(p, db.payments[p].amount));
      }
    case StepComplete(t) =>
      if t in db.trips {
        CaptureLedgerOk(open, db.(trips := db.trips[t := db.trips[t].(completed := true)]), t, db.trips[t].driver);
      }
    case StepCapture(t) =>
      if t in db.trips {
        CaptureLedgerOk(open, db, t, db.trips[t].driver);
      }
    case StepChargeSuccess(reference, verified) =>
      if reference.Some? && reference.value in db.payments {
        var p := reference.value;
        var payment := db.payments[p];
        if payment.trip in db.trips {
          CaptureLedgerOk(open, db.(payments := db.payments[p := ConfirmPayment(payment, payment.status)]),
                          payment.trip, db.trips[payment.trip].driver);
        }
      }
    case _ =>
  }

  predicate IsRefundStep(step: Step) {
    step.StepRequestRefund? || step.StepRefundEvent? || step.StepReconcile?
  }

  predicate IsTransferStep(step: Step) {
    step.StepTransfer? || step.StepRetry? || step.StepTransferSuccess? || step.StepTransferFailed?
  }

  lemma TransferStepLedgerOk(open: Books, db: Db, step: Step)
    requires LedgerOk(open, db.books) && IsTransferStep(step)
    ensures LedgerOk(open, Apply(db, step).books)
  {
    match step
    case StepTransfer(q, env) => TransferLedgerOk(open, db, q, env);
    case StepRetry(q, env) =>
      if q in db.payouts {
        TransferLedgerOk(open, SetPayout(db, q, db.payouts[q].(status := Approved, transferCode := None)), q, env);
      }
    case StepTransferSuccess(code) =>
      if code.Some? && PayoutOfCode(db.payouts, code.value).Some? {
        PayLedgerOk(open, db, PayoutOfCode(db.payouts, code.value).value);
      }
    case _ =>
  }

  lemma RequestRefundLedgerOk(open: Books, db: Db, p: PaymentId, secretKey: bool, response: RefundResponse)
    requires LedgerOk(open, db.books)
    ensures LedgerOk(open, RequestRefund(db, p, secretKey, response).books)
  {
    if p in db.payments {
      var refund := Refund(p, db.payments[p].amount, Processed, false);
      ReverseLedgerOk(open, db.(refunds := db.refunds[db.nextId := refund], nextId := db.nextId + 1), db.nextId);
    }
  }

  lemma RefundEventLedgerOk(open: Books, db: Db, kind: RefundEventKind, reference: Option<Option<RefundId>>)
    requires LedgerOk(open, db.books)
    ensures LedgerOk(open, RefundEvent(db, kind, reference).0.books)
  {
    if reference.Some? && reference.value.Some? {
      var r := reference.value.value;
      if r in db.refunds && db.refunds[r].payment in db.payments && kind == EventProcessed {
        var p := db.refunds[r].payment;
        var updated := db.(refunds := db.refunds[r := db.refunds[r].(status := Processed)]);
        ReverseLedgerOk(open, updated.(payments := db.payments[p := db.payments[p].(status := Refunded)]), r);
      }
    }
  }

  lemma RefundLedgerOk(open: Books, db: Db, step: Step)
    requires LedgerOk(open, db.books) && IsRefundStep(step)
    ensures LedgerOk(open, Apply(db, step).books)
  {
    match step
    case StepRequestRefund(p, secretKey, response) => RequestRefundLedgerOk(open, db, p, secretKey, response);
    case StepRefundEvent(kind, refund) => RefundEventLedgerOk(open, db, kind, refund);
    case StepReconcile(r) => ReverseLedgerOk(open, db, r);
  }

  /** Over every run of service calls, from any books that add up: every balance is its opening
      balance plus its entries, every balanceAfter is the running sum, wallet transactions chain,
      and every reference is posted at most once. */
  lemma {:induction false} RunLedgerOk(open: Books, db: Db, steps: seq<Step>)
    requires LedgerOk(open, db.books)
    ensures LedgerOk(open, Run(db, steps).books)
  {
    if steps != [] {
      var before, step := Run(db, steps[..|steps| - 1]), steps[|steps| - 1];
      RunLedgerOk(open, db, steps[..|steps| - 1]);
      if IsPaymentStep(step) {
        PaymentLedgerOk(open, before, step);
      } else if IsAdminPayoutStep(step) {
        AdminLedgerOk(open, before, step);
      } else if IsRefundStep(step) {
        RefundLedgerOk(open, before, step);
      } else {
        TransferStepLedgerOk(open, before, step);
      }
    }
  }

  // ---------------------------------------------------------------- driver liability

  /** Sum of all wallets minus DRIVER_PAYABLE. */
  ghost function Gap(b: Books): int {
    SumWallets(b.wallets) - Balance(b, OnAccount(DriverPayable))
  }

  function GapWeight(p: Posting): int {
    Weigh(AllWallets, p) - Weigh(BalanceOf(OnAccount(DriverPayable)), p)
  }

  /** The amounts posted by failed payouts minus those posted by approvals. */
  function AdminTotal(b: Books): int {
    Total(b.journal, FailedPayable) - Total(b.journal, ApprovedPayable)
  }

  function AdminWeight(p: Posting): int {
    Weigh(FailedPayable, p) - Weigh(ApprovedPayable, p)
  }

  lemma PostGap(b: Books, p: Posting)
    ensures Gap(Post(b, p)) == Gap(b) + if p.ref in b.txs then 0 else GapWeight(p)
  {
    PostSumWallets(b, p);
    PostBalance(b, p, OnAccount(DriverPayable));
    if p.ref !in b.txs {
      TotalAppend(b.journal, Entry(p, Balance(b, p.target) + Signed(p)), BalanceOf(OnAccount(DriverPayable)));
    }
  }

  lemma PostAdminTotal(b: Books, p: Posting)
    ensures AdminTotal(Post(b, p)) == AdminTotal(b) + if p.ref in b.txs then 0 else AdminWeight(p)
  {
    if p.ref !in b.txs {
      var e := Entry(p, Balance(b, p.target) + Signed(p));
      TotalAppend(b.journal, e, FailedPayable);
      TotalAppend(b.journal, e, ApprovedPayable);
    }
  }

  /** Neither sum changes. */
  ghost predicate Level(b: Books, b': Books) {
    Gap(b') == Gap(b) && AdminTotal(b') == AdminTotal(b)
  }

  lemma NeutralLevel(b: Books, x: Posting)
    requires GapWeight(x) == 0 && AdminWeight(x) == 0
    ensures Level(b, Post(b, x))
  {
    PostGap(b, x);
    PostAdminTotal(b, x);
  }

  /** A wallet posting and an equal DRIVER_PAYABLE posting, both new, cancel out. */
  lemma PairLevel(b: Books, x: Posting, y: Posting)
    requires x.ref !in b.txs && y.ref !in b.txs && x.ref != y.ref
    requires x.target.OnWallet? && y.target == OnAccount(DriverPayable) && Signed(x) == Signed(y)
    requires AdminWeight(x) == 0 && AdminWeight(y) == 0
    ensures Level(b, Post(Post(b, x), y))
  {
    assert y.ref !in Post(b, x).txs;
    PostGap(b, x);
    PostGap(Post(b, x), y);
    PostAdminTotal(b, x);
    PostAdminTotal(Post(b, x), y);
  }

  lemma EarningLevel(b: Books, p: PaymentId, d: DriverId, q: PayoutId, gross: nat)
    requires PaymentEarning(p) !in b.txs && PaymentPayable(p) !in b.txs
    ensures Level(b, PostAll(b, EarningPostings(p, d, q, gross)))
  {
    var u, v, w := EarningPosting(p, d, gross), PayablePosting(p, gross), PendingPosting(q, p, gross);
    PostThree(b, u, v, w);
    PairLevel(b, u, v);
    NeutralLevel(Post(Post(b, u), v), w);
  }

  lemma CaptureRowLevel(db: Db, p: PaymentId, driver: Option<DriverId>)
    requires Inv(db) && p in db.payments && Capturable(db.payments[p])
    ensures Level(db.books, CaptureRow(db, p, driver).books)
  {
    var gross := db.payments[p].amount;
    var x, y := CapturedPosting(p, gross), CommissionPosting(p, gross);
    PostTwo(db.books, x, y);
    NeutralLevel(db.books, x);
    NeutralLevel(Post(db.books, x), y);
    if driver.Some? {
      NothingCaptured(db, p);
      CapturePostingsOnly(db, p);
      EarningLevel(PostAll(db.books, CapturePostings(p, gross)), p, driver.value, db.nextId, gross);
    }
  }

  lemma CaptureLevel(db: Db, t: TripId, driver: Option<DriverId>)
    requires Inv(db)
    ensures Level(db.books, Capture(db, t, driver).books)
  {
    match PaymentOfTrip(db.payments, t)
    case None =>
    case Some(p) =>
      if Capturable(db.payments[p]) {
        CaptureRowLevel(db, p, driver);
      }
  }

  lemma PayLevel(db: Db, q: PayoutId)
    requires Inv(db) && q in db.payouts && db.payouts[q].status != Paid
    ensures Level(db.books, PayPayout(db, q).books)
  {
    var ps := PaidPostings(q, db.payouts[q].driver, db.payouts[q].amount);
    NothingPaid(db, q);
    PostThree(db.books, ps[0], ps[1], ps[2]);
    PairLevel(db.books, ps[0], ps[1]);
    NeutralLevel(Post(Post(db.books, ps[0]), ps[1]), ps[2]);
  }

  lemma DebitLevel(b: Books, r: RefundId, p: PaymentId, gross: nat)
    ensures Level(b, PostAll(b, RefundPostings(r, p, gross)))
  {
    var ps := RefundPostings(r, p, gross);
    PostTwo(b, ps[0], ps[1]);
    NeutralLevel(b, ps[0]);
    NeutralLevel(Post(b, ps[0]), ps[1]);
  }

  lemma ReversalLevel(b: Books, r: RefundId, p: PaymentId, d: DriverId, gross: nat)
    requires RefundEarningWallet(r) !in b.txs && RefundEarningPayable(r) !in b.txs
    ensures Level(b, PostAll(b, ReversalPostings(r, p, d, gross)))
  {
    var ps := ReversalPostings(r, p, d, gross);
    PostTwo(b, ps[0], ps[1]);
    PairLevel(b, ps[0], ps[1]);
  }

  lemma ReverseLevel(db: Db, r: RefundId)
    requires Inv(db)
    ensures Level(db.books, ReverseRefund(db, r).books)
  {
    var db' := ReverseRefund(db, r);
    if db' != db {
      var p := db.refunds[r].payment;
      var gross := db.payments[p].amount;
      var debited := db.(books := PostAll(db.books, RefundPostings(r, p, gross)));
      DebitLevel(db.books, r, p, gross);
      DebitPostingsOnly(db, r);
      NothingReversed(db, r);
      match EarningDecision(debited, p, gross)
      case Reverse(q) =>
        ReversalLevel(debited.books, r, p, db.payouts[q].driver, gross);
      case _ =>
    }
  }

  lemma PaymentStepLevel(db: Db, step: Step)
    requires Inv(db) && IsPaymentStep(step)
    ensures Level(db.books, Apply(db, step).books)
  {
    match step
    case StepInitiate(t, amount, provider) =>
      NeutralLevel(db.books, PendingPaymentPosting(db.nextId, amount));
    case StepAuthorize(t) =>
      if PaymentOfTrip(db.payments, t).Some? {
        var p := PaymentOfTrip(db.payments, t).value;
        NeutralLevel(db.books, AuthorizedPosting(p, db.payments[p].amount));
      }
    case StepComplete(t) => CompleteLevel(db, t);
    case StepCapture(t) =>
      if t in db.trips {
        CaptureLevel(db, t, db.trips[t].driver);
      }
    case StepChargeSuccess(reference, verified) => ChargeSuccessLevel(db, reference, verified);
    case _ =>
  }

  lemma CompleteLevel(db: Db, t: TripId)
    requires Inv(db)
    ensures Level(db.books, CompleteTrip(db, t).books)
  {
    if t in db.trips {
      var done := db.(trips := db.trips[t := db.trips[t].(completed := true)]);
      KeptTrips(db, done.trips);
      CaptureLevel(done, t, db.trips[t].driver);
    }
  }

  lemma ChargeSuccessLevel(db: Db, reference: Option<PaymentId>, verified: bool)
    requires Inv(db)
    ensures Level(db.books, ChargeSuccess(db, reference, verified).0.books)
  {
    if reference.Some? && reference.value in db.payments && !ChargeSettled(db.payments[reference.value].status) {
      var p := reference.value;
      var payment := db.payments[p];
      KeptPaymentRow(db, p, ConfirmPayment(payment, payment.status));
      if payment.trip in db.trips {
        CaptureLevel(db.(payments := db.payments[p := ConfirmPayment(payment, payment.status)]),
                     payment.trip, db.trips[payment.trip].driver);
      }
    }
  }

  lemma TransferLevel(db: Db, q: PayoutId, env: TransferEnv)
    requires Inv(db)
    ensures Level(db.books, InitiateTransfer(db, q, env).0.books)
  {
    if q in db.payouts && db.payouts[q].status != Paid {
      PayLevel(db, q);
    }
  }

  /** Creating a refund and reversing it at once keeps the level. */
  lemma DirectRefundLevel(db: Db, p: PaymentId)
    requires Inv(db) && p in db.payments && db.payments[p].status == Captured
    ensures var created := db.(refunds := db.refunds[db.nextId := Refund(p, db.payments[p].amount, Processed, false)], nextId := db.nextId + 1);
            Level(db.books, ReverseRefund(created, db.nextId).books)
  {
    var refund := Refund(p, db.payments[p].amount, Processed, false);
    KeptRefundRow(db, db.nextId, refund, db.nextId + 1);
    ReverseLevel(db.(refunds := db.refunds[db.nextId := refund], nextId := db.nextId + 1), db.nextId);
  }

  lemma RequestRefundLevel(db: Db, p: PaymentId, secretKey: bool, response: RefundResponse)
    requires Inv(db)
    ensures Level(db.books, RequestRefund(db, p, secretKey, response).books)
  {
    if p in db.payments && db.payments[p].status == Captured {
      DirectRefundLevel(db, p);
    }
  }

  lemma RefundEventLevel(db: Db, kind: RefundEventKind, reference: Option<Option<RefundId>>)
    requires Inv(db)
    ensures Level(db.books, RefundEvent(db, kind, reference).0.books)
  {
    if kind == EventProcessed && reference.Some? && reference.value.Some? && reference.value.value in db.refunds {
      var r := reference.value.value;
      var p := db.refunds[r].payment;
      assert RefundOk(db, r);
      var updated := db.(refunds := db.refunds[r := db.refunds[r].(status := Processed)]);
      KeptRefundRow(db, r, updated.refunds[r], db.nextId);
      KeptPaymentRow(updated, p, db.payments[p].(status := Refunded));
      ReverseLevel(updated.(payments := db.payments[p := db.payments[p].(status := Refunded)]), r);
    }
  }

  lemma RefundStepLevel(db: Db, step: Step)
    requires Inv(db) && IsRefundStep(step)
    ensures Level(db.books, Apply(db, step).books)
  {
    match step
    case StepRequestRefund(p, secretKey, response) => RequestRefundLevel(db, p, secretKey, response);
    case StepRefundEvent(kind, refund) => RefundEventLevel(db, kind, refund);
    case StepReconcile(r) => ReverseLevel(db, r);
  }

  lemma RetryLevel(db: Db, q: PayoutId, env: TransferEnv)
    requires Inv(db)
    ensures Level(db.books, RetryTransfer(db, q, env).books)
  {
    if q in db.payouts && db.payouts[q].status == PayoutFailed {
      var payout := db.payouts[q].(status := Approved, transferCode := None);
      KeptPayoutRow(db, q, payout);
      TransferLevel(SetPayout(db, q, payout), q, env);
    }
  }

  lemma TransferStepLevel(db: Db, step: Step)
    requires Inv(db) && IsTransferStep(step)
    ensures Level(db.books, Apply(db, step).books)
  {
    match step
    case StepTransfer(q, env) => TransferLevel(db, q, env);
    case StepRetry(q, env) => RetryLevel(db, q, env);
    case StepTransferSuccess(code) =>
      if code.Some? && PayoutOfCode(db.payouts, code.value).Some? {
        var q := PayoutOfCode(db.payouts, code.value).value;
        if db.payouts[q].status == Processing {
          PayLevel(db, q);
        }
      }
    case StepTransferFailed(code) =>
  }

  lemma TwoPostingsLiability(b: Books, x: Posting, y: Posting)
    requires GapWeight(x) + AdminWeight(x) == 0 == GapWeight(y) + AdminWeight(y)
    ensures var b' := PostAll(b, [x, y]); Gap(b') + AdminTotal(b') == Gap(b) + AdminTotal(b)
  {
    PostTwo(b, x, y);
    PostGap(b, x);
    PostGap(Post(b, x), y);
    PostAdminTotal(b, x);
    PostAdminTotal(Post(b, x), y);
  }

  lemma ApproveLiability(db: Db, q: PayoutId)
    ensures var b' := ApprovePayout(db, q).books; Gap(b') + AdminTotal(b') == Gap(db.books) + AdminTotal(db.books)
  {
    if q in db.payouts {
      var ps := ApprovedPostings(q, db.payouts[q].amount);
      assert ps == [ps[0], ps[1]];
      TwoPostingsLiability(db.books, ps[0], ps[1]);
    }
  }

  lemma FailedLiability(db: Db, q: PayoutId)
    ensures var b' := MarkPayoutFailed(db, q).books; Gap(b') + AdminTotal(b') == Gap(db.books) + AdminTotal(db.books)
  {
    if q in db.payouts {
      var ps := FailedPostings(q, db.payouts[q].amount);
      assert ps == [ps[0], ps[1]];
      TwoPostingsLiability(db.books, ps[0], ps[1]);
    }
  }

  /** An approval debits DRIVER_PAYABLE, a failed payout credits it; each is counted as such. */
  lemma AdminStepLiability(db: Db, step: Step)
    requires PostsForAdmin(step)
    ensures var b' := Apply(db, step).books; Gap(b') + AdminTotal(b') == Gap(db.books) + AdminTotal(db.books)
  {
    match step
    case StepApprove(q) => ApproveLiability(db, q);
    case StepMarkFailed(q) => FailedLiability(db, q);
  }

  predicate PostsForAdmin(step: Step) {
    step.StepApprove? || step.StepMarkFailed?
  }

  /** Every capture, payout-paid and refund-reversal step keeps the sum of all wallets equal to
      DRIVER_PAYABLE (or at whatever distance it was). */
  lemma StepLevel(db: Db, step: Step)
    requires Inv(db) && !PostsForAdmin(step)
    ensures Level(db.books, Apply(db, step).books)
  {
    if IsPaymentStep(step) {
      PaymentStepLevel(db, step);
    } else if IsRefundStep(step) {
      RefundStepLevel(db, step);
    } else if !IsAdminPayoutStep(step) {
      TransferStepLevel(db, step);
    }
  }

  /** Driver liability over every run: the wallets and DRIVER_PAYABLE drift apart by exactly the
      amounts posted under failed:driver-payable minus those under approved:driver-payable. */
  lemma {:induction false} DriverLiability(db: Db, steps: seq<Step>)
    requires Inv(db)
    ensures var b' := Run(db, steps).books;
            Gap(b') - Gap(db.books) == AdminTotal(db.books) - AdminTotal(b')
    ensures (forall i :: 0 <= i < |steps| ==> !PostsForAdmin(steps[i])) ==> Gap(Run(db, steps).books) == Gap(db.books)
  {
    if steps != [] {
      var before, step := Run(db, steps[..|steps| - 1]), steps[|steps| - 1];
      DriverLiability(db, steps[..|steps| - 1]);
      RunKept(db, steps[..|steps| - 1]);
      if PostsForAdmin(step) {
        AdminStepLiability(before, step);
      } else {
        StepLevel(before, step);
      }
    }
  }

  // ---------------------------------------------------------------- approvals

  /** `approvePayout` balance-checks a one-entry transaction, so it commits exactly for amount 0. */
  lemma ApproveCommitsIff(open: Books, db: Db, q: PayoutId)
    requires Inv(db) && LedgerOk(open, db.books)
    requires q in db.payouts && db.payouts[q].status == Requested && HasPayoutAccounts(db)
    ensures db.payouts[q].amount == 0 ==> ApprovePayout(db, q).payouts[q].status == Approved
    ensures db.payouts[q].amount > 0 ==> ApprovePayout(db, q) == db
  {
    var ps := ApprovedPostings(q, db.payouts[q].amount);
    var b' := PostAll(db.books, ps);
    RowOf(db, PayoutApprovedClearing(q));
    PostTwo(db.books, ps[0], ps[1]);
    PostAllLedgerOk(open, db.books, ps);
    assert Holds(TableMatchesJournal, open, b');
    var k := PositionOf(b'.txs, b'.journal, PayoutApprovedClearing(q));
    OnePostingTotal(b', PayoutApprovedClearing(q), Debit);
    OnePostingTotal(b', PayoutApprovedClearing(q), Credit);
  }
}
