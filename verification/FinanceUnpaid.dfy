/** What follows from approvals that only commit for amount 0: over every run from tables without
    approved payouts no positive payout is ever paid, and no wallet goes below zero. */
module FinanceUnpaid {
  import opened Common
  import opened Ledger
  import opened Finance
  import opened FinanceInvariants
  import opened FinanceSteps
  import opened FinanceBooks
  import Money

  /** A payout of a positive amount that was never approved. */
  predicate IsUnpaid(payout: Payout) {
    payout.amount == 0 || payout.status == Requested || payout.status == Rejected || payout.status == PayoutCancelled
  }

  ghost predicate NoneApproved(payouts: map<PayoutId, Payout>) {
    forall q {:trigger q in payouts} :: q in payouts ==> IsUnpaid(payouts[q])
  }

  ghost predicate NonNegative(wallets: map<DriverId, int>) {
    forall d {:trigger d in wallets} :: d in wallets ==> wallets[d] >= 0
  }

  /** Tables in order, in which no positive payout was ever approved and no wallet is negative. */
  ghost predicate Quiet(open: Books, db: Db) {
    Inv(db) && LedgerOk(open, db.books) && NoneApproved(db.payouts) && NonNegative(db.books.wallets)
  }

  lemma EmptyIsQuiet()
    ensures Quiet(Opened(map[], map[]), EMPTY) && Gap(EMPTY.books) == 0
  {
    var b := EMPTY.books;
    forall law ensures Holds(law, b, b) {}
  }

  // ---------------------------------------------------------------- payouts

  /** A step changes no payout, adds a REQUESTED one, or moves one within what `IsUnpaid` allows. */
  lemma PaymentPayouts(db: Db, step: Step)
    requires NoneApproved(db.payouts) && IsPaymentStep(step)
    ensures NoneApproved(Apply(db, step).payouts)
  {
  }

  lemma TransferPayouts(db: Db, step: Step)
    requires NoneApproved(db.payouts) && IsTransferStep(step)
    ensures NoneApproved(Apply(db, step).payouts)
  {
    match step
    case StepTransfer(q, env) =>
    case StepRetry(q, env) =>
      if q in db.payouts && db.payouts[q].status == PayoutFailed {
        assert IsUnpaid(db.payouts[q]);
      }
    case StepTransferSuccess(code) =>
      if code.Some? && PayoutOfCode(db.payouts, code.value).Some? {
        assert IsUnpaid(db.payouts[PayoutOfCode(db.payouts, code.value).value]);
      }
    case StepTransferFailed(code) =>
      if code.Some? && PayoutOfCode(db.payouts, code.value).Some? {
        assert IsUnpaid(db.payouts[PayoutOfCode(db.payouts, code.value).value]);
      }
  }

  lemma ReversePayouts(db: Db, r: RefundId)
    requires NoneApproved(db.payouts)
    ensures NoneApproved(ReverseRefund(db, r).payouts)
  {
    if r in db.refunds && db.refunds[r].payment in db.payments {
      var gross := db.payments[db.refunds[r].payment].amount;
      var debited := db.(books := PostAll(db.books, RefundPostings(r, db.refunds[r].payment, gross)));
      var decision := EarningDecision(debited, db.refunds[r].payment, gross);
      if decision.Reverse? {
        assert IsUnpaid(db.payouts[decision.q]);
      }
    }
  }

  lemma RequestRefundPayouts(db: Db, p: PaymentId, secretKey: bool, response: RefundResponse)
    requires NoneApproved(db.payouts)
    ensures NoneApproved(RequestRefund(db, p, secretKey, response).payouts)
  {
    if p in db.payments {
      var refund := Refund(p, db.payments[p].amount, Processed, false);
      ReversePayouts(db.(refunds := db.refunds[db.nextId := refund], nextId := db.nextId + 1), db.nextId);
    }
  }

  lemma RefundEventPayouts(db: Db, kind: RefundEventKind, reference: Option<Option<RefundId>>)
    requires NoneApproved(db.payouts)
    ensures NoneApproved(RefundEvent(db, kind, reference).0.payouts)
  {
    if reference.Some? && reference.value.Some? && reference.value.value in db.refunds {
      var r := reference.value.value;
      var p := db.refunds[r].payment;
      if p in db.payments {
        ReversePayouts(db.(refunds := db.refunds[r := db.refunds[r].(status := Processed)],
                           payments := db.payments[p := db.payments[p].(status := Refunded)]), r);
      }
    }
  }

  lemma RefundPayouts(db: Db, step: Step)
    requires NoneApproved(db.payouts) && IsRefundStep(step)
    ensures NoneApproved(Apply(db, step).payouts)
  {
    match step
    case StepRequestRefund(p, secretKey, response) => RequestRefundPayouts(db, p, secretKey, response);
    case StepRefundEvent(kind, reference) => RefundEventPayouts(db, kind, reference);
    case StepReconcile(r) => ReversePayouts(db, r);
  }

  lemma ApprovePayouts(open: Books, db: Db, q: PayoutId)
    requires Quiet(open, db)
    ensures NoneApproved(ApprovePayout(db, q).payouts)
  {
    if q in db.payouts && db.payouts[q].status == Requested && HasPayoutAccounts(db) {
      ApproveCommitsIff(open, db, q);
    }
  }

  lemma MovePayouts(db: Db, q: PayoutId, from: PayoutStatus, to: PayoutStatus)
    requires NoneApproved(db.payouts) && (to == Rejected || (from != Requested && from != Rejected && from != PayoutCancelled))
    ensures NoneApproved(MovePayout(db, q, from, to).payouts)
  {
    assert q in db.payouts ==> IsUnpaid(db.payouts[q]);
  }

  lemma AdminPayouts(open: Books, db: Db, step: Step)
    requires Quiet(open, db) && IsAdminPayoutStep(step)
    ensures NoneApproved(Apply(db, step).payouts)
  {
    match step
    case StepApprove(q) => ApprovePayouts(open, db, q);
    case StepMarkProcessing(q) => MovePayouts(db, q, Approved, Processing);
    case StepMarkPaid(q) => MovePayouts(db, q, Processing, Paid);
    case StepMarkFailed(q) => MovePayouts(db, q, Processing, PayoutFailed);
    case StepReject(q) => MovePayouts(db, q, Requested, Rejected);
    case StepRequestPayout(d, amount, eligible) =>
  }

  // ---------------------------------------------------------------- wallets

  lemma PostNonNegative(b: Books, p: Posting)
    requires NonNegative(b.wallets) && (p.target.OnWallet? ==> Balance(b, p.target) + Signed(p) >= 0)
    ensures NonNegative(Post(b, p).wallets)
  {
  }

  lemma {:induction false} CreditsNonNegative(b: Books, ps: seq<Posting>)
    requires NonNegative(b.wallets) && forall i :: 0 <= i < |ps| ==> ps[i].target.OnAccount? || ps[i].kind == Credit
    ensures NonNegative(PostAll(b, ps).wallets)
  {
    if ps != [] {
      var k := |ps| - 1;
      CreditsNonNegative(b, ps[..k]);
      PostNonNegative(PostAll(b, ps[..k]), ps[k]);
    }
  }

  lemma CaptureWallets(db: Db, t: TripId, driver: Option<DriverId>)
    requires NonNegative(db.books.wallets)
    ensures NonNegative(Capture(db, t, driver).books.wallets)
  {
    match PaymentOfTrip(db.payments, t)
    case None =>
    case Some(p) =>
      var gross := db.payments[p].amount;
      CreditsNonNegative(db.books, CapturePostings(p, gross));
      if driver.Some? {
        CreditsNonNegative(PostAll(db.books, CapturePostings(p, gross)), EarningPostings(p, driver.value, db.nextId, gross));
      }
  }

  lemma PaymentWallets(db: Db, step: Step)
    requires NonNegative(db.books.wallets) && IsPaymentStep(step)
    ensures NonNegative(Apply(db, step).books.wallets)
  {
    match step
    case StepComplete(t) =>
      if t in db.trips {
        CaptureWallets(db.(trips := db.trips[t := db.trips[t].(completed := true)]), t, db.trips[t].driver);
      }
    case StepCapture(t) => if t in db.trips { CaptureWallets(db, t, db.trips[t].driver); }
    case StepChargeSuccess(reference, verified) =>
      if reference.Some? && reference.value in db.payments && db.payments[reference.value].trip in db.trips {
        var payment := db.payments[reference.value];
        CaptureWallets(db.(payments := db.payments[reference.value := ConfirmPayment(payment, payment.status)]),
                       payment.trip, db.trips[payment.trip].driver);
      }
    case _ =>
  }

  /** Paying a payout that is not positive takes nothing from the wallet. */
  lemma PayWallets(db: Db, q: PayoutId)
    requires NonNegative(db.books.wallets) && q in db.payouts && db.payouts[q].amount == 0
    ensures NonNegative(PayPayout(db, q).books.wallets)
  {
    var ps := PaidPostings(q, db.payouts[q].driver, db.payouts[q].amount);
    PostThree(db.books, ps[0], ps[1], ps[2]);
    PostNonNegative(db.books, ps[0]);
    PostNonNegative(Post(db.books, ps[0]), ps[1]);
    PostNonNegative(Post(Post(db.books, ps[0]), ps[1]), ps[2]);
  }

  lemma TransferWallets(db: Db, step: Step)
    requires NonNegative(db.books.wallets) && NoneApproved(db.payouts) && IsTransferStep(step)
    ensures NonNegative(Apply(db, step).books.wallets)
  {
    match step
    case StepTransfer(q, env) =>
      if q in db.payouts && db.payouts[q].amount == 0 { PayWallets(db, q); }
      if q in db.payouts { assert IsUnpaid(db.payouts[q]); }
    case StepRetry(q, env) =>
      if q in db.payouts && db.payouts[q].status == PayoutFailed {
        assert IsUnpaid(db.payouts[q]);
        PayWallets(SetPayout(db, q, db.payouts[q].(status := Approved, transferCode := None)), q);
      }
    case StepTransferSuccess(code) =>
      if code.Some? && PayoutOfCode(db.payouts, code.value).Some? {
        var q := PayoutOfCode(db.payouts, code.value).value;
        assert IsUnpaid(db.payouts[q]);
        if db.payouts[q].status == Processing { PayWallets(db, q); }
      }
    case StepTransferFailed(code) =>
  }

  /** The reversal takes back no more than the wallet has: on a balance that is not negative the
      guard reads it back exactly. */
  lemma ReverseWallets(db: Db, r: RefundId)
    requires NonNegative(db.books.wallets)
    ensures NonNegative(ReverseRefund(db, r).books.wallets)
  {
    if r in db.refunds && db.refunds[r].payment in db.payments {
      var p := db.refunds[r].payment;
      var gross := db.payments[p].amount;
      var debited := db.(books := PostAll(db.books, RefundPostings(r, p, gross)));
      CreditsNonNegative(db.books, RefundPostings(r, p, gross));
      match EarningDecision(debited, p, gross)
      case Reverse(q) =>
        var ps := ReversalPostings(r, p, db.payouts[q].driver, gross);
        PostTwo(debited.books, ps[0], ps[1]);
        Money.ReadBackGuard(Balance(debited.books, ps[0].target), DriverShare(gross));
        PostNonNegative(debited.books, ps[0]);
        PostNonNegative(Post(debited.books, ps[0]), ps[1]);
      case _ =>
    }
  }

  lemma RequestRefundWallets(db: Db, p: PaymentId, secretKey: bool, response: RefundResponse)
    requires NonNegative(db.books.wallets)
    ensures NonNegative(RequestRefund(db, p, secretKey, response).books.wallets)
  {
    if p in db.payments {
      var refund := Refund(p, db.payments[p].amount, Processed, false);
      ReverseWallets(db.(refunds := db.refunds[db.nextId := refund], nextId := db.nextId + 1), db.nextId);
    }
  }

  lemma RefundEventWallets(db: Db, kind: RefundEventKind, reference: Option<Option<RefundId>>)
    requires NonNegative(db.books.wallets)
    ensures NonNegative(RefundEvent(db, kind, reference).0.books.wallets)
  {
    if reference.Some? && reference.value.Some? && reference.value.value in db.refunds {
      var r := reference.value.value;
      var p := db.refunds[r].payment;
      if p in db.payments {
        ReverseWallets(db.(refunds := db.refunds[r := db.refunds[r].(status := Processed)],
                           payments := db.payments[p := db.payments[p].(status := Refunded)]), r);
      }
    }
  }

  lemma RefundWallets(db: Db, step: Step)
    requires NonNegative(db.books.wallets) && IsRefundStep(step)
    ensures NonNegative(Apply(db, step).books.wallets)
  {
    match step
    case StepRequestRefund(p, secretKey, response) => RequestRefundWallets(db, p, secretKey, response);
    case StepRefundEvent(kind, reference) => RefundEventWallets(db, kind, reference);
    case StepReconcile(r) => ReverseWallets(db, r);
  }

  lemma AdminWallets(db: Db, step: Step)
    requires NonNegative(db.books.wallets) && IsAdminPayoutStep(step)
    ensures NonNegative(Apply(db, step).books.wallets)
  {
    if PostsForAdmin(step) && step.q in db.payouts {
      CreditsNonNegative(db.books, ApprovedPostings(step.q, db.payouts[step.q].amount));
      CreditsNonNegative(db.books, FailedPostings(step.q, db.payouts[step.q].amount));
    }
  }

  // ---------------------------------------------------------------- every run

  lemma StepStaysQuiet(open: Books, db: Db, step: Step)
    requires Quiet(open, db)
    ensures NoneApproved(Apply(db, step).payouts) && NonNegative(Apply(db, step).books.wallets)
  {
    if IsPaymentStep(step) {
      PaymentPayouts(db, step);
      PaymentWallets(db, step);
    } else if IsTransferStep(step) {
      TransferPayouts(db, step);
      TransferWallets(db, step);
    } else if IsRefundStep(step) {
      RefundPayouts(db, step);
      RefundWallets(db, step);
    } else {
      AdminPayouts(open, db, step);
      AdminWallets(db, step);
    }
  }

  /** Over every run from such tables, in particular from empty ones, no payout of a positive
      amount is ever APPROVED, PROCESSING, FAILED or PAID, and no wallet is ever negative. */
  lemma {:induction false} NoPositivePayoutIsPaid(open: Books, db: Db, steps: seq<Step>)
    requires Quiet(open, db)
    ensures Quiet(open, Run(db, steps))
    ensures forall q :: PaidPayout(Run(db, steps), q) ==> Run(db, steps).payouts[q].amount == 0
  {
    if steps != [] {
      var k := |steps| - 1;
      NoPositivePayoutIsPaid(open, db, steps[..k]);
      StepStaysQuiet(open, Run(db, steps[..k]), steps[k]);
    }
    RunKept(db, steps);
    RunLedgerOk(open, db, steps);
    var after := Run(db, steps);
    forall q | PaidPayout(after, q) ensures after.payouts[q].amount == 0 {
      assert IsUnpaid(after.payouts[q]);
    }
  }

  /** In these runs the reversal guard is exact, although it reads the balance back from text. */
  lemma GuardIsExact(open: Books, db: Db, steps: seq<Step>, d: DriverId, share: nat)
    requires Quiet(open, db)
    ensures var balance := Balance(Run(db, steps).books, OnWallet(d));
            balance >= 0 && (Money.ReadBack(balance) >= share <==> balance >= share)
  {
    NoPositivePayoutIsPaid(open, db, steps);
  }

  // ---------------------------------------------------------------- the liability never drifts

  /** Postings of amount 0 move nothing. */
  lemma ZeroPostingsLevel(b: Books, x: Posting, y: Posting)
    requires x.amount == 0 && y.amount == 0
    ensures Level(b, PostAll(b, [x, y]))
  {
    PostTwo(b, x, y);
    NeutralLevel(b, x);
    NeutralLevel(Post(b, x), y);
  }

  lemma AdminStepLevel(open: Books, db: Db, step: Step)
    requires Quiet(open, db) && PostsForAdmin(step)
    ensures Level(db.books, Apply(db, step).books)
  {
    var q := step.q;
    if q in db.payouts {
      assert IsUnpaid(db.payouts[q]);
      var xs, ys := ApprovedPostings(q, db.payouts[q].amount), FailedPostings(q, db.payouts[q].amount);
      assert xs == [xs[0], xs[1]] && ys == [ys[0], ys[1]];
      if db.payouts[q].amount == 0 {
        ZeroPostingsLevel(db.books, xs[0], xs[1]);
        ZeroPostingsLevel(db.books, ys[0], ys[1]);
      } else if step.StepApprove? && db.payouts[q].status == Requested && HasPayoutAccounts(db) {
        ApproveCommitsIff(open, db, q);
      }
    }
  }

  /** Over every run from such tables, with all steps of the admin, the wallets stay at the
      distance to DRIVER_PAYABLE that they had: equal, from empty tables. */
  lemma {:induction false} LiabilityNeverDrifts(open: Books, db: Db, steps: seq<Step>)
    requires Quiet(open, db)
    ensures Gap(Run(db, steps).books) == Gap(db.books)
  {
    if steps != [] {
      var k := |steps| - 1;
      LiabilityNeverDrifts(open, db, steps[..k]);
      NoPositivePayoutIsPaid(open, db, steps[..k]);
      if PostsForAdmin(steps[k]) {
        AdminStepLevel(open, Run(db, steps[..k]), steps[k]);
      } else {
        StepLevel(Run(db, steps[..k]), steps[k]);
      }
    }
  }
}
