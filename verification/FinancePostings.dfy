/** What has happened is what is posted: the rows of payments and refunds and the references in
    the books say the same, over every run. */
module FinancePostings {
  import opened Common
  import opened Ledger
  import opened Finance
  import opened FinanceInvariants
  import opened FinanceSteps
  import opened FinanceBooks

  // ---------------------------------------------------------------- recorded

  ghost predicate HasPendingPayout(txs: map<Ref, Posting>, p: PaymentId) {
    exists q :: IsPendingPayoutOf(txs, p, q)
  }

  ghost predicate PaymentRecorded(db: Db, p: PaymentId) {
    var txs := db.books.txs;
    && (p in db.payments ==> PaymentPending(p) in txs)
    && (CapturedPayment(db, p) ==> PaymentCaptured(p) in txs && PaymentCommission(p) in txs)
    && (PaymentEarning(p) in txs ==> HasPendingPayout(txs, p))
  }

  ghost predicate RefundRecorded(db: Db, r: RefundId) {
    ClosedRefund(db, r) ==> RefundProcessed(r) in db.books.txs && RefundCommission(r) in db.books.txs
  }

  ghost predicate Recorded(db: Db) {
    && (forall p {:trigger PaymentRecorded(db, p)} :: PaymentRecorded(db, p))
    && (forall r {:trigger RefundRecorded(db, r)} :: RefundRecorded(db, r))
  }

  /** A step that neither creates, captures nor pays out keeps what is recorded of a payment. */
  lemma SamePayment(db: Db, db': Db, p: PaymentId)
    requires PaymentRecorded(db, p) && Advances(db, db')
    requires p in db'.payments ==> p in db.payments
    requires CapturedPayment(db', p) ==> CapturedPayment(db, p)
    requires PaymentEarning(p) in db'.books.txs ==> PaymentEarning(p) in db.books.txs
    ensures PaymentRecorded(db', p)
  {
    assert PostingKept(db, db', PaymentPending(p)) && PostingKept(db, db', PaymentCaptured(p));
    assert PostingKept(db, db', PaymentCommission(p));
    if PaymentEarning(p) in db'.books.txs {
      var q :| IsPendingPayoutOf(db.books.txs, p, q);
      assert PostingKept(db, db', PayoutPending(q));
      assert IsPendingPayoutOf(db'.books.txs, p, q);
    }
  }

  lemma SameRefund(db: Db, db': Db, r: RefundId)
    requires RefundRecorded(db, r) && Advances(db, db') && (ClosedRefund(db', r) ==> ClosedRefund(db, r))
    ensures RefundRecorded(db', r)
  {
    assert PostingKept(db, db', RefundProcessed(r)) && PostingKept(db, db', RefundCommission(r));
  }

  /** A step that leaves payments and refunds as captured or closed as they were, and posts no earning. */
  lemma SameRecords(db: Db, db': Db)
    requires Recorded(db) && Advances(db, db')
    requires forall p {:trigger p in db'.payments} :: p in db'.payments ==>
               p in db.payments && (CapturedPayment(db', p) ==> CapturedPayment(db, p))
    requires forall r {:trigger ClosedRefund(db', r)} :: ClosedRefund(db', r) ==> ClosedRefund(db, r)
    requires forall p {:trigger PaymentEarning(p)} :: PaymentEarning(p) in db'.books.txs ==> PaymentEarning(p) in db.books.txs
    ensures Recorded(db')
  {
    forall p ensures PaymentRecorded(db', p) {
      assert PaymentRecorded(db, p);
      SamePayment(db, db', p);
    }
    forall r ensures RefundRecorded(db', r) {
      assert RefundRecorded(db, r);
      SameRefund(db, db', r);
    }
  }

  lemma {:induction false} NoEarningPosted(b: Books, ps: seq<Posting>, p: PaymentId)
    requires forall i :: 0 <= i < |ps| ==> !ps[i].ref.PaymentEarning?
    ensures PaymentEarning(p) in PostAll(b, ps).txs <==> PaymentEarning(p) in b.txs
  {
    if ps != [] {
      NoEarningPosted(b, ps[..|ps| - 1], p);
    }
  }

  // ---------------------------------------------------------------- payments

  lemma InitiateRecords(db: Db, t: TripId, amount: nat, provider: Provider)
    requires Inv(db) && Recorded(db)
    ensures Recorded(Initiate(db, t, amount, provider))
  {
    var db' := Initiate(db, t, amount, provider);
    KeptInitiate(db, t, amount, provider);
    forall p ensures PaymentRecorded(db', p) {
      assert PaymentRecorded(db, p);
      if p != db.nextId {
        SamePayment(db, db', p);
      } else {
        RowOf(db, PaymentEarning(p));
      }
    }
    forall r ensures RefundRecorded(db', r) {
      assert RefundRecorded(db, r);
      assert r in db.refunds ==> RefundOk(db, r);
      SameRefund(db, db', r);
    }
  }

  /** The captured payment has its two postings, and its pending payout when there is a driver. */
  lemma CaptureRowPosts(db: Db, p: PaymentId, driver: Option<DriverId>)
    requires Inv(db) && p in db.payments && Capturable(db.payments[p])
    ensures var db' := CaptureRow(db, p, driver);
            && Kept(db, db') && PaymentRecorded(db', p) == (PaymentPending(p) in db'.books.txs)
            && (forall p' :: p' != p && PaymentEarning(p') in db'.books.txs ==> PaymentEarning(p') in db.books.txs)
  {
    var db' := CaptureRow(db, p, driver);
    KeptCaptureRow(db, p);
    var captured := CaptureRow(db, p, None);
    forall p' ensures PaymentEarning(p') in captured.books.txs <==> PaymentEarning(p') in db.books.txs {
      NoEarningPosted(db.books, CapturePostings(p, db.payments[p].amount), p');
    }
    NothingCaptured(db, p);
    if driver.Some? {
      var d := driver.value;
      KeptEarning(db, p, d);
      var gross := db.payments[p].amount;
      PostThree(captured.books, EarningPosting(p, d, gross), PayablePosting(p, gross), PendingPosting(db.nextId, p, gross));
      assert PostingKept(captured, db', PaymentCaptured(p)) by { KeptEarningKeeps(db, p, d); }
      assert PostingKept(captured, db', PaymentCommission(p)) by { KeptEarningKeeps(db, p, d); }
    }
  }

  lemma KeptEarningKeeps(db: Db, p: PaymentId, d: DriverId)
    requires p in db.payments
    ensures forall ref :: PostingKept(CaptureRow(db, p, None), CaptureRow(db, p, Some(d)), ref)
  {
    var gross := db.payments[p].amount;
    var captured := CaptureRow(db, p, None);
    PostThree(captured.books, EarningPosting(p, d, gross), PayablePosting(p, gross), PendingPosting(db.nextId, p, gross));
  }

  lemma CaptureRecords(db: Db, t: TripId, driver: Option<DriverId>)
    requires Inv(db) && Recorded(db)
    ensures Recorded(Capture(db, t, driver))
  {
    match PaymentOfTrip(db.payments, t)
    case None =>
    case Some(p) =>
      if Capturable(db.payments[p]) {
        var db' := CaptureRow(db, p, driver);
        CaptureRowPosts(db, p, driver);
        assert PaymentRecorded(db, p) && PostingKept(db, db', PaymentPending(p));
        forall p' ensures PaymentRecorded(db', p') {
          assert PaymentRecorded(db, p');
          if p' != p {
            SamePayment(db, db', p');
          }
        }
        forall r ensures RefundRecorded(db', r) {
          assert RefundRecorded(db, r);
          SameRefund(db, db', r);
        }
      }
  }

  lemma ConfirmedRecords(db: Db, p: PaymentId)
    requires Inv(db) && Recorded(db) && p in db.payments && !ChargeSettled(db.payments[p].status)
    ensures var confirmed := db.(payments := db.payments[p := ConfirmPayment(db.payments[p], db.payments[p].status)]);
            Inv(confirmed) && Recorded(confirmed)
  {
    var payment := ConfirmPayment(db.payments[p], db.payments[p].status);
    KeptPaymentRow(db, p, payment);
    SameRecords(db, db.(payments := db.payments[p := payment]));
  }

  lemma ChargeRecords(db: Db, reference: Option<PaymentId>, verified: bool)
    requires Inv(db) && Recorded(db)
    ensures Recorded(ChargeSuccess(db, reference, verified).0)
  {
    if reference.Some? && verified && reference.value in db.payments && !ChargeSettled(db.payments[reference.value].status) {
      var p := reference.value;
      var payment := db.payments[p];
      ConfirmedRecords(db, p);
      if payment.trip in db.trips {
        var confirmed := db.(payments := db.payments[p := ConfirmPayment(payment, payment.status)]);
        CaptureRecords(confirmed, payment.trip, db.trips[payment.trip].driver);
      }
    }
  }

  lemma PaymentStepRecords(db: Db, step: Step)
    requires Inv(db) && Recorded(db) && IsPaymentStep(step)
    ensures Recorded(Apply(db, step))
  {
    PaymentStepKept(db, step);
    match step
    case OpenTrip(t) => SameRecords(db, Apply(db, step));
    case AssignDriver(t, d) => SameRecords(db, Apply(db, step));
    case StepInitiate(t, amount, provider) => InitiateRecords(db, t, amount, provider);
    case StepAuthorize(t) => SameRecords(db, Apply(db, step));
    case StepComplete(t) =>
      if t in db.trips {
        var done := db.(trips := db.trips[t := db.trips[t].(completed := true)]);
        KeptTrips(db, done.trips);
        SameRecords(db, done);
        CaptureRecords(done, t, db.trips[t].driver);
      }
    case StepCapture(t) => if t in db.trips { CaptureRecords(db, t, db.trips[t].driver); }
    case StepChargeSuccess(reference, verified) => ChargeRecords(db, reference, verified);
    case StepChargeFailed(reference) => SameRecords(db, Apply(db, step));
  }

  // ---------------------------------------------------------------- refunds

  /** The postings that a reversal adds to the two debits. */
  ghost function EarningReversal(db: Db, r: RefundId): seq<Posting>
    requires r in db.refunds && db.refunds[r].payment in db.payments
  {
    var p := db.refunds[r].payment;
    var gross := db.payments[p].amount;
    var decision := EarningDecision(db.(books := PostAll(db.books, RefundPostings(r, p, gross))), p, gross);
    if decision.Reverse? then ReversalPostings(r, p, db.payouts[decision.q].driver, gross) else []
  }

  lemma ReversedBooks(db: Db, r: RefundId)
    requires Inv(db) && r in db.refunds && ReverseRefund(db, r) != db
    ensures db.refunds[r].payment in db.payments
    ensures var ps := RefundPostings(r, db.refunds[r].payment, db.payments[db.refunds[r].payment].amount);
            ReverseRefund(db, r).books == PostAll(PostAll(db.books, ps), EarningReversal(db, r))
  {
  }

  /** The references of a reversal that went through: the debits are posted, no earning is added. */
  lemma ReversePosts(db: Db, r: RefundId)
    requires Inv(db) && r in db.refunds && ReverseRefund(db, r) != db
    ensures var db' := ReverseRefund(db, r);
            && RefundProcessed(r) in db'.books.txs && RefundCommission(r) in db'.books.txs
            && (forall p :: PaymentEarning(p) in db'.books.txs ==> PaymentEarning(p) in db.books.txs)
  {
    ReversedBooks(db, r);
    var ps := RefundPostings(r, db.refunds[r].payment, db.payments[db.refunds[r].payment].amount);
    var more := EarningReversal(db, r);
    PostTwo(db.books, ps[0], ps[1]);
    PostAllKeeps(PostAll(db.books, ps), more, RefundProcessed(r));
    PostAllKeeps(PostAll(db.books, ps), more, RefundCommission(r));
    forall p' ensures PaymentEarning(p') in PostAll(PostAll(db.books, ps), more).txs ==> PaymentEarning(p') in db.books.txs {
      NoEarningPosted(db.books, ps, p');
      NoEarningPosted(PostAll(db.books, ps), more, p');
    }
  }

  lemma ReverseRecords(db: Db, r: RefundId)
    requires Inv(db) && Recorded(db)
    ensures Recorded(ReverseRefund(db, r))
  {
    var db' := ReverseRefund(db, r);
    KeptReverseRefund(db, r);
    if db' != db {
      assert RefundOk(db, r);
      ReversePosts(db, r);
      forall p ensures PaymentRecorded(db', p) {
        assert PaymentRecorded(db, p);
        SamePayment(db, db', p);
      }
      forall r' ensures RefundRecorded(db', r') {
        assert RefundRecorded(db, r');
        if r' != r {
          SameRefund(db, db', r');
        }
      }
    }
  }

  lemma NewRefundRecords(db: Db, r: RefundId, refund: Refund, nextId: nat)
    requires Inv(db) && Recorded(db) && db.nextId <= nextId && r < nextId
    requires refund.payment in db.payments && IsCaptured(db.payments[refund.payment].status)
    requires refund.amount == db.payments[refund.payment].amount
    requires if r in db.refunds then refund == db.refunds[r].(status := refund.status) else !refund.reversed
    ensures var db' := db.(refunds := db.refunds[r := refund], nextId := nextId); Inv(db') && Recorded(db')
  {
    KeptRefundRow(db, r, refund, nextId);
    SameRecords(db, db.(refunds := db.refunds[r := refund], nextId := nextId));
  }

  lemma RequestRefundRecords(db: Db, p: PaymentId, secretKey: bool, response: RefundResponse)
    requires Inv(db) && Recorded(db)
    ensures Recorded(RequestRefund(db, p, secretKey, response))
  {
    if p in db.payments && db.payments[p].status == Captured {
      var r, amount := db.nextId, db.payments[p].amount;
      NewRefundRecords(db, r, Refund(p, amount, Processed, false), r + 1);
      NewRefundRecords(db, r, Refund(p, amount, RefundProcessing, false), r + 1);
      NewRefundRecords(db, r, Refund(p, amount, RefundFailed, false), r + 1);
      ReverseRecords(db.(refunds := db.refunds[r := Refund(p, amount, Processed, false)], nextId := r + 1), r);
      assert db.refunds[r := Refund(p, amount, RefundProcessing, false)][r := Refund(p, amount, RefundFailed, false)]
          == db.refunds[r := Refund(p, amount, RefundFailed, false)];
    }
  }

  lemma RefundEventRecords(db: Db, kind: RefundEventKind, reference: Option<Option<RefundId>>)
    requires Inv(db) && Recorded(db)
    ensures Recorded(RefundEvent(db, kind, reference).0)
  {
    if reference.Some? && reference.value.Some? && reference.value.value in db.refunds {
      var r := reference.value.value;
      assert RefundOk(db, r);
      var p := db.refunds[r].payment;
      var status := match kind { case EventProcessed => Processed case EventFailed => RefundFailed case EventPending => RefundProcessing };
      var updated := db.(refunds := db.refunds[r := db.refunds[r].(status := status)]);
      NewRefundRecords(db, r, updated.refunds[r], db.nextId);
      if kind == EventProcessed {
        var refunded := updated.(payments := db.payments[p := db.payments[p].(status := Refunded)]);
        KeptPaymentRow(updated, p, refunded.payments[p]);
        SameRecords(updated, refunded);
        ReverseRecords(refunded, r);
      }
    }
  }

  // ---------------------------------------------------------------- payouts

  lemma PayRecords(db: Db, q: PayoutId)
    requires Inv(db) && Recorded(db) && q in db.payouts && (db.payouts[q].status == Approved || db.payouts[q].status == Processing)
    ensures Recorded(PayPayout(db, q))
  {
    KeptPayPayout(db, q);
    forall p ensures PaymentEarning(p) in PayPayout(db, q).books.txs <==> PaymentEarning(p) in db.books.txs {
      NoEarningPosted(db.books, PaidPostings(q, db.payouts[q].driver, db.payouts[q].amount), p);
    }
    SameRecords(db, PayPayout(db, q));
  }

  lemma TransferRecords(db: Db, q: PayoutId, env: TransferEnv)
    requires Inv(db) && Recorded(db)
    ensures Recorded(InitiateTransfer(db, q, env).0)
  {
    KeptInitiateTransfer(db, q, env);
    var db' := InitiateTransfer(db, q, env).0;
    if db' != db {
      if !env.secretKey || db.payouts[q].provider != Paystack {
        PayRecords(db, q);
      } else {
        SameRecords(db, db');
      }
    }
  }

  lemma TransferStepRecords(db: Db, step: Step)
    requires Inv(db) && Recorded(db) && IsTransferStep(step)
    ensures Recorded(Apply(db, step))
  {
    ProviderStepKept(db, step);
    match step
    case StepTransfer(q, env) => TransferRecords(db, q, env);
    case StepRetry(q, env) =>
      if q in db.payouts && db.payouts[q].status == PayoutFailed {
        var payout := db.payouts[q].(status := Approved, transferCode := None);
        var reopened := SetPayout(db, q, payout);
        KeptPayoutRow(db, q, payout);
        SameRecords(db, reopened);
        TransferRecords(reopened, q, env);
        if !InitiateTransfer(reopened, q, env).1 {
          SameRecords(db, Apply(db, step));
        }
      }
    case StepTransferSuccess(code) =>
      if code.Some? && PayoutOfCode(db.payouts, code.value).Some? {
        var q := PayoutOfCode(db.payouts, code.value).value;
        if db.payouts[q].status == Processing {
          PayRecords(db, q);
        }
      }
    case StepTransferFailed(code) => SameRecords(db, Apply(db, step));
  }

  lemma ApproveRecords(db: Db, q: PayoutId)
    requires Inv(db) && Recorded(db)
    ensures Recorded(ApprovePayout(db, q))
  {
    var db' := ApprovePayout(db, q);
    KeptApprovePayout(db, q);
    if db' != db {
      forall p ensures PaymentEarning(p) in db'.books.txs ==> PaymentEarning(p) in db.books.txs {
        NoEarningPosted(db.books, ApprovedPostings(q, db.payouts[q].amount), p);
      }
      SameRecords(db, db');
    }
  }

  lemma FailRecords(db: Db, q: PayoutId)
    requires Inv(db) && Recorded(db)
    ensures Recorded(MarkPayoutFailed(db, q))
  {
    var db' := MarkPayoutFailed(db, q);
    KeptMarkPayoutFailed(db, q);
    if q in db.payouts {
      forall p ensures PaymentEarning(p) in db'.books.txs ==> PaymentEarning(p) in db.books.txs {
        NoEarningPosted(db.books, FailedPostings(q, db.payouts[q].amount), p);
      }
    }
    SameRecords(db, db');
  }

  lemma MoveRecords(db: Db, q: PayoutId, from: PayoutStatus, to: PayoutStatus)
    requires Recorded(db) && Advances(db, MovePayout(db, q, from, to))
    ensures Recorded(MovePayout(db, q, from, to))
  {
    SameRecords(db, MovePayout(db, q, from, to));
  }

  lemma PayoutRequestRecords(db: Db, d: DriverId, amount: int, eligible: bool)
    requires Inv(db) && Recorded(db)
    ensures Recorded(RequestPayout(db, d, amount, eligible))
  {
    KeptRequestPayout(db, d, amount, eligible);
    SameRecords(db, RequestPayout(db, d, amount, eligible));
  }

  lemma AdminStepRecords(db: Db, step: Step)
    requires Inv(db) && Recorded(db) && IsAdminPayoutStep(step)
    ensures Recorded(Apply(db, step))
  {
    AdminPayoutStepKept(db, step);
    match step
    case StepApprove(q) => ApproveRecords(db, q);
    case StepMarkFailed(q) => FailRecords(db, q);
    case StepReject(q) => MoveRecords(db, q, Requested, Rejected);
    case StepMarkProcessing(q) => MoveRecords(db, q, Approved, Processing);
    case StepMarkPaid(q) => MoveRecords(db, q, Processing, Paid);
    case StepRequestPayout(d, amount, eligible) => PayoutRequestRecords(db, d, amount, eligible);
  }

  // ---------------------------------------------------------------- every step, every run

  lemma StepRecords(db: Db, step: Step)
    requires Inv(db) && Recorded(db)
    ensures Recorded(Apply(db, step))
  {
    if IsPaymentStep(step) {
      PaymentStepRecords(db, step);
    } else if IsAdminPayoutStep(step) {
      AdminStepRecords(db, step);
    } else if IsTransferStep(step) {
      TransferStepRecords(db, step);
    } else {
      match step
      case StepRequestRefund(p, secretKey, response) => RequestRefundRecords(db, p, secretKey, response);
      case StepRefundEvent(kind, refund) => RefundEventRecords(db, kind, refund);
      case StepReconcile(r) => ReverseRecords(db, r);
    }
  }

  /** Over every run, what happened and what is posted say the same, in both directions: a payment
      exists exactly if its pending reference is posted; it was captured exactly if its captured
      and commission references are; a refund is closed exactly if its two debits are posted; a
      driver's earning is posted exactly if one payout was created for the payment, and that
      payout has the amount of the earning. */
  lemma {:induction false} StatusIffPosted(db: Db, steps: seq<Step>)
    requires Inv(db) && Recorded(db)
    ensures var db' := Run(db, steps);
            var txs := db'.books.txs;
            && Inv(db') && Recorded(db')
            && (forall p :: PaymentPending(p) in txs <==> p in db'.payments)
            && (forall p :: PaymentCaptured(p) in txs <==> CapturedPayment(db', p))
            && (forall p :: PaymentCommission(p) in txs <==> CapturedPayment(db', p))
            && (forall r :: RefundProcessed(r) in txs <==> ClosedRefund(db', r))
            && (forall r :: RefundCommission(r) in txs <==> ClosedRefund(db', r))
            && (forall p :: PaymentEarning(p) in txs <==> HasPendingPayout(txs, p))
            && (forall p, q :: IsPendingPayoutOf(txs, p, q) ==>
                  q in db'.payouts && PaymentEarning(p) in txs && db'.payouts[q].amount == txs[PaymentEarning(p)].amount)
  {
    if steps != [] {
      StatusIffPosted(db, steps[..|steps| - 1]);
      StepRecords(Run(db, steps[..|steps| - 1]), steps[|steps| - 1]);
    }
    RunKept(db, steps);
    BothWays(Run(db, steps));
  }

  /** A payment is captured once: after its capture, at any later point of any run, capturing it
      again, with whatever driver, changes nothing. */
  lemma CaptureHappensOnce(db: Db, p: PaymentId, steps: seq<Step>, driver: Option<DriverId>)
    requires Inv(db) && CapturedPayment(db, p)
    ensures Capture(Run(db, steps), db.payments[p].trip, driver) == Run(db, steps)
  {
    RunKept(db, steps);
    var after := Run(db, steps);
    assert PaymentAdvances(db, after, p);
    assert IsPaymentOf(after.payments, db.payments[p].trip, p);
    assert PaymentOfTrip(after.payments, db.payments[p].trip) == Some(p);
  }

  /** In a state that satisfies the invariant and is recorded, both directions hold. */
  lemma BothWays(db: Db)
    requires Inv(db) && Recorded(db)
    ensures forall p :: PaymentPending(p) in db.books.txs <==> p in db.payments
    ensures forall p :: PaymentCaptured(p) in db.books.txs <==> CapturedPayment(db, p)
    ensures forall p :: PaymentCommission(p) in db.books.txs <==> CapturedPayment(db, p)
    ensures forall r :: RefundProcessed(r) in db.books.txs <==> ClosedRefund(db, r)
    ensures forall r :: RefundCommission(r) in db.books.txs <==> ClosedRefund(db, r)
    ensures forall p :: PaymentEarning(p) in db.books.txs <==> HasPendingPayout(db.books.txs, p)
    ensures forall p, q :: IsPendingPayoutOf(db.books.txs, p, q) ==>
              q in db.payouts && PaymentEarning(p) in db.books.txs && db.payouts[q].amount == db.books.txs[PaymentEarning(p)].amount
  {
    forall p
      ensures PaymentPending(p) in db.books.txs <==> p in db.payments
      ensures PaymentCaptured(p) in db.books.txs <==> CapturedPayment(db, p)
      ensures PaymentCommission(p) in db.books.txs <==> CapturedPayment(db, p)
    {
      assert PaymentRecorded(db, p);
      RowOf(db, PaymentPending(p));
      RowOf(db, PaymentCaptured(p));
      RowOf(db, PaymentCommission(p));
    }
    forall r
      ensures RefundProcessed(r) in db.books.txs <==> ClosedRefund(db, r)
      ensures RefundCommission(r) in db.books.txs <==> ClosedRefund(db, r)
    {
      assert RefundRecorded(db, r);
      RowOf(db, RefundProcessed(r));
      RowOf(db, RefundCommission(r));
    }
    forall p, q | IsPendingPayoutOf(db.books.txs, p, q)
      ensures q in db.payouts && PaymentEarning(p) in db.books.txs && db.payouts[q].amount == db.books.txs[PaymentEarning(p)].amount
    {
      RowOf(db, PayoutPending(q));
      RowOf(db, PaymentEarning(p));
    }
    forall p ensures PaymentEarning(p) in db.books.txs <==> HasPendingPayout(db.books.txs, p) {
      assert PaymentRecorded(db, p);
    }
  }
}
