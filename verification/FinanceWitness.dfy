/** Runs from given tables, and what they show to be possible: an earning of 0 that is reversed and
    paid, a negative wallet let through by the reversal guard, a payout request that the asking
    driver's wallet does not cover. */
module FinanceWitness {
  import opened Common
  import opened Ledger
  import opened Finance
  import opened FinanceInvariants
  import opened FinanceSteps
  import opened FinanceBooks
  import opened FinancePostings
  import opened FinanceUnpaid
  import FinanceResults
  import Money

  lemma RunOne(db: Db, step: Step)
    ensures Run(db, [step]) == Apply(db, step)
  {
    assert [step][..0] == [];
  }

  // ---------------------------------------------------------------- a ride

  /** A trip is opened, gets its driver and a payment. */
  function Boarding(t: TripId, d: DriverId, gross: nat): seq<Step> {
    [OpenTrip(t)] + ([AssignDriver(t, d)] + [StepInitiate(t, gross, OtherProvider)])
  }

  /** And it is completed. */
  function Ride(t: TripId, d: DriverId, gross: nat): seq<Step> {
    Boarding(t, d, gross) + [StepComplete(t)]
  }

  ghost predicate NewTrip(db: Db, t: TripId) {
    t !in db.trips && forall p :: !IsPaymentOf(db.payments, t, p)
  }

  /** The tables of a trip that is about to be completed. */
  function Boarded(db: Db, t: TripId, d: DriverId, gross: nat): Db {
    InitiatePayment(db.(trips := db.trips[t := Trip(false, Some(d))]), t, gross, OtherProvider)
  }

  lemma ThreeSteps(db: Db, x: Step, y: Step, z: Step)
    ensures Run(db, [x] + ([y] + [z])) == Apply(Apply(Apply(db, x), y), z)
  {
    FinanceResults.RunAppends(db, [x], [y] + [z]);
    RunOne(db, x);
    FinanceResults.RunAppends(Apply(db, x), [y], [z]);
    RunOne(Apply(db, x), y);
    RunOne(Apply(Apply(db, x), y), z);
  }

  lemma BoardedIsReached(db: Db, t: TripId, d: DriverId, gross: nat)
    requires NewTrip(db, t)
    ensures Run(db, Boarding(t, d, gross)) == Boarded(db, t, d, gross)
  {
    ThreeSteps(db, OpenTrip(t), AssignDriver(t, d), StepInitiate(t, gross, OtherProvider));
    var ready := db.(trips := db.trips[t := Trip(false, Some(d))]);
    assert Apply(Apply(db, OpenTrip(t)), AssignDriver(t, d)) == ready;
    assert PaymentOfTrip(ready.payments, t) == None;
  }

  /** After the ride the payment is captured and its payout requested, and the wallet and
      DRIVER_PAYABLE have the driver's share more. */
  ghost predicate RideDone(db: Db, db': Db, t: TripId, d: DriverId, gross: nat) {
    var p, q := db.nextId, db.nextId + 1;
    && Inv(db') && db'.nextId == q + 1
    && p in db'.payments && db'.payments[p] == Payment(t, gross, OtherProvider, Captured, false)
    && db'.payouts == db.payouts[q := Payout(d, DriverShare(gross), OtherProvider, Requested, None)]
    && db'.refunds == db.refunds
    && IsPendingPayoutOf(db'.books.txs, p, q) && PaymentEarning(p) in db'.books.txs
    && HasPayoutAccounts(db')
    && (forall e :: Balance(db'.books, OnWallet(e)) == Balance(db.books, OnWallet(e)) + if e == d then DriverShare(gross) else 0)
    && Balance(db'.books, OnAccount(DriverPayable)) == Balance(db.books, OnAccount(DriverPayable)) + DriverShare(gross)
  }

  /** What the postings of a capture with a driver do to the wallets and to DRIVER_PAYABLE. */
  lemma CaptureBalances(b: Books, p: PaymentId, d: DriverId, q: PayoutId, gross: nat)
    requires PaymentCaptured(p) !in b.txs && PaymentCommission(p) !in b.txs
    requires PaymentEarning(p) !in b.txs && PaymentPayable(p) !in b.txs && PayoutPending(q) !in b.txs
    ensures var b' := PostAll(PostAll(b, CapturePostings(p, gross)), EarningPostings(p, d, q, gross));
            && DriverPayable in b'.accounts && PayoutClearing in b'.accounts
            && (forall e :: Balance(b', OnWallet(e)) == Balance(b, OnWallet(e)) + if e == d then DriverShare(gross) else 0)
            && Balance(b', OnAccount(DriverPayable)) == Balance(b, OnAccount(DriverPayable)) + DriverShare(gross)
  {
    var b1 := Post(b, CapturedPosting(p, gross));
    var b2 := Post(b1, CommissionPosting(p, gross));
    var b3 := Post(b2, EarningPosting(p, d, gross));
    var b4 := Post(b3, PayablePosting(p, gross));
    PostTwo(b, CapturedPosting(p, gross), CommissionPosting(p, gross));
    PostThree(b2, EarningPosting(p, d, gross), PayablePosting(p, gross), PendingPosting(q, p, gross));
    forall t: Target
      ensures Balance(Post(b4, PendingPosting(q, p, gross)), t)
           == Balance(b, t) + (if t == OnAccount(CashClearing) then gross else 0)
              + (if t == OnAccount(CommissionRevenue) then gross - DriverShare(gross) else 0)
              + (if t == OnWallet(d) || t == OnAccount(DriverPayable) || t == OnAccount(PayoutClearing) then DriverShare(gross) else 0)
    {
      BalanceAfterPost(b, CapturedPosting(p, gross), t);
      BalanceAfterPost(b1, CommissionPosting(p, gross), t);
      BalanceAfterPost(b2, EarningPosting(p, d, gross), t);
      BalanceAfterPost(b3, PayablePosting(p, gross), t);
      BalanceAfterPost(b4, PendingPosting(q, p, gross), t);
    }
  }

  /** The boarded tables with the trip completed, right before the capture. */
  function Arrived(db: Db, t: TripId, d: DriverId, gross: nat): Db {
    var boarded := Boarded(db, t, d, gross);
    boarded.(trips := boarded.trips[t := Trip(true, Some(d))])
  }

  lemma ArrivedIsInOrder(db: Db, t: TripId, d: DriverId, gross: nat)
    requires Inv(db) && NewTrip(db, t)
    ensures Inv(Arrived(db, t, d, gross)) && PaymentOfTrip(Arrived(db, t, d, gross).payments, t) == Some(db.nextId)
  {
    var ready := db.(trips := db.trips[t := Trip(false, Some(d))]);
    KeptTrips(db, ready.trips);
    assert PaymentOfTrip(ready.payments, t) == None;
    KeptInitiate(ready, t, gross, OtherProvider);
    assert Boarded(db, t, d, gross) == Initiate(ready, t, gross, OtherProvider);
    var done := Arrived(db, t, d, gross);
    KeptTrips(Boarded(db, t, d, gross), done.trips);
    assert IsPaymentOf(done.payments, t, db.nextId);
  }

  lemma BoardedCompletes(db: Db, t: TripId, d: DriverId, gross: nat)
    requires Inv(db) && NewTrip(db, t)
    ensures Apply(Boarded(db, t, d, gross), StepComplete(t)) == CaptureRow(Arrived(db, t, d, gross), db.nextId, Some(d))
  {
    ArrivedIsInOrder(db, t, d, gross);
    var boarded := Boarded(db, t, d, gross);
    assert boarded.trips[t] == Trip(false, Some(d));
    assert boarded.trips[t := boarded.trips[t].(completed := true)] == Arrived(db, t, d, gross).trips;
  }

  lemma LastStep(db: Db, front: seq<Step>, last: Step, mid: Db, end: Db)
    requires Run(db, front) == mid && Apply(mid, last) == end
    ensures Run(db, front + [last]) == end
  {
    assert (front + [last])[..|front|] == front;
  }

  lemma RideCaptures(db: Db, t: TripId, d: DriverId, gross: nat)
    requires Inv(db) && NewTrip(db, t)
    ensures Run(db, Ride(t, d, gross)) == CaptureRow(Arrived(db, t, d, gross), db.nextId, Some(d))
  {
    BoardedIsReached(db, t, d, gross);
    BoardedCompletes(db, t, d, gross);
    LastStep(db, Boarding(t, d, gross), StepComplete(t), Boarded(db, t, d, gross),
             CaptureRow(Arrived(db, t, d, gross), db.nextId, Some(d)));
  }

  lemma ArrivedBalances(db: Db, t: TripId, d: DriverId, gross: nat)
    requires Inv(db) && NewTrip(db, t)
    ensures var b := CaptureRow(Arrived(db, t, d, gross), db.nextId, Some(d)).books;
            && DriverPayable in b.accounts && PayoutClearing in b.accounts
            && (forall e :: Balance(b, OnWallet(e)) == Balance(db.books, OnWallet(e)) + if e == d then DriverShare(gross) else 0)
            && Balance(b, OnAccount(DriverPayable)) == Balance(db.books, OnAccount(DriverPayable)) + DriverShare(gross)
  {
    ArrivedIsInOrder(db, t, d, gross);
    NothingCaptured(Arrived(db, t, d, gross), db.nextId);
    CaptureBalances(Arrived(db, t, d, gross).books, db.nextId, d, db.nextId + 1, gross);
    BoardedBalances(db, t, d, gross);
  }

  lemma RideIsDone(db: Db, t: TripId, d: DriverId, gross: nat)
    requires Inv(db) && NewTrip(db, t)
    ensures RideDone(db, Run(db, Ride(t, d, gross)), t, d, gross)
  {
    RideCaptures(db, t, d, gross);
    ArrivedIsInOrder(db, t, d, gross);
    KeptEarning(Arrived(db, t, d, gross), db.nextId, d);
    PendingPayoutOwner(CaptureRow(Arrived(db, t, d, gross), db.nextId, Some(d)), db.nextId, db.nextId + 1);
    ArrivedBalances(db, t, d, gross);
  }

  lemma BoardedBalances(db: Db, t: TripId, d: DriverId, gross: nat)
    ensures var b := Boarded(db, t, d, gross).books;
            && (forall e :: Balance(b, OnWallet(e)) == Balance(db.books, OnWallet(e)))
            && Balance(b, OnAccount(DriverPayable)) == Balance(db.books, OnAccount(DriverPayable))
  {
  }

  // ---------------------------------------------------------------- a direct refund

  function CreatedRefund(db: Db, p: PaymentId): Db
    requires p in db.payments
  {
    db.(refunds := db.refunds[db.nextId := Refund(p, db.payments[p].amount, Processed, false)], nextId := db.nextId + 1)
  }

  /** The guard lets a refund of payment `p`, whose payout is `q`, take the earning back. */
  ghost predicate Refundable(db: Db, p: PaymentId, q: PayoutId) {
    && Inv(db) && p in db.payments && db.payments[p].status == Captured && db.payments[p].provider == OtherProvider
    && db.refunds == map[] && IsPendingPayoutOf(db.books.txs, p, q) && PaymentEarning(p) in db.books.txs
    && q in db.payouts && (db.payouts[q].status == Requested || db.payouts[q].status == Approved)
    && Money.ReadBack(Balance(db.books, OnWallet(db.payouts[q].driver))) >= DriverShare(db.payments[p].amount)
  }

  lemma DecidesToReverse(db: Db, p: PaymentId, q: PayoutId)
    requires Refundable(db, p, q)
    ensures var debited := db.(books := PostAll(db.books, RefundPostings(db.nextId, p, db.payments[p].amount)));
            EarningDecision(CreatedRefund(debited, p), p, db.payments[p].amount) == Reverse(q)
  {
    var r, gross := db.nextId, db.payments[p].amount;
    var created := CreatedRefund(db, p);
    KeptRefundRow(db, r, created.refunds[r], r + 1);
    var ps := RefundPostings(r, p, gross);
    var books := PostAll(db.books, ps);
    DebitPostingsOnly(created, r);
    assert IsPendingPayoutOf(books.txs, p, q);
    assert PendingPayoutOf(books.txs, p) == Some(q);
    PostTwo(db.books, ps[0], ps[1]);
    assert books.wallets == db.books.wallets;
  }

  lemma RequestIsReversal(db: Db, p: PaymentId, q: PayoutId)
    requires Refundable(db, p, q)
    ensures Apply(db, StepRequestRefund(p, false, Unreachable)) == ReverseRefund(CreatedRefund(db, p), db.nextId)
  {
    assert !HasOpenRefund(db, p);
  }

  /** A refund of that payment which the guard lets through reverses the earning. */
  lemma RefundReverses(db: Db, p: PaymentId, q: PayoutId)
    requires Refundable(db, p, q)
    ensures var r := db.nextId;
            var db' := Apply(db, StepRequestRefund(p, false, Unreachable));
            && Inv(db') && r in db'.refunds && db'.refunds[r].payment == p && RefundEarningWallet(r) in db'.books.txs
            && db'.payouts == db.payouts[q := AfterReversal(db.payouts[q])]
            && IsPendingPayoutOf(db'.books.txs, p, q)
  {
    var r, gross := db.nextId, db.payments[p].amount;
    var created := CreatedRefund(db, p);
    RequestIsReversal(db, p, q);
    DecidesToReverse(db, p, q);
    StepKept(db, StepRequestRefund(p, false, Unreachable));
    assert PostingKept(db, ReverseRefund(created, r), PayoutPending(q));
    var books := PostAll(db.books, RefundPostings(r, p, gross));
    var qs := ReversalPostings(r, p, db.payouts[q].driver, gross);
    PostTwo(books, qs[0], qs[1]);
  }

  // ---------------------------------------------------------------- reversed and paid

  /** Payment `p` has its earning taken back by refund `r` and paid out by payout `q`. */
  ghost predicate ReversedAndPaid(db: Db, p: PaymentId, q: PayoutId, r: RefundId) {
    && p in db.payments && r in db.refunds && db.refunds[r].payment == p
    && RefundEarningWallet(r) in db.books.txs
    && IsPendingPayoutOf(db.books.txs, p, q) && PaidPayout(db, q)
  }

  function ZeroRun(gross: nat): seq<Step> {
    Ride(0, 0, gross) + ([StepApprove(1)] + ([StepRequestRefund(0, false, Unreachable)]
    + [StepTransfer(1, TransferEnv(false, false, None))]))
  }

  lemma ApprovedOnly(db: Db, q: PayoutId, open: Books)
    requires Inv(db) && LedgerOk(open, db.books) && HasPayoutAccounts(db)
    requires q in db.payouts && db.payouts[q].status == Requested && db.payouts[q].amount == 0
    ensures var db' := ApprovePayout(db, q);
            && db'.payments == db.payments && db'.refunds == db.refunds && db'.nextId == db.nextId
            && db'.payouts == db.payouts[q := db.payouts[q].(status := Approved)]
            && db'.books == PostAll(db.books, ApprovedPostings(q, 0))
  {
    ApproveCommitsIff(open, db, q);
  }

  /** The wallets are as before after an approval of amount 0. */
  lemma ApprovedWallets(b: Books, q: PayoutId, t: Target)
    ensures Balance(PostAll(b, ApprovedPostings(q, 0)), t) == Balance(b, t)
  {
    var ps := ApprovedPostings(q, 0);
    PostTwo(b, ps[0], ps[1]);
    PostBalanceZero(b, ps[0], t);
    PostBalanceZero(Post(b, ps[0]), ps[1], t);
  }

  lemma PostBalanceZero(b: Books, p: Posting, t: Target)
    requires p.amount == 0
    ensures Balance(Post(b, p), t) == Balance(b, t)
  {
    if p.ref !in b.txs {
      BalanceAfterPost(b, p, t);
    }
  }

  lemma ZeroRidden(gross: nat)
    requires gross <= 1
    ensures RideDone(EMPTY, Run(EMPTY, Ride(0, 0, gross)), 0, 0, gross) && DriverShare(gross) == 0
    ensures LedgerOk(Opened(map[], map[]), Run(EMPTY, Ride(0, 0, gross)).books)
    ensures Refundable(Run(EMPTY, Ride(0, 0, gross)), 0, 1)
  {
    EmptyIsQuiet();
    forall p ensures !IsPaymentOf(EMPTY.payments, 0, p) {}
    RideIsDone(EMPTY, 0, 0, gross);
    assert Balance(EMPTY.books, OnWallet(0)) == 0;
    RideIsRefundable(EMPTY, Run(EMPTY, Ride(0, 0, gross)), 0, 0, gross);
    RunLedgerOk(Opened(map[], map[]), EMPTY, Ride(0, 0, gross));
  }

  /** The payout of 0 is approved and the earning of 0 can be taken back. */
  lemma ZeroApproved(gross: nat)
    requires gross <= 1
    ensures var approved := Apply(Run(EMPTY, Ride(0, 0, gross)), StepApprove(1));
            && Refundable(approved, 0, 1) && approved.nextId == 2 && approved.payments[0].amount == gross
            && approved.payouts[1].status == Approved && approved.payouts[1].provider == OtherProvider
  {
    ZeroRidden(gross);
    ApprovedIsRefundable(Run(EMPTY, Ride(0, 0, gross)), 0, 1, Opened(map[], map[]));
  }

  lemma ApprovedIsRefundable(db: Db, p: PaymentId, q: PayoutId, open: Books)
    requires Refundable(db, p, q) && LedgerOk(open, db.books) && HasPayoutAccounts(db)
    requires db.payouts[q].status == Requested && db.payouts[q].amount == 0
    ensures var approved := Apply(db, StepApprove(q));
            && Refundable(approved, p, q) && approved.nextId == db.nextId && approved.payments == db.payments
            && approved.payouts[q] == db.payouts[q].(status := Approved)
  {
    ApprovedOnly(db, q, open);
    var approved := Apply(db, StepApprove(q));
    StepKept(db, StepApprove(q));
    assert PostingKept(db, approved, PayoutPending(q)) && PostingKept(db, approved, PaymentEarning(p));
    ApprovedWallets(db.books, q, OnWallet(db.payouts[q].driver));
  }

  /** A refunded payout that is still APPROVED is paid by the next transfer. */
  lemma PaidAfterRefund(db: Db, p: PaymentId, q: PayoutId)
    requires Refundable(db, p, q) && db.payouts[q].status == Approved && db.payouts[q].provider == OtherProvider
    ensures var refunded := Apply(db, StepRequestRefund(p, false, Unreachable));
            var paid := Apply(refunded, StepTransfer(q, TransferEnv(false, false, None)));
            ReversedAndPaid(paid, p, q, db.nextId) && paid.payments[p].amount == db.payments[p].amount
  {
    RefundReverses(db, p, q);
    var request, pay := StepRequestRefund(p, false, Unreachable), StepTransfer(q, TransferEnv(false, false, None));
    var refunded := Apply(db, request);
    var paid := Apply(refunded, pay);
    StepKept(db, request);
    StepKept(refunded, pay);
    assert RefundAdvances(refunded, paid, db.nextId) && PaymentAdvances(refunded, paid, p) && PaymentAdvances(db, refunded, p);
    assert PostingKept(refunded, paid, RefundEarningWallet(db.nextId)) && PostingKept(refunded, paid, PayoutPending(q));
  }

  /** From empty tables, a gross of 0 or 1 minor unit gives a share of 0, whose payout can be
      approved, kept by the reversal, and paid. */
  lemma ZeroEarningReversedAndPaid(gross: nat)
    requires gross <= 1
    ensures var db := Run(EMPTY, ZeroRun(gross)); ReversedAndPaid(db, 0, 1, 2) && db.payments[0].amount == gross
  {
    ZeroApproved(gross);
    PaidAfterRefund(Apply(Run(EMPTY, Ride(0, 0, gross)), StepApprove(1)), 0, 1);
    FinanceResults.RunAppends(EMPTY, Ride(0, 0, gross), [StepApprove(1)] + ([StepRequestRefund(0, false, Unreachable)]
                              + [StepTransfer(1, TransferEnv(false, false, None))]));
    ThreeSteps(Run(EMPTY, Ride(0, 0, gross)), StepApprove(1), StepRequestRefund(0, false, Unreachable),
               StepTransfer(1, TransferEnv(false, false, None)));
  }

  /** From empty tables, the earning of a payment can be both reversed and paid if and only if the
      payment is of at most 1 minor unit, that is, exactly if the earning is 0. */
  lemma ReversedAndPaidIff(gross: nat)
    ensures (exists steps, p, q, r ::
               ReversedAndPaid(Run(EMPTY, steps), p, q, r) && Run(EMPTY, steps).payments[p].amount == gross)
            <==> gross <= 1
  {
    if gross <= 1 {
      ZeroEarningReversedAndPaid(gross);
    }
    forall steps, p, q, r | ReversedAndPaid(Run(EMPTY, steps), p, q, r) && Run(EMPTY, steps).payments[p].amount == gross
      ensures gross <= 1
    {
      PaidEarningIsZero(steps, p, q);
    }
  }

  /** From empty tables, whatever the run: a paid earning is an earning of 0. */
  lemma PaidEarningIsZero(steps: seq<Step>, p: PaymentId, q: PayoutId)
    requires var db := Run(EMPTY, steps); IsPendingPayoutOf(db.books.txs, p, q) && PaidPayout(db, q)
    ensures var db := Run(EMPTY, steps); p in db.payments && DriverShare(db.payments[p].amount) == 0 && db.payments[p].amount <= 1
  {
    EmptyIsQuiet();
    NoPositivePayoutIsPaid(Opened(map[], map[]), EMPTY, steps);
    RowOf(Run(EMPTY, steps), PayoutPending(q));
  }

  // ---------------------------------------------------------------- the guard lets a negative wallet through

  /** Tables with one payout at the provider, as a migration or a seed may leave them. */
  const ONE_PROCESSING: Db :=
    EMPTY.(payouts := map[0 := Payout(1, 90, Paystack, Processing, Some(7))], nextId := 1)

  /** The payout is paid from an empty wallet, a ride earns 40, and its refund finds -50. */
  function NegativeRun(): seq<Step> {
    [StepTransferSuccess(Some(7))] + (Ride(0, 1, 50) + [StepRequestRefund(1, false, Unreachable)])
  }

  lemma PaidFromEmptyWallet()
    ensures Inv(ONE_PROCESSING)
    ensures var paid := Apply(ONE_PROCESSING, StepTransferSuccess(Some(7)));
            && Inv(paid) && paid.nextId == 1 && paid.trips == map[] && paid.payments == map[] && paid.refunds == map[]
            && Balance(paid.books, OnWallet(1)) == -90
  {
    assert Inv(ONE_PROCESSING);
    assert HasCode(ONE_PROCESSING.payouts, 7, 0);
    assert PayoutOfCode(ONE_PROCESSING.payouts, 7) == Some(0);
    StepKept(ONE_PROCESSING, StepTransferSuccess(Some(7)));
    var ps := PaidPostings(0, 1, 90);
    PostThree(ONE_PROCESSING.books, ps[0], ps[1], ps[2]);
  }

  lemma NegativeUnrolls()
    ensures var ridden := Run(Apply(ONE_PROCESSING, StepTransferSuccess(Some(7))), Ride(0, 1, 50));
            && Run(ONE_PROCESSING, NegativeRun()[..|NegativeRun()| - 1]) == ridden
            && Run(ONE_PROCESSING, NegativeRun()) == Apply(ridden, StepRequestRefund(1, false, Unreachable))
  {
    var success, request := StepTransferSuccess(Some(7)), StepRequestRefund(1, false, Unreachable);
    RunOne(ONE_PROCESSING, success);
    FinanceResults.RunAppends(ONE_PROCESSING, [success], Ride(0, 1, 50));
    assert NegativeRun() == [success] + Ride(0, 1, 50) + [request];
    assert NegativeRun()[..|NegativeRun()| - 1] == [success] + Ride(0, 1, 50);
  }

  /** A finished ride whose driver's wallet reads back as at least the share can be refunded. */
  lemma RideIsRefundable(before: Db, db: Db, t: TripId, d: DriverId, gross: nat)
    requires RideDone(before, db, t, d, gross) && before.refunds == map[]
    requires Money.ReadBack(Balance(db.books, OnWallet(d))) >= DriverShare(gross)
    ensures Refundable(db, before.nextId, before.nextId + 1) && db.nextId == before.nextId + 2
  {
  }

  lemma RiddenFrom(paid: Db)
    requires Inv(paid) && paid.nextId == 1 && paid.trips == map[] && paid.payments == map[] && paid.refunds == map[]
    requires Balance(paid.books, OnWallet(1)) == -90
    ensures var ridden := Run(paid, Ride(0, 1, 50));
            Refundable(ridden, 1, 2) && ridden.nextId == 3 && Balance(ridden.books, OnWallet(1)) == -50
  {
    forall p ensures !IsPaymentOf(paid.payments, 0, p) {}
    RideIsDone(paid, 0, 1, 50);
    assert Money.ReadBack(-50) == 50 && DriverShare(50) == 40;
    RideIsRefundable(paid, Run(paid, Ride(0, 1, 50)), 0, 1, 50);
  }

  lemma RiddenAtMinusFifty()
    ensures var ridden := Run(Apply(ONE_PROCESSING, StepTransferSuccess(Some(7))), Ride(0, 1, 50));
            && Refundable(ridden, 1, 2) && ridden.nextId == 3 && Balance(ridden.books, OnWallet(1)) == -50
  {
    PaidFromEmptyWallet();
    RiddenFrom(Apply(ONE_PROCESSING, StepTransferSuccess(Some(7))));
  }

  /** A wallet at -50 passes the check for a share of 40, and the reversal takes it to -90. */
  lemma GuardLetsNegativeThrough()
    ensures var steps := NegativeRun();
            var before, after := Run(ONE_PROCESSING, steps[..|steps| - 1]), Run(ONE_PROCESSING, steps);
            && Inv(ONE_PROCESSING)
            && Balance(before.books, OnWallet(1)) == -50 && DriverShare(50) == 40
            && RefundEarningWallet(3) !in before.books.txs && RefundEarningWallet(3) in after.books.txs
  {
    PaidFromEmptyWallet();
    NegativeUnrolls();
    RiddenAtMinusFifty();
    var ridden := Run(Apply(ONE_PROCESSING, StepTransferSuccess(Some(7))), Ride(0, 1, 50));
    RefundReverses(ridden, 1, 2);
    RowOf(ridden, RefundEarningWallet(3));
  }

  // ---------------------------------------------------------------- a request the wallet does not cover

  /** From empty tables, whatever the run: a driver's accepted requests are covered by the driver's
      own wallet if and only if nobody can get anything or that wallet holds all there is. */
  lemma RunRequestsCoveredIff(steps: seq<Step>, d: DriverId)
    ensures var db := Run(EMPTY, steps);
            (forall amount: int :: FinanceResults.Accepted(db, d, amount) ==> amount <= Balance(db.books, OnWallet(d)))
            <==> SumWallets(db.books.wallets) < MIN_PAYOUT_THRESHOLD
                 || SumWallets(db.books.wallets) <= Balance(db.books, OnWallet(d))
  {
    EmptyIsQuiet();
    LiabilityNeverDrifts(Opened(map[], map[]), EMPTY, steps);
    FinanceResults.RequestsCoveredIff(Run(EMPTY, steps), d);
  }

  /** From empty tables, a driver with an empty wallet is accepted for what another one earned. */
  lemma UncoveredRequestAccepted()
    ensures var db := Run(EMPTY, Ride(0, 1, 125000));
            Balance(db.books, OnWallet(2)) == 0 && FinanceResults.Accepted(db, 2, MIN_PAYOUT_THRESHOLD)
  {
    EmptyIsQuiet();
    forall p ensures !IsPaymentOf(EMPTY.payments, 0, p) {}
    RideIsDone(EMPTY, 0, 1, 125000);
    assert DriverShare(125000) == MIN_PAYOUT_THRESHOLD;
  }

  // ---------------------------------------------------------------- transfers without a trace

  /** From empty tables, whatever the run: a transfer of a positive amount that the provider
      accepts is never recorded. */
  lemma PositiveTransferLeavesNoTrace(steps: seq<Step>, q: PayoutId, env: TransferEnv)
    requires var db := Run(EMPTY, steps);
             FinanceResults.SentTransfer(db, q, env).Some? && db.payouts[q].amount > 0
    ensures InitiateTransfer(Run(EMPTY, steps), q, env).0 == Run(EMPTY, steps)
  {
    EmptyIsQuiet();
    NoPositivePayoutIsPaid(Opened(map[], map[]), EMPTY, steps);
    assert IsUnpaid(Run(EMPTY, steps).payouts[q]);
  }
}
