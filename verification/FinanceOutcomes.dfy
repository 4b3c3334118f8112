/** What each payment, payout and refund operation leaves behind, case by case: the rows it writes, the
    references it posts, and how far every balance moves. */
module FinanceOutcomes {
  import opened Common
  import opened Ledger
  import opened Finance
  import opened FinanceInvariants
  import opened FinanceSteps
  import opened FinanceBooks
  import Money

  // ---------------------------------------------------------------- what a change posts

  /** Exactly these references are new, and every balance moves by this much, all others by nothing. */
  ghost predicate Posts(b: Books, b': Books, refs: set<Ref>, moves: map<Target, int>) {
    && b'.txs.Keys == b.txs.Keys + refs && refs !! b.txs.Keys
    && forall t :: Balance(b', t) == Balance(b, t) + if t in moves then moves[t] else 0
  }

  lemma OnePosts(b: Books, x: Posting)
    requires x.ref !in b.txs
    ensures Posts(b, Post(b, x), {x.ref}, map[x.target := Signed(x)])
  {
    forall t ensures Balance(Post(b, x), t) == Balance(b, t) + if t == x.target then Signed(x) else 0 {
      BalanceAfterPost(b, x, t);
    }
  }

  lemma TwoPost(b: Books, x: Posting, y: Posting)
    requires x.ref !in b.txs && y.ref !in b.txs && x.ref != y.ref && x.target != y.target
    ensures Posts(b, PostAll(b, [x, y]), {x.ref, y.ref}, map[x.target := Signed(x), y.target := Signed(y)])
  {
    PostTwo(b, x, y);
    forall t
      ensures Balance(PostAll(b, [x, y]), t)
           == Balance(b, t) + if t == x.target then Signed(x) else if t == y.target then Signed(y) else 0
    {
      BalanceAfterPost(b, x, t);
      BalanceAfterPost(Post(b, x), y, t);
    }
  }

  /** Two changes one after the other on different targets. */
  lemma PostsChain(a: Books, b: Books, c: Books, r: set<Ref>, r': set<Ref>, m: map<Target, int>, m': map<Target, int>)
    requires Posts(a, b, r, m) && Posts(b, c, r', m') && m.Keys !! m'.Keys
    ensures Posts(a, c, r + r', m + m')
  {
    assert r' !! a.txs.Keys;
    forall t ensures Balance(c, t) == Balance(a, t) + if t in m + m' then (m + m')[t] else 0 {
      assert Balance(c, t) == Balance(b, t) + if t in m' then m'[t] else 0;
      assert Balance(b, t) == Balance(a, t) + if t in m then m[t] else 0;
    }
  }

  lemma PostKeys(b: Books, x: Posting)
    ensures Post(b, x).txs.Keys == b.txs.Keys + {x.ref}
  {
  }

  lemma ThreeKeys(b: Books, x: Posting, y: Posting, z: Posting)
    ensures Post(Post(Post(b, x), y), z).txs.Keys == b.txs.Keys + {x.ref, y.ref, z.ref}
  {
    PostKeys(b, x);
    PostKeys(Post(b, x), y);
    PostKeys(Post(Post(b, x), y), z);
  }

  lemma ThreePost(b: Books, x: Posting, y: Posting, z: Posting)
    requires x.ref !in b.txs && y.ref !in b.txs && z.ref !in b.txs
    requires x.ref != y.ref && x.ref != z.ref && y.ref != z.ref
    requires x.target != y.target && x.target != z.target && y.target != z.target
    ensures Posts(b, PostAll(b, [x, y, z]), {x.ref, y.ref, z.ref},
                  map[x.target := Signed(x), y.target := Signed(y), z.target := Signed(z)])
  {
    PostThree(b, x, y, z);
    var b' := PostAll(b, [x, y, z]);
    ThreeKeys(b, x, y, z);
    assert {x.ref, y.ref, z.ref} !! b.txs.Keys;
    var moves := map[x.target := Signed(x), y.target := Signed(y), z.target := Signed(z)];
    forall t ensures Balance(b', t) == Balance(b, t) + if t in moves then moves[t] else 0 {
      ThreeBalances(b, x, y, z, t);
    }
  }

  lemma ThreeBalances(b: Books, x: Posting, y: Posting, z: Posting, t: Target)
    requires x.ref !in b.txs && y.ref !in b.txs && z.ref !in b.txs
    requires x.ref != y.ref && x.ref != z.ref && y.ref != z.ref
    ensures Balance(Post(Post(Post(b, x), y), z), t)
         == Balance(b, t) + (if t == x.target then Signed(x) else 0) + (if t == y.target then Signed(y) else 0)
            + (if t == z.target then Signed(z) else 0)
  {
    BalanceAfterPost(b, x, t);
    BalanceAfterPost(Post(b, x), y, t);
    BalanceAfterPost(Post(Post(b, x), y), z, t);
  }

  // ---------------------------------------------------------------- initiation and authorization

  /** No payment is of this trip. */
  ghost predicate Unpaid(db: Db, t: TripId) {
    forall p :: p in db.payments ==> db.payments[p].trip != t
  }

  /** A trip without a payment gets one, PENDING and unconfirmed, and CASH_CLEARING its amount. */
  ghost predicate Initiates(db: Db, db': Db, t: TripId, amount: nat, provider: Provider) {
    if t in db.trips && Unpaid(db, t) then
      && db' == db.(payments := db.payments[db.nextId := Payment(t, amount, provider, Pending, false)],
                    books := db'.books, nextId := db.nextId + 1)
      && Posts(db.books, db'.books, {PaymentPending(db.nextId)}, map[OnAccount(CashClearing) := amount])
    else db' == db
  }

  lemma InitiateOutcome(db: Db, t: TripId, amount: nat, provider: Provider)
    requires Inv(db)
    ensures Initiates(db, Initiate(db, t, amount, provider), t, amount, provider)
  {
    RowOf(db, PaymentPending(db.nextId));
    OnePosts(db.books, PendingPaymentPosting(db.nextId, amount));
    UnpaidIsNotFound(db, t);
  }

  lemma UnpaidIsNotFound(db: Db, t: TripId)
    ensures Unpaid(db, t) <==> PaymentOfTrip(db.payments, t) == None
  {
    if p :| IsPaymentOf(db.payments, t, p) {
      assert db.payments[p].trip == t;
    } else {
      forall p | p in db.payments ensures db.payments[p].trip != t {
        assert !IsPaymentOf(db.payments, t, p);
      }
    }
  }

  lemma FoundByTrip(db: Db, p: PaymentId)
    requires Keys(db) && p in db.payments
    ensures PaymentOfTrip(db.payments, db.payments[p].trip) == Some(p)
  {
    assert IsPaymentOf(db.payments, db.payments[p].trip, p);
  }

  /** Only a PENDING payment is authorized, and CASH_CLEARING gets its amount once more. */
  ghost predicate Authorizes(db: Db, db': Db, t: TripId) {
    && (Unpaid(db, t) ==> db' == db)
    && forall p :: p in db.payments && db.payments[p].trip == t ==>
         if db.payments[p].status == Pending then
           && db' == db.(payments := db.payments[p := db.payments[p].(status := Authorized)], books := db'.books)
           && Posts(db.books, db'.books, {PaymentAuthorized(p)}, map[OnAccount(CashClearing) := db.payments[p].amount])
         else db' == db
  }

  lemma AuthorizeOutcome(db: Db, t: TripId)
    requires Inv(db)
    ensures Authorizes(db, Authorize(db, t), t)
  {
    UnpaidIsNotFound(db, t);
    match PaymentOfTrip(db.payments, t)
    case None =>
    case Some(p) =>
      forall x | x in db.payments && db.payments[x].trip == t ensures x == p {
        assert IsPaymentOf(db.payments, t, x);
      }
      RowOf(db, PaymentAuthorized(p));
      if db.payments[p].status == Pending {
        OnePosts(db.books, AuthorizedPosting(p, db.payments[p].amount));
      }
  }

  // ---------------------------------------------------------------- capture

  /** The driver gets four fifths of the gross, rounded down, and the platform the rest. */
  ghost predicate CapturedFor(db: Db, db': Db, p: PaymentId, d: DriverId)
    requires p in db.payments
  {
    var payment := db.payments[p];
    var gross, share, q := payment.amount, 4 * payment.amount / 5, db.nextId;
    && db' == db.(payments := db.payments[p := payment.(status := Captured)],
                  payouts := db.payouts[q := Payout(d, share, payment.provider, Requested, None)],
                  books := db'.books, nextId := q + 1)
    && Posts(db.books, db'.books,
             {PaymentCaptured(p), PaymentCommission(p)} + {PaymentEarning(p), PaymentPayable(p), PayoutPending(q)},
             map[OnAccount(CashClearing) := gross, OnAccount(CommissionRevenue) := gross - share]
             + map[OnWallet(d) := share, OnAccount(DriverPayable) := share, OnAccount(PayoutClearing) := share])
    && IsPendingPayoutOf(db'.books.txs, p, q)
  }

  ghost predicate CapturedAlone(db: Db, db': Db, p: PaymentId)
    requires p in db.payments
  {
    var payment := db.payments[p];
    && db' == db.(payments := db.payments[p := payment.(status := Captured)], books := db'.books)
    && Posts(db.books, db'.books, {PaymentCaptured(p), PaymentCommission(p)},
             map[OnAccount(CashClearing) := payment.amount,
                 OnAccount(CommissionRevenue) := payment.amount - 4 * payment.amount / 5])
  }

  /** Captured with or without a driver. */
  ghost predicate CapturedWith(db: Db, db': Db, p: PaymentId, driver: Option<DriverId>)
    requires p in db.payments
  {
    match driver
    case Some(d) => CapturedFor(db, db', p, d)
    case None => CapturedAlone(db, db', p)
  }

  /** PENDING or AUTHORIZED, and confirmed by the provider if it is Paystack's. */
  predicate IsOpenForCapture(payment: Payment) {
    && (payment.status == Pending || payment.status == Authorized)
    && (payment.provider != Paystack || payment.confirmed)
  }

  lemma CaptureAlonePosts(b: Books, p: PaymentId, gross: nat)
    requires PaymentCaptured(p) !in b.txs && PaymentCommission(p) !in b.txs
    ensures Posts(b, PostAll(b, CapturePostings(p, gross)), {PaymentCaptured(p), PaymentCommission(p)},
                  map[OnAccount(CashClearing) := gross, OnAccount(CommissionRevenue) := gross - 4 * gross / 5])
  {
    Money.CommissionResidue(gross);
    TwoPost(b, CapturedPosting(p, gross), CommissionPosting(p, gross));
  }

  lemma EarningPosts(b: Books, p: PaymentId, d: DriverId, q: PayoutId, gross: nat)
    requires PaymentEarning(p) !in b.txs && PaymentPayable(p) !in b.txs && PayoutPending(q) !in b.txs
    ensures var share := 4 * gross / 5;
            Posts(b, PostAll(b, EarningPostings(p, d, q, gross)), {PaymentEarning(p), PaymentPayable(p), PayoutPending(q)},
                  map[OnWallet(d) := share, OnAccount(DriverPayable) := share, OnAccount(PayoutClearing) := share])
  {
    Money.CommissionResidue(gross);
    ThreePost(b, EarningPosting(p, d, gross), PayablePosting(p, gross), PendingPosting(q, p, gross));
  }

  lemma CaptureForPosts(b: Books, p: PaymentId, d: DriverId, q: PayoutId, gross: nat)
    requires PaymentCaptured(p) !in b.txs && PaymentCommission(p) !in b.txs
    requires PaymentEarning(p) !in b.txs && PaymentPayable(p) !in b.txs && PayoutPending(q) !in b.txs
    ensures var share := 4 * gross / 5;
            Posts(b, PostAll(PostAll(b, CapturePostings(p, gross)), EarningPostings(p, d, q, gross)),
                  {PaymentCaptured(p), PaymentCommission(p)} + {PaymentEarning(p), PaymentPayable(p), PayoutPending(q)},
                  map[OnAccount(CashClearing) := gross, OnAccount(CommissionRevenue) := gross - share]
                  + map[OnWallet(d) := share, OnAccount(DriverPayable) := share, OnAccount(PayoutClearing) := share])
  {
    var share := 4 * gross / 5;
    var mid := PostAll(b, CapturePostings(p, gross));
    CaptureAlonePosts(b, p, gross);
    assert mid.txs.Keys == b.txs.Keys + {PaymentCaptured(p), PaymentCommission(p)};
    EarningPosts(mid, p, d, q, gross);
    PostsChain(b, mid, PostAll(mid, EarningPostings(p, d, q, gross)),
               {PaymentCaptured(p), PaymentCommission(p)}, {PaymentEarning(p), PaymentPayable(p), PayoutPending(q)},
               map[OnAccount(CashClearing) := gross, OnAccount(CommissionRevenue) := gross - share],
               map[OnWallet(d) := share, OnAccount(DriverPayable) := share, OnAccount(PayoutClearing) := share]);
  }

  lemma CaptureRowAlone(db: Db, p: PaymentId)
    requires Inv(db) && p in db.payments && IsOpenForCapture(db.payments[p])
    ensures CapturedAlone(db, CaptureRow(db, p, None), p)
  {
    NothingCaptured(db, p);
    CaptureAlonePosts(db.books, p, db.payments[p].amount);
  }

  /** The rows that a capture with a driver writes. */
  lemma CaptureRowRows(db: Db, p: PaymentId, d: DriverId)
    requires p in db.payments
    ensures var payment, db' := db.payments[p], CaptureRow(db, p, Some(d));
            && db' == db.(payments := db.payments[p := payment.(status := Captured)],
                          payouts := db.payouts[db.nextId := Payout(d, 4 * payment.amount / 5, payment.provider, Requested, None)],
                          books := db'.books, nextId := db.nextId + 1)
            && db'.books == PostAll(PostAll(db.books, CapturePostings(p, payment.amount)),
                                    EarningPostings(p, d, db.nextId, payment.amount))
  {
    Money.CommissionResidue(db.payments[p].amount);
  }

  lemma CaptureRowPosts(db: Db, p: PaymentId, d: DriverId)
    requires Inv(db) && p in db.payments && IsOpenForCapture(db.payments[p])
    ensures var gross, share := db.payments[p].amount, 4 * db.payments[p].amount / 5;
            Posts(db.books, PostAll(PostAll(db.books, CapturePostings(p, gross)), EarningPostings(p, d, db.nextId, gross)),
                  {PaymentCaptured(p), PaymentCommission(p)} + {PaymentEarning(p), PaymentPayable(p), PayoutPending(db.nextId)},
                  map[OnAccount(CashClearing) := gross, OnAccount(CommissionRevenue) := gross - share]
                  + map[OnWallet(d) := share, OnAccount(DriverPayable) := share, OnAccount(PayoutClearing) := share])
  {
    NothingCaptured(db, p);
    CaptureForPosts(db.books, p, d, db.nextId, db.payments[p].amount);
  }

  lemma PendingAfterCapture(db: Db, p: PaymentId, d: DriverId)
    requires Inv(db) && p in db.payments && IsOpenForCapture(db.payments[p])
    ensures IsPendingPayoutOf(CaptureRow(db, p, Some(d)).books.txs, p, db.nextId)
  {
    KeptEarning(db, p, d);
  }

  lemma CaptureRowFor(db: Db, p: PaymentId, d: DriverId)
    requires Inv(db) && p in db.payments && IsOpenForCapture(db.payments[p])
    ensures CapturedFor(db, CaptureRow(db, p, Some(d)), p, d)
  {
    CaptureRowRows(db, p, d);
    CaptureRowPosts(db, p, d);
    PendingAfterCapture(db, p, d);
  }

  lemma CaptureRowOutcome(db: Db, p: PaymentId, driver: Option<DriverId>)
    requires Inv(db) && p in db.payments && IsOpenForCapture(db.payments[p])
    ensures CapturedWith(db, CaptureRow(db, p, driver), p, driver)
  {
    if driver.Some? {
      CaptureRowFor(db, p, driver.value);
    } else {
      CaptureRowAlone(db, p);
    }
  }

  /** The payment of the trip is captured if it is open, and nothing changes otherwise. */
  ghost predicate Captures(db: Db, db': Db, t: TripId, driver: Option<DriverId>) {
    && (Unpaid(db, t) ==> db' == db)
    && forall p :: p in db.payments && db.payments[p].trip == t ==>
         if IsOpenForCapture(db.payments[p]) then CapturedWith(db, db', p, driver) else db' == db
  }

  lemma CaptureOutcome(db: Db, t: TripId, driver: Option<DriverId>)
    requires Inv(db)
    ensures Captures(db, Capture(db, t, driver), t, driver)
  {
    UnpaidIsNotFound(db, t);
    forall p | p in db.payments && db.payments[p].trip == t
      ensures if IsOpenForCapture(db.payments[p]) then CapturedWith(db, Capture(db, t, driver), p, driver)
              else Capture(db, t, driver) == db
    {
      FoundByTrip(db, p);
      if IsOpenForCapture(db.payments[p]) {
        CaptureRowOutcome(db, p, driver);
      }
    }
  }

  /** A running trip is completed and its payment captured for the trip's driver. */
  ghost predicate Completes(db: Db, db': Db, t: TripId) {
    if t !in db.trips || db.trips[t].completed then db' == db
    else Captures(db.(trips := db.trips[t := Trip(true, db.trips[t].driver)]), db', t, db.trips[t].driver)
  }

  lemma CompletionOutcome(db: Db, t: TripId)
    requires Inv(db)
    ensures Completes(db, CompleteTrip(db, t), t)
  {
    if t in db.trips && !db.trips[t].completed {
      var done := db.(trips := db.trips[t := Trip(true, db.trips[t].driver)]);
      KeptTrips(db, done.trips);
      CaptureOutcome(done, t, db.trips[t].driver);
    }
  }

  // ---------------------------------------------------------------- charge events

  /** Neither captured nor failed nor refunded. */
  ghost predicate IsOpen(db: Db, p: PaymentId) {
    p in db.payments && db.payments[p].status in {Pending, Authorized, Cancelled}
  }

  /** The payment is confirmed, a PENDING one AUTHORIZED; if its trip is completed already, it is
      captured for the trip's driver. */
  ghost predicate Confirms(db: Db, db': Db, p: PaymentId)
    requires p in db.payments
  {
    var payment := db.payments[p];
    var status := if payment.status == Cancelled then Cancelled else Authorized;
    var confirmed := db.(payments := db.payments[p := payment.(status := status, confirmed := true)]);
    if payment.trip in db.trips && db.trips[payment.trip].completed && status == Authorized
    then CapturedWith(confirmed, db', p, db.trips[payment.trip].driver)
    else db' == confirmed
  }

  /** Only a verified charge of an open payment changes anything. */
  ghost predicate ChargeSucceeds(db: Db, db': Db, reference: Option<PaymentId>, verified: bool) {
    if verified && reference.Some? && IsOpen(db, reference.value) then Confirms(db, db', reference.value) else db' == db
  }

  /** Without a reference or a verified charge the event is not processed. */
  lemma ChargeSuccessOutcome(db: Db, reference: Option<PaymentId>, verified: bool)
    requires Inv(db)
    ensures var (db', processed) := ChargeSuccess(db, reference, verified);
            ChargeSucceeds(db, db', reference, verified) && processed == (verified && reference.Some?)
  {
    if verified && reference.Some? && IsOpen(db, reference.value) {
      var p := reference.value;
      var payment := db.payments[p];
      var confirmed := db.(payments := db.payments[p := ConfirmPayment(payment, payment.status)]);
      KeptPaymentRow(db, p, ConfirmPayment(payment, payment.status));
      if payment.trip in db.trips && db.trips[payment.trip].completed {
        CaptureOutcome(confirmed, payment.trip, db.trips[payment.trip].driver);
      }
    }
  }

  /** An open payment fails. */
  ghost predicate ChargeFails(db: Db, db': Db, reference: Option<PaymentId>) {
    if reference.Some? && IsOpen(db, reference.value)
    then db' == db.(payments := db.payments[reference.value := db.payments[reference.value].(status := PaymentStatus.Failed)])
    else db' == db
  }

  lemma ChargeFailedOutcome(db: Db, reference: Option<PaymentId>)
    ensures var (db', processed) := ChargeFailed(db, reference); ChargeFails(db, db', reference) && processed == reference.Some?
  {
  }

  /** A failed payment is never captured in any later run: it stays FAILED, and neither a capture nor an
      earning of it is ever posted. */
  lemma FailedIsNeverCaptured(db: Db, p: PaymentId, steps: seq<Step>)
    requires Inv(db) && IsOpen(db, p)
    ensures var after := Run(ChargeFailed(db, Some(p)).0, steps);
            && p in after.payments && after.payments[p].status == PaymentStatus.Failed
            && PaymentCaptured(p) !in after.books.txs && PaymentEarning(p) !in after.books.txs
            && forall q :: !IsPendingPayoutOf(after.books.txs, p, q)
  {
    var failed := ChargeFailed(db, Some(p)).0;
    KeptChargeFailed(db, Some(p));
    RunKept(failed, steps);
    var after := Run(failed, steps);
    assert PaymentAdvances(failed, after, p);
    NothingCaptured(after, p);
  }
}
