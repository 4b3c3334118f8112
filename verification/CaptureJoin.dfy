/** The join between charge confirmation and trip completion, one database step at a time. The
    charge.success handler writes the payment and then reads the trip; the completing transition
    writes the trip and then captures, which reads the payment. */
module CaptureJoin {
  import opened Common
  import opened Ledger
  import opened Finance
  import opened FinanceInvariants
  import opened FinanceSteps

  datatype HandlerPc =
    | HandlerStart
    | PaymentRead(status: PaymentStatus)
    | PaymentWritten
    | TripSeenCompleted(driver: Option<DriverId>)
    | HandlerDone

  datatype TripPc =
    | TripStart
    | TransitionChecked
    | TripWritten
    | DriverRead(driver: Option<DriverId>)
    | TripDone

  datatype Join = Join(db: Db, handler: HandlerPc, trip: TripPc)

  datatype Side = HandlerSide | TripSide

  /** The next database step of the handler for payment `p` (paystack.service.ts, handleChargeSuccess). */
  ghost function HandlerStep(j: Join, p: PaymentId): Join
    requires p in j.db.payments && j.db.payments[p].trip in j.db.trips
  {
    var payment := j.db.payments[p];
    match j.handler
    case HandlerStart =>
      j.(handler := if ChargeSettled(payment.status) then HandlerDone else PaymentRead(payment.status))
    case PaymentRead(status) =>
      j.(db := j.db.(payments := j.db.payments[p := ConfirmPayment(payment, status)]), handler := PaymentWritten)
    case PaymentWritten =>
      var trip := j.db.trips[payment.trip];
      j.(handler := if trip.completed then TripSeenCompleted(trip.driver) else HandlerDone)
    case TripSeenCompleted(driver) =>
      j.(db := Capture(j.db, payment.trip, driver), handler := HandlerDone)
    case HandlerDone => j
  }

  /** The next database step of the completing transition of trip `t` (trips.service.ts, transition). */
  ghost function TripStep(j: Join, t: TripId): Join
    requires t in j.db.trips
  {
    var trip := j.db.trips[t];
    match j.trip
    case TripStart => j.(trip := if trip.completed then TripDone else TransitionChecked)
    case TransitionChecked =>
      j.(db := j.db.(trips := j.db.trips[t := trip.(completed := true)]), trip := TripWritten)
    case TripWritten => j.(trip := DriverRead(trip.driver))
    case DriverRead(driver) => j.(db := Capture(j.db, t, driver), trip := TripDone)
    case TripDone => j
  }

  ghost predicate Placed(db: Db, p: PaymentId) {
    p in db.payments && db.payments[p].trip in db.trips
  }

  ghost function Next(j: Join, p: PaymentId, side: Side): (j': Join)
    requires Placed(j.db, p)
    ensures Placed(j'.db, p)
  {
    match side
    case HandlerSide => HandlerStep(j, p)
    case TripSide => TripStep(j, j.db.payments[p].trip)
  }

  ghost function RunJoin(j: Join, p: PaymentId, schedule: seq<Side>): (j': Join)
    requires Placed(j.db, p)
    ensures Placed(j'.db, p)
    decreases |schedule|
  {
    if schedule == [] then j else RunJoin(Next(j, p, schedule[0]), p, schedule[1..])
  }

  predicate BothDone(j: Join) {
    j.handler.HandlerDone? && j.trip.TripDone?
  }

  /** A running trip with a driver and a paystack payment that is not captured yet. */
  ghost predicate Ready(db: Db, p: PaymentId) {
    && Inv(db) && Placed(db, p)
    && db.payments[p].provider == Paystack
    && (db.payments[p].status == Pending || db.payments[p].status == Authorized)
    && !db.trips[db.payments[p].trip].completed
    && db.trips[db.payments[p].trip].driver.Some?
  }

  /** Captured, every capture reference posted, and one payout more than before. */
  ghost predicate CapturedOnce(before: Db, after: Db, p: PaymentId) {
    && p in after.payments && after.payments[p].status == Captured
    && PaymentCaptured(p) in after.books.txs && PaymentCommission(p) in after.books.txs
    && PaymentEarning(p) in after.books.txs && PaymentPayable(p) in after.books.txs
    && after.payouts.Keys == before.payouts.Keys + {before.nextId}
    && IsPendingPayoutOf(after.books.txs, p, before.nextId)
  }

  /** Captured, and two payouts more than before. */
  ghost predicate PaidTwice(before: Db, after: Db, p: PaymentId) {
    && p in after.payments && after.payments[p].status == Captured
    && before.nextId in after.payouts && before.nextId + 1 in after.payouts
  }

  // ---------------------------------------------------------------- every interleaving

  /** The database before the capture, at given program counters. */
  function Uncaptured(db0: Db, p: PaymentId, confirmed: bool, completed: bool): Db
    requires p in db0.payments && db0.payments[p].trip in db0.trips
  {
    var payment := db0.payments[p];
    var t := payment.trip;
    db0.(payments := if confirmed then db0.payments[p := ConfirmPayment(payment, payment.status)] else db0.payments,
         trips := if completed then db0.trips[t := db0.trips[t].(completed := true)] else db0.trips)
  }

  predicate IsConfirmed(h: HandlerPc) {
    !h.HandlerStart? && !h.PaymentRead?
  }

  predicate IsCompleted(t: TripPc) {
    !t.TripStart? && !t.TransitionChecked?
  }

  /** Where the two sides can be, and what the database then is. */
  ghost predicate JoinInv(db0: Db, p: PaymentId, j: Join)
    requires Placed(db0, p)
  {
    var t := db0.payments[p].trip;
    var driver := db0.trips[t].driver;
    var base := Uncaptured(db0, p, IsConfirmed(j.handler), IsCompleted(j.trip));
    && (j.handler.PaymentRead? ==> j.handler.status == db0.payments[p].status)
    && (j.handler.TripSeenCompleted? ==> j.handler.driver == driver && IsCompleted(j.trip))
    && (j.trip.DriverRead? ==> j.trip.driver == driver)
    && (j.db == base || (j.db == CaptureRow(base, p, driver) && IsConfirmed(j.handler) && IsCompleted(j.trip)))
    && (j.db == base && j.handler.HandlerDone? ==> !j.trip.TripDone?)
  }

  /** The capture transaction in a join state captures if the payment is confirmed and is a no-op otherwise. */
  lemma CaptureAtJoin(db0: Db, p: PaymentId, confirmed: bool, completed: bool)
    requires Ready(db0, p) && !db0.payments[p].confirmed
    ensures var t := db0.payments[p].trip;
            var driver := db0.trips[t].driver;
            var base := Uncaptured(db0, p, confirmed, completed);
            && Inv(base)
            && Capture(base, t, driver) == (if confirmed then CaptureRow(base, p, driver) else base)
            && Capture(CaptureRow(base, p, driver), t, driver) == CaptureRow(base, p, driver)
  {
    var payment := db0.payments[p];
    var t := payment.trip;
    var driver := db0.trips[t].driver;
    var base := Uncaptured(db0, p, confirmed, completed);
    KeptTrips(db0, base.trips);
    if confirmed {
      KeptPaymentRow(db0.(trips := base.trips), p, ConfirmPayment(payment, payment.status));
    }
    assert IsPaymentOf(base.payments, t, p);
    assert PaymentOfTrip(base.payments, t) == Some(p);
    var captured := CaptureRow(base, p, driver);
    UpdatePaymentKeys(base.payments, p, captured.payments[p]);
    assert IsPaymentOf(captured.payments, t, p);
    assert PaymentOfTrip(captured.payments, t) == Some(p);
  }

  lemma HandlerKeepsJoinInv(db0: Db, p: PaymentId, j: Join)
    requires Ready(db0, p) && !db0.payments[p].confirmed
    requires Placed(j.db, p) && JoinInv(db0, p, j)
    ensures JoinInv(db0, p, Next(j, p, HandlerSide))
  {
    CaptureAtJoin(db0, p, IsConfirmed(j.handler), IsCompleted(j.trip));
    match j.handler
    case HandlerStart =>
    case PaymentRead(status) =>
    case PaymentWritten =>
    case TripSeenCompleted(driver) =>
    case HandlerDone =>
  }

  lemma TripKeepsJoinInv(db0: Db, p: PaymentId, j: Join)
    requires Ready(db0, p) && !db0.payments[p].confirmed
    requires Placed(j.db, p) && JoinInv(db0, p, j)
    ensures JoinInv(db0, p, Next(j, p, TripSide))
  {
    CaptureAtJoin(db0, p, IsConfirmed(j.handler), IsCompleted(j.trip));
    match j.trip
    case TripStart =>
    case TransitionChecked =>
    case TripWritten =>
    case DriverRead(driver) =>
    case TripDone =>
  }

  lemma NextKeepsJoinInv(db0: Db, p: PaymentId, j: Join, side: Side)
    requires Ready(db0, p) && !db0.payments[p].confirmed
    requires Placed(j.db, p) && JoinInv(db0, p, j)
    ensures JoinInv(db0, p, Next(j, p, side))
  {
    match side
    case HandlerSide => HandlerKeepsJoinInv(db0, p, j);
    case TripSide => TripKeepsJoinInv(db0, p, j);
  }

  lemma {:induction false} RunKeepsJoinInv(db0: Db, p: PaymentId, j: Join, schedule: seq<Side>)
    requires Ready(db0, p) && !db0.payments[p].confirmed
    requires Placed(j.db, p) && JoinInv(db0, p, j)
    ensures JoinInv(db0, p, RunJoin(j, p, schedule))
    decreases |schedule|
  {
    if schedule != [] {
      NextKeepsJoinInv(db0, p, j, schedule[0]);
      RunKeepsJoinInv(db0, p, Next(j, p, schedule[0]), schedule[1..]);
    }
  }

  /** Every finished interleaving captures the unconfirmed payment exactly once. */
  lemma EveryInterleavingCaptures(db0: Db, p: PaymentId, schedule: seq<Side>)
    requires Ready(db0, p) && !db0.payments[p].confirmed
    ensures var j := RunJoin(Join(db0, HandlerStart, TripStart), p, schedule);
            BothDone(j) ==> CapturedOnce(db0, j.db, p)
  {
    var j := RunJoin(Join(db0, HandlerStart, TripStart), p, schedule);
    RunKeepsJoinInv(db0, p, Join(db0, HandlerStart, TripStart), schedule);
    if BothDone(j) {
      var base := Uncaptured(db0, p, true, true);
      CaptureAtJoin(db0, p, true, true);
      var d := db0.trips[db0.payments[p].trip].driver.value;
      KeptEarning(base, p, d);
      var after := CaptureRow(base, p, Some(d));
      RowOf(after, PayoutPending(db0.nextId));
      RowOf(after, PaymentEarning(p));
    }
  }

  // ---------------------------------------------------------------- the exact condition

  /** The losing schedule: the handler reads, the trip side runs to its end, the handler goes on. */
  function OverwritingSchedule(): seq<Side> {
    [HandlerSide] + ([TripSide] + ([TripSide] + ([TripSide] + ([TripSide]
    + ([HandlerSide] + ([HandlerSide] + ([HandlerSide] + [])))))))
  }

  lemma Unroll(j: Join, p: PaymentId, side: Side, rest: seq<Side>)
    requires Placed(j.db, p)
    ensures RunJoin(j, p, [side] + rest) == RunJoin(Next(j, p, side), p, rest)
  {
    assert ([side] + rest)[1..] == rest;
  }

  /** The database after the trip side has run to its end beside a handler that has only read. */
  function CapturedFirst(db0: Db, p: PaymentId): Db
    requires p in db0.payments && db0.payments[p].trip in db0.trips
  {
    CaptureRow(Uncaptured(db0, p, false, true), p, db0.trips[db0.payments[p].trip].driver)
  }

  /** The first half of the losing schedule captures the payment that was confirmed before. */
  lemma TripSideFirst(db0: Db, p: PaymentId, rest: seq<Side>)
    requires Ready(db0, p) && db0.payments[p].confirmed
    ensures var j5 := Join(CapturedFirst(db0, p), PaymentRead(db0.payments[p].status), TripDone);
            Placed(j5.db, p)
            && RunJoin(Join(db0, HandlerStart, TripStart), p,
                       [HandlerSide] + ([TripSide] + ([TripSide] + ([TripSide] + ([TripSide] + rest)))))
               == RunJoin(j5, p, rest)
  {
    var t := db0.payments[p].trip;
    var status := db0.payments[p].status;
    var driver := db0.trips[t].driver;
    var done := Uncaptured(db0, p, false, true);
    assert IsPaymentOf(done.payments, t, p);
    assert PaymentOfTrip(done.payments, t) == Some(p);
    var T := TripSide;
    Unroll(Join(db0, HandlerStart, TripStart), p, HandlerSide, [T] + ([T] + ([T] + ([T] + rest))));
    Unroll(Join(db0, PaymentRead(status), TripStart), p, T, [T] + ([T] + ([T] + rest)));
    Unroll(Join(db0, PaymentRead(status), TransitionChecked), p, T, [T] + ([T] + rest));
    Unroll(Join(done, PaymentRead(status), TripWritten), p, T, [T] + rest);
    Unroll(Join(done, PaymentRead(status), DriverRead(driver)), p, T, rest);
  }

  /** The captured payment after the handler's stale write: its status is open again. */
  function Reopened(db0: Db, p: PaymentId): Db
    requires p in db0.payments && db0.payments[p].trip in db0.trips
  {
    var captured := CapturedFirst(db0, p);
    captured.(payments := captured.payments[p := ConfirmPayment(captured.payments[p], db0.payments[p].status)])
  }

  /** A capture of the reopened payment goes through a second time. */
  lemma CapturedAgain(db0: Db, p: PaymentId)
    requires Ready(db0, p) && db0.payments[p].confirmed
    ensures var t := db0.payments[p].trip;
            var driver := db0.trips[t].driver;
            var after := Capture(Reopened(db0, p), t, driver);
            PaidTwice(db0, after, p)
  {
    var t := db0.payments[p].trip;
    var db := Reopened(db0, p);
    assert db.payments == db0.payments[p := db.payments[p]];
    UpdatePaymentKeys(db0.payments, p, db.payments[p]);
    assert IsPaymentOf(db.payments, t, p);
    assert PaymentOfTrip(db.payments, t) == Some(p);
  }

  /** The second half of the losing schedule captures again. */
  lemma HandlerLast(db0: Db, p: PaymentId)
    requires Ready(db0, p) && db0.payments[p].confirmed
    ensures var j5 := Join(CapturedFirst(db0, p), PaymentRead(db0.payments[p].status), TripDone);
            && Placed(j5.db, p)
            && var j8 := RunJoin(j5, p, [HandlerSide] + ([HandlerSide] + ([HandlerSide] + [])));
            BothDone(j8) && PaidTwice(db0, j8.db, p)
  {
    var t := db0.payments[p].trip;
    var driver := db0.trips[t].driver;
    var H := HandlerSide;
    CapturedAgain(db0, p);
    Unroll(Join(CapturedFirst(db0, p), PaymentRead(db0.payments[p].status), TripDone), p, H, [H] + ([H] + []));
    Unroll(Join(Reopened(db0, p), PaymentWritten, TripDone), p, H, [H] + []);
    Unroll(Join(Reopened(db0, p), TripSeenCompleted(driver), TripDone), p, H, []);
    var j8 := Join(Capture(Reopened(db0, p), t, driver), HandlerDone, TripDone);
    assert RunJoin(j8, p, []) == j8;
  }

  /** With `externalId` already set, the handler's stale write reopens the captured payment and a
      second payout is created. */
  lemma ConfirmedPaymentPaysTwice(db0: Db, p: PaymentId)
    requires Ready(db0, p) && db0.payments[p].confirmed
    ensures var j := RunJoin(Join(db0, HandlerStart, TripStart), p, OverwritingSchedule());
            BothDone(j) && PaidTwice(db0, j.db, p)
  {
    TripSideFirst(db0, p, [HandlerSide] + ([HandlerSide] + ([HandlerSide] + [])));
    HandlerLast(db0, p);
  }

  /** Both cases occur: service calls lead from empty tables to a running trip with an unconfirmed
      payment, and a charge confirmed before the trip is completed leads to a confirmed one. */
  lemma ReadyIsReachable(d: DriverId, amount: nat)
    ensures var initiated := Apply(Apply(Apply(EMPTY, OpenTrip(0)), AssignDriver(0, d)), StepInitiate(0, amount, Paystack));
            && Ready(initiated, 0) && !initiated.payments[0].confirmed
            && var charged := Apply(initiated, StepChargeSuccess(Some(0), true));
            Ready(charged, 0) && charged.payments[0].confirmed && charged.payments[0].status == Authorized
  {
    assert Inv(EMPTY);
    var begun := Apply(EMPTY, OpenTrip(0));
    StepKept(EMPTY, OpenTrip(0));
    var withDriver := Apply(begun, AssignDriver(0, d));
    StepKept(begun, AssignDriver(0, d));
    forall p ensures !IsPaymentOf(withDriver.payments, 0, p) {}
    var initiated := Apply(withDriver, StepInitiate(0, amount, Paystack));
    StepKept(withDriver, StepInitiate(0, amount, Paystack));
    StepKept(initiated, StepChargeSuccess(Some(0), true));
  }

  /** The join captures exactly once in every finished interleaving if and only if the payment had
      not been confirmed before. */
  lemma CapturesOnceIffUnconfirmed(db0: Db, p: PaymentId)
    requires Ready(db0, p)
    ensures (forall schedule :: var j := RunJoin(Join(db0, HandlerStart, TripStart), p, schedule);
               BothDone(j) ==> CapturedOnce(db0, j.db, p))
            <==> !db0.payments[p].confirmed
  {
    if db0.payments[p].confirmed {
      ConfirmedPaymentPaysTwice(db0, p);
      var j := RunJoin(Join(db0, HandlerStart, TripStart), p, OverwritingSchedule());
      assert db0.nextId + 1 !in db0.payouts.Keys + {db0.nextId};
    } else {
      forall schedule
        ensures var j := RunJoin(Join(db0, HandlerStart, TripStart), p, schedule);
                BothDone(j) ==> CapturedOnce(db0, j.db, p)
      {
        EveryInterleavingCaptures(db0, p, schedule);
      }
    }
  }
}
