/** At most one refund of a payment, exactly when no failed refund is revived beside another one of
    the payment, and then the net over all postings of the payment. */
module FinanceRefunds {
  import opened Common
  import opened Ledger
  import opened Finance
  import opened FinanceInvariants
  import opened FinanceSteps
  import opened FinanceBooks
  import FinanceResults
  import CaptureJoin

  /** After `ReverseRefund` on a processed full refund the refund is closed and the payment REFUNDED. */
  lemma ReverseSettles(db: Db, r: RefundId)
    requires r in db.refunds && db.refunds[r].payment in db.payments
    requires db.refunds[r].status == Processed && db.refunds[r].amount == db.payments[db.refunds[r].payment].amount
    requires db.payments[db.refunds[r].payment].status == Refunded
    ensures var db' := ReverseRefund(db, r);
            && db'.refunds == db.refunds[r := db.refunds[r].(reversed := true)]
            && db'.payments == db.payments
  {
    var p := db.refunds[r].payment;
    assert db.payments[p := db.payments[p].(status := Refunded)] == db.payments;
    assert db.refunds[r].reversed ==> db.refunds[r := db.refunds[r].(reversed := true)] == db.refunds;
  }

  // ---------------------------------------------------------------- claims

  /** A refund that may still reverse its payment, or has: pending, processing, processed or reversed. */
  predicate Claims(refund: Refund) {
    refund.reversed || refund.status == RefundPending || refund.status == RefundProcessing || refund.status == Processed
  }

  ghost predicate IsClaim(db: Db, r: RefundId) {
    r in db.refunds && Claims(db.refunds[r])
  }

  ghost predicate ClosedIsRefunded(db: Db, r: RefundId) {
    r in db.refunds && db.refunds[r].reversed ==>
      db.refunds[r].payment in db.payments && db.payments[db.refunds[r].payment].status == Refunded
  }

  /** A payment has at most one claim, and a reversed refund's payment is REFUNDED. */
  ghost predicate OneClaim(db: Db) {
    && (forall r, r' {:trigger IsClaim(db, r), IsClaim(db, r')} ::
          IsClaim(db, r) && IsClaim(db, r') && db.refunds[r].payment == db.refunds[r'].payment ==> r == r')
    && (forall r {:trigger ClosedIsRefunded(db, r)} :: ClosedIsRefunded(db, r))
  }

  /** At most one refund of each payment was reversed in the ledger. */
  ghost predicate RefundedOnce(db: Db) {
    forall r, r' {:trigger ClosedRefund(db, r), ClosedRefund(db, r')} ::
      ClosedRefund(db, r) && ClosedRefund(db, r') && db.refunds[r].payment == db.refunds[r'].payment ==> r == r'
  }

  /** An event reports a refund as processing or processed that had failed. */
  predicate Revives(db: Db, step: Step) {
    && step.StepRefundEvent? && step.kind != EventFailed
    && step.refund.Some? && step.refund.value.Some? && step.refund.value.value in db.refunds
    && !Claims(db.refunds[step.refund.value.value])
  }

  /** Refund `s` is a claim on the payment of another refund `r`. */
  ghost predicate Other(db: Db, r: RefundId, s: RefundId) {
    s != r && IsClaim(db, s) && r in db.refunds && db.refunds[s].payment == db.refunds[r].payment
  }

  /** A failed refund is revived while its payment has another claim. */
  ghost predicate Clashes(db: Db, step: Step) {
    Revives(db, step) && exists s :: Other(db, step.refund.value.value, s)
  }

  ghost predicate NoClash(db: Db, steps: seq<Step>) {
    steps == [] || (NoClash(db, steps[..|steps| - 1]) && !Clashes(Run(db, steps[..|steps| - 1]), steps[|steps| - 1]))
  }

  /** No refund became a claim, and what was reversed has a REFUNDED payment. */
  lemma FewerClaims(db: Db, db': Db)
    requires OneClaim(db) && Advances(db, db')
    requires forall r {:trigger IsClaim(db', r)} :: IsClaim(db', r) ==> IsClaim(db, r)
    requires forall r {:trigger ClosedIsRefunded(db', r)} :: r in db'.refunds && db'.refunds[r].reversed ==>
               (r in db.refunds && db.refunds[r].reversed) || ClosedIsRefunded(db', r)
    ensures OneClaim(db')
  {
    forall r, r' | IsClaim(db', r) && IsClaim(db', r') && db'.refunds[r].payment == db'.refunds[r'].payment ensures r == r' {
      assert IsClaim(db, r) && IsClaim(db, r');
      assert RefundAdvances(db, db', r) && RefundAdvances(db, db', r');
    }
    forall r ensures ClosedIsRefunded(db', r) {
      if r in db'.refunds && db'.refunds[r].reversed && r in db.refunds && db.refunds[r].reversed {
        assert ClosedIsRefunded(db, r);
        assert RefundAdvances(db, db', r) && PaymentAdvances(db, db', db.refunds[r].payment);
      }
    }
  }

  lemma SameRefunds(db: Db, db': Db)
    requires OneClaim(db) && Advances(db, db') && db'.refunds == db.refunds
    ensures OneClaim(db')
  {
    forall r ensures IsClaim(db', r) == IsClaim(db, r) {}
    FewerClaims(db, db');
  }

  lemma ReverseKeepsClaims(db: Db, r: RefundId)
    requires Inv(db) && OneClaim(db)
    ensures OneClaim(ReverseRefund(db, r))
  {
    var db' := ReverseRefund(db, r);
    KeptReverseRefund(db, r);
    if db' != db {
      assert RefundOk(db, r);
      forall r' ensures IsClaim(db', r') == IsClaim(db, r') {}
      FewerClaims(db, db');
    }
  }

  /** A refund is created only while the payment has no claim. */
  lemma CreateKeepsClaims(db: Db, p: PaymentId, status: RefundStatus)
    requires Inv(db) && OneClaim(db) && p in db.payments && db.payments[p].status == Captured && !HasOpenRefund(db, p)
    ensures var db' := db.(refunds := db.refunds[db.nextId := Refund(p, db.payments[p].amount, status, false)], nextId := db.nextId + 1);
            Inv(db') && OneClaim(db')
  {
    var r := db.nextId;
    var refund := Refund(p, db.payments[p].amount, status, false);
    var db' := db.(refunds := db.refunds[r := refund], nextId := r + 1);
    KeptRefundRow(db, r, refund, r + 1);
    forall x ensures x != r ==> IsClaim(db', x) == IsClaim(db, x) && ClosedIsRefunded(db', x) {
      assert ClosedIsRefunded(db, x);
    }
    forall x | IsClaim(db', x) && db'.refunds[x].payment == p ensures x == r {
      assert ClosedIsRefunded(db, x);
    }
    forall x, y | IsClaim(db', x) && IsClaim(db', y) && db'.refunds[x].payment == db'.refunds[y].payment ensures x == y {
      assert x != r && y != r ==> IsClaim(db, x) && IsClaim(db, y);
    }
  }

  lemma DirectKeepsClaims(db: Db, p: PaymentId)
    requires Inv(db) && OneClaim(db) && p in db.payments && db.payments[p].status == Captured && !HasOpenRefund(db, p)
    ensures var created := db.(refunds := db.refunds[db.nextId := Refund(p, db.payments[p].amount, Processed, false)], nextId := db.nextId + 1);
            OneClaim(ReverseRefund(created, db.nextId))
  {
    CreateKeepsClaims(db, p, Processed);
    ReverseKeepsClaims(db.(refunds := db.refunds[db.nextId := Refund(p, db.payments[p].amount, Processed, false)], nextId := db.nextId + 1),
                       db.nextId);
  }

  lemma ProviderKeepsClaims(db: Db, p: PaymentId, response: RefundResponse)
    requires Inv(db) && OneClaim(db) && p in db.payments && db.payments[p].status == Captured && !HasOpenRefund(db, p)
    requires db.payments[p].provider == Paystack
    ensures OneClaim(RequestRefund(db, p, true, response))
  {
    var r, amount := db.nextId, db.payments[p].amount;
    CreateKeepsClaims(db, p, if response == Declined then RefundFailed else RefundProcessing);
    assert db.refunds[r := Refund(p, amount, RefundProcessing, false)][r := Refund(p, amount, RefundFailed, false)]
        == db.refunds[r := Refund(p, amount, RefundFailed, false)];
  }

  lemma RequestKeepsClaims(db: Db, p: PaymentId, secretKey: bool, response: RefundResponse)
    requires Inv(db) && OneClaim(db)
    ensures OneClaim(RequestRefund(db, p, secretKey, response))
  {
    if p in db.payments && db.payments[p].status == Captured && !HasOpenRefund(db, p) {
      if secretKey && db.payments[p].provider == Paystack {
        ProviderKeepsClaims(db, p, response);
      } else {
        DirectKeepsClaims(db, p);
      }
    }
  }

  /** A status change of a claim, to FAILED, or of a payment's only possible claim. */
  lemma StatusKeepsClaims(db: Db, r: RefundId, status: RefundStatus)
    requires Inv(db) && OneClaim(db) && r in db.refunds
    requires IsClaim(db, r) || status == RefundFailed || forall s :: !Other(db, r, s)
    ensures var db' := db.(refunds := db.refunds[r := db.refunds[r].(status := status)]); Inv(db') && OneClaim(db')
  {
    var db' := db.(refunds := db.refunds[r := db.refunds[r].(status := status)]);
    assert RefundOk(db, r);
    KeptRefundRow(db, r, db'.refunds[r], db.nextId);
    forall x ensures (x != r ==> IsClaim(db', x) == IsClaim(db, x)) && ClosedIsRefunded(db', x) {
      assert ClosedIsRefunded(db, x);
    }
    forall x, y | IsClaim(db', x) && IsClaim(db', y) && db'.refunds[x].payment == db'.refunds[y].payment ensures x == y {
      assert x != r ==> IsClaim(db, x);
      assert y != r ==> IsClaim(db, y);
      assert !Other(db, r, x) || !Other(db, r, y) || x == y;
      assert x == r && y != r && !IsClaim(db, r) ==> Other(db, r, y);
      assert y == r && x != r && !IsClaim(db, r) ==> Other(db, r, x);
    }
  }

  lemma EventKeepsClaims(db: Db, kind: RefundEventKind, reference: Option<Option<RefundId>>)
    requires Inv(db) && OneClaim(db) && !Clashes(db, StepRefundEvent(kind, reference))
    ensures OneClaim(RefundEvent(db, kind, reference).0)
  {
    if reference.Some? && reference.value.Some? && reference.value.value in db.refunds {
      var r := reference.value.value;
      assert RefundOk(db, r);
      var p := db.refunds[r].payment;
      var status := match kind { case EventProcessed => Processed case EventFailed => RefundFailed case EventPending => RefundProcessing };
      StatusKeepsClaims(db, r, status);
      if kind == EventProcessed {
        var updated := db.(refunds := db.refunds[r := db.refunds[r].(status := status)]);
        var refunded := updated.(payments := db.payments[p := db.payments[p].(status := Refunded)]);
        KeptPaymentRow(updated, p, refunded.payments[p]);
        SameRefunds(updated, refunded);
        ReverseKeepsClaims(refunded, r);
      }
    }
  }

  lemma PaymentStepKeepsRefunds(db: Db, step: Step)
    requires IsPaymentStep(step)
    ensures Apply(db, step).refunds == db.refunds
  {
  }

  lemma OtherStepKeepsRefunds(db: Db, step: Step)
    requires !IsRefundStep(step)
    ensures Apply(db, step).refunds == db.refunds
  {
    if IsPaymentStep(step) {
      PaymentStepKeepsRefunds(db, step);
    }
  }

  lemma OtherStepKeepsClaims(db: Db, step: Step)
    requires Inv(db) && OneClaim(db) && !IsRefundStep(step)
    ensures OneClaim(Apply(db, step))
  {
    StepKept(db, step);
    OtherStepKeepsRefunds(db, step);
    SameRefunds(db, Apply(db, step));
  }

  lemma StepKeepsClaims(db: Db, step: Step)
    requires Inv(db) && OneClaim(db) && !Clashes(db, step)
    ensures OneClaim(Apply(db, step))
  {
    match step
    case StepRequestRefund(p, secretKey, response) => RequestKeepsClaims(db, p, secretKey, response);
    case StepRefundEvent(kind, refund) => EventKeepsClaims(db, kind, refund);
    case StepReconcile(r) => ReverseKeepsClaims(db, r);
    case _ => OtherStepKeepsClaims(db, step);
  }

  /** Over every run in which no failed refund is revived beside another claim, a payment has at most
      one claim, so at most one refund of it is reversed in the ledger. */
  lemma {:induction false} OneRefundWithoutClash(db: Db, steps: seq<Step>)
    requires Inv(db) && OneClaim(db) && NoClash(db, steps)
    ensures OneClaim(Run(db, steps)) && RefundedOnce(Run(db, steps))
  {
    if steps != [] {
      var k := |steps| - 1;
      OneRefundWithoutClash(db, steps[..k]);
      RunKept(db, steps[..k]);
      StepKeepsClaims(Run(db, steps[..k]), steps[k]);
    }
    var after := Run(db, steps);
    forall r, r' | ClosedRefund(after, r) && ClosedRefund(after, r') && after.refunds[r].payment == after.refunds[r'].payment
      ensures r == r'
    {
      assert IsClaim(after, r) && IsClaim(after, r');
    }
  }

  // ---------------------------------------------------------------- two refunds

  /** From empty tables to a captured payment of the provider. */
  function ChargedRide(d: DriverId, amount: nat): seq<Step> {
    [OpenTrip(0), AssignDriver(0, d), StepInitiate(0, amount, Paystack), StepChargeSuccess(Some(0), true), StepComplete(0)]
  }

  /** Two refunds: the first one fails, the second one is processed, and then the first one is. */
  function TwoRefunds(first: RefundId, second: RefundId): seq<Step> {
    [StepRequestRefund(0, true, RefundResponse.Accepted), StepRefundEvent(EventFailed, Some(Some(first))),
     StepRequestRefund(0, true, RefundResponse.Accepted), StepRefundEvent(EventProcessed, Some(Some(second))),
     StepRefundEvent(EventProcessed, Some(Some(first)))]
  }

  lemma FiveSteps(db: Db, steps: seq<Step>)
    requires |steps| == 5
    ensures Run(db, steps) == Apply(Apply(Apply(Apply(Apply(db, steps[0]), steps[1]), steps[2]), steps[3]), steps[4])
  {
    assert steps[..4][..3] == steps[..3] && steps[..3][..2] == steps[..2] && steps[..2][..1] == steps[..1] && steps[..1][..0] == [];
    assert Run(db, steps[..1]) == Apply(db, steps[0]);
    assert Run(db, steps[..2]) == Apply(Run(db, steps[..1]), steps[1]);
    assert Run(db, steps[..3]) == Apply(Run(db, steps[..2]), steps[2]);
    assert Run(db, steps[..4]) == Apply(Run(db, steps[..3]), steps[3]);
  }

  /** Right before the completion: the payment is authorized and confirmed. */
  lemma ChargedBeforeCompletion(d: DriverId, amount: nat)
    ensures var charged := Apply(Apply(Apply(Apply(EMPTY, OpenTrip(0)), AssignDriver(0, d)), StepInitiate(0, amount, Paystack)),
                                 StepChargeSuccess(Some(0), true));
            && CaptureJoin.Ready(charged, 0) && Capturable(charged.payments[0]) && charged.payments[0].trip == 0
            && charged.refunds == map[] && charged.nextId == 1
  {
    CaptureJoin.ReadyIsReachable(d, amount);
    var begun := Apply(Apply(EMPTY, OpenTrip(0)), AssignDriver(0, d));
    forall p ensures !IsPaymentOf(begun.payments, 0, p) {}
    assert PaymentOfTrip(begun.payments, 0) == None;
    assert begun.nextId == 0 && begun.refunds == map[];
  }

  lemma CompletesCaptured(db: Db, p: PaymentId)
    requires CaptureJoin.Ready(db, p) && Capturable(db.payments[p])
    ensures var t := db.payments[p].trip;
            var db' := Apply(db, StepComplete(t));
            && Inv(db') && p in db'.payments && db'.payments[p] == db.payments[p].(status := Captured)
            && db'.refunds == db.refunds && db'.nextId == db.nextId + 1
  {
    var t := db.payments[p].trip;
    var done := db.(trips := db.trips[t := db.trips[t].(completed := true)]);
    KeptTrips(db, done.trips);
    assert IsPaymentOf(done.payments, t, p);
    assert PaymentOfTrip(done.payments, t) == Some(p);
    StepKept(db, StepComplete(t));
  }

  lemma ChargedIsCaptured(d: DriverId, amount: nat)
    ensures var db := Run(EMPTY, ChargedRide(d, amount));
            && Inv(db) && 0 in db.payments && db.payments[0].status == Captured && db.payments[0].provider == Paystack
            && db.refunds == map[] && db.nextId == 2
  {
    FiveSteps(EMPTY, ChargedRide(d, amount));
    ChargedBeforeCompletion(d, amount);
    CompletesCaptured(Apply(Apply(Apply(Apply(EMPTY, OpenTrip(0)), AssignDriver(0, d)), StepInitiate(0, amount, Paystack)),
                            StepChargeSuccess(Some(0), true)), 0);
  }

  /** A request while no refund of the payment is open creates one in PROCESSING. */
  lemma RequestCreates(db: Db, p: PaymentId)
    requires Inv(db) && p in db.payments && db.payments[p].status == Captured && db.payments[p].provider == Paystack
    requires forall r :: r in db.refunds ==> db.refunds[r].status == RefundFailed
    ensures var db' := Apply(db, StepRequestRefund(p, true, RefundResponse.Accepted));
            && Inv(db') && db'.payments == db.payments && db'.nextId == db.nextId + 1
            && db'.refunds == db.refunds[db.nextId := Refund(p, db.payments[p].amount, RefundProcessing, false)]
  {
    StepKept(db, StepRequestRefund(p, true, RefundResponse.Accepted));
  }

  lemma EventFails(db: Db, r: RefundId)
    requires Inv(db) && r in db.refunds && db.refunds[r].payment in db.payments
    ensures var db' := Apply(db, StepRefundEvent(EventFailed, Some(Some(r))));
            && Inv(db') && db'.payments == db.payments && db'.nextId == db.nextId
            && db'.refunds == db.refunds[r := db.refunds[r].(status := RefundFailed)]
  {
    StepKept(db, StepRefundEvent(EventFailed, Some(Some(r))));
  }

  /** A processed event closes its refund, whatever the refund's status was. */
  lemma EventCloses(db: Db, r: RefundId)
    requires Inv(db) && r in db.refunds
    ensures var db' := Apply(db, StepRefundEvent(EventProcessed, Some(Some(r))));
            && Inv(db') && db'.refunds == db.refunds[r := db.refunds[r].(status := Processed, reversed := true)]
            && ClosedRefund(db', r)
  {
    assert RefundOk(db, r);
    var p := db.refunds[r].payment;
    StepKept(db, StepRefundEvent(EventProcessed, Some(Some(r))));
    var updated := db.(refunds := db.refunds[r := db.refunds[r].(status := Processed)],
                       payments := db.payments[p := db.payments[p].(status := Refunded)]);
    ReverseSettles(updated, r);
  }

  lemma TwoRefundsBothClose(db: Db)
    requires Inv(db) && 0 in db.payments && db.payments[0].status == Captured && db.payments[0].provider == Paystack
    requires db.refunds == map[]
    ensures var n := db.nextId;
            var after := Run(db, TwoRefunds(n, n + 1));
            ClosedRefund(after, n) && ClosedRefund(after, n + 1) && after.refunds[n].payment == after.refunds[n + 1].payment == 0
  {
    var n := db.nextId;
    var steps := TwoRefunds(n, n + 1);
    FiveSteps(db, steps);
    RequestCreates(db, 0);
    var s1 := Apply(db, steps[0]);
    EventFails(s1, n);
    var s2 := Apply(s1, steps[1]);
    RequestCreates(s2, 0);
    var s3 := Apply(s2, steps[2]);
    EventCloses(s3, n + 1);
    var s4 := Apply(s3, steps[3]);
    EventCloses(s4, n);
    StepKept(s4, steps[4]);
    assert RefundAdvances(s4, Apply(s4, steps[4]), n + 1) && PaymentAdvances(s4, Apply(s4, steps[4]), 0);
  }

  /** From empty tables a run reverses two refunds of one payment. */
  lemma TwoRefundsAreReachable()
    ensures !RefundedOnce(Run(EMPTY, ChargedRide(0, 0) + TwoRefunds(2, 3)))
  {
    ChargedIsCaptured(0, 0);
    TwoRefundsBothClose(Run(EMPTY, ChargedRide(0, 0)));
    FinanceResults.RunAppends(EMPTY, ChargedRide(0, 0), TwoRefunds(2, 3));
  }

  // ---------------------------------------------------------------- the exact condition

  /** Processed events for two refunds, one after the other. */
  function BothProcessed(r: RefundId, s: RefundId): seq<Step> {
    [StepRefundEvent(EventProcessed, Some(Some(r))), StepRefundEvent(EventProcessed, Some(Some(s)))]
  }

  lemma BothClose(db: Db, r: RefundId, s: RefundId)
    requires Inv(db) && IsClaim(db, r) && Other(db, r, s)
    ensures var first := Apply(db, BothProcessed(r, s)[0]);
            var second := Apply(first, BothProcessed(r, s)[1]);
            && IsClaim(first, s) && r != s
            && ClosedRefund(second, r) && ClosedRefund(second, s) && second.refunds[r].payment == second.refunds[s].payment
  {
    var first := Apply(db, StepRefundEvent(EventProcessed, Some(Some(r))));
    EventCloses(db, r);
    assert first.refunds[s] == db.refunds[s];
    EventCloses(first, s);
    StepKept(first, StepRefundEvent(EventProcessed, Some(Some(s))));
    var second := Apply(first, StepRefundEvent(EventProcessed, Some(Some(s))));
    assert second.refunds[r] == first.refunds[r];
    assert PaymentAdvances(first, second, db.refunds[r].payment);
  }

  /** Two claims on a payment can both be reversed, and no failed refund is revived for that. */
  lemma TwoClaimsBothClose(db: Db, r: RefundId, s: RefundId)
    requires Inv(db) && IsClaim(db, r) && Other(db, r, s)
    ensures NoClash(db, BothProcessed(r, s)) && !RefundedOnce(Run(db, BothProcessed(r, s)))
  {
    var steps := BothProcessed(r, s);
    assert steps[..1][..0] == [] && steps[..1] == [steps[0]];
    assert Run(db, steps[..1]) == Apply(db, steps[0]);
    BothClose(db, r, s);
    assert Run(db, []) == db && !Revives(db, steps[0]) && steps[..1][0] == steps[0];
    assert NoClash(db, []);
    assert NoClash(db, steps[..1]);
    assert !Revives(Apply(db, steps[0]), steps[1]);
    assert Run(db, steps) == Apply(Apply(db, steps[0]), steps[1]);
  }

  /** If the run revives no refund beside another claim, it reverses at most one refund of each payment. */
  ghost predicate ReversesOnce(db: Db, steps: seq<Step>) {
    NoClash(db, steps) ==> RefundedOnce(Run(db, steps))
  }

  /** Whatever happens next short of such a revival, at most one refund of each payment is reversed,
      if and only if no payment has two claims now. */
  lemma OneClaimIsExact(db: Db)
    requires Inv(db) && forall r {:trigger ClosedIsRefunded(db, r)} :: ClosedIsRefunded(db, r)
    ensures (forall steps :: ReversesOnce(db, steps)) <==> OneClaim(db)
  {
    if OneClaim(db) {
      forall steps ensures ReversesOnce(db, steps) {
        if NoClash(db, steps) {
          OneRefundWithoutClash(db, steps);
        }
      }
    } else {
      var r, s :| IsClaim(db, r) && IsClaim(db, s) && db.refunds[r].payment == db.refunds[s].payment && r != s;
      assert Other(db, r, s);
      TwoClaimsBothClose(db, r, s);
      assert !ReversesOnce(db, BothProcessed(r, s));
    }
  }

  /** A revived refund is a claim, and the other refunds are as they were. */
  lemma RevivedIsClaim(db: Db, step: Step)
    requires Inv(db) && Revives(db, step)
    ensures var r := step.refund.value.value;
            var db' := Apply(db, step);
            && Inv(db') && IsClaim(db', r) && db'.refunds[r].payment == db.refunds[r].payment
            && forall s :: s != r ==> (s in db'.refunds <==> s in db.refunds) && (s in db.refunds ==> db'.refunds[s] == db.refunds[s])
  {
    var r := step.refund.value.value;
    assert RefundOk(db, r);
    StepKept(db, step);
    if step.kind == EventProcessed {
      EventCloses(db, r);
    }
  }

  /** Exactly when a revival costs a second refund: the event that revives refund `r` lets some run
      reverse two refunds of one payment if and only if another refund of `r`'s payment is pending,
      processing, processed or reversed when it arrives. */
  lemma RevivalCostsIff(db: Db, step: Step)
    requires Inv(db) && OneClaim(db) && Revives(db, step)
    ensures (exists more :: !ReversesOnce(Apply(db, step), more)) <==> exists s :: Other(db, step.refund.value.value, s)
  {
    var r := step.refund.value.value;
    var db' := Apply(db, step);
    RevivedIsClaim(db, step);
    if s :| Other(db, r, s) {
      assert IsClaim(db', s);
      assert Other(db', r, s);
      TwoClaimsBothClose(db', r, s);
      assert !ReversesOnce(db', BothProcessed(r, s));
    } else {
      StepKeepsClaims(db, step);
      OneClaimIsExact(db');
    }
  }

  // ---------------------------------------------------------------- the net of a payment

  /** On DRIVER_PAYABLE, on the wallet and on the commission account the postings of a payment with
      one closed refund are just two. */
  lemma PostingsOfPayment(db: Db, r: RefundId, x: Posting)
    requires Inv(db) && OneClaim(db) && RefundEarningWallet(r) in db.books.txs
    requires x.ref in db.books.txs && db.books.txs[x.ref] == x
    ensures r in db.refunds && db.refunds[r].payment in db.payments && PaymentEarning(db.refunds[r].payment) in db.books.txs
    ensures var p := db.refunds[r].payment;
            var wallet := db.books.txs[PaymentEarning(p)].target;
            && Weigh(PaymentOn(wallet, p), x) == Weigh(NetOf(wallet, {PaymentEarning(p), RefundEarningWallet(r)}), x)
            && Weigh(PaymentOn(OnAccount(DriverPayable), p), x)
               == Weigh(NetOf(OnAccount(DriverPayable), {PaymentPayable(p), RefundEarningPayable(r)}), x)
            && Weigh(PaymentOn(OnAccount(CommissionRevenue), p), x)
               == Weigh(NetOf(OnAccount(CommissionRevenue), {PaymentCommission(p), RefundCommission(r)}), x)
            && Weigh(PaymentOn(OnAccount(CashClearing), p), x)
               == Weigh(NetOf(OnAccount(CashClearing), {PaymentCaptured(p), RefundProcessed(r)}), x)
                  + Weigh(NetOf(OnAccount(CashClearing), {PaymentPending(p), PaymentAuthorized(p)}), x)
  {
    RowOf(db, RefundEarningWallet(r));
    RowOf(db, PaymentEarning(db.refunds[r].payment));
    RowOf(db, x.ref);
    assert IsClaim(db, r);
    match x.ref
    case RefundProcessed(s) => assert IsClaim(db, s);
    case RefundCommission(s) => assert IsClaim(db, s);
    case RefundEarningWallet(s) => assert IsClaim(db, s);
    case RefundEarningPayable(s) => assert IsClaim(db, s);
    case _ =>
  }

  /** What is left of a payment after capture and a full refund that took the earning back, over
      all postings of the payment: nothing on the driver's wallet and on DRIVER_PAYABLE, on the
      commission account one minor unit exactly when the gross is not divisible by 5, and in
      CASH_CLEARING the credits of the pending and the authorized stage. */
  ghost predicate NetsOut(db: Db, p: PaymentId) {
    && p in db.payments && PaymentEarning(p) in db.books.txs
    && Total(db.books.journal, PaymentOn(db.books.txs[PaymentEarning(p)].target, p)) == 0
    && Total(db.books.journal, PaymentOn(OnAccount(DriverPayable), p)) == 0
    && Total(db.books.journal, PaymentOn(OnAccount(CommissionRevenue), p)) == (if db.payments[p].amount % 5 == 0 then 0 else 1)
    && Total(db.books.journal, PaymentOn(OnAccount(CashClearing), p))
       == (if PaymentPending(p) in db.books.txs then db.payments[p].amount else 0)
          + (if PaymentAuthorized(p) in db.books.txs then db.payments[p].amount else 0)
  }

  lemma StageCredits(open: Books, db: Db, p: PaymentId)
    requires Inv(db) && LedgerOk(open, db.books) && p in db.payments
    ensures Total(db.books.journal, NetOf(OnAccount(CashClearing), {PaymentPending(p), PaymentAuthorized(p)}))
         == (if PaymentPending(p) in db.books.txs then db.payments[p].amount else 0)
            + (if PaymentAuthorized(p) in db.books.txs then db.payments[p].amount else 0)
  {
    assert Holds(TableMatchesJournal, open, db.books);
    RowOf(db, PaymentPending(p));
    RowOf(db, PaymentAuthorized(p));
    FinanceResults.NetOfTwo(db.books.txs, db.books.journal, OnAccount(CashClearing), PaymentPending(p), PaymentAuthorized(p));
  }

  lemma PaymentNetsOut(open: Books, db: Db, r: RefundId)
    requires Inv(db) && LedgerOk(open, db.books) && OneClaim(db) && RefundEarningWallet(r) in db.books.txs
    ensures r in db.refunds && NetsOut(db, db.refunds[r].payment)
  {
    FinanceResults.RefundNetsToZero(open, db, r);
    var journal, p := db.books.journal, db.refunds[r].payment;
    StageCredits(open, db, p);
    assert Holds(TableMatchesJournal, open, db.books);
    MatchesByIndex(db.books.txs, journal);
    var wallet := db.books.txs[PaymentEarning(p)].target;
    forall i | 0 <= i < |journal|
      ensures var x := journal[i].posting;
              && Weigh(PaymentOn(wallet, p), x) == Weigh(NetOf(wallet, {PaymentEarning(p), RefundEarningWallet(r)}), x)
              && Weigh(PaymentOn(OnAccount(DriverPayable), p), x)
                 == Weigh(NetOf(OnAccount(DriverPayable), {PaymentPayable(p), RefundEarningPayable(r)}), x)
              && Weigh(PaymentOn(OnAccount(CommissionRevenue), p), x)
                 == Weigh(NetOf(OnAccount(CommissionRevenue), {PaymentCommission(p), RefundCommission(r)}), x)
              && Weigh(PaymentOn(OnAccount(CashClearing), p), x)
                 == Weigh(NetOf(OnAccount(CashClearing), {PaymentCaptured(p), RefundProcessed(r)}), x)
                    + Weigh(NetOf(OnAccount(CashClearing), {PaymentPending(p), PaymentAuthorized(p)}), x)
    {
      PostingsOfPayment(db, r, journal[i].posting);
    }
    TotalAlike(journal, PaymentOn(wallet, p), NetOf(wallet, {PaymentEarning(p), RefundEarningWallet(r)}));
    TotalAlike(journal, PaymentOn(OnAccount(DriverPayable), p), NetOf(OnAccount(DriverPayable), {PaymentPayable(p), RefundEarningPayable(r)}));
    TotalAlike(journal, PaymentOn(OnAccount(CommissionRevenue), p),
               NetOf(OnAccount(CommissionRevenue), {PaymentCommission(p), RefundCommission(r)}));
    TotalSplits(journal, PaymentOn(OnAccount(CashClearing), p), NetOf(OnAccount(CashClearing), {PaymentCaptured(p), RefundProcessed(r)}),
                NetOf(OnAccount(CashClearing), {PaymentPending(p), PaymentAuthorized(p)}));
  }

  /** Over every run from empty tables that revives no refund beside another claim, a payment whose
      earning was taken back nets out, all its postings counted. */
  lemma RefundedPaymentNetsOut(steps: seq<Step>, r: RefundId)
    requires NoClash(EMPTY, steps) && RefundEarningWallet(r) in Run(EMPTY, steps).books.txs
    ensures r in Run(EMPTY, steps).refunds && NetsOut(Run(EMPTY, steps), Run(EMPTY, steps).refunds[r].payment)
  {
    var open := Opened(map[], map[]);
    assert Inv(EMPTY) && OneClaim(EMPTY);
    forall law ensures Holds(law, open, EMPTY.books) {}
    RunKept(EMPTY, steps);
    RunLedgerOk(open, EMPTY, steps);
    OneRefundWithoutClash(EMPTY, steps);
    PaymentNetsOut(open, Run(EMPTY, steps), r);
  }
}
