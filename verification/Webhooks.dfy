/** Provider events: recorded once, processed until one attempt succeeds, replayable. */
module Webhooks {
  import opened Common
  import opened Ledger
  import opened Finance
  import opened FinanceInvariants
  import opened FinanceSteps
  import opened FinanceRefunds
  import FinanceStore

  type EventId = nat

  datatype EventStatus = EventPendingStatus | EventDone | EventFailedStatus | EventDeadLetter

  /** What the payload carries; a dispute writes only its own table. */
  datatype Payload =
    | ChargeSucceeded(reference: Option<PaymentId>)
    | ChargeRejected(reference: Option<PaymentId>)
    | TransferSucceeded(code: Option<TransferCode>)
    | TransferRejected(code: Option<TransferCode>)
    | RefundChanged(kind: RefundEventKind, hasReference: bool)
    | DisputeChanged(hasId: bool)
    | Unhandled

  datatype ProviderEvent = ProviderEvent(status: EventStatus, processedAt: bool, attemptCount: nat, payload: Payload)

  /** What an attempt meets outside the database: the verification answer and the refund row
      that `findFirst` picks for the reference. */
  datatype Env = Env(verified: bool, refundFound: Option<RefundId>)

  datatype State = State(db: Db, events: map<EventId, ProviderEvent>)

  /** The handler dispatch; the flag is the handler's answer. */
  ghost function Handle(db: Db, payload: Payload, env: Env): (Db, bool) {
    match payload
    case ChargeSucceeded(reference) => ChargeSuccess(db, reference, env.verified)
    case ChargeRejected(reference) => ChargeFailed(db, reference)
    case TransferSucceeded(code) => TransferSuccess(db, code)
    case TransferRejected(code) => TransferFailed(db, code)
    case RefundChanged(kind, hasReference) => RefundEvent(db, kind, if hasReference then Some(env.refundFound) else None)
    case DisputeChanged(hasId) => (db, hasId)
    case Unhandled => (db, true)
  }

  predicate Finished(e: ProviderEvent) {
    e.status == EventDeadLetter || e.processedAt
  }

  ghost function Process(s: State, id: EventId, payload: Payload, env: Env): State
    requires id in s.events
  {
    var e := s.events[id];
    var (db, processed) := Handle(s.db, payload, env);
    var tried := e.(attemptCount := e.attemptCount + 1);
    State(db, s.events[id := if processed then tried.(status := EventDone, processedAt := true)
                                          else tried.(status := EventFailedStatus)])
  }

  /** `recordProviderEvent`: an upsert that never changes an existing row. */
  function Record(s: State, id: EventId, payload: Payload): State {
    if id in s.events then s else s.(events := s.events[id := ProviderEvent(EventPendingStatus, false, 0, payload)])
  }

  ghost function Deliver(s: State, id: EventId, payload: Payload, env: Env): State {
    var recorded := Record(s, id, payload);
    if Finished(recorded.events[id]) then recorded else Process(recorded, id, payload, env)
  }

  ghost function Retry(s: State, id: EventId, env: Env): State {
    if id !in s.events || s.events[id].status == EventDone || s.events[id].processedAt then s
    else Process(s, id, s.events[id].payload, env)
  }

  function DeadLetter(s: State, id: EventId): State {
    if id !in s.events || s.events[id].status == EventDone || s.events[id].processedAt then s
    else s.(events := s.events[id := s.events[id].(status := EventDeadLetter)])
  }

  datatype HookStep =
    | HookDeliver(id: EventId, payload: Payload, env: Env)
    | HookRetry(id: EventId, env: Env)
    | HookDeadLetter(id: EventId)
    | HookFinance(step: Step)

  ghost function ApplyHook(s: State, step: HookStep): State {
    match step
    case HookDeliver(id, payload, env) => Deliver(s, id, payload, env)
    case HookRetry(id, env) => Retry(s, id, env)
    case HookDeadLetter(id) => DeadLetter(s, id)
    case HookFinance(f) => s.(db := Apply(s.db, f))
  }

  ghost function RunHooks(s: State, steps: seq<HookStep>): State
    decreases |steps|
  {
    if steps == [] then s else RunHooks(ApplyHook(s, steps[0]), steps[1..])
  }

  // ---------------------------------------------------------------- event life cycle

  ghost predicate EventsOk(s: State) {
    forall id :: id in s.events ==> (s.events[id].processedAt <==> s.events[id].status == EventDone)
  }

  /** PROCESSED is never left, attempts only grow, no event is lost. */
  ghost predicate EventsAdvance(s: State, s': State) {
    forall id :: id in s.events ==>
      && id in s'.events
      && s.events[id].attemptCount <= s'.events[id].attemptCount
      && (s.events[id].status == EventDone ==> s'.events[id] == s.events[id])
  }

  lemma StepLifeCycle(s: State, step: HookStep)
    requires EventsOk(s)
    ensures EventsOk(ApplyHook(s, step)) && EventsAdvance(s, ApplyHook(s, step))
  {
  }

  /** processedAt is set exactly when the event is PROCESSED, and PROCESSED is never left, over
      every run of deliveries, retries, dead-letterings and other service calls. */
  lemma {:induction false} EventLifeCycle(s: State, steps: seq<HookStep>)
    requires EventsOk(s)
    ensures EventsOk(RunHooks(s, steps)) && EventsAdvance(s, RunHooks(s, steps))
    decreases |steps|
  {
    if steps != [] {
      var s1 := ApplyHook(s, steps[0]);
      StepLifeCycle(s, steps[0]);
      EventLifeCycle(s1, steps[1..]);
    }
  }

  // ---------------------------------------------------------------- what a handler may change

  /** A handler that answers "not processed" has changed no payment, payout, refund or ledger row. */
  lemma NotProcessedChangesNothing(db: Db, payload: Payload, env: Env)
    requires !Handle(db, payload, env).1
    ensures Handle(db, payload, env).0 == db
  {
    match payload
    case ChargeSucceeded(reference) =>
    case ChargeRejected(reference) =>
    case TransferSucceeded(code) =>
    case TransferRejected(code) =>
    case RefundChanged(kind, hasReference) =>
    case DisputeChanged(hasId) =>
    case Unhandled =>
  }

  /** Handling an event is one of the service calls, so it keeps what they all keep. */
  lemma HandleKept(db: Db, payload: Payload, env: Env)
    requires Inv(db)
    ensures Kept(db, Handle(db, payload, env).0)
  {
    KeptSame(db);
    match payload
    case ChargeSucceeded(reference) => KeptChargeSuccess(db, reference, env.verified);
    case ChargeRejected(reference) => KeptChargeFailed(db, reference);
    case TransferSucceeded(code) => KeptTransferEvents(db, code);
    case TransferRejected(code) => KeptTransferEvents(db, code);
    case RefundChanged(kind, hasReference) => KeptRefundEvent(db, kind, if hasReference then Some(env.refundFound) else None);
    case DisputeChanged(hasId) =>
    case Unhandled =>
  }

  lemma FoundPayment(db: Db, p: PaymentId)
    requires Keys(db) && p in db.payments
    ensures PaymentOfTrip(db.payments, db.payments[p].trip) == Some(p)
  {
    assert IsPaymentOf(db.payments, db.payments[p].trip, p);
  }

  lemma ChargeSuccessIdempotent(db: Db, reference: Option<PaymentId>, verified: bool)
    requires Inv(db)
    ensures var once := ChargeSuccess(db, reference, verified); ChargeSuccess(once.0, reference, verified) == once
  {
    if reference.Some? && verified && reference.value in db.payments && !ChargeSettled(db.payments[reference.value].status) {
      var p := reference.value;
      var payment := ConfirmPayment(db.payments[p], db.payments[p].status);
      var confirmed := db.(payments := db.payments[p := payment]);
      KeptPaymentRow(db, p, payment);
      FoundPayment(confirmed, p);
      if !Capturable(payment) || !(payment.trip in db.trips && db.trips[payment.trip].completed) {
        assert confirmed.payments[p := ConfirmPayment(payment, payment.status)] == confirmed.payments;
      }
    }
  }

  lemma TransferEventsIdempotent(db: Db, code: Option<TransferCode>)
    requires Inv(db)
    ensures var once := TransferSuccess(db, code); TransferSuccess(once.0, code) == once
    ensures var once := TransferFailed(db, code); TransferFailed(once.0, code) == once
  {
    if code.Some? {
      match PayoutOfCode(db.payouts, code.value)
      case None =>
      case Some(q) =>
        KeptTransferEvents(db, code);
        var paid, failed := TransferSuccess(db, code).0, TransferFailed(db, code).0;
        assert HasCode(paid.payouts, code.value, q) && HasCode(failed.payouts, code.value, q);
        assert PayoutOfCode(paid.payouts, code.value) == Some(q);
        assert PayoutOfCode(failed.payouts, code.value) == Some(q);
    }
  }

  lemma RefundEventIdempotent(db: Db, kind: RefundEventKind, reference: Option<Option<RefundId>>)
    requires Inv(db)
    ensures var once := RefundEvent(db, kind, reference); RefundEvent(once.0, kind, reference) == once
  {
    if reference.Some? && reference.value.Some? && reference.value.value in db.refunds {
      var r := reference.value.value;
      assert RefundOk(db, r);
      var p := db.refunds[r].payment;
      var once := RefundEvent(db, kind, reference).0;
      KeptRefundEvent(db, kind, reference);
      assert once.refunds[r := once.refunds[r].(status := once.refunds[r].status)] == once.refunds;
      assert once.payments[p := once.payments[p].(status := once.payments[p].status)] == once.payments;
      if kind == EventProcessed {
        var updated := db.(refunds := db.refunds[r := db.refunds[r].(status := Processed)],
                           payments := db.payments[p := db.payments[p].(status := Refunded)]);
        ReverseSettles(updated, r);
      }
    }
  }

  /** A charge that was handled once is left alone, however the second verification turns out. */
  lemma HandledChargeStays(db: Db, reference: Option<PaymentId>, verified: bool)
    requires Inv(db) && ChargeSuccess(db, reference, true).1
    ensures ChargeSuccess(ChargeSuccess(db, reference, true).0, reference, verified).0 == ChargeSuccess(db, reference, true).0
  {
    ChargeSuccessIdempotent(db, reference, true);
  }

  /** Exactly once across crashes: if the process dies after a handler committed and before the event
      was marked, running the handler again changes nothing more, whatever the provider then answers
      about the charge; with the same answer it also reports the same. A handler that reported "not
      processed" leaves everything to the second run. */
  lemma HandlerIdempotent(db: Db, payload: Payload, env: Env, verified: bool)
    requires Inv(db)
    ensures var once := Handle(db, payload, env);
            var again := Handle(once.0, payload, env.(verified := verified));
            && (once.1 ==> again.0 == once.0)
            && (!once.1 ==> again == Handle(db, payload, env.(verified := verified)))
            && (verified == env.verified ==> again == once)
  {
    if !Handle(db, payload, env).1 {
      NotProcessedChangesNothing(db, payload, env);
    }
    match payload
    case ChargeSucceeded(reference) =>
      ChargeSuccessIdempotent(db, reference, env.verified);
      if env.verified && ChargeSuccess(db, reference, true).1 {
        HandledChargeStays(db, reference, verified);
      }
    case ChargeRejected(reference) =>
    case TransferSucceeded(code) => TransferEventsIdempotent(db, code);
    case TransferRejected(code) => TransferEventsIdempotent(db, code);
    case RefundChanged(kind, hasReference) => RefundEventIdempotent(db, kind, if hasReference then Some(env.refundFound) else None);
    case DisputeChanged(hasId) =>
    case Unhandled =>
  }

  // ---------------------------------------------------------------- over whole runs

  lemma HookKept(s: State, step: HookStep)
    requires Inv(s.db)
    ensures Kept(s.db, ApplyHook(s, step).db)
  {
    KeptSame(s.db);
    match step
    case HookDeliver(id, payload, env) => HandleKept(s.db, payload, env);
    case HookRetry(id, env) => if id in s.events { HandleKept(s.db, s.events[id].payload, env); }
    case HookDeadLetter(id) =>
    case HookFinance(f) => StepKept(s.db, f);
  }

  /** Over every run of deliveries, retries, dead-letterings and other service calls the tables
      keep the invariant, and life cycles only advance. */
  lemma {:induction false} RunHooksKept(s: State, steps: seq<HookStep>)
    requires Inv(s.db)
    ensures Kept(s.db, RunHooks(s, steps).db)
    decreases |steps|
  {
    if steps == [] {
      KeptSame(s.db);
    } else {
      HookKept(s, steps[0]);
      RunHooksKept(ApplyHook(s, steps[0]), steps[1..]);
      KeptChain(s.db, ApplyHook(s, steps[0]).db, RunHooks(s, steps).db);
    }
  }

  /** A dead-lettered event is not processed again, however often it is delivered, until somebody
      retries it. */
  lemma {:induction false} DeadLetterStays(s: State, id: EventId, steps: seq<HookStep>)
    requires id in s.events && s.events[id].status != EventDone
    requires !s.events[id].processedAt && forall i :: 0 <= i < |steps| ==> !(steps[i].HookRetry? && steps[i].id == id)
    ensures var dead := DeadLetter(s, id);
            && dead.db == s.db && dead.events[id] == s.events[id].(status := EventDeadLetter)
            && id in RunHooks(dead, steps).events && RunHooks(dead, steps).events[id] == dead.events[id]
  {
    DeadLetteredStays(DeadLetter(s, id), id, steps);
  }

  lemma {:induction false} DeadLetteredStays(s: State, id: EventId, steps: seq<HookStep>)
    requires id in s.events && s.events[id].status == EventDeadLetter && !s.events[id].processedAt
    requires forall i :: 0 <= i < |steps| ==> !(steps[i].HookRetry? && steps[i].id == id)
    ensures id in RunHooks(s, steps).events && RunHooks(s, steps).events[id] == s.events[id]
    decreases |steps|
  {
    if steps != [] {
      var s1 := ApplyHook(s, steps[0]);
      assert s1.events[id] == s.events[id];
      DeadLetteredStays(s1, id, steps[1..]);
    }
  }

  // ---------------------------------------------------------------- duplicate deliveries

  ghost predicate IsDuplicate(s: State, step: HookStep) {
    step.HookDeliver? && step.id in s.events && Finished(s.events[step.id])
  }

  /** The run without the deliveries that find their event finished. */
  ghost function WithoutDuplicates(s: State, steps: seq<HookStep>): seq<HookStep>
    decreases |steps|
  {
    if steps == [] then []
    else if IsDuplicate(s, steps[0]) then WithoutDuplicates(s, steps[1..])
    else [steps[0]] + WithoutDuplicates(ApplyHook(s, steps[0]), steps[1..])
  }

  /** A run with duplicates of PROCESSED or DEAD_LETTER events ends as the run without them does. */
  lemma {:induction false} DuplicatesChangeNothing(s: State, steps: seq<HookStep>)
    ensures RunHooks(s, WithoutDuplicates(s, steps)) == RunHooks(s, steps)
    decreases |steps|
  {
    if steps != [] {
      if IsDuplicate(s, steps[0]) {
        DuplicatesChangeNothing(s, steps[1..]);
      } else {
        var s1 := ApplyHook(s, steps[0]);
        DuplicatesChangeNothing(s1, steps[1..]);
        assert WithoutDuplicates(s, steps)[1..] == WithoutDuplicates(s1, steps[1..]);
      }
    }
  }

  // ---------------------------------------------------------------- the service

  lemma WrittenTwice(events: map<EventId, ProviderEvent>, id: EventId, first: ProviderEvent, second: ProviderEvent)
    ensures events[id := first][id := second] == events[id := second]
  {
  }

  class WebhookService {
    const store: FinanceStore.Store
    var events: map<EventId, ProviderEvent>

    constructor (store: FinanceStore.Store)
      ensures this.store == store && events == map[]
    {
      this.store := store;
      events := map[];
    }

    ghost function View(): State
      reads this, store
    {
      State(store.View(), events)
    }

    method Dispatch(payload: Payload, env: Env) returns (processed: bool)
      requires Inv(store.View())
      modifies store
      ensures (store.View(), processed) == Handle(old(store.View()), payload, env) && Inv(store.View())
    {
      match payload
      case ChargeSucceeded(reference) => processed := store.HandleChargeSuccess(reference, env.verified);
      case ChargeRejected(reference) => processed := store.HandleChargeFailed(reference);
      case TransferSucceeded(code) => processed := store.HandleTransferSuccess(code);
      case TransferRejected(code) => processed := store.HandleTransferFailed(code);
      case RefundChanged(kind, hasReference) =>
        processed := store.HandleRefundEvent(kind, if hasReference then Some(env.refundFound) else None);
      case DisputeChanged(hasId) => processed := hasId;
      case Unhandled => processed := true;
    }

    method ProcessProviderEvent(id: EventId, payload: Payload, env: Env)
      requires id in events && Inv(store.View())
      modifies this, store
      ensures View() == Process(old(View()), id, payload, env) && Inv(store.View())
    {
      var tried := events[id].(status := EventPendingStatus, attemptCount := events[id].attemptCount + 1);
      events := events[id := tried];
      var processed := Dispatch(payload, env);
      var outcome := if processed then tried.(status := EventDone, processedAt := true) else tried.(status := EventFailedStatus);
      WrittenTwice(old(events), id, tried, outcome);
      events := events[id := outcome];
    }

    method HandleWebhookEvent(id: EventId, payload: Payload, env: Env)
      requires Inv(store.View())
      modifies this, store
      ensures View() == Deliver(old(View()), id, payload, env) && Inv(store.View())
    {
      if id !in events {
        events := events[id := ProviderEvent(EventPendingStatus, false, 0, payload)];
      }
      if events[id].status == EventDeadLetter || events[id].processedAt {
        return;
      }
      ProcessProviderEvent(id, payload, env);
    }

    method RetryProviderEvent(id: EventId, env: Env)
      requires Inv(store.View())
      modifies this, store
      ensures View() == Retry(old(View()), id, env) && Inv(store.View())
    {
      if id !in events {
        return;
      }
      if events[id].status == EventDone || events[id].processedAt {
        return;
      }
      ProcessProviderEvent(id, events[id].payload, env);
    }

    method DeadLetterProviderEvent(id: EventId)
      modifies this
      ensures View() == DeadLetter(old(View()), id)
    {
      if id !in events {
        return;
      }
      if events[id].status == EventDone || events[id].processedAt {
        return;
      }
      events := events[id := events[id].(status := EventDeadLetter)];
    }
  }
}
