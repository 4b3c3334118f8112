/** What one delivery of a provider event comes to, event type by event type. */
module WebhookOutcomes {
  import opened Common
  import opened Ledger
  import opened Finance
  import opened FinanceInvariants
  import opened FinanceSteps
  import opened FinanceOutcomes
  import opened FinancePayoutOutcomes
  import opened FinanceRefundOutcomes
  import opened Webhooks

  /** The event names what it is about, and a charge success was verified. */
  predicate IsProcessable(payload: Payload, env: Env) {
    match payload
    case ChargeSucceeded(reference) => reference.Some? && env.verified
    case ChargeRejected(reference) => reference.Some?
    case TransferSucceeded(code) => code.Some?
    case TransferRejected(code) => code.Some?
    case RefundChanged(_, hasReference) => hasReference
    case DisputeChanged(hasId) => hasId
    case Unhandled => true
  }

  /** What an attempt at the event does to the tables. */
  ghost predicate Effects(db: Db, db': Db, payload: Payload, env: Env) {
    match payload
    case ChargeSucceeded(reference) => ChargeSucceeds(db, db', reference, env.verified)
    case ChargeRejected(reference) => ChargeFails(db, db', reference)
    case TransferSucceeded(code) => TransferSettles(db, db', code, true)
    case TransferRejected(code) => TransferSettles(db, db', code, false)
    case RefundChanged(kind, hasReference) => MovesRefund(db, db', kind, if hasReference then Some(env.refundFound) else None)
    case DisputeChanged(_) => db' == db
    case Unhandled => db' == db
  }

  /** The event after an attempt. */
  function Attempted(e: ProviderEvent, payload: Payload, env: Env): ProviderEvent {
    if IsProcessable(payload, env) then ProviderEvent(EventDone, true, e.attemptCount + 1, e.payload)
    else ProviderEvent(EventFailedStatus, e.processedAt, e.attemptCount + 1, e.payload)
  }

  lemma HandleEffects(db: Db, payload: Payload, env: Env)
    requires Inv(db)
    ensures var (db', processed) := Handle(db, payload, env);
            Effects(db, db', payload, env) && processed == IsProcessable(payload, env)
  {
    match payload
    case ChargeSucceeded(reference) => ChargeSuccessOutcome(db, reference, env.verified);
    case ChargeRejected(reference) => ChargeFailedOutcome(db, reference);
    case TransferSucceeded(code) => TransferEventOutcome(db, code);
    case TransferRejected(code) => TransferEventOutcome(db, code);
    case RefundChanged(kind, hasReference) =>
      RefundEventOutcome(db, kind, if hasReference then Some(env.refundFound) else None);
    case DisputeChanged(hasId) =>
    case Unhandled =>
  }

  /** One delivery: a new event is recorded and attempted, an event that is dead-lettered or was processed
      is left alone, and any other one is attempted again. An attempt has exactly the effects of its
      event type, and ends PROCESSED or FAILED. */
  lemma DeliveryOutcome(s: State, id: EventId, payload: Payload, env: Env)
    requires Inv(s.db)
    ensures var s' := Deliver(s, id, payload, env);
            var e := if id in s.events then s.events[id] else ProviderEvent(EventPendingStatus, false, 0, payload);
            if e.status == EventDeadLetter || e.processedAt then s' == s.(events := s.events[id := e])
            else Effects(s.db, s'.db, payload, env) && s'.events == s.events[id := Attempted(e, payload, env)]
  {
    HandleEffects(s.db, payload, env);
    var recorded := Record(s, id, payload);
    assert id in s.events ==> s.events[id := s.events[id]] == s.events;
    WrittenTwice(s.events, id, recorded.events[id], Attempted(recorded.events[id], payload, env));
  }

  /** A retry attempts the stored payload of any event that was not processed, dead-lettered ones included. */
  lemma RetryOutcome(s: State, id: EventId, env: Env)
    requires Inv(s.db)
    ensures var s' := Retry(s, id, env);
            if id !in s.events || s.events[id].status == EventDone || s.events[id].processedAt then s' == s
            else && Effects(s.db, s'.db, s.events[id].payload, env)
                 && s'.events == s.events[id := Attempted(s.events[id], s.events[id].payload, env)]
  {
    if id in s.events {
      HandleEffects(s.db, s.events[id].payload, env);
    }
  }
}
