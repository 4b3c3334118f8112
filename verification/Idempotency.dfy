/** Idempotency keys: reserve, run the handler, store the response, replay it. */
module Idempotency {
  import opened Common
  import StableJson

  /** The unique pair (scope, key). */
  datatype Key = Key(scope: string, key: string)

  /** The canonical request text stands for its sha256, which is taken to be injective. */
  type Hash = StableJson.Text

  type Body = string

  datatype Status = InProgress | Completed | Failed

  datatype Row = Row(hash: Hash, status: Status, response: Option<Body>, lockedUntil: Option<nat>, expiresAt: nat)

  /** What the handler comes to: the response has a JSON form to store, or it has none. */
  datatype Outcome = Returns(stored: Body) | ReturnsUnstorable | Throws

  datatype Reservation = Reserved | Replay(body: Option<Body>) | DifferentRequest | StillInProgress

  // ---------------------------------------------------------------- the writes to one key

  /** `reserveKey`, as one step: the row it leaves and its answer. */
  function Reserve(row: Option<Row>, hash: Hash, now: nat, lockMs: nat, ttlMs: nat): (Row, Reservation) {
    match row
    case None => (Row(hash, InProgress, None, Some(now + lockMs), now + ttlMs), Reserved)
    case Some(existing) =>
      if existing.hash != hash then (existing, DifferentRequest)
      else if existing.status == Completed then (existing, Replay(existing.response))
      else if existing.status == InProgress && existing.lockedUntil.Some? && existing.lockedUntil.value > now
      then (existing, StillInProgress)
      else
        (existing.(status := InProgress, response := None, lockedUntil := Some(now + lockMs), expiresAt := now + ttlMs),
         Reserved)
  }

  function MarkedCompleted(row: Row, body: Body): Row {
    row.(status := Completed, response := Some(body), lockedUntil := None)
  }

  function MarkedFailed(row: Row, now: nat): Row {
    row.(status := Failed, response := None, lockedUntil := None, expiresAt := now)
  }

  /** The row after the handler: a response without a JSON form fails while being stored. */
  function Settled(row: Row, outcome: Outcome, now: nat): Row {
    match outcome
    case Returns(body) => MarkedCompleted(row, body)
    case _ => MarkedFailed(row, now)
  }

  /** A reservation never changes a hash or a COMPLETED row. */
  lemma ReserveKeeps(existing: Row, hash: Hash, now: nat, lockMs: nat, ttlMs: nat)
    ensures var (row, reservation) := Reserve(Some(existing), hash, now, lockMs, ttlMs);
            && row.hash == existing.hash
            && (existing.status == Completed || existing.hash != hash ==> row == existing && reservation != Reserved)
  {
  }

  /** A key that was reserved and not settled since can be reserved again exactly by the same
      request and not before the lock has ended, whatever `expiresAt` says. */
  lemma ReservedUntilLockEnds(before: Option<Row>, hash: Hash, now: nat, lockMs: nat, ttlMs: nat,
                              again: Hash, later: nat, lockMs': nat, ttlMs': nat)
    requires Reserve(before, hash, now, lockMs, ttlMs).1 == Reserved
    ensures var row := Reserve(before, hash, now, lockMs, ttlMs).0;
            Reserve(Some(row), again, later, lockMs', ttlMs').1 == Reserved <==> again == hash && later >= now + lockMs
  {
  }

  /** When a key is reserved: it is new, or the same request left it FAILED, or left it IN_PROGRESS with a
      lock that has ended. The reservation locks it for `lockMs` and forgets the stored response. */
  lemma ReservedIff(before: Option<Row>, hash: Hash, now: nat, lockMs: nat, ttlMs: nat)
    ensures var (row, reservation) := Reserve(before, hash, now, lockMs, ttlMs);
            && (reservation == Reserved <==>
                  before.None?
                  || (before.value.hash == hash
                      && (before.value.status == Failed
                          || (before.value.status == InProgress
                              && (before.value.lockedUntil.None? || before.value.lockedUntil.value <= now)))))
            && (reservation == Reserved ==> row == Row(hash, InProgress, None, Some(now + lockMs), now + ttlMs))
            && (reservation != Reserved ==> before == Some(row))
            && (reservation == DifferentRequest <==> before.Some? && before.value.hash != hash)
            && (reservation.Replay? <==> before.Some? && before.value.hash == hash && before.value.status == Completed)
            && (reservation.Replay? ==> reservation.body == before.value.response)
  {
  }

  /** After a handler that threw, or whose response cannot be stored, the same request is reserved
      again at once, whatever lock it had; any other request with the key is rejected. */
  lemma FailureFreesKey(reserved: Row, outcome: Outcome, finished: nat, again: Hash, later: nat, lockMs: nat, ttlMs: nat)
    requires !outcome.Returns?
    ensures Settled(reserved, outcome, finished) == Row(reserved.hash, Failed, None, None, finished)
    ensures var reservation := Reserve(Some(Settled(reserved, outcome, finished)), again, later, lockMs, ttlMs).1;
            reservation == if again == reserved.hash then Reserved else DifferentRequest
  {
  }

  // ---------------------------------------------------------------- the service, one request at a time

  datatype Answer = HandlerResponse(response: Body) | Replayed(body: Option<Body>) | Conflict | HandlerError

  class IdempotencyService {
    var rows: map<Key, Row>

    constructor ()
      ensures rows == map[]
    {
      rows := map[];
    }

    method ReserveKey(key: Key, hash: Hash, now: nat, lockMs: nat, ttlMs: nat) returns (reserved: Reservation)
      modifies this
      ensures var row := if key in old(rows) then Some(old(rows)[key]) else None;
              && rows == old(rows)[key := Reserve(row, hash, now, lockMs, ttlMs).0]
              && reserved == Reserve(row, hash, now, lockMs, ttlMs).1
    {
      var expiresAt := now + ttlMs;
      var lockedUntil := now + lockMs;
      if key !in rows {
        rows := rows[key := Row(hash, InProgress, None, Some(lockedUntil), expiresAt)];
        return Reserved;
      }
      var existing := rows[key];
      assert rows[key := existing] == rows;
      if existing.hash != hash {
        return DifferentRequest;
      }
      if existing.status == Completed {
        return Replay(existing.response);
      }
      if existing.status == InProgress && existing.lockedUntil.Some? && existing.lockedUntil.value > now {
        return StillInProgress;
      }
      rows := rows[key :=
        existing.(status := InProgress, response := None, lockedUntil := Some(lockedUntil), expiresAt := expiresAt)];
      return Reserved;
    }

    /** `run` with a key: `finished` is the clock when the handler has come to its outcome. The
        handler ran if and only if the key was reserved. */
    method RunRequest(key: Key, hash: Hash, now: nat, lockMs: nat, ttlMs: nat, outcome: Outcome, finished: nat)
      returns (answer: Answer, ran: bool)
      modifies this
      ensures var row := if key in old(rows) then Some(old(rows)[key]) else None;
              var (reserved, reservation) := Reserve(row, hash, now, lockMs, ttlMs);
              && ran == (reservation == Reserved)
              && rows == old(rows)[key := if ran then Settled(reserved, outcome, finished) else reserved]
              && answer == match reservation
                           case Reserved => (if outcome.Returns? then HandlerResponse(outcome.stored) else HandlerError)
                           case Replay(body) => Replayed(body)
                           case _ => Conflict
      ensures answer.HandlerResponse? ==> rows[key] == Row(hash, Completed, Some(answer.response), None, now + ttlMs)
      ensures (ran <==> answer.HandlerResponse? || answer == HandlerError) && (!ran ==> rows == old(rows))
      ensures answer == HandlerError ==> rows[key] == Row(hash, Failed, None, None, finished)
    {
      var reservation := ReserveKey(key, hash, now, lockMs, ttlMs);
      match reservation
      case Replay(body) => return Replayed(body), false;
      case DifferentRequest => return Conflict, false;
      case StillInProgress => return Conflict, false;
      case Reserved =>
        match outcome {
          case Returns(body) =>
            rows := rows[key := MarkedCompleted(rows[key], body)];
            return HandlerResponse(body), true;
          case _ =>
            rows := rows[key := MarkedFailed(rows[key], finished)];
            return HandlerError, true;
        }
    }
  }
}
