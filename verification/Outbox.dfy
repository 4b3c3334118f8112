/** The outbox worker: listing, claiming, publishing and rescheduling events. */
module Outbox {
  import opened Common

  type EventId = nat

  datatype Status = Pending | Processing | Published | Failed | DeadLetter

  datatype Payload = NotAnObject | Object(failPublish: bool)

  /** The events table lists rows in creation order; an event's identifier is its position. */
  datatype Event = Event(payload: Payload, status: Status, attemptCount: nat, nextAttemptAt: Option<nat>)

  /** Times and delays are in milliseconds. */
  datatype Config = Config(maxAttempts: int, baseBackoff: nat, maxBackoff: nat, lease: nat)

  // ---------------------------------------------------------------- backoff

  function Pow2(k: nat): nat {
    if k == 0 then 1 else 2 * Pow2(k - 1)
  }

  function Delay(c: Config, attempt: nat): nat {
    var grown := c.baseBackoff * Pow2(if attempt > 1 then attempt - 1 else 0);
    if grown < c.maxBackoff then grown else c.maxBackoff
  }

  lemma {:induction false} Pow2Grows(j: nat, k: nat)
    requires j <= k
    ensures 0 < Pow2(j) <= Pow2(k)
    decreases k
  {
    if j < k {
      Pow2Grows(j, k - 1);
    } else if j > 0 {
      Pow2Grows(j - 1, k - 1);
    }
  }

  lemma ProductGrows(a: nat, x: nat, y: nat)
    requires x <= y
    ensures a * x <= a * y
  {
  }

  /** Later attempts never wait less, no attempt waits longer than the cap, and the first one
      waits the base delay when that is under the cap. */
  lemma BackoffGrowsToCap(c: Config, m: nat, n: nat)
    requires m <= n
    ensures Delay(c, m) <= Delay(c, n) <= c.maxBackoff
    ensures c.baseBackoff <= c.maxBackoff ==> c.baseBackoff <= Delay(c, n)
    ensures Delay(c, 0) == Delay(c, 1) == if c.baseBackoff < c.maxBackoff then c.baseBackoff else c.maxBackoff
  {
    var j, k := if m > 1 then m - 1 else 0, if n > 1 then n - 1 else 0;
    Pow2Grows(j, k);
    Pow2Grows(0, k);
    ProductGrows(c.baseBackoff, Pow2(j), Pow2(k));
    ProductGrows(c.baseBackoff, Pow2(0), Pow2(k));
    assert Pow2(0) == 1 && c.baseBackoff * Pow2(0) == c.baseBackoff;
  }

  function Least(a: nat, b: nat): nat {
    if a < b then a else b
  }

  /** The first attempt waits the base delay, every later one twice as long as the one before it, and
      none longer than the cap. */
  lemma BackoffDoubles(c: Config, n: nat)
    ensures Delay(c, 0) == Delay(c, 1) == Least(c.baseBackoff, c.maxBackoff)
    ensures n >= 1 ==> Delay(c, n + 1) == Least(2 * Delay(c, n), c.maxBackoff)
  {
    BackoffGrowsToCap(c, 0, n);
    if n >= 1 {
      assert Pow2(n) == 2 * Pow2(n - 1);
      Doubled(c.baseBackoff, Pow2(n - 1));
    }
  }

  lemma Doubled(a: nat, x: nat)
    ensures a * (2 * x) == 2 * (a * x)
  {
  }

  lemma {:induction false} Pow2Exceeds(k: nat)
    ensures Pow2(k) > k
  {
    if k > 0 {
      Pow2Exceeds(k - 1);
    }
  }

  /** With a positive base the cap is reached. */
  lemma BackoffReachesCap(c: Config)
    requires c.baseBackoff > 0
    ensures exists n :: Delay(c, n) == c.maxBackoff
  {
    var n := c.maxBackoff + 1;
    Pow2Exceeds(c.maxBackoff);
    ProductGrows(Pow2(c.maxBackoff), 1, c.baseBackoff);
    assert c.baseBackoff * Pow2(n - 1) >= Pow2(n - 1);
    assert Delay(c, n) == c.maxBackoff;
  }

  // ---------------------------------------------------------------- the writes to one row

  predicate Due(e: Event, now: nat) {
    e.nextAttemptAt.None? || e.nextAttemptAt.value <= now
  }

  /** The where clause of `listPendingEvents`. */
  predicate Listable(e: Event, now: nat) {
    match e.status
    case Pending => Due(e, now)
    case Failed => Due(e, now)
    case Processing => e.nextAttemptAt.Some? && e.nextAttemptAt.value <= now
    case _ => false
  }

  predicate Terminal(e: Event) {
    e.status == Published || e.status == DeadLetter
  }

  /** The compare part of the claim. */
  predicate Unchanged(snapshot: Event, row: Event) {
    row.status == snapshot.status && row.attemptCount == snapshot.attemptCount
  }

  function Claimed(e: Event, c: Config, now: nat): Event {
    e.(status := Processing, attemptCount := e.attemptCount + 1, nextAttemptAt := Some(now + c.lease))
  }

  /** `markPublished` is conditional on PROCESSING. */
  function MarkedPublished(e: Event): Event {
    if e.status == Processing then e.(status := Published, nextAttemptAt := None) else e
  }

  /** `markFailed` and `markDeadLetter` are not conditional. */
  function MarkedFailed(e: Event, c: Config, attempt: nat, now: nat): Event {
    if attempt >= c.maxAttempts then e.(status := DeadLetter, attemptCount := attempt, nextAttemptAt := None)
    else e.(status := Failed, attemptCount := attempt, nextAttemptAt := Some(now + Delay(c, attempt)))
  }

  predicate PublishThrows(e: Event, mockFailure: bool) {
    mockFailure || e.payload.NotAnObject? || e.payload.failPublish
  }

  /** A failed attempt is not listed again before its delay is over, which is at least the first
      delay, and at the maximum of attempts it is never listed again. */
  lemma FailureWaits(e: Event, c: Config, attempt: nat, now: nat, later: nat)
    ensures var failed := MarkedFailed(e, c, attempt, now);
            && (Terminal(failed) <==> attempt >= c.maxAttempts)
            && (Listable(failed, later) <==> attempt < c.maxAttempts && later >= now + Delay(c, attempt))
            && (Listable(failed, later) ==> later >= now + Delay(c, 0))
  {
    BackoffGrowsToCap(c, 0, attempt);
  }

  /** A held event that is marked published is never listed again; one that somebody else finished
      in the meantime is left as it is. */
  lemma PublishedIsFinal(e: Event, later: nat)
    ensures var marked := MarkedPublished(e);
            && (e.status == Processing ==> marked.status == Published && !Listable(marked, later))
            && (e.status != Processing ==> marked == e)
            && MarkedPublished(marked) == marked
  {
  }

  // ---------------------------------------------------------------- one batch

  datatype Outcome = WasPublished | WasFailed | WasDeadLettered | WasSkipped

  /** `processEvent` on a snapshot and the row it finds. */
  function Processed(row: Event, snapshot: Event, mockFailure: bool, c: Config, now: nat): (Event, Outcome) {
    if Terminal(snapshot) || !Unchanged(snapshot, row) then (row, WasSkipped)
    else
      var claimed := Claimed(row, c, now);
      if !PublishThrows(snapshot, mockFailure) then (MarkedPublished(claimed), WasPublished)
      else
        (MarkedFailed(claimed, c, claimed.attemptCount, now),
         if claimed.attemptCount >= c.maxAttempts then WasDeadLettered else WasFailed)
  }

  /** The first `limit` events that can be listed at `now`. */
  function Listed(events: seq<Event>, now: nat, limit: nat): seq<EventId> {
    if events == [] then []
    else
      var n := |events| - 1;
      var before := Listed(events[..n], now, limit);
      if Listable(events[n], now) && |before| < limit then before + [n] else before
  }

  /** An enqueued event is listed at once, behind all that are due already. */
  lemma EnqueuedIsListed(events: seq<Event>, payload: Payload, now: nat, limit: nat)
    ensures var before := Listed(events, now, limit);
            Listed(events + [Event(payload, Pending, 0, None)], now, limit)
            == if |before| < limit then before + [|events|] else before
  {
    var more := events + [Event(payload, Pending, 0, None)];
    assert more[..|events|] == events;
  }

  /** The listing is in creation order, holds only listable events, and leaves one out only
      when the limit is reached by older ones. */
  lemma {:induction false} ListedIsOldestFirst(events: seq<Event>, now: nat, limit: nat)
    ensures var ids := Listed(events, now, limit);
            && |ids| <= limit
            && (forall i :: 0 <= i < |ids| ==> ids[i] < |events| && Listable(events[ids[i]], now))
            && (forall i, j :: 0 <= i < j < |ids| ==> ids[i] < ids[j])
            && (forall id: EventId :: id < |events| && Listable(events[id], now) && id !in ids ==>
                  |ids| == limit && forall i :: 0 <= i < |ids| ==> ids[i] < id)
  {
    if events != [] {
      var n := |events| - 1;
      ListedIsOldestFirst(events[..n], now, limit);
      var before := Listed(events[..n], now, limit);
      var ids := Listed(events, now, limit);
      forall id: EventId | id < |events| && Listable(events[id], now) && id !in ids
        ensures |ids| == limit && forall i :: 0 <= i < |ids| ==> ids[i] < id
      {
        if id < n {
          assert id !in before;
          assert Listable(events[..n][id], now);
        }
      }
    }
  }

  /** The number of listed events whose row has the given status. */
  function CountStatus(events: seq<Event>, ids: seq<EventId>, status: Status): nat
    requires forall i :: 0 <= i < |ids| ==> ids[i] < |events|
  {
    if ids == [] then 0
    else
      var n := |ids| - 1;
      CountStatus(events, ids[..n], status) + if events[ids[n]].status == status then 1 else 0
  }

  /** Rows outside the listing do not change a count. */
  lemma {:induction false} CountFrame(a: seq<Event>, b: seq<Event>, ids: seq<EventId>, status: Status)
    requires |a| == |b| && forall i :: 0 <= i < |ids| ==> ids[i] < |a| && a[ids[i]] == b[ids[i]]
    ensures CountStatus(a, ids, status) == CountStatus(b, ids, status)
  {
    if ids != [] {
      CountFrame(a, b, ids[..|ids| - 1], status);
    }
  }

  /** Processing the next listed event moves exactly the count of the status it ends in. */
  lemma CountNext(before: seq<Event>, after: seq<Event>, ids: seq<EventId>, i: nat, row: Event, status: Status)
    requires i < |ids| && forall k :: 0 <= k < |ids| ==> ids[k] < |before|
    requires forall k :: 0 <= k < i ==> ids[k] != ids[i]
    requires after == before[ids[i] := row]
    ensures CountStatus(after, ids[..i + 1], status)
         == CountStatus(before, ids[..i], status) + if row.status == status then 1 else 0
  {
    assert ids[..i + 1][..i] == ids[..i];
    CountFrame(before, after, ids[..i], status);
  }

  /** A listable row processed from its own snapshot ends in the status its outcome names. */
  lemma OutcomeIsStatus(e: Event, mockFailure: bool, c: Config, listedAt: nat, now: nat)
    requires Listable(e, listedAt)
    ensures var (row, o) := Processed(e, e, mockFailure, c, now);
            && o != WasSkipped
            && row.status == (match o case WasPublished => Published case WasFailed => Failed case _ => DeadLetter)
            && row.attemptCount == e.attemptCount + 1
            && (o == WasDeadLettered ==> row.attemptCount >= c.maxAttempts)
  {
  }

  /** One attempt at a due event, in full: it is published and marked, or it fails and waits for
      its delay, or, at the maximum, it is dead-lettered. A snapshot that is stale is skipped. */
  lemma AttemptOutcome(row: Event, snapshot: Event, mockFailure: bool, c: Config, now: nat)
    ensures var (row', o) := Processed(row, snapshot, mockFailure, c, now);
            var attempt := row.attemptCount + 1;
            var throws := mockFailure || snapshot.payload == NotAnObject || snapshot.payload == Object(true);
            if snapshot.status in {Published, DeadLetter} || row.status != snapshot.status || row.attemptCount != snapshot.attemptCount
            then (row', o) == (row, WasSkipped)
            else if !throws then (row', o) == (Event(row.payload, Published, attempt, None), WasPublished)
            else if attempt >= c.maxAttempts then (row', o) == (Event(row.payload, DeadLetter, attempt, None), WasDeadLettered)
            else (row', o) == (Event(row.payload, Failed, attempt, Some(now + Delay(c, attempt))), WasFailed)
  {
  }

  datatype Counters = Counters(published: nat, failed: nat, deadLettered: nat, skipped: nat)

  function Bump(r: Counters, o: Outcome): Counters {
    match o
    case WasPublished => r.(published := r.published + 1)
    case WasFailed => r.(failed := r.failed + 1)
    case WasDeadLettered => r.(deadLettered := r.deadLettered + 1)
    case WasSkipped => r.(skipped := r.skipped + 1)
  }

  /** The first `i` of the events listed at `now` were processed once each, the `k`-th at
      `clock(k)`, nothing else changed, and the counters agree with the statuses they ended in. */
  predicate BatchAt(was: seq<Event>, events: seq<Event>, ids: seq<EventId>, i: nat,
                    mockFailure: bool, c: Config, now: nat, clock: nat -> nat, r: Counters)
  {
    && i <= |ids| && |events| == |was|
    && (forall k :: 0 <= k < |ids| ==> ids[k] < |was| && Listable(was[ids[k]], now))
    && (forall j, k :: 0 <= j < k < |ids| ==> ids[j] < ids[k])
    && (forall k :: 0 <= k < i ==> events[ids[k]] == Processed(was[ids[k]], was[ids[k]], mockFailure, c, clock(k)).0)
    && (forall id: EventId :: id < |events| && id !in ids[..i] ==> events[id] == was[id])
    && r.published == CountStatus(events, ids[..i], Published)
    && r.failed == CountStatus(events, ids[..i], Failed)
    && r.deadLettered == CountStatus(events, ids[..i], DeadLetter)
    && r.skipped == 0 && r.published + r.failed + r.deadLettered == i
  }

  lemma BatchNext(was: seq<Event>, events: seq<Event>, ids: seq<EventId>, i: nat,
                  mockFailure: bool, c: Config, now: nat, clock: nat -> nat, r: Counters)
    requires i < |ids| && BatchAt(was, events, ids, i, mockFailure, c, now, clock, r)
    ensures events[ids[i]] == was[ids[i]]
    ensures var (row, o) := Processed(was[ids[i]], was[ids[i]], mockFailure, c, clock(i));
            o != WasSkipped && BatchAt(was, events[ids[i] := row], ids, i + 1, mockFailure, c, now, clock, Bump(r, o))
  {
    assert ids[i] !in ids[..i];
    var (row, o) := Processed(was[ids[i]], was[ids[i]], mockFailure, c, clock(i));
    OutcomeIsStatus(was[ids[i]], mockFailure, c, now, clock(i));
    var after := events[ids[i] := row];
    CountNext(events, after, ids, i, row, Published);
    CountNext(events, after, ids, i, row, Failed);
    CountNext(events, after, ids, i, row, DeadLetter);
  }

  lemma BatchStart(events: seq<Event>, mockFailure: bool, c: Config, now: nat, clock: nat -> nat, limit: nat)
    ensures BatchAt(events, events, Listed(events, now, limit), 0, mockFailure, c, now, clock, Counters(0, 0, 0, 0))
  {
    ListedIsOldestFirst(events, now, limit);
  }

  class OutboxService {
    const config: Config
    var mockPublishFailure: bool
    var events: seq<Event>
    var publishedEvents: seq<EventId>

    constructor (config: Config)
      ensures this.config == config && events == [] && publishedEvents == [] && !mockPublishFailure
    {
      this.config := config;
      mockPublishFailure, events, publishedEvents := false, [], [];
    }

    method Enqueue(payload: Payload) returns (id: EventId)
      modifies this`events
      ensures id == |old(events)| && events == old(events) + [Event(payload, Pending, 0, None)]
    {
      id := |events|;
      events := events + [Event(payload, Pending, 0, None)];
    }

    method ListPendingEvents(now: nat, limit: nat) returns (ids: seq<EventId>)
      ensures ids == Listed(events, now, limit)
    {
      ids := [];
      for i := 0 to |events|
        invariant ids == Listed(events[..i], now, limit)
      {
        assert events[..i + 1][..i] == events[..i];
        if Listable(events[i], now) && |ids| < limit {
          ids := ids + [i];
        }
      }
      assert events[..|events|] == events;
    }

    method MarkPublished(id: EventId)
      requires id < |events|
      modifies this`events
      ensures events == old(events)[id := MarkedPublished(old(events)[id])]
    {
      if events[id].status == Processing {
        events := events[id := events[id].(status := Published, nextAttemptAt := None)];
      }
    }

    method MarkFailed(id: EventId, attempt: nat, now: nat)
      requires id < |events|
      modifies this`events
      ensures events == old(events)[id := MarkedFailed(old(events)[id], config, attempt, now)]
    {
      if attempt >= config.maxAttempts {
        events := events[id := events[id].(status := DeadLetter, attemptCount := attempt, nextAttemptAt := None)];
        return;
      }
      events := events[id :=
        events[id].(status := Failed, attemptCount := attempt, nextAttemptAt := Some(now + Delay(config, attempt)))];
    }

    method ProcessEvent(id: EventId, snapshot: Event, now: nat) returns (o: Outcome)
      requires id < |events|
      modifies this`events, this`publishedEvents
      ensures var (row, outcome) := Processed(old(events)[id], snapshot, mockPublishFailure, config, now);
              events == old(events)[id := row] && o == outcome
      ensures publishedEvents == old(publishedEvents) + if o == WasPublished then [id] else []
    {
      assert events[id := events[id]] == events;
      if snapshot.status == Published || snapshot.status == DeadLetter {
        return WasSkipped;
      }
      var attemptCount := snapshot.attemptCount + 1;
      if events[id].status != snapshot.status || events[id].attemptCount != snapshot.attemptCount {
        return WasSkipped;
      }
      events := events[id := events[id].(
        status := Processing, attemptCount := attemptCount, nextAttemptAt := Some(now + config.lease))];
      if PublishThrows(snapshot, mockPublishFailure) {
        MarkFailed(id, attemptCount, now);
        return if attemptCount >= config.maxAttempts then WasDeadLettered else WasFailed;
      }
      publishedEvents := publishedEvents + [id];
      MarkPublished(id);
      return WasPublished;
    }

    /** One batch alone on the table, listed at `now`; `clock(i)` is the time at its event `i`.
        Every listed event is attempted once, none is skipped, the counters add up to the events
        listed and agree with the statuses they end in. */
    method ProcessPendingEvents(now: nat, clock: nat -> nat, limit: nat) returns (result: Counters)
      modifies this`events, this`publishedEvents
      ensures var ids := Listed(old(events), now, limit);
              BatchAt(old(events), events, ids, |ids|, mockPublishFailure, config, now, clock, result)
      ensures |publishedEvents| == |old(publishedEvents)| + result.published
    {
      result := Counters(0, 0, 0, 0);
      var ids := ListPendingEvents(now, limit);
      var snapshots := events;
      BatchStart(events, mockPublishFailure, config, now, clock, limit);
      for i := 0 to |ids|
        invariant BatchAt(snapshots, events, ids, i, mockPublishFailure, config, now, clock, result)
        invariant |publishedEvents| == |old(publishedEvents)| + result.published
      {
        BatchNext(snapshots, events, ids, i, mockPublishFailure, config, now, clock, result);
        var o := ProcessEvent(ids[i], snapshots[ids[i]], clock(i));
        result := Bump(result, o);
      }
    }
  }
}
