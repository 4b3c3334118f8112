/** Progress of the outbox: claims are bounded by the maximum and the crashes, and an unheld event
    can always be finished. */
module OutboxProgress {
  import opened Common
  import opened Outbox
  import opened OutboxProtocol

  /** A maximum below one still allows the first attempt. */
  function MaxClaims(c: Config): nat {
    if c.maxAttempts < 1 then 1 else c.maxAttempts
  }

  predicate HeldBy(s: System, w: nat, id: EventId) {
    w < |s.workers| && s.workers[w].hold.Some? && s.workers[w].hold.value.id == id
  }

  predicate Held(s: System, id: EventId) {
    exists w :: 0 <= w < |s.workers| && HeldBy(s, w, id)
  }

  function IsCrashOn(s: System, step: Step, id: EventId): nat {
    if step.Crash? && HeldBy(s, step.w, id) then 1 else 0
  }

  function IsClaimOf(s: System, step: Step, id: EventId): nat {
    if step.Claim? && Wins(s, step.w) && s.workers[step.w].queue[0].id == id then 1 else 0
  }

  /** The crashes in a run of workers that held event `id`. */
  function CrashesOn(c: Config, s: System, steps: seq<Step>, id: EventId): nat {
    if steps == [] then 0
    else
      var k := |steps| - 1;
      CrashesOn(c, s, steps[..k], id) + IsCrashOn(Run(c, s, steps[..k]), steps[k], id)
  }

  function ClaimsOf(c: Config, s: System, steps: seq<Step>, id: EventId): nat {
    if steps == [] then 0
    else
      var k := |steps| - 1;
      ClaimsOf(c, s, steps[..k], id) + IsClaimOf(Run(c, s, steps[..k]), steps[k], id)
  }

  predicate Bounded(c: Config, s: System, id: EventId, claims: nat, crashes: nat) {
    if id >= |s.events| then claims == 0
    else
      var e := s.events[id];
      && e.attemptCount == claims
      && match e.status
         case Pending => claims == 0
         case Failed => claims < MaxClaims(c)
         case Processing => e.nextAttemptAt.Some? && claims < MaxClaims(c) + crashes + if Held(s, id) then 1 else 0
         case _ => claims <= MaxClaims(c) + crashes
  }

  /** A step that neither writes row `id` nor changes who holds it keeps its bound. */
  lemma BoundedFrame(c: Config, s: System, s': System, id: EventId, claims: nat, crashes: nat)
    requires Bounded(c, s, id, claims, crashes)
    requires |s.events| <= |s'.events| && |s'.workers| == |s.workers|
    requires id < |s.events| ==> s'.events[id] == s.events[id]
    requires |s.events| <= id < |s'.events| ==> s'.events[id].status == Pending && s'.events[id].attemptCount == 0
    requires forall w :: 0 <= w < |s.workers| ==> HeldBy(s', w, id) == HeldBy(s, w, id)
    ensures Bounded(c, s', id, claims, crashes)
  {
    if Held(s, id) {
      var w: nat :| w < |s.workers| && HeldBy(s, w, id);
      assert HeldBy(s', w, id);
    }
  }

  lemma ClaimBounded(c: Config, s: System, w: nat, id: EventId, claims: nat, crashes: nat)
    requires Inv(s) && Timely(s) && Bounded(c, s, id, claims, crashes) && Wins(s, w)
    ensures Bounded(c, Next(c, s, Claim(w)), id, claims + IsClaimOf(s, Claim(w), id), crashes)
  {
    var s' := Next(c, s, Claim(w));
    WinnerIsCurrent(s, w);
    if s.workers[w].queue[0].id == id {
      forall v | 0 <= v < |s.workers| ensures !HeldBy(s, v, id) {
        assert s.workers[v].hold.Some? ==> HoldOk(s, s.workers[v].hold.value);
      }
      assert HeldBy(s', w, id);
    } else {
      BoundedFrame(c, s, s', id, claims, crashes);
    }
  }

  lemma FinishBounded(c: Config, s: System, w: nat, row: Event, id: EventId, claims: nat, crashes: nat)
    requires Inv(s) && Bounded(c, s, id, claims, crashes) && Holding(s, w)
    requires row == MarkedPublished(s.events[s.workers[w].hold.value.id])
          || row == MarkedFailed(s.events[s.workers[w].hold.value.id], c, s.workers[w].hold.value.attempt, s.now)
    ensures var s' := s.(events := s.events[s.workers[w].hold.value.id := row],
                         workers := s.workers[w := s.workers[w].(hold := None)]);
            Bounded(c, s', id, claims, crashes)
  {
    var s' := s.(events := s.events[s.workers[w].hold.value.id := row],
                 workers := s.workers[w := s.workers[w].(hold := None)]);
    assert HoldOk(s, s.workers[w].hold.value);
    if s.workers[w].hold.value.id == id {
      assert HeldBy(s, w, id);
    } else {
      BoundedFrame(c, s, s', id, claims, crashes);
    }
  }

  lemma CrashBounded(c: Config, s: System, w: nat, id: EventId, claims: nat, crashes: nat)
    requires Inv(s) && Bounded(c, s, id, claims, crashes)
    ensures Bounded(c, Next(c, s, Crash(w)), id, claims, crashes + IsCrashOn(s, Crash(w), id))
  {
    var s' := Next(c, s, Crash(w));
    if HeldBy(s, w, id) {
      assert Held(s, id);
    } else {
      BoundedFrame(c, s, s', id, claims, crashes);
    }
  }

  lemma StepBounded(c: Config, s: System, step: Step, id: EventId, claims: nat, crashes: nat)
    requires Inv(s) && Timely(s) && Bounded(c, s, id, claims, crashes)
    ensures Bounded(c, Next(c, s, step), id, claims + IsClaimOf(s, step, id), crashes + IsCrashOn(s, step, id))
  {
    match step
    case Claim(w) =>
      if Wins(s, w) {
        ClaimBounded(c, s, w, id, claims, crashes);
      } else {
        BoundedFrame(c, s, Next(c, s, step), id, claims, crashes);
      }
    case Mark(w) =>
      if Holding(s, w) && s.workers[w].hold.value.sent {
        FinishBounded(c, s, w, MarkedPublished(s.events[s.workers[w].hold.value.id]), id, claims, crashes);
      }
    case Fail(w) =>
      if Holding(s, w) {
        var hold := s.workers[w].hold.value;
        FinishBounded(c, s, w, MarkedFailed(s.events[hold.id], c, hold.attempt, s.now), id, claims, crashes);
      }
    case Crash(w) => CrashBounded(c, s, w, id, claims, crashes);
    case _ => BoundedFrame(c, s, Next(c, s, step), id, claims, crashes);
  }

  /** The attempt count of an event is the number of claims on it, and it is bounded. */
  lemma {:induction false} RunBounded(c: Config, now: nat, n: nat, steps: seq<Step>, id: EventId)
    requires TimelyRun(c, Start(now, n), steps)
    ensures var s0 := Start(now, n);
            Bounded(c, Run(c, s0, steps), id, ClaimsOf(c, s0, steps, id), CrashesOn(c, s0, steps, id))
  {
    if steps != [] {
      var k := |steps| - 1;
      var s0 := Start(now, n);
      RunBounded(c, now, n, steps[..k], id);
      RunIsSafe(c, s0, steps[..k]);
      StepBounded(c, Run(c, s0, steps[..k]), steps[k], id, ClaimsOf(c, s0, steps[..k], id), CrashesOn(c, s0, steps[..k], id));
    }
  }

  /** In a timely run with `k` crashes on an event it is claimed at most `MaxClaims + k` times,
      and once it was claimed that often and is let go, it is PUBLISHED or DEAD_LETTER. */
  lemma ClaimsAreBounded(c: Config, now: nat, n: nat, steps: seq<Step>, id: EventId)
    requires TimelyRun(c, Start(now, n), steps)
    ensures var s0 := Start(now, n);
            var s := Run(c, s0, steps);
            var limit := MaxClaims(c) + CrashesOn(c, s0, steps, id);
            && ClaimsOf(c, s0, steps, id) <= limit
            && (ClaimsOf(c, s0, steps, id) == limit && !Held(s, id) ==> id < |s.events| && Terminal(s.events[id]))
  {
    RunBounded(c, now, n, steps, id);
  }

  // ---------------------------------------------------------------- an unheld event can be finished

  function Wait(e: Event, now: nat): nat {
    if e.nextAttemptAt.Some? && e.nextAttemptAt.value > now then e.nextAttemptAt.value - now else 0
  }

  predicate Idle(s: System, w: nat, id: EventId) {
    && w < |s.workers| && s.workers[w] == Worker([], None) && id < |s.events|
    && (s.events[id].status == Processing ==> s.events[id].nextAttemptAt.Some?)
  }

  /** One worker waits until the event is due, lists it, claims it, and publishes and marks it or fails. */
  function Round(c: Config, s: System, w: nat, id: EventId, succeeds: bool): System
    requires Idle(s, w, id)
  {
    var claimed := Next(c, Next(c, Next(c, s, Tick(Wait(s.events[id], s.now))), List(w, [id])), Claim(w));
    if succeeds then Next(c, Next(c, claimed, Send(w)), Mark(w)) else Next(c, claimed, Fail(w))
  }

  /** A round always claims, and leaves a terminal event or a FAILED one with an attempt to go. */
  lemma RoundAttempts(c: Config, s: System, w: nat, id: EventId, succeeds: bool)
    requires Idle(s, w, id) && !Terminal(s.events[id])
    ensures var s' := Round(c, s, w, id, succeeds);
            && Idle(s', w, id)
            && s'.events[id].attemptCount == s.events[id].attemptCount + 1
            && (Terminal(s'.events[id]) <==> succeeds || s.events[id].attemptCount + 1 >= c.maxAttempts)
            && (s'.events[id].status == Published <==> succeeds)
  {
    var due := Next(c, s, Tick(Wait(s.events[id], s.now)));
    var listed := Next(c, due, List(w, [id]));
    assert CanList(due, w, [id]);
    assert listed.workers[w].queue == [Snapshot(id, s.events[id])];
    assert Wins(listed, w);
  }

  function Rounds(c: Config, s: System, w: nat, id: EventId, outcomes: seq<bool>): System
    requires Idle(s, w, id)
    decreases |outcomes|
  {
    if outcomes == [] || Terminal(s.events[id]) then s
    else
      RoundAttempts(c, s, w, id, outcomes[0]);
      Rounds(c, Round(c, s, w, id, outcomes[0]), w, id, outcomes[1..])
  }

  /** From row `e` to row `last`, all attempts but the last one made fail, and the last decides. */
  predicate FinishedBy(e: Event, last: Event, outcomes: seq<bool>) {
    var made := last.attemptCount - e.attemptCount;
    && 1 <= made <= |outcomes|
    && (forall i :: 0 <= i < made - 1 ==> !outcomes[i])
    && last.status == if outcomes[made - 1] then Published else DeadLetter
  }

  lemma OneMoreAttempt(e: Event, next: Event, last: Event, outcomes: seq<bool>)
    requires |outcomes| > 0 && !outcomes[0] && next.attemptCount == e.attemptCount + 1
    requires FinishedBy(next, last, outcomes[1..])
    ensures FinishedBy(e, last, outcomes)
  {
    var made := last.attemptCount - next.attemptCount;
    assert outcomes[made] == outcomes[1..][made - 1];
    forall i | 0 < i < made ensures !outcomes[i] {
      assert outcomes[i] == outcomes[1..][i - 1];
    }
  }

  /** Whatever the attempts come to, the attempts that are left finish the event. */
  lemma {:induction false} RoundsFinish(c: Config, s: System, w: nat, id: EventId, outcomes: seq<bool>)
    requires Idle(s, w, id)
    requires |outcomes| >= 1 && |outcomes| >= c.maxAttempts - s.events[id].attemptCount
    ensures var s' := Rounds(c, s, w, id, outcomes);
            && id < |s'.events| && Terminal(s'.events[id])
            && (!Terminal(s.events[id]) ==> FinishedBy(s.events[id], s'.events[id], outcomes))
    decreases |outcomes|
  {
    if !Terminal(s.events[id]) {
      RoundAttempts(c, s, w, id, outcomes[0]);
      var next := Round(c, s, w, id, outcomes[0]);
      if !Terminal(next.events[id]) {
        RoundsFinish(c, next, w, id, outcomes[1..]);
        OneMoreAttempt(s.events[id], next.events[id], Rounds(c, next, w, id, outcomes[1..]).events[id], outcomes);
      } else {
        assert Rounds(c, next, w, id, outcomes[1..]) == next;
      }
    }
  }
}
