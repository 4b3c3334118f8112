/** How often the outbox publishes one event: once, and once more for each time that an attempt was
    lost after publishing, because the worker died or could not mark the event. */
module OutboxDeliveries {
  import opened Common
  import opened Outbox
  import opened OutboxProtocol

  /** Worker `w` holds event `id` and has published it. */
  predicate Sent(s: System, w: nat, id: EventId) {
    w < |s.workers| && s.workers[w].hold.Some? && s.workers[w].hold.value.id == id && s.workers[w].hold.value.sent
  }

  function IsSendOf(s: System, step: Step, id: EventId): nat {
    if step.Send? && Holding(s, step.w) && s.workers[step.w].hold.value.id == id && !Sent(s, step.w, id) then 1 else 0
  }

  /** The attempt is lost after publishing: the worker crashes, or marking fails. */
  function IsLossOf(s: System, step: Step, id: EventId): nat {
    if (step.Crash? || step.Fail?) && Sent(s, step.w, id) then 1 else 0
  }

  function SendsOf(c: Config, s: System, steps: seq<Step>, id: EventId): nat {
    if steps == [] then 0
    else
      var k := |steps| - 1;
      SendsOf(c, s, steps[..k], id) + IsSendOf(Run(c, s, steps[..k]), steps[k], id)
  }

  function LossesOf(c: Config, s: System, steps: seq<Step>, id: EventId): nat {
    if steps == [] then 0
    else
      var k := |steps| - 1;
      LossesOf(c, s, steps[..k], id) + IsLossOf(Run(c, s, steps[..k]), steps[k], id)
  }

  predicate IsPublished(s: System, id: EventId) {
    id < |s.events| && s.events[id].status == Published
  }

  /** The event is PUBLISHED, or the worker that holds it has published it and is about to mark it. */
  predicate Delivered(s: System, id: EventId) {
    IsPublished(s, id) || exists w :: 0 <= w < |s.workers| && Sent(s, w, id)
  }

  /** A step that changes neither the row nor who has published it. */
  lemma DeliveredFrame(s: System, s': System, id: EventId)
    requires |s'.workers| == |s.workers| && IsPublished(s', id) == IsPublished(s, id)
    requires forall w :: 0 <= w < |s.workers| ==> Sent(s', w, id) == Sent(s, w, id)
    ensures Delivered(s', id) == Delivered(s, id)
  {
    if w: nat :| w < |s.workers| && Sent(s, w, id) {
      assert Sent(s', w, id);
    }
  }

  /** The holder of an event is the only one, and the event is not PUBLISHED. */
  lemma HolderDecides(s: System, w: nat, id: EventId)
    requires Inv(s) && Holding(s, w) && s.workers[w].hold.value.id == id
    ensures !IsPublished(s, id) && (Delivered(s, id) <==> Sent(s, w, id))
    ensures forall v :: 0 <= v < |s.workers| && v != w ==> !Sent(s, v, id)
  {
    assert HoldOk(s, s.workers[w].hold.value);
    forall v | 0 <= v < |s.workers| && v != w ensures !Sent(s, v, id) {
      assert s.workers[v].hold.Some? ==> s.workers[v].hold.value.id != s.workers[w].hold.value.id;
    }
  }

  /** Nobody holds an event that is about to be claimed, and it is not PUBLISHED. */
  lemma ClaimedIsNotDelivered(c: Config, s: System, w: nat)
    requires Inv(s) && Timely(s) && Wins(s, w)
    ensures var id := s.workers[w].queue[0].id; !Delivered(s, id) && !Delivered(Next(c, s, Claim(w)), id)
  {
    var id := s.workers[w].queue[0].id;
    WinnerIsCurrent(s, w);
    forall v | 0 <= v < |s.workers| ensures !Sent(s, v, id) {
      assert s.workers[v].hold.Some? ==> HoldOk(s, s.workers[v].hold.value);
    }
  }

  lemma HolderStep(c: Config, s: System, step: Step, id: EventId)
    requires Inv(s) && (step.Send? || step.Mark? || step.Fail? || step.Crash?)
    requires Holding(s, step.w) && s.workers[step.w].hold.value.id == id
    ensures var before, after := if Delivered(s, id) then 1 else 0, if Delivered(Next(c, s, step), id) then 1 else 0;
            before + IsSendOf(s, step, id) == after + IsLossOf(s, step, id)
  {
    HolderDecides(s, step.w, id);
    assert HoldOk(s, s.workers[step.w].hold.value);
    var s' := Next(c, s, step);
    assert forall v :: 0 <= v < |s.workers| && v != step.w ==> s'.workers[v] == s.workers[v];
    assert step.Send? ==> Sent(s', step.w, id);
  }

  lemma StepAccounted(c: Config, s: System, step: Step, id: EventId)
    requires Inv(s) && Timely(s)
    ensures var before, after := if Delivered(s, id) then 1 else 0, if Delivered(Next(c, s, step), id) then 1 else 0;
            before + IsSendOf(s, step, id) == after + IsLossOf(s, step, id)
  {
    var s' := Next(c, s, step);
    forall w | 0 <= w < |s.workers| && s.workers[w].hold.Some? ensures s.workers[w].hold.value.id < |s.events| {
      assert HoldOk(s, s.workers[w].hold.value);
    }
    if step.Claim? && Wins(s, step.w) && s.workers[step.w].queue[0].id == id {
      ClaimedIsNotDelivered(c, s, step.w);
    } else if (step.Send? || step.Mark? || step.Fail? || step.Crash?) && Holding(s, step.w) && s.workers[step.w].hold.value.id == id {
      HolderStep(c, s, step, id);
    } else {
      DeliveredFrame(s, s', id);
    }
  }

  /** In every timely run the number of times that an event was published is the number of times that
      this was lost, plus one if the event is PUBLISHED or its holder is about to mark it. So no event
      becomes PUBLISHED without having been published, and one that is was published just once unless
      an attempt was lost in between. */
  lemma {:induction false} DeliveriesAddUp(c: Config, now: nat, n: nat, steps: seq<Step>, id: EventId)
    requires TimelyRun(c, Start(now, n), steps)
    ensures var s0 := Start(now, n);
            SendsOf(c, s0, steps, id) == LossesOf(c, s0, steps, id) + if Delivered(Run(c, s0, steps), id) then 1 else 0
  {
    if steps != [] {
      var k := |steps| - 1;
      DeliveriesAddUp(c, now, n, steps[..k], id);
      RunIsSafe(c, Start(now, n), steps[..k]);
      StepAccounted(c, Run(c, Start(now, n), steps[..k]), steps[k], id);
    }
  }

  // ---------------------------------------------------------------- the bound is reached

  /** A timely run of one worker that leads to `s`, with these counts for the first event. */
  ghost predicate Reached(c: Config, steps: seq<Step>, s: System, sends: nat, losses: nat) {
    && TimelyRun(c, Start(0, 1), steps) && Run(c, Start(0, 1), steps) == s
    && SendsOf(c, Start(0, 1), steps, 0) == sends && LossesOf(c, Start(0, 1), steps, 0) == losses
  }

  lemma Further(c: Config, steps: seq<Step>, s: System, sends: nat, losses: nat, step: Step)
    requires Reached(c, steps, s, sends, losses) && Timely(Next(c, s, step))
    ensures Reached(c, steps + [step], Next(c, s, step), sends + IsSendOf(s, step, 0), losses + IsLossOf(s, step, 0))
  {
    assert (steps + [step])[..|steps|] == steps;
  }

  /** One idle worker and one event that is due. */
  predicate Due(s: System) {
    s.workers == [Worker([], None)] && |s.events| == 1 && Listable(s.events[0], s.now)
  }

  /** The worker lists the event, claims it and publishes it. */
  lemma ReachSent(c: Config, steps: seq<Step>, s: System, sends: nat, losses: nat) returns (more: seq<Step>, s': System)
    requires c.lease > 0 && Due(s) && Reached(c, steps, s, sends, losses)
    ensures Reached(c, more, s', sends + 1, losses)
    ensures s'.now == s.now && |s'.events| == 1 && s'.events[0].status == Processing
    ensures s'.events[0].nextAttemptAt == Some(s.now + c.lease)
    ensures |s'.workers| == 1 && Sent(s', 0, 0)
  {
    var listed := Next(c, s, List(0, [0]));
    assert CanList(s, 0, [0]) && listed.workers[0].queue == [Snapshot(0, s.events[0])];
    Further(c, steps, s, sends, losses, List(0, [0]));
    var claimed := Next(c, listed, Claim(0));
    assert Wins(listed, 0);
    Further(c, steps + [List(0, [0])], listed, sends, losses, Claim(0));
    Further(c, steps + [List(0, [0])] + [Claim(0)], claimed, sends, losses, Send(0));
    more, s' := steps + [List(0, [0])] + [Claim(0)] + [Send(0)], Next(c, claimed, Send(0));
  }

  /** The worker crashes after publishing, and waits until its lease has ended. */
  lemma ReachLost(c: Config, steps: seq<Step>, s: System, sends: nat, losses: nat) returns (more: seq<Step>, s': System)
    requires c.lease > 0 && Due(s) && Reached(c, steps, s, sends, losses)
    ensures Due(s') && Reached(c, more, s', sends + 1, losses + 1)
  {
    var before, sent := ReachSent(c, steps, s, sends, losses);
    var crashed := Next(c, sent, Crash(0));
    assert crashed.workers == [Worker([], None)];
    Further(c, before, sent, sends + 1, losses, Crash(0));
    Further(c, before + [Crash(0)], crashed, sends + 1, losses + 1, Tick(c.lease));
    more, s' := before + [Crash(0)] + [Tick(c.lease)], Next(c, crashed, Tick(c.lease));
  }

  /** A run that loses `n` attempts after publishing, and leaves the event due. */
  lemma {:induction false} LosesAttempts(c: Config, n: nat) returns (steps: seq<Step>, s: System)
    requires c.lease > 0
    ensures Due(s) && Reached(c, steps, s, n, n)
  {
    if n == 0 {
      steps, s := [Enqueue(Object(false))], Next(c, Start(0, 1), Enqueue(Object(false)));
      assert Reached(c, [], Start(0, 1), 0, 0);
      Further(c, [], Start(0, 1), 0, 0, Enqueue(Object(false)));
      assert [] + [Enqueue(Object(false))] == steps;
    } else {
      var before, due := LosesAttempts(c, n - 1);
      steps, s := ReachLost(c, before, due, n - 1, n - 1);
    }
  }

  /** For every number of losses some timely run publishes the event once more than that. */
  lemma DeliveryBoundIsReached(c: Config, n: nat) returns (steps: seq<Step>)
    requires c.lease > 0
    ensures TimelyRun(c, Start(0, 1), steps) && IsPublished(Run(c, Start(0, 1), steps), 0)
    ensures LossesOf(c, Start(0, 1), steps, 0) == n && SendsOf(c, Start(0, 1), steps, 0) == n + 1
  {
    var before, due := LosesAttempts(c, n);
    var more, sent := ReachSent(c, before, due, n, n);
    Further(c, more, sent, n + 1, n, Mark(0));
    steps := more + [Mark(0)];
  }

  /** A timely run that loses event `id` after publishing at most `losses` times. */
  ghost predicate LossRun(c: Config, now: nat, n: nat, steps: seq<Step>, id: EventId, losses: nat) {
    TimelyRun(c, Start(now, n), steps) && LossesOf(c, Start(now, n), steps, id) <= losses
  }

  /** With a lease of 0 no claim is ever timely, so nothing is published. */
  lemma {:induction false} NoLeaseNoSend(c: Config, now: nat, n: nat, steps: seq<Step>, id: EventId)
    requires c.lease == 0 && TimelyRun(c, Start(now, n), steps)
    ensures forall w :: 0 <= w < |Run(c, Start(now, n), steps).workers| ==> Run(c, Start(now, n), steps).workers[w].hold.None?
    ensures SendsOf(c, Start(now, n), steps, id) == 0
  {
    if steps != [] {
      var k := |steps| - 1;
      NoLeaseNoSend(c, now, n, steps[..k], id);
      var after := Run(c, Start(now, n), steps);
      assert Timely(after);
    }
  }

  /** An event is published at most `most` times in every timely run with at most `losses` such
      losses, if and only if `losses` is less than `most` or the lease is 0. */
  lemma PublishedAtMostIff(c: Config, losses: nat, most: nat)
    ensures (forall now, n, steps, id :: LossRun(c, now, n, steps, id, losses) ==> SendsOf(c, Start(now, n), steps, id) <= most)
            <==> losses < most || c.lease == 0
  {
    if losses < most || c.lease == 0 {
      forall now, n, steps, id | LossRun(c, now, n, steps, id, losses) ensures SendsOf(c, Start(now, n), steps, id) <= most {
        if c.lease == 0 {
          NoLeaseNoSend(c, now, n, steps, id);
        } else {
          DeliveriesAddUp(c, now, n, steps, id);
        }
      }
    } else {
      var steps := DeliveryBoundIsReached(c, losses);
      assert LossRun(c, 0, 1, steps, 0, losses);
    }
  }
}
