/** How long an outbox worker may take: exactly less than its lease. */
module OutboxLease {
  import opened Common
  import opened Outbox
  import opened OutboxProtocol

  /** Every claim has been held for at most `most`. */
  predicate Within(c: Config, s: System, most: nat) {
    forall w :: 0 <= w < |s.workers| && s.workers[w].hold.Some? ==> s.now + c.lease <= s.workers[w].hold.value.leaseEnd + most
  }

  ghost predicate WithinRun(c: Config, s: System, steps: seq<Step>, most: nat) {
    Within(c, Run(c, s, steps), most) && (steps == [] || WithinRun(c, s, steps[..|steps| - 1], most))
  }

  /** Published and dead-lettered rows are as they were. */
  ghost predicate TerminalKept(s: System, s': System) {
    |s.events| <= |s'.events| && forall id: EventId :: id < |s.events| && Terminal(s.events[id]) ==> s'.events[id] == s.events[id]
  }

  /** In every state of the run at most one live worker holds an event, and no step of it takes an
      event out of PUBLISHED or DEAD_LETTER. */
  ghost predicate SafeRun(c: Config, s: System, steps: seq<Step>) {
    && Exclusive(Run(c, s, steps))
    && (steps == []
        || (SafeRun(c, s, steps[..|steps| - 1]) && TerminalKept(Run(c, s, steps[..|steps| - 1]), Run(c, s, steps))))
  }

  lemma {:induction false} WithinIsSafe(c: Config, now: nat, n: nat, steps: seq<Step>, most: nat)
    requires WithinRun(c, Start(now, n), steps, most) && most < c.lease
    ensures SafeRun(c, Start(now, n), steps) && Inv(Run(c, Start(now, n), steps))
  {
    if steps != [] {
      var k := |steps| - 1;
      WithinIsSafe(c, now, n, steps[..k], most);
      var before := Run(c, Start(now, n), steps[..k]);
      assert Within(c, before, most);
      assert Timely(before);
      StepKeeps(c, before, steps[k]);
    }
  }

  // ---------------------------------------------------------------- an overrun

  /** The first worker publishes past its lease, the second one claims and publishes, and then the
      first one fails. */
  function OverrunSteps(c: Config): seq<Step> {
    [Enqueue(Object(false)), List(0, [0]), Claim(0), Tick(c.lease), List(1, [0]), Claim(1), Send(1),
     Mark(1), Fail(0)]
  }

  function OverrunState(c: Config, k: nat): System
    requires k <= 9
  {
    if k == 0 then Start(0, 2) else Next(c, OverrunState(c, k - 1), OverrunSteps(c)[k - 1])
  }

  lemma {:induction false} OverrunUnrolls(c: Config, k: nat)
    requires k <= 9
    ensures Run(c, Start(0, 2), OverrunSteps(c)[..k]) == OverrunState(c, k)
  {
    if k > 0 {
      OverrunUnrolls(c, k - 1);
      assert OverrunSteps(c)[..k][..k - 1] == OverrunSteps(c)[..k - 1];
    }
  }

  function Claimed1(c: Config): Hold { Hold(0, 1, c.lease, false) }

  function Claimed2(c: Config): Hold { Hold(0, 2, c.lease + c.lease, false) }

  lemma OverrunListed(c: Config)
    ensures forall k :: 0 <= k <= 2 ==> Within(c, OverrunState(c, k), c.lease)
    ensures var e := Event(Object(false), Pending, 0, None);
            OverrunState(c, 2) == System([e], 0, [Worker([Snapshot(0, e)], None), Worker([], None)])
  {
    var s0, s1, s2 := OverrunState(c, 0), OverrunState(c, 1), OverrunState(c, 2);
    var e := Event(Object(false), Pending, 0, None);
    assert s0 == Start(0, 2) && s0.workers == [Worker([], None), Worker([], None)];
    assert s1 == Next(c, s0, Enqueue(Object(false))) && s1.events == [e];
    assert CanList(s1, 0, [0]);
    assert s2 == Next(c, s1, List(0, [0])) && s2.workers[0].queue == [Snapshot(0, e)];
    assert s2.workers == [Worker([Snapshot(0, e)], None), Worker([], None)];
  }

  lemma OverrunFirstClaim(c: Config)
    ensures forall k :: 0 <= k <= 4 ==> Within(c, OverrunState(c, k), c.lease)
    ensures OverrunState(c, 4)
         == System([Event(Object(false), Processing, 1, Some(c.lease))], c.lease,
                   [Worker([], Some(Claimed1(c))), Worker([], None)])
  {
    OverrunListed(c);
    var s2, s3 := OverrunState(c, 2), OverrunState(c, 3);
    assert Wins(s2, 0) && s2.workers[0].queue[1..] == [];
    assert s3 == Next(c, s2, Claim(0)) && s3.workers == [Worker([], Some(Claimed1(c))), Worker([], None)];
    assert OverrunState(c, 4) == Next(c, s3, Tick(c.lease));
  }

  lemma OverrunSecondClaim(c: Config)
    ensures forall k :: 5 <= k <= 6 ==> Within(c, OverrunState(c, k), c.lease)
    ensures OverrunState(c, 6)
         == System([Event(Object(false), Processing, 2, Some(c.lease + c.lease))], c.lease,
                   [Worker([], Some(Claimed1(c))), Worker([], Some(Claimed2(c)))])
  {
    OverrunFirstClaim(c);
    var s4 := OverrunState(c, 4);
    var s5 := OverrunState(c, 5);
    assert CanList(s4, 1, [0]);
    assert s5 == Next(c, s4, List(1, [0])) && s5.workers[1].queue == [Snapshot(0, s4.events[0])];
    assert s5.workers == [Worker([], Some(Claimed1(c))), Worker([Snapshot(0, s4.events[0])], None)];
    assert Wins(s5, 1) && s5.workers[1].queue[1..] == [];
    assert OverrunState(c, 6) == Next(c, s5, Claim(1));
    assert OverrunState(c, 6).workers == [Worker([], Some(Claimed1(c))), Worker([], Some(Claimed2(c)))];
  }

  lemma OverrunLeavesPublished(c: Config)
    ensures forall k :: 7 <= k <= 9 ==> Within(c, OverrunState(c, k), c.lease)
    ensures OverrunState(c, 8).events == [Event(Object(false), Published, 2, None)]
    ensures |OverrunState(c, 9).events| == 1
    ensures OverrunState(c, 9).events[0].status == if 1 >= c.maxAttempts then DeadLetter else Failed
  {
    OverrunSecondClaim(c);
    assert OverrunState(c, 7) == Next(c, OverrunState(c, 6), Send(1));
    assert OverrunState(c, 7).workers == [Worker([], Some(Claimed1(c))), Worker([], Some(Claimed2(c).(sent := true)))];
    assert OverrunState(c, 8) == Next(c, OverrunState(c, 7), Mark(1));
    assert OverrunState(c, 8).workers == [Worker([], Some(Claimed1(c))), Worker([], None)];
    assert OverrunState(c, 9) == Next(c, OverrunState(c, 8), Fail(0));
  }

  lemma {:induction false} OverrunWithin(c: Config, most: nat, k: nat)
    requires k <= 9 && c.lease <= most
    ensures WithinRun(c, Start(0, 2), OverrunSteps(c)[..k], most)
  {
    OverrunUnrolls(c, k);
    if k <= 4 { OverrunFirstClaim(c); } else if k <= 6 { OverrunSecondClaim(c); } else { OverrunLeavesPublished(c); }
    assert Within(c, OverrunState(c, k), c.lease);
    if k > 0 {
      OverrunWithin(c, most, k - 1);
      assert OverrunSteps(c)[..k][..k - 1] == OverrunSteps(c)[..k - 1];
    }
  }

  /** A run of `n` workers in which every claim is held for at most `most`. */
  ghost predicate HoldRun(c: Config, now: nat, n: nat, steps: seq<Step>, most: nat) {
    WithinRun(c, Start(now, n), steps, most)
  }

  /** Every run in which claims are held for at most `most` is safe, if and only if `most` is less
      than the lease. */
  lemma SafeIffWithinLease(c: Config, most: nat)
    ensures (forall now, n, steps :: HoldRun(c, now, n, steps, most) ==> SafeRun(c, Start(now, n), steps)) <==> most < c.lease
  {
    if most < c.lease {
      forall now, n, steps | HoldRun(c, now, n, steps, most) ensures SafeRun(c, Start(now, n), steps) {
        WithinIsSafe(c, now, n, steps, most);
      }
    } else {
      var steps := OverrunSteps(c);
      OverrunWithin(c, most, 9);
      OverrunLeavesPublished(c);
      OverrunUnrolls(c, 8);
      OverrunUnrolls(c, 9);
      assert steps[..9] == steps;
      assert HoldRun(c, 0, 2, steps, most);
      assert !TerminalKept(OverrunState(c, 8), OverrunState(c, 9));
    }
  }
}
