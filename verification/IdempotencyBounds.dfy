/** How often the work behind one idempotency key is done: the exact bound with crashes between the
    work and its storing, and the exact bound on how long a handler may take. */
module IdempotencyBounds {
  import opened Common
  import opened Idempotency
  import opened IdempotencyProtocol

  // ---------------------------------------------------------------- counting

  function CountWorked(rs: seq<Request>, key: Key): nat {
    if rs == [] then 0
    else
      var last := rs[|rs| - 1];
      CountWorked(rs[..|rs| - 1], key) + if last.key == key && Worked(last.phase) then 1 else 0
  }

  function CountLost(rs: seq<Request>, key: Key): nat {
    if rs == [] then 0
    else
      var last := rs[|rs| - 1];
      CountLost(rs[..|rs| - 1], key) + if last.key == key && Lost(last.phase) then 1 else 0
  }

  /** Work that a row says or will say was done. */
  predicate IsKept(r: Request, key: Key) {
    r.key == key && Worked(r.phase) && !Lost(r.phase)
  }

  lemma {:induction false} NoneKept(rs: seq<Request>, key: Key)
    requires forall i :: 0 <= i < |rs| ==> !IsKept(rs[i], key)
    ensures CountWorked(rs, key) == CountLost(rs, key)
  {
    if rs != [] {
      assert !IsKept(rs[|rs| - 1], key);
      NoneKept(rs[..|rs| - 1], key);
    }
  }

  lemma {:induction false} OneKept(rs: seq<Request>, key: Key)
    requires forall i, j :: 0 <= i < j < |rs| && IsKept(rs[i], key) ==> !IsKept(rs[j], key)
    ensures CountWorked(rs, key) <= CountLost(rs, key) + 1
  {
    if rs != [] {
      var k := |rs| - 1;
      if IsKept(rs[k], key) {
        NoneKept(rs[..k], key);
      } else {
        OneKept(rs[..k], key);
      }
    }
  }

  /** In every timely run the work behind a key is done at most once, plus once for each time that
      it was lost: the process died between the work and its storing, or the response had no JSON
      form to store. */
  lemma WorkIsBounded(now: nat, steps: seq<Step>, key: Key)
    requires TimelyRun(Start(now), steps)
    ensures var rs := Run(Start(now), steps).requests; CountWorked(rs, key) <= CountLost(rs, key) + 1
  {
    RunKeeps(Start(now), steps);
    var s := Run(Start(now), steps);
    forall i, j | 0 <= i < j < |s.requests| && IsKept(s.requests[i], key) ensures !IsKept(s.requests[j], key) {
      assert Owns(s, i);
      assert IsKept(s.requests[j], key) ==> Owns(s, j);
    }
    OneKept(s.requests, key);
  }

  // ---------------------------------------------------------------- runs put together

  lemma {:induction false} RunConcat(s: System, xs: seq<Step>, ys: seq<Step>)
    ensures Run(s, xs + ys) == Run(Run(s, xs), ys)
  {
    if ys == [] {
      assert xs + ys == xs;
    } else {
      assert (xs + ys)[..|xs + ys| - 1] == xs + ys[..|ys| - 1];
      RunConcat(s, xs, ys[..|ys| - 1]);
    }
  }

  lemma {:induction false} TimelyConcat(s: System, xs: seq<Step>, ys: seq<Step>)
    requires TimelyRun(s, xs) && TimelyRun(Run(s, xs), ys)
    ensures TimelyRun(s, xs + ys)
  {
    RunConcat(s, xs, ys);
    if ys == [] {
      assert xs + ys == xs;
    } else {
      assert (xs + ys)[..|xs + ys| - 1] == xs + ys[..|ys| - 1];
      TimelyConcat(s, xs, ys[..|ys| - 1]);
    }
  }

  /** A timely state and a timely step from it. */
  lemma OneTimelyStep(s: System, step: Step)
    requires Timely(s) && Timely(Next(s, step))
    ensures Run(s, [step]) == Next(s, step) && TimelyRun(s, [step])
  {
    assert [step][..0] == [];
    assert Run(s, []) == s && TimelyRun(s, []);
  }

  lemma ThreeTimelySteps(s: System, x: Step, y: Step, z: Step)
    requires Timely(s) && Timely(Next(s, x)) && Timely(Next(Next(s, x), y)) && Timely(Next(Next(Next(s, x), y), z))
    ensures Run(s, [x] + ([y] + [z])) == Next(Next(Next(s, x), y), z) && TimelyRun(s, [x] + ([y] + [z]))
  {
    var s1 := Next(s, x);
    var s2 := Next(s1, y);
    OneTimelyStep(s, x);
    OneTimelyStep(s1, y);
    OneTimelyStep(s2, z);
    RunConcat(s1, [y], [z]);
    TimelyConcat(s1, [y], [z]);
    RunConcat(s, [x], [y] + [z]);
    TimelyConcat(s, [x], [y] + [z]);
  }

  // ---------------------------------------------------------------- the bound is reached

  /** No request is live, and the key is free to be reserved for this hash. */
  predicate Free(s: System, key: Key, hash: Hash) {
    && (forall i :: 0 <= i < |s.requests| ==> !Live(s.requests[i].phase))
    && (key in s.rows ==>
          && s.rows[key].hash == hash && s.rows[key].status != Completed
          && (s.rows[key].status == InProgress && s.rows[key].lockedUntil.Some? ==> s.rows[key].lockedUntil.value <= s.now))
  }

  /** Request number `i` arrives, reserves its key and does its work. */
  function WorkDone(i: nat, key: Key, hash: Hash, outcome: Outcome): seq<Step> {
    [Arrive(key, hash, 60000, 86400000)] + ([StepReserve(i)] + [Work(i, outcome)])
  }

  lemma FreeIsReserved(s: System, key: Key, hash: Hash)
    requires Free(s, key, hash)
    ensures var n := |s.requests|;
            var arrived := Next(s, Arrive(key, hash, 60000, 86400000));
            var reserved := Next(arrived, StepReserve(n));
            && Timely(s) && Timely(arrived) && Timely(reserved)
            && reserved.requests == s.requests + [Request(key, hash, 60000, 86400000, Running(s.now + 60000))]
            && reserved.now == s.now && key in reserved.rows
            && Locks(reserved, reserved.requests[n], s.now + 60000)
  {
    var n := |s.requests|;
    var arrived := Next(s, Arrive(key, hash, 60000, 86400000));
    assert arrived.requests[n] == Request(key, hash, 60000, 86400000, Arrived);
    assert Reserving(arrived, n).1 == Reserved;
    var reserved := Next(arrived, StepReserve(n));
    assert reserved.requests == s.requests + [Request(key, hash, 60000, 86400000, Running(s.now + 60000))];
  }

  lemma WorkIsDone(s: System, key: Key, hash: Hash, outcome: Outcome)
    requires Free(s, key, hash)
    ensures var n := |s.requests|;
            var s' := Run(s, WorkDone(n, key, hash, outcome));
            && TimelyRun(s, WorkDone(n, key, hash, outcome))
            && s'.requests == s.requests + [Request(key, hash, 60000, 86400000, Finishing(s.now + 60000, outcome))]
            && s'.now == s.now && key in s'.rows && Locks(s', s'.requests[n], s.now + 60000)
  {
    var n := |s.requests|;
    FreeIsReserved(s, key, hash);
    var arrived := Next(s, Arrive(key, hash, 60000, 86400000));
    var reserved := Next(arrived, StepReserve(n));
    var worked := Next(reserved, Work(n, outcome));
    assert worked.requests == s.requests + [Request(key, hash, 60000, 86400000, Finishing(s.now + 60000, outcome))];
    assert Timely(worked);
    ThreeTimelySteps(s, Arrive(key, hash, 60000, 86400000), StepReserve(n), Work(n, outcome));
  }

  /** The work is done, the process dies before storing it, and the lock runs out. */
  function LostRound(i: nat, key: Key, hash: Hash, outcome: Outcome): seq<Step> {
    WorkDone(i, key, hash, outcome) + ([Crash(i)] + [Tick(60000)])
  }

  /** A request that dies after its work, and the end of its lock. */
  lemma DiesAfterWork(s: System, n: nat, key: Key, hash: Hash)
    requires n < |s.requests| && s.requests[n].phase.Finishing? && Worked(s.requests[n].phase)
    requires forall i :: 0 <= i < |s.requests| && i != n ==> !Live(s.requests[i].phase)
    requires s.requests[n].hash == hash && s.requests[n].key == key && Locks(s, s.requests[n], s.now + 60000)
    requires s.requests[n].phase.until == s.now + 60000
    ensures var s' := Run(s, [Crash(n)] + [Tick(60000)]);
            && TimelyRun(s, [Crash(n)] + [Tick(60000)]) && Free(s', key, hash)
            && s'.requests == s.requests[n := s.requests[n].(phase := Crashed(true))]
  {
    var dead := Next(s, Crash(n));
    OneTimelyStep(s, Crash(n));
    OneTimelyStep(dead, Tick(60000));
    RunConcat(s, [Crash(n)], [Tick(60000)]);
    TimelyConcat(s, [Crash(n)], [Tick(60000)]);
  }

  lemma LostRoundFrees(s: System, key: Key, hash: Hash, body: Body)
    requires Free(s, key, hash)
    ensures var n := |s.requests|;
            var s' := Run(s, LostRound(n, key, hash, Returns(body)));
            && TimelyRun(s, LostRound(n, key, hash, Returns(body)))
            && Free(s', key, hash)
            && s'.requests == s.requests + [Request(key, hash, 60000, 86400000, Crashed(true))]
  {
    var n := |s.requests|;
    WorkIsDone(s, key, hash, Returns(body));
    var worked := Run(s, WorkDone(n, key, hash, Returns(body)));
    DiesAfterWork(worked, n, key, hash);
    RunConcat(s, WorkDone(n, key, hash, Returns(body)), [Crash(n)] + [Tick(60000)]);
    TimelyConcat(s, WorkDone(n, key, hash, Returns(body)), [Crash(n)] + [Tick(60000)]);
  }

  lemma CountAppend(rs: seq<Request>, r: Request, key: Key)
    ensures CountWorked(rs + [r], key) == CountWorked(rs, key) + if r.key == key && Worked(r.phase) then 1 else 0
    ensures CountLost(rs + [r], key) == CountLost(rs, key) + if r.key == key && Lost(r.phase) then 1 else 0
  {
    assert (rs + [r])[..|rs|] == rs;
  }

  lemma RoundOutcomes(i: nat, key: Key, hash: Hash, outcome: Outcome)
    ensures Outcomes(WorkDone(i, key, hash, outcome), outcome) && Outcomes(LostRound(i, key, hash, outcome), outcome)
  {
  }

  /** `n` rounds that lose their work, from a free key. */
  lemma {:induction false} LosesWork(key: Key, hash: Hash, body: Body, n: nat) returns (steps: seq<Step>)
    ensures Outcomes(steps, Returns(body)) && TimelyRun(Start(0), steps)
    ensures var s := Run(Start(0), steps);
            && Free(s, key, hash) && |s.requests| == n
            && CountLost(s.requests, key) == n && CountWorked(s.requests, key) == n
  {
    if n == 0 {
      steps := [];
    } else {
      var before := LosesWork(key, hash, body, n - 1);
      var round := LostRound(n - 1, key, hash, Returns(body));
      steps := before + round;
      LostRoundFrees(Run(Start(0), before), key, hash, body);
      RunConcat(Start(0), before, round);
      TimelyConcat(Start(0), before, round);
      CountAppend(Run(Start(0), before).requests, Request(key, hash, 60000, 86400000, Crashed(true)), key);
      RoundOutcomes(n - 1, key, hash, Returns(body));
      OutcomesConcat(before, round, Returns(body));
    }
  }

  lemma OutcomesConcat(xs: seq<Step>, ys: seq<Step>, outcome: Outcome)
    requires Outcomes(xs, outcome) && Outcomes(ys, outcome)
    ensures Outcomes(xs + ys, outcome)
  {
  }

  lemma WorkCounts(s: System, key: Key, hash: Hash, outcome: Outcome)
    requires Free(s, key, hash) && outcome != Throws
    ensures var steps := WorkDone(|s.requests|, key, hash, outcome);
            var rs := Run(s, steps).requests;
            && TimelyRun(s, steps)
            && CountWorked(rs, key) == CountWorked(s.requests, key) + 1 && CountLost(rs, key) == CountLost(s.requests, key)
  {
    WorkIsDone(s, key, hash, outcome);
    CountAppend(s.requests, Request(key, hash, 60000, 86400000, Finishing(s.now + 60000, outcome)), key);
  }

  /** The bound is reached for every number of losses. */
  lemma WorkBoundIsReached(key: Key, hash: Hash, body: Body, n: nat) returns (steps: seq<Step>)
    ensures Outcomes(steps, Returns(body)) && TimelyRun(Start(0), steps)
    ensures var rs := Run(Start(0), steps).requests; CountLost(rs, key) == n && CountWorked(rs, key) == n + 1
  {
    var lost := LosesWork(key, hash, body, n);
    var last := WorkDone(n, key, hash, Returns(body));
    steps := lost + last;
    WorkCounts(Run(Start(0), lost), key, hash, Returns(body));
    RunConcat(Start(0), lost, last);
    TimelyConcat(Start(0), lost, last);
    RoundOutcomes(n, key, hash, Returns(body));
    OutcomesConcat(lost, last, Returns(body));
  }

  // ---------------------------------------------------------------- at most once, exactly when

  /** Every handler of the run throws or comes to the given outcome. */
  predicate Outcomes(steps: seq<Step>, outcome: Outcome) {
    forall k :: 0 <= k < |steps| && steps[k].Work? ==> steps[k].outcome == Throws || steps[k].outcome == outcome
  }

  /** No process dies between a handler's work and its storing. */
  ghost predicate NoCrashAfterWork(s: System, steps: seq<Step>) {
    steps == []
    || (var k := |steps| - 1;
        var before := Run(s, steps[..k]);
        && NoCrashAfterWork(s, steps[..k])
        && !(steps[k].Crash? && steps[k].i < |before.requests| && Worked(before.requests[steps[k].i].phase)))
  }

  ghost predicate WorkAtMostOnce(s: System) {
    forall key {:trigger CountWorked(s.requests, key)} :: CountWorked(s.requests, key) <= 1
  }

  /** Nothing is lost, and what is about to be stored can be. */
  predicate NothingLost(s: System, body: Body) {
    forall i :: 0 <= i < |s.requests| ==>
      && !Lost(s.requests[i].phase)
      && (s.requests[i].phase.Finishing? ==> s.requests[i].phase.outcome == Throws || s.requests[i].phase.outcome == Returns(body))
  }

  lemma OutcomesPrefix(steps: seq<Step>, k: nat, outcome: Outcome)
    requires Outcomes(steps, outcome) && k <= |steps|
    ensures Outcomes(steps[..k], outcome)
  {
    forall m | 0 <= m < k && steps[..k][m].Work? ensures steps[..k][m].outcome == Throws || steps[..k][m].outcome == outcome {
      assert steps[..k][m] == steps[m];
    }
  }

  lemma {:induction false} NothingIsLost(now: nat, steps: seq<Step>, body: Body)
    requires Outcomes(steps, Returns(body)) && NoCrashAfterWork(Start(now), steps)
    ensures NothingLost(Run(Start(now), steps), body)
  {
    if steps != [] {
      var k := |steps| - 1;
      OutcomesPrefix(steps, k, Returns(body));
      NothingIsLost(now, steps[..k], body);
      assert steps[k].Work? ==> steps[k].outcome == Throws || steps[k].outcome == Returns(body);
    }
  }

  lemma {:induction false} CountNothingLost(rs: seq<Request>, key: Key)
    requires forall i :: 0 <= i < |rs| ==> !Lost(rs[i].phase)
    ensures CountLost(rs, key) == 0
  {
    if rs != [] {
      CountNothingLost(rs[..|rs| - 1], key);
    }
  }

  function StoredRound(i: nat, key: Key, hash: Hash, outcome: Outcome): seq<Step> {
    WorkDone(i, key, hash, outcome) + [Store(i)]
  }

  /** Storing fails, and the key is free again. */
  lemma UnstoredFrees(s: System, key: Key, hash: Hash)
    requires Free(s, key, hash)
    ensures var n := |s.requests|;
            var s' := Run(s, StoredRound(n, key, hash, ReturnsUnstorable));
            && TimelyRun(s, StoredRound(n, key, hash, ReturnsUnstorable)) && Free(s', key, hash)
            && s'.requests == s.requests + [Request(key, hash, 60000, 86400000, SucceededUnstored)]
  {
    var n := |s.requests|;
    WorkIsDone(s, key, hash, ReturnsUnstorable);
    var worked := Run(s, WorkDone(n, key, hash, ReturnsUnstorable));
    var failed := Next(worked, Store(n));
    assert failed.requests == s.requests + [Request(key, hash, 60000, 86400000, SucceededUnstored)];
    OneTimelyStep(worked, Store(n));
    RunConcat(s, WorkDone(n, key, hash, ReturnsUnstorable), [Store(n)]);
    TimelyConcat(s, WorkDone(n, key, hash, ReturnsUnstorable), [Store(n)]);
  }

  /** Work whose response has no JSON form is done again by the next request with the key. */
  lemma UnstoredWorksTwice(key: Key, hash: Hash) returns (steps: seq<Step>)
    ensures Outcomes(steps, ReturnsUnstorable) && TimelyRun(Start(0), steps) && NoCrashAfterWork(Start(0), steps)
    ensures CountWorked(Run(Start(0), steps).requests, key) == 2
  {
    var first, second := StoredRound(0, key, hash, ReturnsUnstorable), StoredRound(1, key, hash, ReturnsUnstorable);
    UnstoredFrees(Start(0), key, hash);
    var once := Run(Start(0), first);
    UnstoredFrees(once, key, hash);
    steps := first + second;
    RunConcat(Start(0), first, second);
    TimelyConcat(Start(0), first, second);
    CountAppend([], Request(key, hash, 60000, 86400000, SucceededUnstored), key);
    CountAppend(once.requests, Request(key, hash, 60000, 86400000, SucceededUnstored), key);
    StoredRoundsAreCalm(key, hash, ReturnsUnstorable);
    NoCrashAtAll(Start(0), steps);
  }

  lemma StoredRoundsAreCalm(key: Key, hash: Hash, outcome: Outcome)
    ensures var steps := StoredRound(0, key, hash, outcome) + StoredRound(1, key, hash, outcome);
            Outcomes(steps, outcome) && forall k :: 0 <= k < |steps| ==> !steps[k].Crash?
  {
  }

  lemma {:induction false} NoCrashAtAll(s: System, steps: seq<Step>)
    requires forall k :: 0 <= k < |steps| ==> !steps[k].Crash?
    ensures NoCrashAfterWork(s, steps)
  {
    if steps != [] {
      NoCrashAtAll(s, steps[..|steps| - 1]);
    }
  }

  /** Nothing is lost when every response has a JSON form and no process dies between the work and its
      storing, and then the work is done at most once. */
  lemma StorableWorkAtMostOnce(now: nat, steps: seq<Step>, body: Body)
    requires TimelyRun(Start(now), steps) && Outcomes(steps, Returns(body)) && NoCrashAfterWork(Start(now), steps)
    ensures WorkAtMostOnce(Run(Start(now), steps))
  {
    NothingIsLost(now, steps, body);
    var s := Run(Start(now), steps);
    forall key ensures CountWorked(s.requests, key) <= 1 {
      WorkIsBounded(now, steps, key);
      CountNothingLost(s.requests, key);
    }
  }

  /** A timely run that loses the work behind the key at most `losses` times. */
  ghost predicate LossRun(now: nat, steps: seq<Step>, key: Key, losses: nat) {
    TimelyRun(Start(now), steps) && CountLost(Run(Start(now), steps).requests, key) <= losses
  }

  /** The work behind a key is done at most `most` times in every timely run that loses it at most
      `losses` times, if and only if `losses` is less than `most`. */
  lemma WorkAtMostIff(key: Key, losses: nat, most: nat)
    ensures (forall now, steps :: LossRun(now, steps, key, losses) ==> CountWorked(Run(Start(now), steps).requests, key) <= most)
            <==> losses < most
  {
    if losses < most {
      forall now, steps | LossRun(now, steps, key, losses) ensures CountWorked(Run(Start(now), steps).requests, key) <= most {
        WorkIsBounded(now, steps, key);
      }
    } else {
      var steps := WorkBoundIsReached(key, [], "", losses);
      assert LossRun(0, steps, key, losses);
    }
  }

  // ---------------------------------------------------------------- how long a handler may take

  /** Every live request has been live for at most `most`. */
  predicate Within(s: System, most: nat) {
    forall i :: 0 <= i < |s.requests| && Live(s.requests[i].phase) ==>
      s.now + s.requests[i].lockMs <= s.requests[i].phase.until + most
  }

  ghost predicate WithinRun(s: System, steps: seq<Step>, most: nat) {
    Within(Run(s, steps), most) && (steps == [] || WithinRun(s, steps[..|steps| - 1], most))
  }

  predicate OneLock(steps: seq<Step>, lockMs: nat) {
    forall k :: 0 <= k < |steps| && steps[k].Arrive? ==> steps[k].lockMs == lockMs
  }

  predicate StoredAtMostOnce(s: System) {
    forall i, j :: 0 <= i < j < |s.requests| && s.requests[i].phase.Succeeded? && s.requests[j].phase.Succeeded? ==>
      s.requests[i].key != s.requests[j].key
  }

  predicate AllLocks(s: System, lockMs: nat) {
    forall i :: 0 <= i < |s.requests| ==> s.requests[i].lockMs == lockMs
  }

  lemma {:induction false} WithinIsTimely(now: nat, steps: seq<Step>, lockMs: nat, most: nat)
    requires OneLock(steps, lockMs) && WithinRun(Start(now), steps, most) && most < lockMs
    ensures TimelyRun(Start(now), steps) && AllLocks(Run(Start(now), steps), lockMs)
  {
    if steps != [] {
      var k := |steps| - 1;
      assert OneLock(steps[..k], lockMs) by {
        forall m | 0 <= m < k && steps[..k][m].Arrive? ensures steps[..k][m].lockMs == lockMs {
          assert steps[..k][m] == steps[m];
        }
      }
      WithinIsTimely(now, steps[..k], lockMs, most);
      assert steps[k].Arrive? ==> steps[k].lockMs == lockMs;
      assert AllLocks(Run(Start(now), steps), lockMs);
    }
  }

  /** The first request works past its lock, the second one takes the key, and both are stored. */
  function OverrunSteps(key: Key, hash: Hash, lockMs: nat): seq<Step> {
    [Arrive(key, hash, lockMs, 0), Arrive(key, hash, lockMs, 0), StepReserve(0), Tick(lockMs), StepReserve(1),
     Work(1, Returns("second")), Store(1), Work(0, Returns("first")), Store(0)]
  }

  /** The states of that run, one after the other. */
  function OverrunState(key: Key, hash: Hash, lockMs: nat, k: nat): System
    requires k <= 9
  {
    if k == 0 then Start(0) else Next(OverrunState(key, hash, lockMs, k - 1), OverrunSteps(key, hash, lockMs)[k - 1])
  }

  lemma {:induction false} OverrunUnrolls(key: Key, hash: Hash, lockMs: nat, k: nat)
    requires k <= 9
    ensures Run(Start(0), OverrunSteps(key, hash, lockMs)[..k]) == OverrunState(key, hash, lockMs, k)
  {
    var steps := OverrunSteps(key, hash, lockMs);
    if k > 0 {
      OverrunUnrolls(key, hash, lockMs, k - 1);
      assert steps[..k][..k - 1] == steps[..k - 1];
    }
  }

  lemma OverrunArrived(key: Key, hash: Hash, lockMs: nat)
    ensures forall k :: 0 <= k <= 2 ==> Within(OverrunState(key, hash, lockMs, k), lockMs)
    ensures var a := Request(key, hash, lockMs, 0, Arrived); OverrunState(key, hash, lockMs, 2) == System(map[], 0, [a, a])
  {
    var a := Request(key, hash, lockMs, 0, Arrived);
    assert OverrunState(key, hash, lockMs, 0) == Start(0);
    var s1 := OverrunState(key, hash, lockMs, 1);
    assert s1 == Next(Start(0), Arrive(key, hash, lockMs, 0)) && s1.requests == [a];
    var s2 := OverrunState(key, hash, lockMs, 2);
    assert s2 == Next(s1, Arrive(key, hash, lockMs, 0)) && s2.requests == [a, a];
  }

  lemma OverrunFirstHalf(key: Key, hash: Hash, lockMs: nat)
    ensures forall k :: 0 <= k <= 4 ==> Within(OverrunState(key, hash, lockMs, k), lockMs)
    ensures var s := OverrunState(key, hash, lockMs, 4);
            && s.now == lockMs && key in s.rows
            && s.rows[key].hash == hash && s.rows[key].status == InProgress && s.rows[key].lockedUntil == Some(lockMs)
            && s.requests == [Request(key, hash, lockMs, 0, Running(lockMs)), Request(key, hash, lockMs, 0, Arrived)]
  {
    OverrunArrived(key, hash, lockMs);
    var a := Request(key, hash, lockMs, 0, Arrived);
    var s3 := OverrunState(key, hash, lockMs, 3);
    assert s3 == Next(OverrunState(key, hash, lockMs, 2), StepReserve(0));
    assert s3.requests == [a.(phase := Running(lockMs)), a];
    assert OverrunState(key, hash, lockMs, 4) == Next(s3, Tick(lockMs));
  }

  lemma OverrunTaken(key: Key, hash: Hash, lockMs: nat)
    ensures var s := OverrunState(key, hash, lockMs, 5);
            && s.now == lockMs && key in s.rows
            && s.requests == [Request(key, hash, lockMs, 0, Running(lockMs)), Request(key, hash, lockMs, 0, Running(lockMs + lockMs))]
  {
    OverrunFirstHalf(key, hash, lockMs);
    var s4 := OverrunState(key, hash, lockMs, 4);
    assert OverrunState(key, hash, lockMs, 5) == Next(s4, StepReserve(1));
    assert Reserving(s4, 1).1 == Reserved;
  }

  lemma OverrunSecondHalf(key: Key, hash: Hash, lockMs: nat)
    ensures forall k :: 5 <= k <= 9 ==> Within(OverrunState(key, hash, lockMs, k), lockMs)
    ensures !StoredAtMostOnce(OverrunState(key, hash, lockMs, 9))
  {
    OverrunTaken(key, hash, lockMs);
    var a := Request(key, hash, lockMs, 0, Arrived);
    var s5 := OverrunState(key, hash, lockMs, 5);
    var s6 := Next(s5, Work(1, Returns("second")));
    assert OverrunState(key, hash, lockMs, 6) == s6;
    assert s6.requests == [a.(phase := Running(lockMs)), a.(phase := Finishing(lockMs + lockMs, Returns("second")))];
    var s7 := Next(s6, Store(1));
    assert OverrunState(key, hash, lockMs, 7) == s7;
    assert s7.requests == [a.(phase := Running(lockMs)), a.(phase := Succeeded("second"))];
    var s8 := Next(s7, Work(0, Returns("first")));
    assert OverrunState(key, hash, lockMs, 8) == s8;
    assert s8.requests == [a.(phase := Finishing(lockMs, Returns("first"))), a.(phase := Succeeded("second"))];
    var s9 := Next(s8, Store(0));
    assert OverrunState(key, hash, lockMs, 9) == s9;
    assert s9.requests == [a.(phase := Succeeded("first")), a.(phase := Succeeded("second"))];
    assert s9.requests[0].key == s9.requests[1].key;
  }

  lemma {:induction false} OverrunWithin(key: Key, hash: Hash, lockMs: nat, most: nat, k: nat)
    requires k <= 9 && lockMs <= most
    ensures WithinRun(Start(0), OverrunSteps(key, hash, lockMs)[..k], most)
  {
    var steps := OverrunSteps(key, hash, lockMs);
    OverrunUnrolls(key, hash, lockMs, k);
    if k <= 4 {
      OverrunFirstHalf(key, hash, lockMs);
    } else {
      OverrunSecondHalf(key, hash, lockMs);
    }
    assert Within(OverrunState(key, hash, lockMs, k), lockMs);
    if k > 0 {
      OverrunWithin(key, hash, lockMs, most, k - 1);
      assert steps[..k][..k - 1] == steps[..k - 1];
    }
  }

  /** A run with one lock time in which every request is live for at most `most`. */
  ghost predicate LockRun(now: nat, steps: seq<Step>, lockMs: nat, most: nat) {
    OneLock(steps, lockMs) && WithinRun(Start(now), steps, most)
  }

  /** With one lock time for all requests: at most one success per key is stored in every run whose
      requests are live for at most `most`, if and only if `most` is less than the lock time. */
  lemma StoredAtMostOnceIff(lockMs: nat, most: nat)
    ensures (forall now, steps :: LockRun(now, steps, lockMs, most) ==> StoredAtMostOnce(Run(Start(now), steps)))
            <==> most < lockMs
  {
    if most < lockMs {
      forall now, steps | LockRun(now, steps, lockMs, most) ensures StoredAtMostOnce(Run(Start(now), steps)) {
        WithinIsTimely(now, steps, lockMs, most);
        var s := Run(Start(now), steps);
        forall i, j | 0 <= i < j < |s.requests| && s.requests[i].phase.Succeeded? && s.requests[j].phase.Succeeded?
          ensures s.requests[i].key != s.requests[j].key
        {
          AtMostOneStoredSuccess(now, steps, i, j);
        }
      }
    } else {
      var key := Key("scope", "key");
      var steps := OverrunSteps(key, [], lockMs);
      OverrunWithin(key, [], lockMs, most, 9);
      OverrunUnrolls(key, [], lockMs, 9);
      OverrunSecondHalf(key, [], lockMs);
      assert steps[..9] == steps;
      assert LockRun(0, steps, lockMs, most);
    }
  }
}
