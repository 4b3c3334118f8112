/** Any number of requests with idempotency keys in flight at once: reserving is one step, the
    handler runs unlocked and comes to its outcome, and storing the outcome is a step of its own.
    A process may die at any point. */
module IdempotencyProtocol {
  import opened Common
  import opened Idempotency

  datatype Phase =
    | Arrived
    | Running(until: nat)
    | Finishing(until: nat, outcome: Outcome)
    | Succeeded(stored: Body)
    | SucceededUnstored
    | Raised
    | Crashed(worked: bool)
    | GotReplay(body: Option<Body>)
    | Rejected(reason: Reservation)

  datatype Request = Request(key: Key, hash: Hash, lockMs: nat, ttlMs: nat, phase: Phase)

  datatype System = System(rows: map<Key, Row>, now: nat, requests: seq<Request>)

  datatype Step =
    | Arrive(key: Key, hash: Hash, lockMs: nat, ttlMs: nat)
    | StepReserve(i: nat)
    | Work(i: nat, outcome: Outcome)
    | Store(i: nat)
    | Crash(i: nat)
    | Tick(elapsed: nat)

  function RowOf(s: System, key: Key): Option<Row> {
    if key in s.rows then Some(s.rows[key]) else None
  }

  function Reserving(s: System, i: nat): (Row, Reservation)
    requires i < |s.requests|
  {
    var r := s.requests[i];
    Reserve(RowOf(s, r.key), r.hash, s.now, r.lockMs, r.ttlMs)
  }

  function PhaseAfter(reservation: Reservation, until: nat): Phase {
    match reservation
    case Reserved => Running(until)
    case Replay(body) => GotReplay(body)
    case _ => Rejected(reservation)
  }

  function PhaseOf(outcome: Outcome): Phase {
    match outcome
    case Returns(body) => Succeeded(body)
    case ReturnsUnstorable => SucceededUnstored
    case Throws => Raised
  }

  /** The handler is running, or its outcome is about to be stored. */
  predicate Live(phase: Phase) {
    phase.Running? || phase.Finishing?
  }

  /** The handler has done its work, stored or not. */
  predicate Worked(phase: Phase) {
    match phase
    case Finishing(_, outcome) => outcome != Throws
    case Succeeded(_) => true
    case SucceededUnstored => true
    case Crashed(worked) => worked
    case _ => false
  }

  /** The handler has done its work and no row says so, nor will. */
  predicate Lost(phase: Phase) {
    phase.SucceededUnstored? || (phase.Crashed? && phase.worked)
  }

  /** One step; a step that is not possible leaves the system as it is. */
  function Next(s: System, step: Step): System {
    match step
    case Arrive(key, hash, lockMs, ttlMs) => s.(requests := s.requests + [Request(key, hash, lockMs, ttlMs, Arrived)])
    case StepReserve(i) =>
      if i >= |s.requests| || s.requests[i].phase != Arrived then s
      else
        var r := s.requests[i];
        var (row, reservation) := Reserving(s, i);
        s.(rows := s.rows[r.key := row],
           requests := s.requests[i := r.(phase := PhaseAfter(reservation, s.now + r.lockMs))])
    case Work(i, outcome) =>
      if i >= |s.requests| || !s.requests[i].phase.Running? then s
      else s.(requests := s.requests[i := s.requests[i].(phase := Finishing(s.requests[i].phase.until, outcome))])
    case Store(i) =>
      if i >= |s.requests| || !s.requests[i].phase.Finishing? || s.requests[i].key !in s.rows then s
      else
        var r := s.requests[i];
        s.(rows := s.rows[r.key := Settled(s.rows[r.key], r.phase.outcome, s.now)],
           requests := s.requests[i := r.(phase := PhaseOf(r.phase.outcome))])
    case Crash(i) =>
      if i >= |s.requests| || !Live(s.requests[i].phase) then s
      else s.(requests := s.requests[i := s.requests[i].(phase := Crashed(Worked(s.requests[i].phase)))])
    case Tick(elapsed) => s.(now := s.now + elapsed)
  }

  function Run(s: System, steps: seq<Step>): System {
    if steps == [] then s else Next(Run(s, steps[..|steps| - 1]), steps[|steps| - 1])
  }

  /** Every live request is still inside its lock. */
  predicate Timely(s: System) {
    forall i :: 0 <= i < |s.requests| && Live(s.requests[i].phase) ==> s.now < s.requests[i].phase.until
  }

  ghost predicate TimelyRun(s: System, steps: seq<Step>) {
    Timely(Run(s, steps)) && (steps == [] || TimelyRun(s, steps[..|steps| - 1]))
  }

  function Start(now: nat): System {
    System(map[], now, [])
  }

  // ---------------------------------------------------------------- the invariant

  predicate Locks(s: System, r: Request, until: nat) {
    && r.key in s.rows && s.rows[r.key].status == InProgress
    && s.rows[r.key].hash == r.hash && s.rows[r.key].lockedUntil == Some(until)
  }

  /** What a request in its phase says about its row. */
  ghost predicate RequestOk(s: System, r: Request) {
    match r.phase
    case Running(until) => Locks(s, r, until)
    case Finishing(until, _) => Locks(s, r, until)
    case Succeeded(stored) =>
      && r.key in s.rows && s.rows[r.key].status == Completed
      && s.rows[r.key].hash == r.hash && s.rows[r.key].response == Some(stored)
    case GotReplay(body) =>
      && r.key in s.rows && s.rows[r.key].status == Completed
      && s.rows[r.key].hash == r.hash && s.rows[r.key].response == body
    case _ => true
  }

  /** Request `i` is live or has succeeded with a stored response: the key is taken by it. */
  predicate Owns(s: System, i: nat) {
    i < |s.requests| && (Live(s.requests[i].phase) || s.requests[i].phase.Succeeded?)
  }

  ghost predicate OneOwner(s: System) {
    forall i: nat, j: nat {:trigger Owns(s, i), Owns(s, j)} ::
      Owns(s, i) && Owns(s, j) && i != j ==> s.requests[i].key != s.requests[j].key
  }

  /** A COMPLETED row stores the response of a handler that succeeded. */
  ghost predicate Stored(s: System, key: Key) {
    key in s.rows && exists i: nat {:trigger Owns(s, i)} ::
      Owns(s, i) && s.requests[i].key == key && s.requests[i].phase.Succeeded?
      && s.rows[key].response == Some(s.requests[i].phase.stored)
  }

  ghost predicate Inv(s: System) {
    && (forall i {:trigger RequestOk(s, s.requests[i])} :: 0 <= i < |s.requests| ==> RequestOk(s, s.requests[i]))
    && OneOwner(s)
    && (forall key {:trigger Stored(s, key)} :: key in s.rows && s.rows[key].status == Completed ==> Stored(s, key))
  }

  /** A row's hash never changes, and a COMPLETED row never changes at all. */
  ghost predicate RowsAdvance(s: System, s': System) {
    forall key :: key in s.rows ==>
      key in s'.rows && s'.rows[key].hash == s.rows[key].hash
      && (s.rows[key].status == Completed ==> s'.rows[key] == s.rows[key])
  }

  lemma ReplaysAreOfCompleted(s: System, key: Key)
    requires Inv(s) && key in s.rows && s.rows[key].status != Completed
    ensures forall j :: 0 <= j < |s.requests| && s.requests[j].key == key ==> !s.requests[j].phase.GotReplay?
  {
    forall j | 0 <= j < |s.requests| && s.requests[j].key == key ensures !s.requests[j].phase.GotReplay? {
      assert RequestOk(s, s.requests[j]);
    }
  }

  /** A live request is the only owner of its key, so no success is stored there. */
  lemma LiveOwnsAlone(s: System, i: nat)
    requires Inv(s) && i < |s.requests| && Live(s.requests[i].phase)
    ensures RequestOk(s, s.requests[i])
    ensures forall j: nat :: j != i && Owns(s, j) ==> s.requests[j].key != s.requests[i].key
    ensures forall j :: 0 <= j < |s.requests| && s.requests[j].key == s.requests[i].key ==> !s.requests[j].phase.GotReplay?
  {
    assert Owns(s, i) && RequestOk(s, s.requests[i]);
    ReplaysAreOfCompleted(s, s.requests[i].key);
  }

  /** A reservation that goes through finds no live owner. */
  lemma ReservedFindsNoOwner(s: System, i: nat)
    requires Inv(s) && Timely(s) && i < |s.requests| && Reserving(s, i).1 == Reserved
    ensures forall j: nat :: Owns(s, j) ==> s.requests[j].key != s.requests[i].key
    ensures forall j :: 0 <= j < |s.requests| && s.requests[j].key == s.requests[i].key ==> !s.requests[j].phase.GotReplay?
  {
    forall j: nat | j < |s.requests| && s.requests[j].key == s.requests[i].key
      ensures !Owns(s, j) && !s.requests[j].phase.GotReplay?
    {
      assert RequestOk(s, s.requests[j]);
    }
  }

  /** A write to the row of `key` that no owner and no replay rests on, by request `i`. */
  lemma WriteKeeps(s: System, i: nat, row: Row, phase: Phase)
    requires Inv(s) && i < |s.requests|
    requires forall j: nat :: j != i && Owns(s, j) ==> s.requests[j].key != s.requests[i].key
    requires forall j :: 0 <= j < |s.requests| && s.requests[j].key == s.requests[i].key ==> !s.requests[j].phase.GotReplay?
    requires var s' := s.(rows := s.rows[s.requests[i].key := row], requests := s.requests[i := s.requests[i].(phase := phase)]);
             RequestOk(s', s'.requests[i]) && (row.status == Completed ==> phase.Succeeded?)
    ensures var s' := s.(rows := s.rows[s.requests[i].key := row], requests := s.requests[i := s.requests[i].(phase := phase)]);
            Inv(s')
  {
    var key := s.requests[i].key;
    var s' := s.(rows := s.rows[key := row], requests := s.requests[i := s.requests[i].(phase := phase)]);
    forall j | 0 <= j < |s'.requests| ensures RequestOk(s', s'.requests[j]) {
      if j != i {
        assert RequestOk(s, s.requests[j]);
        assert Owns(s, j) == Owns(s', j);
      }
    }
    forall j: nat, k: nat | Owns(s', j) && Owns(s', k) && j != k ensures s'.requests[j].key != s'.requests[k].key {
      assert j != i ==> Owns(s, j);
      assert k != i ==> Owns(s, k);
    }
    forall k | k in s'.rows && s'.rows[k].status == Completed ensures Stored(s', k) {
      if k == key {
        assert Owns(s', i);
      } else {
        assert Stored(s, k);
        var j: nat :| Owns(s, j) && s.requests[j].key == k && s.requests[j].phase.Succeeded?
                      && s.rows[k].response == Some(s.requests[j].phase.stored);
        assert Owns(s', j);
      }
    }
  }

  /** A step that leaves the rows alone and does not touch an owner's success. */
  lemma QuietKeeps(s: System, i: nat, phase: Phase)
    requires Inv(s) && i < |s.requests| && !s.requests[i].phase.Succeeded?
    requires !phase.Succeeded? && (Live(phase) ==> Live(s.requests[i].phase))
    requires RequestOk(s, s.requests[i].(phase := phase))
    ensures Inv(s.(requests := s.requests[i := s.requests[i].(phase := phase)]))
  {
    var s' := s.(requests := s.requests[i := s.requests[i].(phase := phase)]);
    forall j | 0 <= j < |s'.requests| ensures RequestOk(s', s'.requests[j]) {
      assert RequestOk(s, s.requests[j]);
    }
    forall j: nat ensures Owns(s', j) ==> Owns(s, j) {}
    forall k | k in s'.rows && s'.rows[k].status == Completed ensures Stored(s', k) {
      assert Stored(s, k);
      var j: nat :| Owns(s, j) && s.requests[j].key == k && s.requests[j].phase.Succeeded?
                    && s.rows[k].response == Some(s.requests[j].phase.stored);
      assert Owns(s', j);
    }
  }

  lemma ReserveKeeps(s: System, i: nat)
    requires Inv(s) && Timely(s) && i < |s.requests| && s.requests[i].phase == Arrived
    ensures Inv(Next(s, StepReserve(i))) && RowsAdvance(s, Next(s, StepReserve(i)))
  {
    var r := s.requests[i];
    var (row, reservation) := Reserving(s, i);
    if reservation == Reserved {
      ReservedFindsNoOwner(s, i);
      WriteKeeps(s, i, row, Running(s.now + r.lockMs));
    } else {
      assert s.rows[r.key := row] == s.rows;
      QuietKeeps(s, i, PhaseAfter(reservation, s.now + r.lockMs));
    }
  }

  lemma ArriveKeeps(s: System, step: Step)
    requires Inv(s) && step.Arrive?
    ensures Inv(Next(s, step))
  {
    var s' := Next(s, step);
    forall j | 0 <= j < |s'.requests| ensures RequestOk(s', s'.requests[j]) {
      if j < |s.requests| {
        assert RequestOk(s, s.requests[j]);
      }
    }
    forall j: nat ensures Owns(s', j) == Owns(s, j) {}
    forall k | k in s'.rows && s'.rows[k].status == Completed ensures Stored(s', k) {
      assert Stored(s, k);
      var j: nat :| Owns(s, j) && s.requests[j].key == k && s.requests[j].phase.Succeeded?
                    && s.rows[k].response == Some(s.requests[j].phase.stored);
      assert Owns(s', j);
    }
  }

  lemma TickKeeps(s: System, step: Step)
    requires Inv(s) && step.Tick?
    ensures Inv(Next(s, step))
  {
    var s' := Next(s, step);
    forall j | 0 <= j < |s'.requests| ensures RequestOk(s', s'.requests[j]) {
      assert RequestOk(s, s.requests[j]);
    }
    forall j: nat ensures Owns(s', j) == Owns(s, j) {}
    forall k | k in s'.rows && s'.rows[k].status == Completed ensures Stored(s', k) {
      assert Stored(s, k);
      var j: nat :| Owns(s, j) && s.requests[j].key == k && s.requests[j].phase.Succeeded?
                    && s.rows[k].response == Some(s.requests[j].phase.stored);
      assert Owns(s', j);
    }
  }

  lemma StepKeeps(s: System, step: Step)
    requires Inv(s) && Timely(s)
    ensures Inv(Next(s, step)) && RowsAdvance(s, Next(s, step))
  {
    match step
    case Arrive(_, _, _, _) => ArriveKeeps(s, step);
    case StepReserve(i) => if i < |s.requests| && s.requests[i].phase == Arrived { ReserveKeeps(s, i); }
    case Work(i, outcome) =>
      if i < |s.requests| && s.requests[i].phase.Running? {
        assert RequestOk(s, s.requests[i]);
        QuietKeeps(s, i, Finishing(s.requests[i].phase.until, outcome));
      }
    case Store(i) =>
      if i < |s.requests| && s.requests[i].phase.Finishing? {
        LiveOwnsAlone(s, i);
        var outcome := s.requests[i].phase.outcome;
        WriteKeeps(s, i, Settled(s.rows[s.requests[i].key], outcome, s.now), PhaseOf(outcome));
      }
    case Crash(i) =>
      if i < |s.requests| && Live(s.requests[i].phase) {
        QuietKeeps(s, i, Crashed(Worked(s.requests[i].phase)));
      }
    case Tick(_) => TickKeeps(s, step);
  }

  // ---------------------------------------------------------------- over whole runs

  lemma {:induction false} RunKeeps(s: System, steps: seq<Step>)
    requires Inv(s) && TimelyRun(s, steps)
    ensures Inv(Run(s, steps)) && RowsAdvance(s, Run(s, steps))
  {
    if steps != [] {
      var k := |steps| - 1;
      RunKeeps(s, steps[..k]);
      StepKeeps(Run(s, steps[..k]), steps[k]);
    }
  }

  /** Over every timely run, for each key: at most one handler has a stored success, no handler
      runs beside it, every replay gives its response, and both belong to the same request hash. */
  lemma AtMostOneStoredSuccess(now: nat, steps: seq<Step>, i: nat, j: nat)
    requires TimelyRun(Start(now), steps)
    ensures var s := Run(Start(now), steps);
            i < |s.requests| && j < |s.requests| && i != j && s.requests[i].key == s.requests[j].key
            && s.requests[i].phase.Succeeded? ==>
              && !s.requests[j].phase.Succeeded?
              && !Live(s.requests[j].phase)
              && (s.requests[j].phase.GotReplay? ==>
                    s.requests[j].phase.body == Some(s.requests[i].phase.stored) && s.requests[j].hash == s.requests[i].hash)
  {
    RunKeeps(Start(now), steps);
    var s := Run(Start(now), steps);
    if i < |s.requests| && j < |s.requests| && i != j && s.requests[i].key == s.requests[j].key && s.requests[i].phase.Succeeded? {
      assert Owns(s, i) && RequestOk(s, s.requests[i]) && RequestOk(s, s.requests[j]);
      assert !Owns(s, j);
    }
  }

  /** Every replay comes from a handler that succeeded with the same request hash. */
  lemma ReplaysAreStored(now: nat, steps: seq<Step>, j: nat) returns (i: nat)
    requires TimelyRun(Start(now), steps)
    requires j < |Run(Start(now), steps).requests| && Run(Start(now), steps).requests[j].phase.GotReplay?
    ensures var s := Run(Start(now), steps);
            && i < |s.requests| && s.requests[i].key == s.requests[j].key && s.requests[i].hash == s.requests[j].hash
            && s.requests[i].phase.Succeeded? && Some(s.requests[i].phase.stored) == s.requests[j].phase.body
  {
    RunKeeps(Start(now), steps);
    var s := Run(Start(now), steps);
    assert RequestOk(s, s.requests[j]);
    var key := s.requests[j].key;
    assert Stored(s, key);
    i :| Owns(s, i) && s.requests[i].key == key && s.requests[i].phase.Succeeded?
         && s.rows[key].response == Some(s.requests[i].phase.stored);
    assert RequestOk(s, s.requests[i]);
  }

  lemma {:induction false} RequestsStay(s: System, steps: seq<Step>, i: nat)
    requires i < |s.requests| && s.requests[i].phase.Succeeded?
    ensures i < |Run(s, steps).requests| && Run(s, steps).requests[i] == s.requests[i]
  {
    if steps != [] {
      RequestsStay(s, steps[..|steps| - 1], i);
    }
  }

  /** Once a success is stored, at any later point of the run a request with the same key gets
      that response if its hash is the same, and is rejected if its hash differs. */
  lemma LaterRequestsReplay(s: System, steps: seq<Step>, i: nat, j: nat)
    requires Inv(s) && TimelyRun(s, steps)
    requires i < |s.requests| && s.requests[i].phase.Succeeded?
    ensures var s' := Run(s, steps);
            j < |s'.requests| && s'.requests[j].phase == Arrived && s'.requests[j].key == s.requests[i].key ==>
              Next(s', StepReserve(j)).requests[j].phase
              == if s'.requests[j].hash == s.requests[i].hash then GotReplay(Some(s.requests[i].phase.stored))
                 else Rejected(DifferentRequest)
  {
    RunKeeps(s, steps);
    RequestsStay(s, steps, i);
    var s' := Run(s, steps);
    assert RequestOk(s', s'.requests[i]);
  }

  /** A key once used rejects every request with another hash, whatever became of the first one
      and however long ago: neither FAILED nor `expiresAt` frees it. */
  lemma DifferentHashIsRejected(s: System, steps: seq<Step>, key: Key, j: nat)
    requires Inv(s) && TimelyRun(s, steps) && key in s.rows
    ensures var s' := Run(s, steps);
            j < |s'.requests| && s'.requests[j].phase == Arrived && s'.requests[j].key == key
            && s'.requests[j].hash != s.rows[key].hash ==>
              Next(s', StepReserve(j)).requests[j].phase == Rejected(DifferentRequest)
              && Next(s', StepReserve(j)).rows == s'.rows
  {
    RunKeeps(s, steps);
    var s' := Run(s, steps);
    if j < |s'.requests| && s'.requests[j].phase == Arrived && s'.requests[j].key == key {
      assert s'.rows[key := s'.rows[key]] == s'.rows;
    }
  }

  // ---------------------------------------------------------------- after a failure

  /** The key is FAILED for this hash, and no request of it is live or has succeeded. */
  ghost predicate Freed(s: System, key: Key, hash: Hash) {
    && key in s.rows && s.rows[key].status == Failed && s.rows[key].hash == hash
    && forall i: nat :: Owns(s, i) ==> s.requests[i].key != key
  }

  /** A handler that threw, or whose response could not be stored, frees its key. */
  lemma FailureFrees(s: System, i: nat)
    requires Inv(s) && i < |s.requests| && s.requests[i].phase.Finishing? && !s.requests[i].phase.outcome.Returns?
    ensures Freed(Next(s, Store(i)), s.requests[i].key, s.requests[i].hash)
  {
    LiveOwnsAlone(s, i);
    var s' := Next(s, Store(i));
    forall j: nat | Owns(s', j) ensures s'.requests[j].key != s.requests[i].key {
      assert j != i && Owns(s, j);
    }
  }

  /** No step of the run tries to reserve the key. */
  ghost predicate Unreserved(s: System, steps: seq<Step>, key: Key) {
    steps == []
    || (var k := |steps| - 1;
        var before := Run(s, steps[..k]);
        && Unreserved(s, steps[..k], key)
        && (steps[k].StepReserve? && steps[k].i < |before.requests| ==> before.requests[steps[k].i].key != key))
  }

  lemma {:induction false} FreedStays(s: System, steps: seq<Step>, key: Key, hash: Hash)
    requires Freed(s, key, hash) && Unreserved(s, steps, key)
    ensures Freed(Run(s, steps), key, hash)
  {
    if steps != [] {
      var k := |steps| - 1;
      FreedStays(s, steps[..k], key, hash);
      var before := Run(s, steps[..k]);
      var after := Next(before, steps[k]);
      forall i: nat | Owns(after, i) ensures after.requests[i].key != key {
        if steps[k].StepReserve? && i == steps[k].i {} else { assert Owns(before, i); }
      }
      assert steps[k].Store? ==> !Owns(before, steps[k].i) || before.requests[steps[k].i].key != key;
    }
  }

  /** A request may be repeated at once after a failure: however little time has gone by and however long
      the lock was, the next request with the key goes to its handler if its hash is the same. */
  lemma RetryAfterFailureRuns(s: System, i: nat, steps: seq<Step>, j: nat)
    requires Inv(s) && i < |s.requests| && s.requests[i].phase.Finishing? && !s.requests[i].phase.outcome.Returns?
    requires Unreserved(Next(s, Store(i)), steps, s.requests[i].key)
    ensures var s' := Run(Next(s, Store(i)), steps);
            j < |s'.requests| && s'.requests[j].phase == Arrived && s'.requests[j].key == s.requests[i].key ==>
              Next(s', StepReserve(j)).requests[j].phase
              == if s'.requests[j].hash == s.requests[i].hash then Running(s'.now + s'.requests[j].lockMs)
                 else Rejected(DifferentRequest)
  {
    FailureFrees(s, i);
    FreedStays(Next(s, Store(i)), steps, s.requests[i].key, s.requests[i].hash);
  }
}
