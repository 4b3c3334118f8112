/** Any number of outbox workers on one table: each database access is one step, workers hold
    snapshots of what they listed, may crash at any point, and share the clock. */
module OutboxProtocol {
  import opened Common
  import opened Outbox

  /** A row as `listPendingEvents` returned it. */
  datatype Snapshot = Snapshot(id: EventId, row: Event)

  /** A claim: the attempt it made, the end of its lease, and whether the event was published since. */
  datatype Hold = Hold(id: EventId, attempt: nat, leaseEnd: nat, sent: bool)

  datatype Worker = Worker(queue: seq<Snapshot>, hold: Option<Hold>)

  datatype System = System(events: seq<Event>, now: nat, workers: seq<Worker>)

  datatype Step =
    | Enqueue(payload: Payload)
    | Tick(elapsed: nat)
    | List(w: nat, ids: seq<EventId>)
    | Claim(w: nat)
    | Send(w: nat)
    | Mark(w: nat)
    | Fail(w: nat)
    | Crash(w: nat)

  predicate CanList(s: System, w: nat, ids: seq<EventId>) {
    && w < |s.workers| && s.workers[w] == Worker([], None)
    && forall i :: 0 <= i < |ids| ==> ids[i] < |s.events| && Listable(s.events[ids[i]], s.now)
  }

  predicate Holding(s: System, w: nat) {
    w < |s.workers| && s.workers[w].hold.Some? && s.workers[w].hold.value.id < |s.events|
  }

  predicate CanClaim(s: System, w: nat) {
    && w < |s.workers| && s.workers[w].hold.None?
    && s.workers[w].queue != [] && s.workers[w].queue[0].id < |s.events|
  }

  /** Whether the next claim of worker `w` writes its row. */
  predicate Wins(s: System, w: nat) {
    && CanClaim(s, w)
    && var snapshot := s.workers[w].queue[0];
       !Terminal(snapshot.row) && Unchanged(snapshot.row, s.events[snapshot.id])
  }

  /** One step; a step that is not possible leaves the system as it is. `Send` is `publishEvent` and
      `Mark` is `markPublished`; an error of either leads to `Fail`. */
  function Next(c: Config, s: System, step: Step): System {
    match step
    case Enqueue(payload) => s.(events := s.events + [Event(payload, Pending, 0, None)])
    case Tick(elapsed) => s.(now := s.now + elapsed)
    case List(w, ids) =>
      if !CanList(s, w, ids) then s
      else
        var queue := seq(|ids|, i requires 0 <= i < |ids| => Snapshot(ids[i], s.events[ids[i]]));
        s.(workers := s.workers[w := Worker(queue, None)])
    case Claim(w) =>
      if !CanClaim(s, w) then s
      else
        var id := s.workers[w].queue[0].id;
        var rest := s.workers[w].queue[1..];
        if Wins(s, w) then
          var claimed := Claimed(s.events[id], c, s.now);
          s.(events := s.events[id := claimed],
             workers := s.workers[w := Worker(rest, Some(Hold(id, claimed.attemptCount, s.now + c.lease, false)))])
        else s.(workers := s.workers[w := Worker(rest, None)])
    case Send(w) =>
      if !Holding(s, w) || s.workers[w].hold.value.sent then s
      else s.(workers := s.workers[w := s.workers[w].(hold := Some(s.workers[w].hold.value.(sent := true)))])
    case Mark(w) =>
      if !Holding(s, w) || !s.workers[w].hold.value.sent then s
      else
        var id := s.workers[w].hold.value.id;
        s.(events := s.events[id := MarkedPublished(s.events[id])],
           workers := s.workers[w := s.workers[w].(hold := None)])
    case Fail(w) =>
      if !Holding(s, w) then s
      else
        var hold := s.workers[w].hold.value;
        s.(events := s.events[hold.id := MarkedFailed(s.events[hold.id], c, hold.attempt, s.now)],
           workers := s.workers[w := s.workers[w].(hold := None)])
    case Crash(w) => if w < |s.workers| then s.(workers := s.workers[w := Worker([], None)]) else s
  }

  function Run(c: Config, s: System, steps: seq<Step>): System {
    if steps == [] then s else Next(c, Run(c, s, steps[..|steps| - 1]), steps[|steps| - 1])
  }

  /** Every live worker is still inside its lease. */
  predicate Timely(s: System) {
    forall w :: 0 <= w < |s.workers| && s.workers[w].hold.Some? ==> s.now < s.workers[w].hold.value.leaseEnd
  }

  ghost predicate TimelyRun(c: Config, s: System, steps: seq<Step>) {
    Timely(Run(c, s, steps)) && (steps == [] || TimelyRun(c, s, steps[..|steps| - 1]))
  }

  function Start(now: nat, workers: nat): System {
    System([], now, seq(workers, i => Worker([], None)))
  }

  // ---------------------------------------------------------------- the invariant

  /** Grows with every write to a row. */
  function Rank(e: Event): nat {
    2 * e.attemptCount + if e.status == Processing then 0 else 1
  }

  predicate Newer(old_: Event, new_: Event) {
    Rank(old_) <= Rank(new_) && (Rank(old_) == Rank(new_) ==> old_ == new_)
  }

  predicate SnapshotOk(s: System, snapshot: Snapshot) {
    && snapshot.id < |s.events|
    && Listable(snapshot.row, s.now)
    && Newer(snapshot.row, s.events[snapshot.id])
  }

  predicate HoldOk(s: System, hold: Hold) {
    && hold.id < |s.events|
    && var row := s.events[hold.id];
       row.status == Processing && row.attemptCount == hold.attempt && row.nextAttemptAt == Some(hold.leaseEnd)
  }

  ghost predicate WorkersOk(s: System) {
    && (forall w, i {:trigger s.workers[w].queue[i]} ::
          0 <= w < |s.workers| && 0 <= i < |s.workers[w].queue| ==> SnapshotOk(s, s.workers[w].queue[i]))
    && (forall w {:trigger s.workers[w].hold} ::
          0 <= w < |s.workers| && s.workers[w].hold.Some? ==> HoldOk(s, s.workers[w].hold.value))
  }

  /** At most one live worker holds an event. */
  ghost predicate Exclusive(s: System) {
    forall v, w {:trigger s.workers[v].hold, s.workers[w].hold} ::
      0 <= v < w < |s.workers| && s.workers[v].hold.Some? && s.workers[w].hold.Some? ==>
        s.workers[v].hold.value.id != s.workers[w].hold.value.id
  }

  ghost predicate Inv(s: System) {
    WorkersOk(s) && Exclusive(s)
  }

  /** Every row only moves to newer versions, and a published or dead-lettered row is left alone. */
  ghost predicate RowsAdvance(s: System, s': System) {
    && |s.events| <= |s'.events|
    && forall id: EventId {:trigger s.events[id]} :: id < |s.events| ==>
         Newer(s.events[id], s'.events[id]) && (Terminal(s.events[id]) ==> s'.events[id] == s.events[id])
  }

  /** A claim that wins saw the row as it is now, and it is due. */
  lemma WinnerIsCurrent(s: System, w: nat)
    requires WorkersOk(s) && Wins(s, w)
    ensures var snapshot := s.workers[w].queue[0];
            snapshot.row == s.events[snapshot.id] && Listable(s.events[snapshot.id], s.now)
  {
    assert SnapshotOk(s, s.workers[w].queue[0]);
  }

  /** A write of row `id` to a newer version keeps every snapshot valid, and every hold of another row. */
  lemma WriteKeepsWorkers(s: System, id: EventId, row: Event)
    requires WorkersOk(s) && id < |s.events| && Newer(s.events[id], row)
    ensures var s' := s.(events := s.events[id := row]);
            && (forall w, i {:trigger s.workers[w].queue[i]} ::
                  0 <= w < |s.workers| && 0 <= i < |s.workers[w].queue| ==> SnapshotOk(s', s.workers[w].queue[i]))
            && (forall w {:trigger s.workers[w].hold} ::
                  0 <= w < |s.workers| && s.workers[w].hold.Some? && s.workers[w].hold.value.id != id
                  ==> HoldOk(s', s.workers[w].hold.value))
  {
    var s' := s.(events := s.events[id := row]);
    forall w, i | 0 <= w < |s.workers| && 0 <= i < |s.workers[w].queue| ensures SnapshotOk(s', s.workers[w].queue[i]) {
      assert SnapshotOk(s, s.workers[w].queue[i]);
    }
    forall w | 0 <= w < |s.workers| && s.workers[w].hold.Some? && s.workers[w].hold.value.id != id
      ensures HoldOk(s', s.workers[w].hold.value)
    {
      assert HoldOk(s, s.workers[w].hold.value);
    }
  }

  lemma ClaimKeeps(c: Config, s: System, w: nat)
    requires Inv(s) && Timely(s) && Wins(s, w)
    ensures var s' := Next(c, s, Claim(w)); Inv(s') && RowsAdvance(s, s')
  {
    WinnerIsCurrent(s, w);
    var id := s.workers[w].queue[0].id;
    var s' := Next(c, s, Claim(w));
    WriteKeepsWorkers(s, id, s'.events[id]);
    forall v | 0 <= v < |s.workers| && s.workers[v].hold.Some? ensures s.workers[v].hold.value.id != id {
      assert HoldOk(s, s.workers[v].hold.value);
    }
    forall v, i | 0 <= v < |s'.workers| && 0 <= i < |s'.workers[v].queue| ensures SnapshotOk(s', s'.workers[v].queue[i]) {
      assert s'.workers[v].queue[i] == s.workers[v].queue[if v == w then i + 1 else i];
    }
  }

  lemma FinishKeeps(c: Config, s: System, w: nat, row: Event)
    requires Inv(s) && Holding(s, w)
    requires row == MarkedPublished(s.events[s.workers[w].hold.value.id])
          || row == MarkedFailed(s.events[s.workers[w].hold.value.id], c, s.workers[w].hold.value.attempt, s.now)
    ensures var id := s.workers[w].hold.value.id;
            var s' := s.(events := s.events[id := row], workers := s.workers[w := s.workers[w].(hold := None)]);
            Inv(s') && RowsAdvance(s, s') && !Terminal(s.events[id]) && row.attemptCount == s.events[id].attemptCount
  {
    var id := s.workers[w].hold.value.id;
    assert HoldOk(s, s.workers[w].hold.value);
    WriteKeepsWorkers(s, id, row);
    var s' := s.(events := s.events[id := row], workers := s.workers[w := s.workers[w].(hold := None)]);
    forall v | 0 <= v < |s'.workers| && s'.workers[v].hold.Some? ensures HoldOk(s', s'.workers[v].hold.value) {
      assert s'.workers[v].hold == s.workers[v].hold;
    }
    forall v, i | 0 <= v < |s'.workers| && 0 <= i < |s'.workers[v].queue| ensures SnapshotOk(s', s'.workers[v].queue[i]) {
      assert s'.workers[v].queue[i] == s.workers[v].queue[i];
    }
  }

  predicate SameClaim(old_: Option<Hold>, new_: Option<Hold>) {
    old_.Some? && new_.Some? && new_.value.(sent := old_.value.sent) == old_.value
  }

  /** Steps that write no existing row: queues may only lose snapshots or take fresh ones. */
  lemma QuietKeeps(c: Config, s: System, step: Step)
    requires Inv(s)
    requires match step case Enqueue(_) => true case Tick(_) => true case List(_, _) => true case Crash(_) => true
             case Send(_) => true case Claim(w) => !Wins(s, w) case _ => false
    ensures Inv(Next(c, s, step)) && RowsAdvance(s, Next(c, s, step))
  {
    var s' := Next(c, s, step);
    forall v, i | 0 <= v < |s'.workers| && 0 <= i < |s'.workers[v].queue| ensures SnapshotOk(s', s'.workers[v].queue[i]) {
      if s'.workers[v].queue == s.workers[v].queue {
        assert SnapshotOk(s, s.workers[v].queue[i]);
      } else if step.Claim? {
        assert SnapshotOk(s, s.workers[v].queue[i + 1]);
      }
    }
    forall v | 0 <= v < |s'.workers| && s'.workers[v].hold.Some? ensures HoldOk(s', s'.workers[v].hold.value) {
      assert SameClaim(s.workers[v].hold, s'.workers[v].hold);
      assert HoldOk(s, s.workers[v].hold.value);
    }
    forall v, u | 0 <= v < u < |s'.workers| && s'.workers[v].hold.Some? && s'.workers[u].hold.Some?
      ensures s'.workers[v].hold.value.id != s'.workers[u].hold.value.id
    {
      assert SameClaim(s.workers[v].hold, s'.workers[v].hold) && SameClaim(s.workers[u].hold, s'.workers[u].hold);
    }
  }

  lemma StepKeeps(c: Config, s: System, step: Step)
    requires Inv(s) && Timely(s)
    ensures Inv(Next(c, s, step)) && RowsAdvance(s, Next(c, s, step))
  {
    match step
    case Claim(w) => if Wins(s, w) { ClaimKeeps(c, s, w); } else { QuietKeeps(c, s, step); }
    case Mark(w) =>
      if Holding(s, w) && s.workers[w].hold.value.sent {
        FinishKeeps(c, s, w, MarkedPublished(s.events[s.workers[w].hold.value.id]));
      }
    case Fail(w) =>
      if Holding(s, w) {
        FinishKeeps(c, s, w, MarkedFailed(s.events[s.workers[w].hold.value.id], c, s.workers[w].hold.value.attempt, s.now));
      }
    case _ => QuietKeeps(c, s, step);
  }

  // ---------------------------------------------------------------- safety over whole runs

  /** Over every timely run at most one live worker holds an event, every live claim is the
      latest write of its row, and rows only move to newer versions: PUBLISHED and DEAD_LETTER
      are never left. */
  lemma {:induction false} RunIsSafe(c: Config, s: System, steps: seq<Step>)
    requires Inv(s) && TimelyRun(c, s, steps)
    ensures Inv(Run(c, s, steps)) && RowsAdvance(s, Run(c, s, steps))
  {
    if steps != [] {
      var k := |steps| - 1;
      RunIsSafe(c, s, steps[..k]);
      StepKeeps(c, Run(c, s, steps[..k]), steps[k]);
    }
  }

  /** No claim that wins was made from a stale snapshot or before the event was due. */
  lemma ClaimsAreCurrentAndDue(c: Config, now: nat, n: nat, steps: seq<Step>, w: nat)
    requires TimelyRun(c, Start(now, n), steps)
    ensures var s := Run(c, Start(now, n), steps);
            Wins(s, w) ==>
              var snapshot := s.workers[w].queue[0];
              && s.events[snapshot.id] == snapshot.row
              && Listable(snapshot.row, s.now)
              && (forall v :: 0 <= v < |s.workers| && s.workers[v].hold.Some? ==> s.workers[v].hold.value.id != snapshot.id)
  {
    RunIsSafe(c, Start(now, n), steps);
    var s := Run(c, Start(now, n), steps);
    if Wins(s, w) {
      WinnerIsCurrent(s, w);
      var id := s.workers[w].queue[0].id;
      assert Timely(s);
      forall v | 0 <= v < |s.workers| && s.workers[v].hold.Some? ensures s.workers[v].hold.value.id != id {
        assert HoldOk(s, s.workers[v].hold.value);
      }
    }
  }
}
