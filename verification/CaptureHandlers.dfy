/** The join of trip completion with any number of charge confirmations in flight: deliveries of
    one charge.success event are handled side by side until one of them marks it processed. */
module CaptureHandlers {
  import opened Common
  import opened Ledger
  import opened Finance
  import opened FinanceInvariants
  import opened FinanceSteps
  import opened CaptureJoin

  datatype Joins = Joins(db: Db, handlers: seq<HandlerPc>, trip: TripPc)

  datatype Turn = HandlerTurn(i: nat) | TripTurn

  /** The next database step of handler `i`, or of the completing transition. */
  ghost function NextTurn(js: Joins, p: PaymentId, turn: Turn): (js': Joins)
    requires Placed(js.db, p)
    ensures Placed(js'.db, p)
  {
    match turn
    case HandlerTurn(i) =>
      if i < |js.handlers| then
        var j := Next(Join(js.db, js.handlers[i], js.trip), p, HandlerSide);
        Joins(j.db, js.handlers[i := j.handler], js.trip)
      else js
    case TripTurn =>
      var j := Next(Join(js.db, HandlerStart, js.trip), p, TripSide);
      Joins(j.db, js.handlers, j.trip)
  }

  ghost function RunJoins(js: Joins, p: PaymentId, turns: seq<Turn>): (js': Joins)
    requires Placed(js.db, p)
    ensures Placed(js'.db, p)
    decreases |turns|
  {
    if turns == [] then js else RunJoins(NextTurn(js, p, turns[0]), p, turns[1..])
  }

  /** `n` handlers and the completing transition, none of which has begun. */
  function Begin(db: Db, n: nat): Joins {
    Joins(db, seq(n, _ => HandlerStart), TripStart)
  }

  predicate AllDone(js: Joins) {
    js.trip.TripDone? && forall i :: 0 <= i < |js.handlers| ==> js.handlers[i].HandlerDone?
  }

  lemma {:induction false} RunJoinsAppends(js: Joins, p: PaymentId, xs: seq<Turn>, ys: seq<Turn>)
    requires Placed(js.db, p)
    ensures RunJoins(js, p, xs + ys) == RunJoins(RunJoins(js, p, xs), p, ys)
    decreases |xs|
  {
    if xs == [] {
      assert xs + ys == ys;
    } else {
      assert (xs + ys)[1..] == xs[1..] + ys;
      RunJoinsAppends(NextTurn(js, p, xs[0]), p, xs[1..], ys);
    }
  }

  // ---------------------------------------------------------------- one handler among many

  function ByHandler(i: nat, schedule: seq<Side>): seq<Turn> {
    seq(|schedule|, k requires 0 <= k < |schedule| => if schedule[k] == HandlerSide then HandlerTurn(i) else TripTurn)
  }

  /** While only handler `i` and the transition move, the join is the one of that handler. */
  lemma {:induction false} OneMoves(js: Joins, p: PaymentId, i: nat, schedule: seq<Side>)
    requires Placed(js.db, p) && i < |js.handlers|
    ensures var j := RunJoin(Join(js.db, js.handlers[i], js.trip), p, schedule);
            RunJoins(js, p, ByHandler(i, schedule)) == Joins(j.db, js.handlers[i := j.handler], j.trip)
    decreases |schedule|
  {
    if schedule == [] {
      assert js.handlers[i := js.handlers[i]] == js.handlers;
    } else {
      var first := ByHandler(i, schedule)[0];
      assert ByHandler(i, schedule)[1..] == ByHandler(i, schedule[1..]);
      var next := NextTurn(js, p, first);
      var j := Next(Join(js.db, js.handlers[i], js.trip), p, schedule[0]);
      assert next == Joins(j.db, js.handlers[i := j.handler], j.trip);
      OneMoves(next, p, i, schedule[1..]);
      var last := RunJoin(j, p, schedule[1..]).handler;
      assert js.handlers[i := j.handler][i := last] == js.handlers[i := last];
    }
  }

  /** The turns of a single handler and the transition, turns of other handlers left out. */
  function Sides(turns: seq<Turn>): seq<Side> {
    if turns == [] then []
    else (match turns[0] case HandlerTurn(i) => if i == 0 then [HandlerSide] else [] case TripTurn => [TripSide]) + Sides(turns[1..])
  }

  lemma {:induction false} AloneIsJoin(js: Joins, p: PaymentId, turns: seq<Turn>)
    requires Placed(js.db, p) && |js.handlers| == 1
    ensures var j := RunJoin(Join(js.db, js.handlers[0], js.trip), p, Sides(turns));
            RunJoins(js, p, turns) == Joins(j.db, [j.handler], j.trip)
    decreases |turns|
  {
    if turns != [] {
      var next := NextTurn(js, p, turns[0]);
      AloneIsJoin(next, p, turns[1..]);
      if turns[0] == TripTurn {
        assert Sides(turns)[0] == TripSide && Sides(turns)[1..] == Sides(turns[1..]);
      } else if turns[0].i == 0 {
        assert Sides(turns)[0] == HandlerSide && Sides(turns)[1..] == Sides(turns[1..]);
      } else {
        assert Sides(turns) == Sides(turns[1..]);
      }
    }
  }

  // ---------------------------------------------------------------- paying twice

  /** Handlers that have not begun find a captured payment settled and do nothing. */
  lemma {:induction false} OthersFinish(js: Joins, p: PaymentId, k: nat) returns (turns: seq<Turn>)
    requires Placed(js.db, p) && js.db.payments[p].status == Captured && js.trip.TripDone? && k <= |js.handlers|
    requires forall i :: 0 <= i < |js.handlers| ==> js.handlers[i].HandlerDone? || (i >= k && js.handlers[i].HandlerStart?)
    ensures var js' := RunJoins(js, p, turns); AllDone(js') && js'.db == js.db
    decreases |js.handlers| - k
  {
    if k == |js.handlers| {
      turns := [];
    } else {
      var next := NextTurn(js, p, HandlerTurn(k));
      assert next == Joins(js.db, js.handlers[k := HandlerDone], js.trip);
      var rest := OthersFinish(next, p, k + 1);
      turns := [HandlerTurn(k)] + rest;
      assert turns[1..] == rest;
    }
  }

  /** With `externalId` set, one handler that has not begun is enough. */
  lemma ConfirmedPaysTwice(js: Joins, p: PaymentId, i: nat) returns (turns: seq<Turn>)
    requires Ready(js.db, p) && js.db.payments[p].confirmed && js.trip == TripStart
    requires i < |js.handlers| && js.handlers[i] == HandlerStart
    requires forall k :: 0 <= k < |js.handlers| ==> js.handlers[k].HandlerDone? || js.handlers[k].HandlerStart?
    ensures var js' := RunJoins(js, p, turns); AllDone(js') && PaidTwice(js.db, js'.db, p)
  {
    OneMoves(js, p, i, OverwritingSchedule());
    ConfirmedPaymentPaysTwice(js.db, p);
    var mid := RunJoins(js, p, ByHandler(i, OverwritingSchedule()));
    var rest := OthersFinish(mid, p, 0);
    turns := ByHandler(i, OverwritingSchedule()) + rest;
    RunJoinsAppends(js, p, ByHandler(i, OverwritingSchedule()), rest);
  }

  /** A handler that is through before the trip completes leaves the payment confirmed. */
  lemma FirstConfirms(db0: Db, p: PaymentId)
    requires Ready(db0, p)
    ensures var db1 := Uncaptured(db0, p, true, false);
            && Ready(db1, p) && db1.payments[p].confirmed && db1.nextId == db0.nextId
            && RunJoin(Join(db0, HandlerStart, TripStart), p, [HandlerSide] + ([HandlerSide] + ([HandlerSide] + [])))
               == Join(db1, HandlerDone, TripStart)
  {
    var payment := db0.payments[p];
    var db1 := Uncaptured(db0, p, true, false);
    KeptPaymentRow(db0, p, ConfirmPayment(payment, payment.status));
    var H := HandlerSide;
    Unroll(Join(db0, HandlerStart, TripStart), p, H, [H] + ([H] + []));
    Unroll(Join(db0, PaymentRead(payment.status), TripStart), p, H, [H] + []);
    Unroll(Join(db1, PaymentWritten, TripStart), p, H, []);
    assert RunJoin(Join(db1, HandlerDone, TripStart), p, []) == Join(db1, HandlerDone, TripStart);
  }

  /** Two handlers: the first confirms, and the second finds the payment confirmed. */
  lemma SecondPaysTwice(db0: Db, p: PaymentId, n: nat) returns (turns: seq<Turn>)
    requires Ready(db0, p) && n >= 2
    ensures var js := RunJoins(Begin(db0, n), p, turns); AllDone(js) && PaidTwice(db0, js.db, p)
  {
    var schedule := [HandlerSide] + ([HandlerSide] + ([HandlerSide] + []));
    FirstConfirms(db0, p);
    OneMoves(Begin(db0, n), p, 0, schedule);
    var mid := RunJoins(Begin(db0, n), p, ByHandler(0, schedule));
    var rest := ConfirmedPaysTwice(mid, p, 1);
    turns := ByHandler(0, schedule) + rest;
    RunJoinsAppends(Begin(db0, n), p, ByHandler(0, schedule), rest);
  }

  // ---------------------------------------------------------------- the exact condition

  /** Every finished interleaving of `n` handlers and the completion captures exactly once. */
  ghost predicate AlwaysOnce(db0: Db, p: PaymentId, n: nat)
    requires Ready(db0, p)
  {
    forall turns {:trigger RunJoins(Begin(db0, n), p, turns)} ::
      AllDone(RunJoins(Begin(db0, n), p, turns)) ==> CapturedOnce(db0, RunJoins(Begin(db0, n), p, turns).db, p)
  }

  lemma PaidTwiceIsNotOnce(db0: Db, after: Db, p: PaymentId)
    requires Inv(db0) && PaidTwice(db0, after, p)
    ensures !CapturedOnce(db0, after, p)
  {
    assert db0.nextId + 1 !in db0.payouts.Keys + {db0.nextId};
  }

  /** The completion alone: where it can be, and what the database then is. */
  ghost predicate CompletionAlone(db0: Db, p: PaymentId, js: Joins)
    requires Placed(db0, p)
  {
    var t := db0.payments[p].trip;
    var driver := db0.trips[t].driver;
    var done := Uncaptured(db0, p, false, true);
    && js.handlers == []
    && match js.trip
       case TripStart => js.db == db0
       case TransitionChecked => js.db == db0
       case TripWritten => js.db == done
       case DriverRead(d) => js.db == done && d == driver
       case TripDone => js.db == Capture(done, t, driver)
  }

  lemma {:induction false} CompletionRuns(db0: Db, p: PaymentId, js: Joins, turns: seq<Turn>)
    requires Ready(db0, p) && Placed(js.db, p) && CompletionAlone(db0, p, js)
    ensures CompletionAlone(db0, p, RunJoins(js, p, turns))
    decreases |turns|
  {
    if turns != [] {
      CompletionRuns(db0, p, NextTurn(js, p, turns[0]), turns[1..]);
    }
  }

  /** Without a handler the completion captures what was confirmed before, once, and nothing else. */
  lemma CompletionCaptures(db0: Db, p: PaymentId)
    requires Ready(db0, p)
    ensures var t := db0.payments[p].trip;
            CapturedOnce(db0, Capture(Uncaptured(db0, p, false, true), t, db0.trips[t].driver), p) <==> db0.payments[p].confirmed
  {
    var payment := db0.payments[p];
    var t := payment.trip;
    var done := Uncaptured(db0, p, false, true);
    var d := db0.trips[t].driver.value;
    KeptTrips(db0, done.trips);
    assert IsPaymentOf(done.payments, t, p);
    assert PaymentOfTrip(done.payments, t) == Some(p);
    if payment.confirmed {
      KeptEarning(done, p, d);
      var after := CaptureRow(done, p, Some(d));
      RowOf(after, PayoutPending(db0.nextId));
      RowOf(after, PaymentEarning(p));
    }
  }

  lemma CompletionFinishes(db0: Db, p: PaymentId)
    requires Ready(db0, p)
    ensures AllDone(RunJoins(Begin(db0, 0), p, [TripTurn, TripTurn, TripTurn, TripTurn]))
  {
    var j0 := Begin(db0, 0);
    var j1 := NextTurn(j0, p, TripTurn);
    var j2 := NextTurn(j1, p, TripTurn);
    var j3 := NextTurn(j2, p, TripTurn);
    var j4 := NextTurn(j3, p, TripTurn);
    assert RunJoins(j4, p, []) == j4;
    assert RunJoins(j3, p, [TripTurn]) == j4;
    assert [TripTurn, TripTurn][1..] == [TripTurn] && RunJoins(j2, p, [TripTurn, TripTurn]) == j4;
    assert [TripTurn, TripTurn, TripTurn][1..] == [TripTurn, TripTurn] && RunJoins(j1, p, [TripTurn, TripTurn, TripTurn]) == j4;
    assert [TripTurn, TripTurn, TripTurn, TripTurn][1..] == [TripTurn, TripTurn, TripTurn];
  }

  lemma NoHandlerCapturesIff(db0: Db, p: PaymentId)
    requires Ready(db0, p)
    ensures AlwaysOnce(db0, p, 0) <==> db0.payments[p].confirmed
  {
    CompletionCaptures(db0, p);
    CompletionFinishes(db0, p);
    CompletionRuns(db0, p, Begin(db0, 0), [TripTurn, TripTurn, TripTurn, TripTurn]);
    forall turns | AllDone(RunJoins(Begin(db0, 0), p, turns))
      ensures CapturedOnce(db0, RunJoins(Begin(db0, 0), p, turns).db, p) <==> db0.payments[p].confirmed
    {
      CompletionRuns(db0, p, Begin(db0, 0), turns);
    }
  }

  /** Any number of confirmations beside a completion capture exactly once in every finished
      interleaving if and only if there is exactly one confirmation, counting the earlier one. */
  lemma CapturesOnceIffOneConfirmation(db0: Db, p: PaymentId, n: nat)
    requires Ready(db0, p)
    ensures AlwaysOnce(db0, p, n) <==> n + (if db0.payments[p].confirmed then 1 else 0) == 1
  {
    if n == 0 {
      NoHandlerCapturesIff(db0, p);
    } else if db0.payments[p].confirmed {
      var turns := ConfirmedPaysTwice(Begin(db0, n), p, 0);
      PaidTwiceIsNotOnce(db0, RunJoins(Begin(db0, n), p, turns).db, p);
    } else if n >= 2 {
      var turns := SecondPaysTwice(db0, p, n);
      PaidTwiceIsNotOnce(db0, RunJoins(Begin(db0, n), p, turns).db, p);
    } else {
      forall turns | AllDone(RunJoins(Begin(db0, n), p, turns))
        ensures CapturedOnce(db0, RunJoins(Begin(db0, n), p, turns).db, p)
      {
        AloneIsJoin(Begin(db0, n), p, turns);
        EveryInterleavingCaptures(db0, p, Sides(turns));
        var js := RunJoins(Begin(db0, n), p, turns);
        assert |js.handlers| == 1 && js.handlers[0].HandlerDone?;
      }
    }
  }
}
