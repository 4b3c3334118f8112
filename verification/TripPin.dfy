/** The trip state machine with its start PIN: transitions, driver acceptance, dispatch answers. */
module TripPin {
  import opened Common

  type TripId = nat
  type DriverId = nat

  /** Four digits, as issued. */
  type Pin = s: string | |s| == 4 witness "1000"

  datatype Status =
    | Draft | Quoted | Requested | DriverAssigned | DriverArriving | DriverArrived | PinVerified
    | InProgress | Completed | CancelledByRider | CancelledByDriver | Expired | Disputed

  datatype TripEvent =
    | StateChange(to: Status)
    | PinVerificationFailed(attempts: nat)
    | SafetyFlagTriggered
    | PinVerification
    | DriverSelfAssigned(driver: DriverId)
    | DispatchAccepted(driver: DriverId)
    | DispatchRejected(driver: DriverId)

  /** Times are in milliseconds. */
  datatype Trip = Trip(
    status: Status,
    driver: Option<DriverId>,
    pinCode: Option<Pin>,
    pinExpiresAt: Option<nat>,
    failedPinAttempts: nat,
    safetyFlagged: bool,
    arrivedAt: Option<nat>,
    startedAt: Option<nat>,
    completedAt: Option<nat>,
    events: seq<TripEvent>)

  datatype Answer = Ok | InvalidTransition | PinRequired | NoPinSet | Flagged | PinExpired | WrongPin | NowFlagged
                  | PinNotVerified | NotFound | NotEligible | NotAvailable | NoDispatch

  const PIN_TTL_MS: nat := 15 * 60 * 1000
  const MAX_FAILED_PIN_ATTEMPTS := 3

  function Allowed(s: Status): set<Status> {
    match s
    case Draft => {Quoted}
    case Quoted => {Requested, Expired}
    case Requested => {DriverAssigned, CancelledByRider, Expired}
    case DriverAssigned => {DriverArriving, CancelledByRider, CancelledByDriver, Expired}
    case DriverArriving => {DriverArrived, CancelledByRider, CancelledByDriver, Expired}
    case DriverArrived => {PinVerified, InProgress, CancelledByRider, CancelledByDriver}
    case PinVerified => {InProgress, CancelledByRider, CancelledByDriver}
    case InProgress => {Completed, CancelledByDriver, Disputed}
    case _ => {}
  }

  // ---------------------------------------------------------------- the operations on one row

  function CountWrongPin(t: Trip): (Trip, Answer) {
    var attempts := t.failedPinAttempts + 1;
    var failed := t.(failedPinAttempts := attempts, events := t.events + [PinVerificationFailed(attempts)]);
    if attempts >= MAX_FAILED_PIN_ATTEMPTS
    then (failed.(safetyFlagged := true, events := failed.events + [SafetyFlagTriggered]), NowFlagged)
    else (failed, WrongPin)
  }

  /** The PIN part of `transition`. */
  function VerifyPin(t: Trip, pin: Option<string>, now: nat): (Trip, Answer) {
    if pin.None? || pin.value == "" then (t, PinRequired)
    else if t.pinCode.None? then (t, NoPinSet)
    else if t.safetyFlagged then (t, Flagged)
    else if t.pinExpiresAt.Some? && t.pinExpiresAt.value < now then
      (t.(pinCode := None, pinExpiresAt := Some(now), failedPinAttempts := 0), PinExpired)
    else if pin.value != t.pinCode.value then CountWrongPin(t)
    else
      (t.(pinCode := None, pinExpiresAt := Some(now), failedPinAttempts := 0, safetyFlagged := false,
          events := t.events + [PinVerification]), Ok)
  }

  function Moved(t: Trip, next: Status, now: nat): Trip {
    t.(status := next,
       arrivedAt := if next == DriverArrived then Some(now) else t.arrivedAt,
       startedAt := if next == InProgress then Some(now) else t.startedAt,
       completedAt := if next == Completed then Some(now) else t.completedAt,
       events := t.events + [StateChange(next)])
  }

  function Transition(t: Trip, next: Status, pin: Option<string>, now: nat): (Trip, Answer) {
    if next !in Allowed(t.status) then (t, InvalidTransition)
    else
      var (checked, answer) := if next == PinVerified then VerifyPin(t, pin, now) else (t, Ok);
      if answer != Ok then (checked, answer)
      else if next == InProgress && t.status != PinVerified then (t, PinNotVerified)
      else (Moved(checked, next, now), Ok)
  }

  /** `eligible` stands for the driver's profile, availability, vehicle and other trips. */
  function DriverAccept(t: Trip, driver: DriverId, pin: Pin, now: nat, eligible: bool): (Trip, Answer) {
    if !eligible then (t, NotEligible)
    else if t.status != Requested then (t, NotAvailable)
    else
      (t.(status := DriverArriving, driver := Some(driver), pinCode := Some(pin), pinExpiresAt := Some(now + PIN_TTL_MS),
          events := t.events + [DriverSelfAssigned(driver), StateChange(DriverArriving)]), Ok)
  }

  function AcceptDispatch(t: Trip, driver: DriverId): (Trip, Answer) {
    if t.status != DriverAssigned || t.driver != Some(driver) then (t, NoDispatch)
    else (t.(status := DriverArriving, events := t.events + [DispatchAccepted(driver)]), Ok)
  }

  function RejectDispatch(t: Trip, driver: DriverId, now: nat): (Trip, Answer) {
    if t.status != DriverAssigned || t.driver != Some(driver) then (t, NoDispatch)
    else
      (t.(status := Requested, pinCode := None, pinExpiresAt := Some(now), failedPinAttempts := 0, safetyFlagged := false,
          events := t.events + [DispatchRejected(driver)]), Ok)
  }

  datatype Step =
    | DoTransition(next: Status, given: Option<string>, now: nat)
    | DoAccept(driver: DriverId, pin: Pin, now: nat, eligible: bool)
    | DoAcceptDispatch(driver: DriverId, now: nat)
    | DoRejectDispatch(driver: DriverId, now: nat)

  function Apply(t: Trip, step: Step): Trip {
    match step
    case DoTransition(next, given, now) => Transition(t, next, given, now).0
    case DoAccept(driver, pin, now, eligible) => DriverAccept(t, driver, pin, now, eligible).0
    case DoAcceptDispatch(driver, _) => AcceptDispatch(t, driver).0
    case DoRejectDispatch(driver, now) => RejectDispatch(t, driver, now).0
  }

  function Run(t: Trip, steps: seq<Step>): Trip {
    if steps == [] then t else Apply(Run(t, steps[..|steps| - 1]), steps[|steps| - 1])
  }

  /** A trip before any driver: nothing of the PIN or the ride has happened. */
  predicate Fresh(t: Trip) {
    && (t.status == Draft || t.status == Quoted || t.status == Requested)
    && t.pinCode.None? && t.failedPinAttempts == 0 && !t.safetyFlagged
    && t.arrivedAt.None? && t.startedAt.None? && t.completedAt.None? && t.events == []
  }

  // ---------------------------------------------------------------- wrong PINs

  /** The wrong PINs that were ever checked: each one is recorded. */
  function WrongPins(events: seq<TripEvent>): nat {
    if events == [] then 0
    else
      WrongPins(events[..|events| - 1]) + if events[|events| - 1].PinVerificationFailed? then 1 else 0
  }

  lemma WrongPinsOne(events: seq<TripEvent>, e: TripEvent)
    ensures WrongPins(events + [e]) == WrongPins(events) + if e.PinVerificationFailed? then 1 else 0
  {
    assert (events + [e])[..|events|] == events;
  }

  lemma WrongPinsTwo(events: seq<TripEvent>, e: TripEvent, f: TripEvent)
    ensures WrongPins(events + [e, f])
         == WrongPins(events) + (if e.PinVerificationFailed? then 1 else 0) + if f.PinVerificationFailed? then 1 else 0
  {
    assert events + [e, f] == events + [e] + [f];
    WrongPinsOne(events, e);
    WrongPinsOne(events + [e], f);
  }

  predicate BeforeArrival(s: Status) {
    s == Draft || s == Quoted || s == Requested || s == DriverAssigned || s == DriverArriving
  }

  predicate AfterPin(s: Status) {
    s == PinVerified || s == InProgress || s == Completed || s == Disputed
  }

  predicate Terminal(s: Status) {
    s == Completed || s == CancelledByRider || s == CancelledByDriver || s == Expired || s == Disputed
  }

  predicate PinInv(t: Trip) {
    && (t.safetyFlagged <==> t.failedPinAttempts == 3)
    && t.failedPinAttempts <= WrongPins(t.events) <= 3
    && (BeforeArrival(t.status) ==> WrongPins(t.events) == 0)
    && (t.status == DriverArrived && t.pinCode.Some? ==> WrongPins(t.events) == t.failedPinAttempts)
    && (t.status == DriverArrived && t.pinCode.None? ==> !t.safetyFlagged)
    && (AfterPin(t.status) ==> t.failedPinAttempts == 0)
  }

  lemma WrongPinCounts(t: Trip)
    ensures WrongPins(CountWrongPin(t).0.events) == WrongPins(t.events) + 1
  {
    WrongPinsOne(t.events, PinVerificationFailed(t.failedPinAttempts + 1));
    WrongPinsOne(t.events + [PinVerificationFailed(t.failedPinAttempts + 1)], SafetyFlagTriggered);
  }

  lemma WrongPinKeepsPin(t: Trip)
    requires PinInv(t) && t.status == DriverArrived && t.pinCode.Some? && !t.safetyFlagged
    ensures var (t', answer) := CountWrongPin(t); PinInv(t') && t'.status == DriverArrived && answer != Ok
  {
    WrongPinCounts(t);
    var t' := CountWrongPin(t).0;
    assert t'.failedPinAttempts == t.failedPinAttempts + 1;
    assert t'.safetyFlagged <==> t'.failedPinAttempts >= 3;
  }

  /** The PIN check alone; an accepted PIN leaves the trip ready to move to PIN_VERIFIED. */
  lemma VerifyKeepsPin(t: Trip, pin: Option<string>, now: nat)
    requires PinInv(t) && t.status == DriverArrived
    ensures var (t', answer) := VerifyPin(t, pin, now);
            && PinInv(t') && t'.status == DriverArrived
            && (answer == Ok ==> t'.failedPinAttempts == 0 && !t'.safetyFlagged)
  {
    WrongPinsOne(t.events, PinVerification);
    if t.pinCode.Some? && !t.safetyFlagged {
      WrongPinKeepsPin(t);
    }
  }

  lemma MoveKeepsPin(t: Trip, next: Status, now: nat)
    requires PinInv(t) && next in Allowed(t.status)
    requires t.status == DriverArrived && AfterPin(next) ==> t.failedPinAttempts == 0
    ensures PinInv(Moved(t, next, now))
  {
    WrongPinsOne(t.events, StateChange(next));
  }

  lemma StepKeepsPin(t: Trip, step: Step)
    requires PinInv(t)
    ensures PinInv(Apply(t, step))
  {
    match step
    case DoTransition(next, given, now) =>
      if next in Allowed(t.status) {
        var checked := t;
        if next == PinVerified {
          VerifyKeepsPin(t, given, now);
          checked := VerifyPin(t, given, now).0;
        }
        if Transition(t, next, given, now).1 == Ok {
          MoveKeepsPin(checked, next, now);
        }
      }
    case DoAccept(driver, _, _, _) => WrongPinsTwo(t.events, DriverSelfAssigned(driver), StateChange(DriverArriving));
    case DoAcceptDispatch(driver, _) => WrongPinsOne(t.events, DispatchAccepted(driver));
    case DoRejectDispatch(driver, _) => WrongPinsOne(t.events, DispatchRejected(driver));
  }

  /** In every run at most three wrong PINs are ever checked for a trip, and it is flagged exactly
      while its failed count is three. */
  lemma {:induction false} AtMostThreeWrongPins(t0: Trip, steps: seq<Step>)
    requires Fresh(t0)
    ensures var t := Run(t0, steps);
            PinInv(t) && WrongPins(t.events) <= 3 && (t.safetyFlagged <==> t.failedPinAttempts == 3)
  {
    if steps != [] {
      var k := |steps| - 1;
      AtMostThreeWrongPins(t0, steps[..k]);
      StepKeepsPin(Run(t0, steps[..k]), steps[k]);
    }
  }

  /** A flagged trip never starts, and no further PIN is checked for it. */
  lemma {:induction false} FlaggedNeverStarts(t: Trip, steps: seq<Step>)
    requires PinInv(t) && t.safetyFlagged && t.status == DriverArrived
    ensures var t' := Run(t, steps);
            && PinInv(t') && t'.safetyFlagged && !AfterPin(t'.status)
            && (t'.status == DriverArrived || Terminal(t'.status))
            && t'.startedAt == t.startedAt && WrongPins(t'.events) == WrongPins(t.events)
  {
    if steps != [] {
      var k := |steps| - 1;
      FlaggedNeverStarts(t, steps[..k]);
      var before := Run(t, steps[..k]);
      StepKeepsPin(before, steps[k]);
      if steps[k].DoTransition? {
        WrongPinsOne(before.events, StateChange(steps[k].next));
      }
    }
  }

  /** No step changes a trip in a terminal state. */
  lemma {:induction false} TerminalIsAbsorbing(t: Trip, steps: seq<Step>)
    requires Terminal(t.status)
    ensures Run(t, steps) == t
  {
    if steps != [] {
      TerminalIsAbsorbing(t, steps[..|steps| - 1]);
    }
  }

  // ---------------------------------------------------------------- the PIN that started the trip

  /** Step `i` accepted the trip and issued its PIN. */
  predicate IssuedAt(t0: Trip, steps: seq<Step>, i: nat) {
    && i < |steps| && steps[i].DoAccept?
    && DriverAccept(Run(t0, steps[..i]), steps[i].driver, steps[i].pin, steps[i].now, steps[i].eligible).1 == Ok
  }

  /** Step `j` gave the PIN that step `i` issued, before it had expired, and was accepted. */
  predicate VerifiedAt(t0: Trip, steps: seq<Step>, i: nat, j: nat) {
    && IssuedAt(t0, steps, i) && i < j < |steps|
    && steps[j].DoTransition? && steps[j].next == PinVerified
    && steps[j].given == Some(steps[i].pin)
    && steps[j].now <= steps[i].now + PIN_TTL_MS
    && Transition(Run(t0, steps[..j]), PinVerified, steps[j].given, steps[j].now).1 == Ok
  }

  /** Step `k` started the trip. */
  predicate StartedAt(t0: Trip, steps: seq<Step>, k: nat) {
    && k < |steps| && steps[k].DoTransition? && steps[k].next == InProgress
    && Run(t0, steps[..k]).status == PinVerified
  }

  /** The current PIN is the one step `i` issued. */
  predicate HasPinOf(t0: Trip, steps: seq<Step>, i: nat) {
    && IssuedAt(t0, steps, i)
    && Run(t0, steps).pinCode == Some(steps[i].pin)
    && Run(t0, steps).pinExpiresAt == Some(steps[i].now + PIN_TTL_MS)
  }

  /** Issued at `i`, verified at `j`, started at `k`. */
  predicate StartedBy(t0: Trip, steps: seq<Step>, i: nat, j: nat, k: nat) {
    && VerifiedAt(t0, steps, i, j) && StartedAt(t0, steps, k) && j < k
    && Run(t0, steps).startedAt == Some(steps[k].now)
  }

  ghost predicate History(t0: Trip, steps: seq<Step>) {
    var t := Run(t0, steps);
    && (t.pinCode.Some? ==> exists i: nat :: HasPinOf(t0, steps, i))
    && (t.status == PinVerified ==> exists i: nat, j: nat :: VerifiedAt(t0, steps, i, j))
    && (t.startedAt.Some? ==> exists i: nat, j: nat, k: nat :: StartedBy(t0, steps, i, j, k))
    && (t.status == InProgress || t.status == Completed || t.status == Disputed ==> t.startedAt.Some?)
  }

  lemma IssuedBefore(t0: Trip, steps: seq<Step>, n: nat, i: nat)
    requires n <= |steps| && IssuedAt(t0, steps[..n], i)
    ensures IssuedAt(t0, steps, i) && steps[..n][i] == steps[i]
  {
    assert steps[..n][..i] == steps[..i];
  }

  lemma PinBefore(t0: Trip, steps: seq<Step>, n: nat, i: nat)
    requires n <= |steps| && HasPinOf(t0, steps[..n], i)
    requires Run(t0, steps).pinCode == Run(t0, steps[..n]).pinCode
    requires Run(t0, steps).pinExpiresAt == Run(t0, steps[..n]).pinExpiresAt
    ensures HasPinOf(t0, steps, i)
  {
    IssuedBefore(t0, steps, n, i);
  }

  lemma VerifiedBefore(t0: Trip, steps: seq<Step>, n: nat, i: nat, j: nat)
    requires n <= |steps| && VerifiedAt(t0, steps[..n], i, j)
    ensures VerifiedAt(t0, steps, i, j)
  {
    IssuedBefore(t0, steps, n, i);
    assert steps[..n][..j] == steps[..j] && steps[..n][j] == steps[j];
  }

  lemma StartedBefore(t0: Trip, steps: seq<Step>, n: nat, i: nat, j: nat, k: nat)
    requires n <= |steps| && StartedBy(t0, steps[..n], i, j, k) && Run(t0, steps).startedAt == Run(t0, steps[..n]).startedAt
    ensures StartedBy(t0, steps, i, j, k)
  {
    VerifiedBefore(t0, steps, n, i, j);
    assert steps[..n][..k] == steps[..k] && steps[..n][k] == steps[k];
  }

  /** Where a PIN comes from: this step issued it, or it was there before. */
  lemma PinOrigin(t: Trip, step: Step)
    requires Apply(t, step).pinCode.Some?
    ensures var t' := Apply(t, step);
            || (step.DoAccept? && DriverAccept(t, step.driver, step.pin, step.now, step.eligible).1 == Ok
                && t'.pinCode == Some(step.pin) && t'.pinExpiresAt == Some(step.now + PIN_TTL_MS))
            || (t'.pinCode == t.pinCode && t'.pinExpiresAt == t.pinExpiresAt)
  {
  }

  /** A trip becomes PIN_VERIFIED only by the current PIN, unexpired. */
  lemma VerifiedOrigin(t: Trip, step: Step)
    requires Apply(t, step).status == PinVerified && t.status != PinVerified
    ensures step.DoTransition? && step.next == PinVerified && Transition(t, PinVerified, step.given, step.now).1 == Ok
    ensures t.pinCode.Some? && step.given == Some(t.pinCode.value)
    ensures t.pinExpiresAt.Some? ==> step.now <= t.pinExpiresAt.value
  {
  }

  lemma StartedOrigin(t: Trip, step: Step)
    ensures var t' := Apply(t, step);
            || t'.startedAt == t.startedAt
            || (step.DoTransition? && step.next == InProgress && t.status == PinVerified && t'.startedAt == Some(step.now))
    ensures var t' := Apply(t, step);
            t'.status == InProgress || t'.status == Completed || t'.status == Disputed ==>
              t'.startedAt.Some? || ((t.status == InProgress || t.status == Completed || t.status == Disputed) && t.startedAt.None?)
  {
  }

  lemma PinStep(t0: Trip, steps: seq<Step>)
    requires steps != [] && History(t0, steps[..|steps| - 1]) && Run(t0, steps).pinCode.Some?
    ensures exists i: nat :: HasPinOf(t0, steps, i)
  {
    var n := |steps| - 1;
    var t, t' := Run(t0, steps[..n]), Run(t0, steps);
    PinOrigin(t, steps[n]);
    if t'.pinCode == t.pinCode && t'.pinExpiresAt == t.pinExpiresAt {
      var i: nat :| HasPinOf(t0, steps[..n], i);
      PinBefore(t0, steps, n, i);
    } else {
      assert HasPinOf(t0, steps, n);
    }
  }

  lemma VerifiedStep(t0: Trip, steps: seq<Step>)
    requires steps != [] && History(t0, steps[..|steps| - 1]) && Run(t0, steps).status == PinVerified
    ensures exists i: nat, j: nat :: VerifiedAt(t0, steps, i, j)
  {
    var n := |steps| - 1;
    var t := Run(t0, steps[..n]);
    if t.status == PinVerified {
      var i: nat, j: nat :| VerifiedAt(t0, steps[..n], i, j);
      VerifiedBefore(t0, steps, n, i, j);
    } else {
      VerifiedOrigin(t, steps[n]);
      var i: nat :| HasPinOf(t0, steps[..n], i);
      IssuedBefore(t0, steps, n, i);
      assert VerifiedAt(t0, steps, i, n);
    }
  }

  lemma StartedStep(t0: Trip, steps: seq<Step>)
    requires steps != [] && History(t0, steps[..|steps| - 1]) && Run(t0, steps).startedAt.Some?
    ensures exists i: nat, j: nat, k: nat :: StartedBy(t0, steps, i, j, k)
  {
    var n := |steps| - 1;
    var t, t' := Run(t0, steps[..n]), Run(t0, steps);
    StartedOrigin(t, steps[n]);
    if t'.startedAt == t.startedAt {
      var i: nat, j: nat, k: nat :| StartedBy(t0, steps[..n], i, j, k);
      StartedBefore(t0, steps, n, i, j, k);
    } else {
      var i: nat, j: nat :| VerifiedAt(t0, steps[..n], i, j);
      VerifiedBefore(t0, steps, n, i, j);
      assert StartedAt(t0, steps, n);
      assert StartedBy(t0, steps, i, j, n);
    }
  }

  /** A trip is IN_PROGRESS only after some driver accepted it and was issued a PIN, a later
      transition gave exactly that PIN no later than its expiry and made the trip PIN_VERIFIED,
      and a still later transition started it from PIN_VERIFIED. */
  lemma {:induction false} StartsOnlyWithIssuedPin(t0: Trip, steps: seq<Step>)
    requires Fresh(t0)
    ensures History(t0, steps)
    ensures Run(t0, steps).status == InProgress ==>
              exists i: nat, j: nat, k: nat :: StartedBy(t0, steps, i, j, k)
  {
    if steps != [] {
      StartsOnlyWithIssuedPin(t0, steps[..|steps| - 1]);
      StartedOrigin(Run(t0, steps[..|steps| - 1]), steps[|steps| - 1]);
      if Run(t0, steps).pinCode.Some? {
        PinStep(t0, steps);
      }
      if Run(t0, steps).status == PinVerified {
        VerifiedStep(t0, steps);
      }
      if Run(t0, steps).startedAt.Some? {
        StartedStep(t0, steps);
      }
    }
  }

  // ---------------------------------------------------------------- one driver

  function AcceptanceAt(t: Trip, step: Step): nat {
    if step.DoAccept? && DriverAccept(t, step.driver, step.pin, step.now, step.eligible).1 == Ok then 1 else 0
  }

  /** How often the trip was accepted by a driver, and a PIN issued, in a run. */
  function Acceptances(t: Trip, steps: seq<Step>): nat {
    if steps == [] then 0
    else
      var k := |steps| - 1;
      Acceptances(t, steps[..k]) + AcceptanceAt(Run(t, steps[..k]), steps[k])
  }

  predicate BeforeAcceptance(s: Status) {
    s == Draft || s == Quoted || s == Requested || s == DriverAssigned
  }

  /** No step leads back to before an acceptance. */
  lemma NoWayBack(t: Trip, step: Step)
    ensures BeforeAcceptance(Apply(t, step).status) ==> BeforeAcceptance(t.status) && AcceptanceAt(t, step) == 0
    ensures AcceptanceAt(t, step) == 1 ==> BeforeAcceptance(t.status)
  {
  }

  /** In every run a trip is accepted by at most one driver and has at most one PIN issued: once
      it was, every further driver is refused. */
  lemma {:induction false} AcceptedOnce(t0: Trip, steps: seq<Step>)
    requires Fresh(t0)
    ensures Acceptances(t0, steps) <= 1
    ensures Acceptances(t0, steps) == 1 ==>
              !BeforeAcceptance(Run(t0, steps).status)
              && forall driver, pin, now, eligible :: DriverAccept(Run(t0, steps), driver, pin, now, eligible).1 != Ok
  {
    if steps != [] {
      var k := |steps| - 1;
      AcceptedOnce(t0, steps[..k]);
      NoWayBack(Run(t0, steps[..k]), steps[k]);
    }
  }

  /** Only the assigned driver answers a dispatch, and answers it once: after a yes nobody can
      answer or take the trip, after a no it has no PIN and any eligible driver can take it. */
  lemma DispatchAnsweredOnce(t: Trip, driver: DriverId, other: DriverId, pin: Pin, now: nat)
    requires t.status == DriverAssigned
    ensures AcceptDispatch(t, driver).1 == Ok <==> t.driver == Some(driver)
    ensures RejectDispatch(t, driver, now).1 == Ok <==> t.driver == Some(driver)
    ensures t.driver == Some(driver) ==>
              var yes, no := AcceptDispatch(t, driver).0, RejectDispatch(t, driver, now).0;
              && AcceptDispatch(yes, other).1 == NoDispatch && RejectDispatch(yes, other, now).1 == NoDispatch
              && DriverAccept(yes, other, pin, now, true).1 == NotAvailable
              && AcceptDispatch(no, other).1 == NoDispatch && RejectDispatch(no, other, now).1 == NoDispatch
              && no.pinCode == None && DriverAccept(no, other, pin, now, true).1 == Ok
  {
  }

  // ---------------------------------------------------------------- timestamps

  predicate ClockAdvances(steps: seq<Step>) {
    forall i, j :: 0 <= i < j < |steps| ==> steps[i].now <= steps[j].now
  }

  predicate NotAfter(a: Option<nat>, now: nat) {
    a.Some? ==> a.value <= now
  }

  predicate TimesInOrder(t: Trip, now: nat) {
    && NotAfter(t.arrivedAt, now) && NotAfter(t.startedAt, now) && NotAfter(t.completedAt, now)
    && (BeforeArrival(t.status) ==> t.arrivedAt.None? && t.startedAt.None? && t.completedAt.None?)
    && (t.status == DriverArrived || t.status == PinVerified ==> t.arrivedAt.Some? && t.startedAt.None? && t.completedAt.None?)
    && (t.status == InProgress ==> t.startedAt.Some? && t.completedAt.None?)
    && (t.startedAt.Some? ==> t.arrivedAt.Some? && t.arrivedAt.value <= t.startedAt.value)
    && (t.completedAt.Some? ==> t.startedAt.Some? && t.startedAt.value <= t.completedAt.value)
  }

  lemma MoveKeepsTimes(t: Trip, next: Status, now: nat, before: nat)
    requires TimesInOrder(t, before) && before <= now && next in Allowed(t.status)
    requires next == InProgress ==> t.status == PinVerified
    ensures TimesInOrder(Moved(t, next, now), now)
  {
  }

  lemma TransitionKeepsTimes(t: Trip, next: Status, given: Option<string>, now: nat, before: nat)
    requires TimesInOrder(t, before) && before <= now
    ensures TimesInOrder(Transition(t, next, given, now).0, now)
  {
    var checked := if next == PinVerified then VerifyPin(t, given, now).0 else t;
    assert TimesInOrder(checked, before);
    if Transition(t, next, given, now).1 == Ok {
      MoveKeepsTimes(checked, next, now, before);
    }
  }

  lemma StepKeepsTimes(t: Trip, step: Step, before: nat)
    requires TimesInOrder(t, before) && before <= step.now
    ensures TimesInOrder(Apply(t, step), step.now)
  {
    match step
    case DoTransition(next, given, now) => TransitionKeepsTimes(t, next, given, now, before);
    case _ =>
  }

  /** With a clock that does not go back, arrivedAt <= startedAt <= completedAt in every run, and
      none of the later ones is set without the earlier. */
  lemma {:induction false} TimesAreInOrder(t0: Trip, steps: seq<Step>)
    requires Fresh(t0) && ClockAdvances(steps)
    ensures TimesInOrder(Run(t0, steps), if steps == [] then 0 else steps[|steps| - 1].now)
  {
    if steps != [] {
      var k := |steps| - 1;
      TimesAreInOrder(t0, steps[..k]);
      StepKeepsTimes(Run(t0, steps[..k]), steps[k], if k == 0 then 0 else steps[k - 1].now);
    }
  }

  // ---------------------------------------------------------------- the service

  /** One row was updated as expected, or answered; the other rows are as they were. */
  predicate Updated(was: map<TripId, Trip>, trips: map<TripId, Trip>, id: TripId, answer: Answer, expected: (Trip, Answer)) {
    trips == was[id := expected.0] && answer == expected.1
  }

  class TripsService {
    var trips: map<TripId, Trip>

    constructor ()
      ensures trips == map[]
    {
      trips := map[];
    }

    method TransitionTrip(id: TripId, next: Status, pin: Option<string>, now: nat) returns (answer: Answer)
      modifies this
      ensures id !in old(trips) ==> trips == old(trips) && answer == NotFound
      ensures id in old(trips) ==> Updated(old(trips), trips, id, answer, Transition(old(trips[id]), next, pin, now))
    {
      if id !in trips {
        return NotFound;
      }
      assert trips[id := trips[id]] == trips;
      var current := trips[id].status;
      if next !in Allowed(current) {
        return InvalidTransition;
      }
      if next == PinVerified {
        var stored := trips[id];
        if pin.None? || pin.value == "" {
          return PinRequired;
        }
        if stored.pinCode.None? {
          return NoPinSet;
        }
        if stored.safetyFlagged {
          return Flagged;
        }
        if stored.pinExpiresAt.Some? && stored.pinExpiresAt.value < now {
          trips := trips[id := stored.(pinCode := None, pinExpiresAt := Some(now), failedPinAttempts := 0)];
          return PinExpired;
        }
        if pin.value != stored.pinCode.value {
          var attempts := stored.failedPinAttempts + 1;
          var row := stored.(failedPinAttempts := attempts, events := stored.events + [PinVerificationFailed(attempts)]);
          if attempts >= MAX_FAILED_PIN_ATTEMPTS {
            row := row.(safetyFlagged := true, events := row.events + [SafetyFlagTriggered]);
          }
          trips := trips[id := row];
          return if row.safetyFlagged then NowFlagged else WrongPin;
        }
        trips := trips[id := stored.(
          pinCode := None, pinExpiresAt := Some(now), failedPinAttempts := 0, safetyFlagged := false,
          events := stored.events + [PinVerification])];
      }
      if next == InProgress && current != PinVerified {
        return PinNotVerified;
      }
      var row := trips[id].(status := next, events := trips[id].events + [StateChange(next)]);
      if next == DriverArrived {
        row := row.(arrivedAt := Some(now));
      } else if next == InProgress {
        row := row.(startedAt := Some(now));
      } else if next == Completed {
        row := row.(completedAt := Some(now));
      }
      trips := trips[id := row];
      return Ok;
    }

    method DriverAcceptTrip(id: TripId, driver: DriverId, pin: Pin, now: nat, eligible: bool) returns (answer: Answer)
      modifies this
      ensures id !in old(trips) ==> trips == old(trips) && (answer == if eligible then NotFound else NotEligible)
      ensures id in old(trips) ==> Updated(old(trips), trips, id, answer, DriverAccept(old(trips[id]), driver, pin, now, eligible))
    {
      if !eligible {
        return NotEligible;
      }
      var pinExpiresAt := now + PIN_TTL_MS;
      if id !in trips {
        return NotFound;
      }
      var trip := trips[id];
      assert trips[id := trip] == trips;
      if trip.status != Requested {
        return NotAvailable;
      }
      trips := trips[id := trip.(
        status := DriverArriving, driver := Some(driver), pinCode := Some(pin), pinExpiresAt := Some(pinExpiresAt),
        events := trip.events + [DriverSelfAssigned(driver), StateChange(DriverArriving)])];
      return Ok;
    }

    method AcceptTripDispatch(id: TripId, driver: DriverId) returns (answer: Answer)
      modifies this
      ensures id !in old(trips) ==> trips == old(trips) && answer == NotFound
      ensures id in old(trips) ==> Updated(old(trips), trips, id, answer, AcceptDispatch(old(trips[id]), driver))
    {
      if id !in trips {
        return NotFound;
      }
      var trip := trips[id];
      assert trips[id := trip] == trips;
      if trip.status != DriverAssigned || trip.driver != Some(driver) {
        return NoDispatch;
      }
      trips := trips[id := trip.(status := DriverArriving, events := trip.events + [DispatchAccepted(driver)])];
      return Ok;
    }

    method RejectTripDispatch(id: TripId, driver: DriverId, now: nat) returns (answer: Answer)
      modifies this
      ensures id !in old(trips) ==> trips == old(trips) && answer == NotFound
      ensures id in old(trips) ==> Updated(old(trips), trips, id, answer, RejectDispatch(old(trips[id]), driver, now))
    {
      if id !in trips {
        return NotFound;
      }
      var trip := trips[id];
      assert trips[id := trip] == trips;
      if trip.status != DriverAssigned || trip.driver != Some(driver) {
        return NoDispatch;
      }
      trips := trips[id := trip.(
        status := Requested, pinCode := None, pinExpiresAt := Some(now), failedPinAttempts := 0, safetyFlagged := false,
        events := trip.events + [DispatchRejected(driver)])];
      return Ok;
    }
  }
}
