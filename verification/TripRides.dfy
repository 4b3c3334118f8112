/** Which trip operations go through and what they leave behind, and that a ride can be completed. */
module TripRides {
  import opened Common
  import opened TripPin

  /** The statuses from which a trip can come into a status; IN_PROGRESS also needs the PIN verified before. */
  function Sources(next: Status): set<Status> {
    match next
    case Draft => {}
    case Quoted => {Draft}
    case Requested => {Quoted}
    case DriverAssigned => {Requested}
    case DriverArriving => {DriverAssigned}
    case DriverArrived => {DriverArriving}
    case PinVerified => {DriverArrived}
    case InProgress => {PinVerified}
    case Completed => {InProgress}
    case Disputed => {InProgress}
    case CancelledByRider => {Requested, DriverAssigned, DriverArriving, DriverArrived, PinVerified}
    case CancelledByDriver => {DriverAssigned, DriverArriving, DriverArrived, PinVerified, InProgress}
    case Expired => {Quoted, Requested, DriverAssigned, DriverArriving}
  }

  predicate PinUsable(t: Trip, now: nat) {
    t.pinCode.Some? && !t.safetyFlagged && (t.pinExpiresAt.Some? ==> now <= t.pinExpiresAt.value)
  }

  /** A transition goes through if and only if the trip is in one of the sources and, for PIN_VERIFIED, the
      given PIN is the issued one, unexpired, and the trip is not flagged. */
  lemma GoesThroughIff(t: Trip, next: Status, pin: Option<string>, now: nat)
    ensures Transition(t, next, pin, now).1 == Ok
       <==> t.status in Sources(next) && (next == PinVerified ==> PinUsable(t, now) && pin == Some(t.pinCode.value))
  {
  }

  /** What a transition that went through leaves behind: the status, the one time that belongs to it, and
      after a PIN check no PIN and no failed attempts. */
  lemma GoneThrough(t: Trip, next: Status, pin: Option<string>, now: nat)
    requires Transition(t, next, pin, now).1 == Ok
    ensures var t' := Transition(t, next, pin, now).0;
            && t'.status == next && t'.driver == t.driver
            && t'.arrivedAt == (if next == DriverArrived then Some(now) else t.arrivedAt)
            && t'.startedAt == (if next == InProgress then Some(now) else t.startedAt)
            && t'.completedAt == (if next == Completed then Some(now) else t.completedAt)
            && (if next == PinVerified
                then t'.pinCode == None && t'.pinExpiresAt == Some(now) && t'.failedPinAttempts == 0 && !t'.safetyFlagged
                     && t'.events == t.events + [PinVerification, StateChange(next)]
                else t'.pinCode == t.pinCode && t'.pinExpiresAt == t.pinExpiresAt && t'.failedPinAttempts == t.failedPinAttempts
                     && t'.safetyFlagged == t.safetyFlagged && t'.events == t.events + [StateChange(next)])
  {
  }

  /** A refused transition changes nothing, but for a PIN check: an expired PIN is cleared, and a wrong
      one is counted, the third one flagging the trip. */
  lemma Refused(t: Trip, next: Status, pin: Option<string>, now: nat)
    requires Transition(t, next, pin, now).1 != Ok
    ensures var (t', answer) := Transition(t, next, pin, now);
            if next != PinVerified || t.status != DriverArrived || pin == None || pin == Some("") || t.pinCode == None || t.safetyFlagged
            then t' == t
            else if t.pinExpiresAt.Some? && t.pinExpiresAt.value < now
            then t' == t.(pinCode := None, pinExpiresAt := Some(now), failedPinAttempts := 0) && answer == PinExpired
            else
              var attempts := t.failedPinAttempts + 1;
              && pin != Some(t.pinCode.value)
              && t' == t.(failedPinAttempts := attempts, safetyFlagged := attempts >= 3, events := t'.events)
              && t'.events == t.events + [PinVerificationFailed(attempts)] + (if attempts >= 3 then [SafetyFlagTriggered] else [])
              && answer == if attempts >= 3 then NowFlagged else WrongPin
  {
  }

  /** A REQUESTED trip is taken by any eligible driver, who gets it with a PIN for fifteen minutes. */
  lemma AcceptGoesThroughIff(t: Trip, driver: DriverId, pin: Pin, now: nat, eligible: bool)
    ensures var (t', answer) := DriverAccept(t, driver, pin, now, eligible);
            && (answer == Ok <==> eligible && t.status == Requested)
            && (answer != Ok ==> t' == t)
            && (answer == Ok ==>
                  t' == t.(status := DriverArriving, driver := Some(driver), pinCode := Some(pin),
                           pinExpiresAt := Some(now + 900000), events := t.events + [DriverSelfAssigned(driver), StateChange(DriverArriving)]))
  {
  }

  /** The assigned driver's answer to a dispatch: a yes makes the driver arrive, a no gives the trip back
      as REQUESTED with the PIN and its counts cleared. Anybody else's answer changes nothing. */
  lemma DispatchOutcome(t: Trip, driver: DriverId, now: nat)
    ensures var (yes, no) := (AcceptDispatch(t, driver), RejectDispatch(t, driver, now));
            if t.status == DriverAssigned && t.driver == Some(driver) then
              && yes == (t.(status := DriverArriving, events := t.events + [DispatchAccepted(driver)]), Ok)
              && no == (t.(status := Requested, pinCode := None, pinExpiresAt := Some(now), failedPinAttempts := 0,
                           safetyFlagged := false, events := t.events + [DispatchRejected(driver)]), Ok)
            else yes == no == (t, NoDispatch)
  {
  }

  // ---------------------------------------------------------------- a whole ride

  /** Accepted, arrived, PIN given, started, completed, at these times. */
  function RideSteps(driver: DriverId, pin: Pin, at: seq<nat>): seq<Step>
    requires |at| == 5
  {
    [DoAccept(driver, pin, at[0], true), DoTransition(DriverArrived, None, at[1]), DoTransition(PinVerified, Some(pin), at[2]),
     DoTransition(InProgress, None, at[3]), DoTransition(Completed, None, at[4])]
  }

  lemma FiveSteps(t: Trip, steps: seq<Step>)
    requires |steps| == 5
    ensures Run(t, steps) == Apply(Apply(Apply(Apply(Apply(t, steps[0]), steps[1]), steps[2]), steps[3]), steps[4])
  {
    assert steps[..4][..3] == steps[..3] && steps[..3][..2] == steps[..2] && steps[..2][..1] == steps[..1] && steps[..1][..0] == [];
    assert Run(t, steps[..1]) == Apply(t, steps[0]);
    assert Run(t, steps[..2]) == Apply(Run(t, steps[..1]), steps[1]);
    assert Run(t, steps[..3]) == Apply(Run(t, steps[..2]), steps[2]);
    assert Run(t, steps[..4]) == Apply(Run(t, steps[..3]), steps[3]);
  }

  /** A requested trip can be ridden to its end exactly if the PIN is given within fifteen minutes. */
  lemma RideCompletesIff(t: Trip, driver: DriverId, pin: Pin, at: seq<nat>)
    requires Fresh(t) && t.status == Requested && |at| == 5
    ensures var t' := Run(t, RideSteps(driver, pin, at));
            && (t'.status == Completed <==> at[2] <= at[0] + 900000)
            && (t'.status == Completed ==>
                  t'.driver == Some(driver) && t'.arrivedAt == Some(at[1]) && t'.startedAt == Some(at[3]) && t'.completedAt == Some(at[4]))
  {
    FiveSteps(t, RideSteps(driver, pin, at));
    var steps := RideSteps(driver, pin, at);
    var accepted := Apply(t, steps[0]);
    var arrived := Apply(accepted, steps[1]);
    GoesThroughIff(arrived, PinVerified, Some(pin), at[2]);
    Refusal(arrived, pin, at);
  }

  /** Without the PIN the rest of the ride is refused. */
  lemma Refusal(arrived: Trip, pin: Pin, at: seq<nat>)
    requires |at| == 5 && arrived.status == DriverArrived
    ensures var checked := Apply(arrived, DoTransition(PinVerified, Some(pin), at[2]));
            checked.status == DriverArrived ==>
              Apply(Apply(checked, DoTransition(InProgress, None, at[3])), DoTransition(Completed, None, at[4])).status == DriverArrived
  {
  }
}
