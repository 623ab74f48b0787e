/**
 * The player's vehicle controller: every physics tick it smooths the raw
 * vertical axis into currentThrottle, distributes motor and brake torque over
 * the wheels (possibly zeroing the throttle on the way) and blends the front
 * wheels toward the speed-attenuated steering angle.
 */
module VehicleControl {
  import opened Options
  import opened UnityMath
  import opened Drivetrain

  /** An input magnitude below this counts as no input. */
  const NoInputThreshold: real := 0.01

  // ---------------------------------------------------------------------
  // Throttle smoothing
  // ---------------------------------------------------------------------

  /**
   * The direction-change test of UpdateThrottleSmoothing. Mathf.Sign never
   * returns 0, so its first two conjuncts always hold.
   */
  predicate DirectionChanged(current: real, target: real) {
    Sign(target) != 0.0 && Sign(current) != 0.0 && Sign(target) != Sign(current)
  }

  /** Where a tick without a snap heads: 0 for a released stick, the input otherwise. */
  function ThrottleGoal(target: real): real {
    if Abs(target) < NoInputThreshold then 0.0 else target
  }

  /** The response rate a tick without a snap uses. */
  function ThrottleRate(current: real, target: real, tuning: DriveTuning): real {
    if Abs(target) < NoInputThreshold then tuning.decelResponse
    else ResponseRate(current, target, tuning)
  }

  /** The largest change a tick without a snap may make: its rate times the frame time. */
  function ThrottleDelta(current: real, target: real, tuning: DriveTuning, dt: real): real {
    ThrottleRate(current, target, tuning) * dt
  }

  /** One tick of UpdateThrottleSmoothing, as written. */
  function ThrottleStep(current: real, target: real, tuning: DriveTuning, dt: real): real {
    if DirectionChanged(current, target) then 0.0
    else MoveTowards(current, ThrottleGoal(target), ThrottleDelta(current, target, tuning, dt))
  }

  /**
   * Because Mathf.Sign(0) is +1, the snap to 0 fires exactly when target and
   * current lie on different sides of zero, zero counted as positive.
   */
  lemma ThrottleStepSnaps(current: real, target: real, tuning: DriveTuning, dt: real)
    ensures (target < 0.0) != (current < 0.0) <==> DirectionChanged(current, target)
    ensures (target < 0.0) != (current < 0.0) ==> ThrottleStep(current, target, tuning, dt) == 0.0
  {
  }

  /** A tick without a snap, in terms of its goal and rate. */
  lemma ThrottleStepBy(current: real, target: real, tuning: DriveTuning, dt: real, goal: real, maxDelta: real)
    requires !DirectionChanged(current, target)
    requires goal == ThrottleGoal(target) && maxDelta == ThrottleDelta(current, target, tuning, dt)
    ensures ThrottleStep(current, target, tuning, dt) == MoveTowards(current, goal, maxDelta)
  {
  }

  /**
   * A tick without a snap moves the throttle toward its goal (0 for a released
   * stick, else the input) without overshooting, by at most rate * dt, where
   * the rate is accelResponse only when the input is larger than the throttle.
   */
  lemma ThrottleStepApproachesGoal(current: real, target: real, tuning: DriveTuning, dt: real)
    requires (target < 0.0) == (current < 0.0)
    requires tuning.NonNegativeRates() && dt >= 0.0
    ensures Between(current, ThrottleGoal(target), ThrottleStep(current, target, tuning, dt))
    ensures Abs(ThrottleStep(current, target, tuning, dt) - current) <= ThrottleDelta(current, target, tuning, dt)
    ensures Abs(ThrottleStep(current, target, tuning, dt) - ThrottleGoal(target)) <= Abs(current - ThrottleGoal(target))
  {
    SameSideNoSnap(current, target);
    ThrottleDeltaNonNegative(current, target, tuning, dt);
    ThrottleStepBy(current, target, tuning, dt, ThrottleGoal(target), ThrottleDelta(current, target, tuning, dt));
    StepApproaches(current, ThrottleGoal(target), ThrottleStep(current, target, tuning, dt), ThrottleDelta(current, target, tuning, dt));
  }

  /** Input and throttle on the same side of zero (zero counted as positive) never snap. */
  lemma SameSideNoSnap(current: real, target: real)
    requires (target < 0.0) == (current < 0.0)
    ensures !DirectionChanged(current, target)
  {
  }

  /** With non-negative response rates and frame time the change a tick may make is non-negative. */
  lemma ThrottleDeltaNonNegative(current: real, target: real, tuning: DriveTuning, dt: real)
    requires tuning.NonNegativeRates() && dt >= 0.0
    ensures ThrottleDelta(current, target, tuning, dt) >= 0.0
  {
    ProductNonNegative(ThrottleRate(current, target, tuning), dt);
  }

  /** A step next of MoveTowards by a non-negative maxDelta approaches goal without overshooting. */
  lemma StepApproaches(current: real, goal: real, next: real, maxDelta: real)
    requires next == MoveTowards(current, goal, maxDelta) && maxDelta >= 0.0
    ensures Between(current, goal, next) &&
            Abs(next - current) <= maxDelta &&
            Abs(next - goal) <= Abs(current - goal)
  {
    MoveTowardsApproaches(current, goal, maxDelta);
  }

  /** Starting at or above zero, one smoothing tick never makes the throttle negative. */
  lemma ThrottleStepKeepsNonNegative(current: real, target: real, tuning: DriveTuning, dt: real)
    requires current >= 0.0 && tuning.NonNegativeRates() && dt >= 0.0
    ensures ThrottleStep(current, target, tuning, dt) >= 0.0
  {
    if target >= 0.0 {
      ThrottleStepApproachesGoal(current, target, tuning, dt);
    }
  }

  /** One physics tick as the throttle sees it: the raw input, dt, and whether Move zeroed it. */
  datatype ThrottleTick = ThrottleTick(input: real, dt: real, zeroedByMove: bool)

  /** The throttle after a run of ticks: smoothing, then possibly zeroed by Move. */
  function ThrottleRun(current: real, ticks: seq<ThrottleTick>, tuning: DriveTuning): real
    decreases |ticks|
  {
    if ticks == [] then current
    else
      var smoothed := ThrottleStep(current, ticks[0].input, tuning, ticks[0].dt);
      ThrottleRun(if ticks[0].zeroedByMove then 0.0 else smoothed, ticks[1..], tuning)
  }

  /**
   * From rest, the player's throttle is never negative, whatever the inputs:
   * every negative input while the throttle is at or above zero snaps it to 0.
   */
  lemma {:induction false} ThrottleRunNeverNegative(current: real, ticks: seq<ThrottleTick>, tuning: DriveTuning)
    requires current >= 0.0 && tuning.NonNegativeRates()
    requires forall i :: 0 <= i < |ticks| ==> ticks[i].dt >= 0.0
    ensures ThrottleRun(current, ticks, tuning) >= 0.0
    decreases |ticks|
  {
    if ticks != [] {
      var smoothed := ThrottleStep(current, ticks[0].input, tuning, ticks[0].dt);
      ThrottleStepKeepsNonNegative(current, ticks[0].input, tuning, ticks[0].dt);
      var next := if ticks[0].zeroedByMove then 0.0 else smoothed;
      assert forall i :: 0 <= i < |ticks[1..]| ==> ticks[1..][i].dt >= 0.0 by {
        forall i | 0 <= i < |ticks[1..]| ensures ticks[1..][i].dt >= 0.0 {
          assert ticks[1..][i] == ticks[i + 1];
        }
      }
      ThrottleRunNeverNegative(next, ticks[1..], tuning);
    }
  }

  // ---------------------------------------------------------------------
  // The smoothing the direction-change test evidently intends
  // ---------------------------------------------------------------------

  /** System.Math.Sign: 0 for zero. */
  function SignOrZero(f: real): (r: real)
    ensures r == 0.0 <==> f == 0.0
    ensures f != 0.0 ==> r == Sign(f)
  {
    if f > 0.0 then 1.0 else if f < 0.0 then -1.0 else 0.0
  }

  /**
   * UpdateThrottleSmoothing with a sign that returns 0 for zero, which is what
   * its "!= 0" guards presuppose: a throttle at rest, or a released stick,
   * is no direction change.
   */
  function IntendedThrottleStep(current: real, target: real, tuning: DriveTuning, dt: real): (r: real)
    ensures (current > 0.0 && target < 0.0) || (current < 0.0 && target > 0.0) ==> r == 0.0
  {
    if SignOrZero(target) != 0.0 && SignOrZero(current) != 0.0 && SignOrZero(target) != SignOrZero(current) then 0.0
    else MoveTowards(current, ThrottleGoal(target), ThrottleDelta(current, target, tuning, dt))
  }

  /** Away from zero the two signs agree, so the intended step is the written one. */
  lemma IntendedAgreesAwayFromZero(current: real, target: real, tuning: DriveTuning, dt: real)
    requires current != 0.0 && target != 0.0
    ensures IntendedThrottleStep(current, target, tuning, dt) == ThrottleStep(current, target, tuning, dt)
  {
    assert SignOrZero(current) == Sign(current) && SignOrZero(target) == Sign(target);
  }

  /** As written: a reverse input at rest leaves the throttle at exactly 0, tick after tick. */
  lemma ReverseInputFromRestStaysZero(target: real, tuning: DriveTuning, dt: real, k: nat)
    requires target < 0.0
    ensures ThrottleRun(0.0, seq(k, _ => ThrottleTick(target, dt, false)), tuning) == 0.0
  {
    var ticks := seq(k, _ => ThrottleTick(target, dt, false));
    if k > 0 {
      assert ticks[1..] == seq(k - 1, _ => ThrottleTick(target, dt, false));
      ReverseInputFromRestStaysZero(target, tuning, dt, k - 1);
    }
  }

  /** Intended: the same reverse input at rest starts moving the throttle below zero. */
  lemma IntendedReversesFromRest(target: real, tuning: DriveTuning, dt: real)
    requires target <= -NoInputThreshold
    requires tuning.accelResponse > 0.0 && dt > 0.0
    ensures IntendedThrottleStep(0.0, target, tuning, dt) < 0.0
  {
    ProductNonNegative(tuning.accelResponse, dt);
    assert tuning.accelResponse * dt != 0.0;
  }

  /**
   * Intended: the throttle never crosses zero within one tick; a change of
   * direction always passes through a tick that ends at or on the near side of 0.
   */
  lemma IntendedNeverCrossesZero(current: real, target: real, tuning: DriveTuning, dt: real)
    requires tuning.NonNegativeRates() && dt >= 0.0
    ensures current > 0.0 ==> IntendedThrottleStep(current, target, tuning, dt) >= 0.0
    ensures current < 0.0 ==> IntendedThrottleStep(current, target, tuning, dt) <= 0.0
  {
    ThrottleDeltaNonNegative(current, target, tuning, dt);
  }

  // ---------------------------------------------------------------------
  // Torque distribution
  // ---------------------------------------------------------------------

  /** What Move reads besides the wheels and the throttle. */
  datatype MoveContext = MoveContext(
    forwardVel: real,          // the rigidbody's velocity along the car's forward axis
    explicitBrake: bool,       // a brake key is configured and held
    brakeOnReverseInput: bool,
    tuning: DriveTuning)

  /** The wheels and the throttle as Move leaves them. */
  datatype MoveState = MoveState(wheels: seq<Wheel>, throttle: real)

  /** One iteration of Move's wheel loop: the wheel's new torques and the throttle after it. */
  function MoveWheel(w: Wheel, throttle: real, ctx: MoveContext): (Wheel, real)
  {
    if !w.hasCollider then (w, throttle)
    else if Abs(throttle) > ThrottleDeadZone then
      if ctx.brakeOnReverseInput && AgainstMotion(throttle, ctx.forwardVel) then
        (WithTorque(w, 0.0, ctx.tuning.maxBrakeTorque), 0.0)
      else if w.isDriven then
        (WithTorque(w, DriveTorque(throttle, ctx.tuning), 0.0), throttle)
      else
        (WithTorque(w, 0.0, 0.0), throttle)
    else if ctx.explicitBrake then
      (WithTorque(w, 0.0, ctx.tuning.maxBrakeTorque), 0.0)
    else
      (WithTorque(w, 0.0, 0.0), throttle)
  }

  /**
   * Move's wheel loop over a list, left to right. Only torques of wheels with
   * a collider change, and the throttle either survives or ends at 0.
   */
  function MoveFold(ws: seq<Wheel>, throttle: real, ctx: MoveContext): (r: MoveState)
    decreases |ws|
    ensures |r.wheels| == |ws|
    ensures forall i :: 0 <= i < |ws| ==>
              r.wheels[i].(motorTorque := ws[i].motorTorque, brakeTorque := ws[i].brakeTorque) == ws[i]
    ensures forall i :: 0 <= i < |ws| && !ws[i].hasCollider ==> r.wheels[i] == ws[i]
    ensures r.throttle == throttle || r.throttle == 0.0
  {
    if ws == [] then MoveState([], throttle)
    else
      var prev := MoveFold(ws[..|ws| - 1], throttle, ctx);
      var step := MoveWheel(ws[|ws| - 1], prev.throttle, ctx);
      MoveState(prev.wheels + [step.0], step.1)
  }

  /** One more iteration of Move's loop extends the fold by the next wheel. */
  lemma MoveFoldExtend(ws: seq<Wheel>, i: nat, throttle: real, ctx: MoveContext, prefix: seq<Wheel>, current: real)
    requires i < |ws|
    requires MoveState(prefix, current) == MoveFold(ws[..i], throttle, ctx)
    ensures var step := MoveWheel(ws[i], current, ctx);
            MoveFold(ws[..i + 1], throttle, ctx) == MoveState(prefix + [step.0], step.1)
  {
    assert ws[..i + 1][..i] == ws[..i];
  }

  /** Move's loop over a non-empty list: the fold over all but the last wheel, then the last wheel. */
  lemma MoveFoldLast(ws: seq<Wheel>, throttle: real, ctx: MoveContext)
    requires ws != []
    ensures var n := |ws| - 1;
            var prev := MoveFold(ws[..n], throttle, ctx);
            var step := MoveWheel(ws[n], prev.throttle, ctx);
            MoveFold(ws, throttle, ctx) == MoveState(prev.wheels + [step.0], step.1) &&
            (forall i :: 0 <= i < n ==> MoveFold(ws, throttle, ctx).wheels[i] == prev.wheels[i]) &&
            MoveFold(ws, throttle, ctx).wheels[n] == step.0
  {
  }

  /** No wheel before index k has a collider. */
  predicate NoColliderBefore(ws: seq<Wheel>, k: nat)
    requires k <= |ws|
  {
    forall j :: 0 <= j < k ==> !ws[j].hasCollider
  }

  /** The brake torque of a wheel whose throttle is released: full on the brake key, 0 when coasting. */
  function ReleasedBrake(ctx: MoveContext): real {
    if ctx.explicitBrake then ctx.tuning.maxBrakeTorque else 0.0
  }

  /** NoColliderBefore only looks at the entries before k, which a prefix keeps. */
  lemma NoColliderBeforePrefix(ws: seq<Wheel>, n: nat, k: nat)
    requires k <= n <= |ws|
    ensures NoColliderBefore(ws[..n], k) <==> NoColliderBefore(ws, k)
  {
    assert forall j :: 0 <= j < k ==> ws[..n][j] == ws[j];
  }

  /**
   * A released throttle: every wheel with a collider gets motor 0 and the
   * brake key's brake; the throttle is zeroed when the brake key is held and
   * some wheel has a collider.
   */
  lemma {:induction false} MoveReleasedThrottle(ws: seq<Wheel>, throttle: real, ctx: MoveContext)
    requires Abs(throttle) <= ThrottleDeadZone
    ensures var r := MoveFold(ws, throttle, ctx);
            (forall i :: 0 <= i < |ws| && ws[i].hasCollider ==>
               r.wheels[i].motorTorque == 0.0 && r.wheels[i].brakeTorque == ReleasedBrake(ctx)) &&
            r.throttle == (if ctx.explicitBrake && !NoColliderBefore(ws, |ws|) then 0.0 else throttle)
    decreases |ws|
  {
    if ws != [] {
      var n := |ws| - 1;
      MoveReleasedThrottle(ws[..n], throttle, ctx);
      MoveFoldLast(ws, throttle, ctx);
      NoColliderBeforePrefix(ws, n, n);
      assert forall i :: 0 <= i < n ==> ws[..n][i] == ws[i];
      assert NoColliderBefore(ws, |ws|) <==> NoColliderBefore(ws, n) && !ws[n].hasCollider;
    }
  }

  /**
   * A throttle against the car's motion with brakeOnReverseInput: the first
   * wheel with a collider gets full brake and zeroes the throttle, so every
   * later wheel with a collider is treated as released (brake key or coast).
   */
  lemma {:induction false} MoveAgainstMotion(ws: seq<Wheel>, throttle: real, ctx: MoveContext)
    requires Abs(throttle) > ThrottleDeadZone
    requires ctx.brakeOnReverseInput && AgainstMotion(throttle, ctx.forwardVel)
    ensures var r := MoveFold(ws, throttle, ctx);
            (forall i :: 0 <= i < |ws| && ws[i].hasCollider ==>
               r.wheels[i].motorTorque == 0.0 &&
               r.wheels[i].brakeTorque ==
                 (if NoColliderBefore(ws, i) then ctx.tuning.maxBrakeTorque else ReleasedBrake(ctx))) &&
            r.throttle == (if NoColliderBefore(ws, |ws|) then throttle else 0.0)
    decreases |ws|
  {
    if ws != [] {
      var n := |ws| - 1;
      var front := ws[..n];
      MoveAgainstMotion(front, throttle, ctx);
      MoveFoldLast(ws, throttle, ctx);
      var r := MoveFold(ws, throttle, ctx);
      var prev := MoveFold(front, throttle, ctx);
      forall i | 0 <= i < n && ws[i].hasCollider
        ensures r.wheels[i].motorTorque == 0.0
        ensures r.wheels[i].brakeTorque ==
                  (if NoColliderBefore(ws, i) then ctx.tuning.maxBrakeTorque else ReleasedBrake(ctx))
      {
        assert front[i] == ws[i];
        NoColliderBeforePrefix(ws, n, i);
      }
      NoColliderBeforePrefix(ws, n, n);
      assert NoColliderBefore(ws, |ws|) <==> NoColliderBefore(ws, n) && !ws[n].hasCollider;
    }
  }

  /**
   * A throttle outside the dead zone that does not brake: driven wheels with a
   * collider get throttle * maxMotorTorque, the others 0, nobody brakes, and
   * the throttle is kept.
   */
  lemma {:induction false} MoveDriving(ws: seq<Wheel>, throttle: real, ctx: MoveContext)
    requires Abs(throttle) > ThrottleDeadZone
    requires !(ctx.brakeOnReverseInput && AgainstMotion(throttle, ctx.forwardVel))
    ensures var r := MoveFold(ws, throttle, ctx);
            (forall i :: 0 <= i < |ws| && ws[i].hasCollider ==>
               r.wheels[i].brakeTorque == 0.0 &&
               r.wheels[i].motorTorque ==
                 (if ws[i].isDriven then DriveTorque(throttle, ctx.tuning) else 0.0)) &&
            r.throttle == throttle
    decreases |ws|
  {
    if ws != [] {
      var n := |ws| - 1;
      MoveDriving(ws[..n], throttle, ctx);
      MoveFoldLast(ws, throttle, ctx);
      assert forall i :: 0 <= i < n ==> ws[..n][i] == ws[i];
    }
  }

  /** The car's rigidbody as one physics tick reads it. */
  datatype BodyReading = BodyReading(forwardVel: real, speed: real)

  /** The speed Steer reads, or None when the car has no rigidbody. */
  function SpeedOf(body: Option<BodyReading>): Option<real> {
    if body.Some? then Some(body.value.speed) else None
  }

  /**
   * One FixedUpdate of the player's car: the throttle is smoothed, Move's
   * wheel loop runs when the car has a rigidbody, and Steer blends the
   * front wheels toward the speed-attenuated angle.
   */
  function PhysicsTick(ws: seq<Wheel>, throttle: real, moveInput: real, steerInput: real, body: Option<BodyReading>,
                       explicitBrake: bool, brakeOnReverseInput: bool, tuning: DriveTuning, dt: real): (r: MoveState)
    ensures |r.wheels| == |ws|
  {
    var smoothed := ThrottleStep(throttle, moveInput, tuning, dt);
    var moved := if body.None? then MoveState(ws, smoothed)
                 else MoveFold(ws, smoothed, MoveContext(body.value.forwardVel, explicitBrake, brakeOnReverseInput, tuning));
    MoveState(SteerAll(moved.wheels, CommandedSteerAngle(steerInput, tuning, SpeedOf(body))), moved.throttle)
  }

  /**
   * A physics tick leaves the throttle at its smoothed value or at 0, keeps
   * a non-negative throttle non-negative, and changes no wheel field but the
   * two torques and the steer angle.
   */
  lemma PhysicsTickKeeps(ws: seq<Wheel>, throttle: real, moveInput: real, steerInput: real, body: Option<BodyReading>,
                         explicitBrake: bool, brakeOnReverseInput: bool, tuning: DriveTuning, dt: real)
    ensures var r := PhysicsTick(ws, throttle, moveInput, steerInput, body, explicitBrake, brakeOnReverseInput, tuning, dt);
            var smoothed := ThrottleStep(throttle, moveInput, tuning, dt);
            (r.throttle == smoothed || r.throttle == 0.0) &&
            (body.None? ==> r.throttle == smoothed) &&
            (tuning.NonNegativeRates() && dt >= 0.0 && throttle >= 0.0 ==> r.throttle >= 0.0) &&
            forall i :: 0 <= i < |ws| ==>
              r.wheels[i].(motorTorque := ws[i].motorTorque, brakeTorque := ws[i].brakeTorque,
                           steerAngle := ws[i].steerAngle) == ws[i]
  {
    if tuning.NonNegativeRates() && dt >= 0.0 && throttle >= 0.0 {
      ThrottleStepKeepsNonNegative(throttle, moveInput, tuning, dt);
    }
  }

  // ---------------------------------------------------------------------
  // The controller
  // ---------------------------------------------------------------------

  class VehicleController {
    const tuning: DriveTuning
    const brakeOnReverseInput: bool
    /** brakeKey is not KeyCode.None. */
    const hasBrakeKey: bool
    const wheels: array<Wheel>
    var currentThrottle: real

    constructor (tuning: DriveTuning, brakeOnReverseInput: bool, hasBrakeKey: bool, wheels: array<Wheel>)
      ensures this.tuning == tuning && this.brakeOnReverseInput == brakeOnReverseInput
      ensures this.hasBrakeKey == hasBrakeKey && this.wheels == wheels
      ensures currentThrottle == 0.0
    {
      this.tuning := tuning;
      this.brakeOnReverseInput := brakeOnReverseInput;
      this.hasBrakeKey := hasBrakeKey;
      this.wheels := wheels;
      currentThrottle := 0.0;
    }

    /** Smooths the raw vertical axis into currentThrottle over one fixed step dt. */
    method UpdateThrottleSmoothing(moveInput: real, dt: real)
      modifies this
      ensures currentThrottle == ThrottleStep(old(currentThrottle), moveInput, tuning, dt)
    {
      var target := moveInput;
      var current := currentThrottle;
      var directionChanged := Sign(target) != 0.0 &&
                              Sign(current) != 0.0 &&
                              Sign(target) != Sign(current);
      if directionChanged {
        currentThrottle := 0.0;
        return;
      }
      assert !DirectionChanged(current, target);
      if Abs(target) < NoInputThreshold {
        var maxDelta := tuning.decelResponse * dt;
        ThrottleStepBy(current, target, tuning, dt, 0.0, maxDelta);
        currentThrottle := MoveTowards(current, 0.0, maxDelta);
      } else {
        var responseRate := ResponseRate(current, target, tuning);
        var maxDelta := responseRate * dt;
        ThrottleStepBy(current, target, tuning, dt, target, maxDelta);
        currentThrottle := MoveTowards(current, target, maxDelta);
      }
    }

    /**
     * Writes motor and brake torque to every wheel with a collider, in list
     * order; does nothing when the car has no rigidbody (forwardVel is None).
     */
    method Move(forwardVel: Option<real>, brakeKeyDown: bool)
      modifies this, wheels
      ensures forwardVel.None? ==> wheels[..] == old(wheels[..]) && currentThrottle == old(currentThrottle)
      ensures forwardVel.Some? ==>
                MoveState(wheels[..], currentThrottle) ==
                MoveFold(old(wheels[..]), old(currentThrottle),
                         MoveContext(forwardVel.value, hasBrakeKey && brakeKeyDown, brakeOnReverseInput, tuning))
    {
      if forwardVel.None? {
        return;
      }
      var fwd := forwardVel.value;
      var explicitBrakePressed := hasBrakeKey && brakeKeyDown;
      ghost var ctx := MoveContext(fwd, explicitBrakePressed, brakeOnReverseInput, tuning);
      ghost var orig := wheels[..];
      ghost var throttle0 := currentThrottle;
      var i := 0;
      while i < wheels.Length
        invariant 0 <= i <= wheels.Length
        invariant forall j :: i <= j < wheels.Length ==> wheels[j] == orig[j]
        invariant MoveState(wheels[..i], currentThrottle) == MoveFold(orig[..i], throttle0, ctx)
      {
        ghost var prefix := wheels[..i];
        MoveFoldExtend(orig, i, throttle0, ctx, prefix, currentThrottle);
        ApplyWheelTorque(i, fwd, explicitBrakePressed);
        assert wheels[..i + 1] == prefix + [wheels[i]];
        i := i + 1;
      }
      assert wheels[..] == wheels[..wheels.Length];
      assert orig == orig[..wheels.Length];
    }

    /**
     * The body of Move's wheel loop for entry i: a wheel with a collider gets
     * its torques, and a brake against motion or an explicit brake zeroes
     * currentThrottle for the entries after it.
     */
    method ApplyWheelTorque(i: nat, fwd: real, explicitBrakePressed: bool)
      requires i < wheels.Length
      modifies this, wheels
      ensures (wheels[i], currentThrottle) ==
              MoveWheel(old(wheels[i]), old(currentThrottle),
                        MoveContext(fwd, explicitBrakePressed, brakeOnReverseInput, tuning))
      ensures forall j :: 0 <= j < wheels.Length && j != i ==> wheels[j] == old(wheels[j])
    {
      var w := wheels[i];
      if !w.hasCollider {
        return;
      }
      var motor := 0.0;
      var brake := 0.0;
      if Abs(currentThrottle) > ThrottleDeadZone {
        var reversingAgainstMotion := brakeOnReverseInput &&
          Sign(currentThrottle) != 0.0 &&
          Sign(currentThrottle) != Sign(fwd) &&
          Abs(fwd) > ReverseBrakeSpeed;
        if reversingAgainstMotion {
          brake := tuning.maxBrakeTorque;
          motor := 0.0;
          currentThrottle := 0.0;
        } else {
          if w.isDriven {
            motor := DriveTorque(currentThrottle, tuning);
            brake := 0.0;
          } else {
            motor := 0.0;
            brake := 0.0;
          }
        }
      } else {
        if explicitBrakePressed {
          motor := 0.0;
          brake := tuning.maxBrakeTorque;
          currentThrottle := 0.0;
        } else {
          motor := 0.0;
          brake := 0.0;
        }
      }
      wheels[i] := w.(motorTorque := motor, brakeTorque := brake);
    }

    /**
     * Blends every front wheel with a collider toward the steering input scaled
     * by turnSensitivity and maxSteeringAngle, attenuated by speed when the car
     * has a rigidbody.
     */
    method Steer(steerInput: real, speed: Option<real>)
      modifies wheels
      ensures forall i :: 0 <= i < wheels.Length ==>
                wheels[i] == SteeredWheel(old(wheels[i]), CommandedSteerAngle(steerInput, tuning, speed))
      ensures wheels[..] == SteerAll(old(wheels[..]), CommandedSteerAngle(steerInput, tuning, speed))
    {
      var steerAngle := FullSteerAngle(steerInput, tuning);
      if speed.Some? {
        var steerFactor := SteerFactor(speed.value);
        steerAngle := steerAngle * steerFactor;
      }
      assert steerAngle == CommandedSteerAngle(steerInput, tuning, speed);
      SteerWheels(wheels, steerAngle);
    }

    /**
     * One physics step: smoothing, torque, steering. A throttle that starts at
     * or above zero stays there (the player never reverses).
     */
    method FixedUpdate(moveInput: real, steerInput: real, body: Option<BodyReading>, brakeKeyDown: bool, dt: real)
      modifies this, wheels
      ensures MoveState(wheels[..], currentThrottle) ==
              PhysicsTick(old(wheels[..]), old(currentThrottle), moveInput, steerInput, body,
                          hasBrakeKey && brakeKeyDown, brakeOnReverseInput, tuning, dt)
      ensures tuning.NonNegativeRates() && dt >= 0.0 && old(currentThrottle) >= 0.0 ==> currentThrottle >= 0.0
      ensures forall i :: 0 <= i < wheels.Length ==>
                wheels[i].(motorTorque := old(wheels[i]).motorTorque,
                           brakeTorque := old(wheels[i]).brakeTorque,
                           steerAngle := old(wheels[i]).steerAngle) == old(wheels[i])
    {
      PhysicsTickKeeps(wheels[..], currentThrottle, moveInput, steerInput, body,
                       hasBrakeKey && brakeKeyDown, brakeOnReverseInput, tuning, dt);
      UpdateThrottleSmoothing(moveInput, dt);
      Move(if body.Some? then Some(body.value.forwardVel) else None, brakeKeyDown);
      Steer(steerInput, SpeedOf(body));
    }
  }
}
