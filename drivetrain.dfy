/**
 * What the player's vehicle controller and the enemy driver share: the wheel
 * record, the drive tuning, the speed-dependent steering attenuation and the
 * per-tick blend of the front wheels toward the commanded steering angle.
 * Both controllers declare the same Wheel struct and the same Steer method.
 */
module Drivetrain {
  import opened Options
  import opened UnityMath

  datatype Axle = Front | Rear

  /**
   * One entry of the wheels list. hasCollider is false when the entry has no
   * WheelCollider; motorTorque, brakeTorque and steerAngle are that collider's
   * actuator values, which only entries with a collider ever have written.
   */
  datatype Wheel = Wheel(
    axle: Axle,
    isDriven: bool,
    hasCollider: bool,
    motorTorque: real,
    brakeTorque: real,
    steerAngle: real)

  /** The inspector parameters the drivetrain reads; none of them changes during a run. */
  datatype DriveTuning = DriveTuning(
    maxMotorTorque: real,
    maxBrakeTorque: real,
    accelResponse: real,
    decelResponse: real,
    turnSensitivity: real,
    maxSteeringAngle: real)
  {
    /** Rates that never push the throttle away from where it is heading. */
    predicate NonNegativeRates() {
      accelResponse >= 0.0 && decelResponse >= 0.0
    }
  }

  /** Below this magnitude the throttle counts as released. */
  const ThrottleDeadZone: real := 0.001
  /** Forward speed, along the heading, above which a throttle against motion brakes. */
  const ReverseBrakeSpeed: real := 0.5
  /** Speed at and above which steering is attenuated the most. */
  const FullAttenuationSpeed: real := 30.0
  /** Steering authority left at full attenuation. */
  const MinSteerFactor: real := 0.25
  /** Fraction of the gap to the commanded angle a front wheel closes per tick. */
  const WheelSteerBlend: real := 0.6

  /** The wheel gets new motor and brake torque, and nothing else of it changes. */
  function WithTorque(w: Wheel, motor: real, brake: real): (r: Wheel)
    ensures r.motorTorque == motor && r.brakeTorque == brake
    ensures r.(motorTorque := w.motorTorque, brakeTorque := w.brakeTorque) == w
  {
    w.(motorTorque := motor, brakeTorque := brake)
  }

  /**
   * The smoothing rate both controllers pick while the input is held:
   * accelResponse when the input is larger in magnitude than the throttle,
   * decelResponse otherwise.
   */
  function ResponseRate(current: real, target: real, tuning: DriveTuning): (rate: real)
    ensures rate == tuning.accelResponse || rate == tuning.decelResponse
    ensures Abs(target) > Abs(current) ==> rate == tuning.accelResponse
    ensures Abs(target) <= Abs(current) ==> rate == tuning.decelResponse
  {
    if Abs(target) > Abs(current) then tuning.accelResponse else tuning.decelResponse
  }

  /** The motor torque of a driven wheel: the throttle's share of maxMotorTorque. */
  function DriveTorque(throttle: real, tuning: DriveTuning): real {
    throttle * tuning.maxMotorTorque
  }

  /**
   * The condition both controllers use to brake instead of driving: the sign
   * of the throttle differs from the sign of the forward velocity (Mathf.Sign,
   * so a zero velocity counts as forward) and the car moves faster than 0.5.
   */
  predicate AgainstMotion(throttle: real, forwardVel: real) {
    Sign(throttle) != 0.0 &&
    Sign(throttle) != Sign(forwardVel) &&
    Abs(forwardVel) > ReverseBrakeSpeed
  }

  lemma AgainstMotionMeansOppositeSigns(throttle: real, forwardVel: real)
    requires throttle != 0.0
    ensures AgainstMotion(throttle, forwardVel) <==>
              ((throttle > 0.0 && forwardVel < -ReverseBrakeSpeed) ||
               (throttle < 0.0 && forwardVel > ReverseBrakeSpeed))
  {
  }

  /**
   * The steering attenuation factor: full authority at rest, a quarter of it
   * at 30 units/s and faster, linear in between.
   */
  function SteerFactor(speed: real): (f: real)
    ensures MinSteerFactor <= f <= 1.0
    ensures speed <= 0.0 ==> f == 1.0
    ensures speed >= FullAttenuationSpeed ==> f == MinSteerFactor
  {
    Lerp(1.0, MinSteerFactor, InverseLerp(0.0, FullAttenuationSpeed, speed))
  }

  /** A faster car never steers harder than a slower one. */
  lemma SteerFactorNonIncreasing(slow: real, fast: real)
    requires slow <= fast
    ensures SteerFactor(fast) <= SteerFactor(slow)
  {
    if 0.0 < slow && fast < FullAttenuationSpeed {
      var u1 := slow / FullAttenuationSpeed;
      var u2 := fast / FullAttenuationSpeed;
      assert u1 <= u2;
      assert SteerFactor(slow) == 1.0 + (MinSteerFactor - 1.0) * u1;
      assert SteerFactor(fast) == 1.0 + (MinSteerFactor - 1.0) * u2;
    }
  }

  /** The steering input scaled by turnSensitivity and maxSteeringAngle, before attenuation. */
  function FullSteerAngle(input: real, tuning: DriveTuning): real {
    input * tuning.turnSensitivity * tuning.maxSteeringAngle
  }

  /** a points the same way as full and keeps between a quarter and all of its magnitude. */
  predicate AttenuatedFrom(full: real, a: real) {
    (full >= 0.0 ==> MinSteerFactor * full <= a <= full) &&
    (full <= 0.0 ==> full <= a <= MinSteerFactor * full)
  }

  /**
   * The angle the front wheels are steered toward: the full angle, attenuated
   * by SteerFactor when the car has a rigidbody whose speed can be read.
   */
  function CommandedSteerAngle(input: real, tuning: DriveTuning, speed: Option<real>): (a: real)
    ensures AttenuatedFrom(FullSteerAngle(input, tuning), a)
    ensures speed.None? ==> a == FullSteerAngle(input, tuning)
  {
    var full := FullSteerAngle(input, tuning);
    if speed.Some? then
      var f := SteerFactor(speed.value);
      AttenuatedWithin(full, f);
      full * f
    else full
  }

  lemma AttenuatedWithin(full: real, f: real)
    requires MinSteerFactor <= f <= 1.0
    ensures AttenuatedFrom(full, full * f)
  {
    var g := if full >= 0.0 then full else -full;
    ScaleWithin(g, f);
    ScaleMonotone(g, MinSteerFactor, f);
    assert MinSteerFactor * g == g * MinSteerFactor;
    if full < 0.0 {
      assert full * f == -(g * f);
      assert MinSteerFactor * full == -(MinSteerFactor * g);
    }
  }

  /**
   * One tick of a wheel's steering: a front wheel with a collider moves its
   * angle 60% of the way toward the commanded angle (Mathf.Lerp with 0.6);
   * every other entry, and every other field, stays as it was.
   */
  function SteeredWheel(w: Wheel, target: real): (r: Wheel)
    ensures r.(steerAngle := w.steerAngle) == w
    ensures w.hasCollider && w.axle == Front ==>
              r.steerAngle - target == (1.0 - WheelSteerBlend) * (w.steerAngle - target) &&
              Between(w.steerAngle, target, r.steerAngle)
    ensures !(w.hasCollider && w.axle == Front) ==> r == w
  {
    if w.hasCollider && w.axle == Front then
      w.(steerAngle := Lerp(w.steerAngle, target, WheelSteerBlend))
    else w
  }

  /** Steer's loop over a list of wheels: each entry becomes its SteeredWheel. */
  function SteerAll(ws: seq<Wheel>, target: real): (r: seq<Wheel>)
    ensures |r| == |ws|
    ensures forall i :: 0 <= i < |ws| ==> r[i] == SteeredWheel(ws[i], target)
  {
    seq(|ws|, i requires 0 <= i < |ws| => SteeredWheel(ws[i], target))
  }

  /** The wheel loop of Steer: every entry in place becomes its SteeredWheel. */
  method SteerWheels(wheels: array<Wheel>, steerAngle: real)
    modifies wheels
    ensures forall i :: 0 <= i < wheels.Length ==> wheels[i] == SteeredWheel(old(wheels[i]), steerAngle)
    ensures wheels[..] == SteerAll(old(wheels[..]), steerAngle)
  {
    var i := 0;
    while i < wheels.Length
      invariant 0 <= i <= wheels.Length
      invariant forall j :: 0 <= j < i ==> wheels[j] == SteeredWheel(old(wheels[j]), steerAngle)
      invariant forall j :: i <= j < wheels.Length ==> wheels[j] == old(wheels[j])
    {
      var w := wheels[i];
      if !w.hasCollider {
        i := i + 1;
        continue;
      }
      if w.axle == Front {
        wheels[i] := w.(steerAngle := Lerp(w.steerAngle, steerAngle, WheelSteerBlend));
      }
      i := i + 1;
    }
  }
}
