# Vehicle controllers, in Dafny

A model of the per-physics-tick logic of a Unity driving game, with proofs
about it. Three MonoBehaviours make up the core:

- **VehicleController** (the player's car). `UpdateThrottleSmoothing`
  rate-limits `currentThrottle` toward the stick and snaps it to 0 on a change
  of direction. `Move` distributes motor and brake torque over the wheel list
  and can zero the throttle part-way through the loop. `Steer` attenuates the
  steering angle with speed and blends each front wheel toward it.
- **EnemyAI** (the AI car). `UpdateAIInputs` decides the throttle and steering
  commands from the target's distance and bearing and from a fan of obstacle
  rays. `GetObstacleAvoidanceSteering` folds the ray results into an avoidance
  steering value and an obstacle strength. Its own throttle smoothing, `Move`
  and `Steer` are close copies of the player's, with small differences.
- **VehicleHealth**. Integer health, a dead flag and an invulnerability
  timestamp. `TakeDamage`, `Die`, `Awake`'s clamp, and the gates and damage
  formula of `OnCollisionEnter`.

Files:

- `unity_math.dfy`: `Options.Option`, and `UnityMath`, the `Mathf` helpers with
  Unity's semantics. `Sign(0)` is +1, `Lerp` clamps its parameter,
  `InverseLerp` is clamped, and the integer `Clamp` tests the minimum first.
- `drivetrain.dfy`: `Drivetrain`, the wheel record, the drive tuning, and the
  steering shared by both cars. The two `Steer` methods are the same code.
- `vehicle_controller.dfy`: `VehicleControl`, the throttle step and the wheel
  loop as specification functions, and the class `VehicleController`.
- `enemy_ai.dfy`: `EnemyNav`, the ray fan, the avoidance fold, the decision
  rules, and the class `EnemyAI`.
- `vehicle_health.dfy`: `Health`, the health state machine as functions, and
  the class `VehicleHealth`.

Each class keeps the source's fields and updates them in place. Each method
states its whole new state as a specification function of the old state:
`FixedUpdate` as `PhysicsTick` or `AiPhysicsTick`, and each method it calls as
the function for that step. The properties are proved as lemmas about those
functions (`PhysicsTickKeeps`, `AiPhysicsTickKeeps`, and the lemmas for each
step).

Engine queries are parameters of the methods:

- the rigidbody's forward velocity and speed, as an `Option<real>` that is
  `None` when there is no rigidbody;
- `Time.fixedDeltaTime` and `Time.time`;
- the input axes and the brake key;
- the target's distance and bearing, as an `Option` that is `None` when there
  is no target;
- the raycast results, one `Option<RayHit>` per ray, with `isSelf` for hits
  on the car's own colliders;
- the collision's layer and impact speed.

## Model

| member | source | states |
|---|---|---|
| UnityMath.Abs | Assets/PLAYER/PlayerControls/Vehicle/VehicleController.cs:192 | `Mathf.Abs`: non-negative and equal to the argument or its negation |
| UnityMath.Sign | Assets/SYSTEMS/ENEMY/EnemyAI.cs:238 | `Mathf.Sign`: always ±1, and +1 exactly for arguments ≥ 0 (so +1 at 0) |
| UnityMath.Max | Assets/SYSTEMS/ENEMY/EnemyAI.cs:233 | `Mathf.Max`: an upper bound of both arguments that equals one of them |
| UnityMath.Clamp | Assets/SYSTEMS/ENEMY/EnemyAI.cs:132 | `Mathf.Clamp`: in [lo, hi] when lo ≤ hi, and the identity inside the range |
| UnityMath.Clamp01 | Assets/SYSTEMS/ENEMY/EnemyAI.cs:266 | `Mathf.Clamp01`: in [0, 1], and the identity on [0, 1] |
| UnityMath.Lerp | Assets/PLAYER/PlayerControls/Vehicle/VehicleController.cs:275 | `Mathf.Lerp` with a clamped parameter: the result lies between the endpoints, is `a` for t ≤ 0 and `b` for t ≥ 1 |
| UnityMath.InverseLerp | Assets/PLAYER/PlayerControls/Vehicle/VehicleController.cs:275 | `Mathf.InverseLerp`: in [0, 1], 0 at or below `a` and 1 at or above `b` |
| UnityMath.MoveTowards | Assets/PLAYER/PlayerControls/Vehicle/VehicleController.cs:194-199 | `Mathf.MoveTowards`, written by the sign of target − current: the target when it is within maxDelta, else a step of maxDelta toward it |
| UnityMath.MoveTowardsSignForm | Assets/PLAYER/PlayerControls/Vehicle/VehicleController.cs:194-199 | outside maxDelta the step is current + Sign(target − current)·maxDelta, Unity's own formula |
| UnityMath.MoveTowardsApproaches | Assets/PLAYER/PlayerControls/Vehicle/VehicleController.cs:194-199 | `Mathf.MoveTowards` with a non-negative step lands between current and target, moves at most the step, never moves away from the target, and reaches it iff it is within the step |
| UnityMath.MoveTowardsCloses | Assets/SYSTEMS/ENEMY/EnemyAI.cs:276 | a step of maxDelta ≥ delta ≥ 0 shrinks the distance to the target by at least delta, or closes it |
| UnityMath.ClampInt | Assets/PLAYER/PlayerControls/Vehicle/VehicleHealth.cs:49 | integer `Mathf.Clamp`: in [lo, hi] when lo ≤ hi, lo below the range, the identity inside it |
| UnityMath.MaxInt | Assets/PLAYER/PlayerControls/Vehicle/VehicleHealth.cs:88 | integer `Mathf.Max`: an upper bound of both arguments that equals one of them |
| UnityMath.FloorToInt | Assets/PLAYER/PlayerControls/Vehicle/VehicleHealth.cs:73 | `Mathf.FloorToInt`: the greatest integer not above the argument |
| Drivetrain.WithTorque | Assets/PLAYER/PlayerControls/Vehicle/VehicleController.cs:264-265 | writing the two torques sets exactly those two fields of the wheel |
| Drivetrain.ResponseRate | Assets/PLAYER/PlayerControls/Vehicle/VehicleController.cs:198 | the smoothing rate, here and at EnemyAI.cs line 275: accelResponse when \|target\| > \|current\|, and decelResponse when \|target\| ≤ \|current\| |
| Drivetrain.DriveTorque | Assets/PLAYER/PlayerControls/Vehicle/VehicleController.cs:238 | a driven wheel's motor torque is throttle·maxMotorTorque |
| Drivetrain.AgainstMotion | Assets/PLAYER/PlayerControls/Vehicle/VehicleController.cs:222-225 | the against-motion test as written: Sign(throttle) ≠ 0, Sign(throttle) ≠ Sign(forwardVel) with Sign(0) = +1, and \|forwardVel\| > 0.5 |
| Drivetrain.AgainstMotionMeansOppositeSigns | Assets/PLAYER/PlayerControls/Vehicle/VehicleController.cs:222-225 | for a non-zero throttle, "reversing against motion" holds iff the throttle and the forward velocity point in opposite directions and \|forwardVel\| > 0.5 (the `Sign != 0` test is always true) |
| Drivetrain.SteerFactor | Assets/PLAYER/PlayerControls/Vehicle/VehicleController.cs:274-275 | the steering attenuation lies in [0.25, 1], is 1 at speed 0 and 0.25 from speed 30 on |
| Drivetrain.SteerFactorNonIncreasing | Assets/PLAYER/PlayerControls/Vehicle/VehicleController.cs:275 | the attenuation never grows with speed |
| Drivetrain.FullSteerAngle | Assets/PLAYER/PlayerControls/Vehicle/VehicleController.cs:271 | the unattenuated angle input·turnSensitivity·maxSteeringAngle |
| Drivetrain.CommandedSteerAngle | Assets/PLAYER/PlayerControls/Vehicle/VehicleController.cs:271-277 | the commanded angle is the full angle (input·sensitivity·maxSteeringAngle) scaled by a factor in [0.25, 1], and the full angle itself without a rigidbody |
| Drivetrain.AttenuatedWithin | Assets/PLAYER/PlayerControls/Vehicle/VehicleController.cs:276 | scaling by a factor in [0.25, 1] keeps the angle's sign and shrinks it to between a quarter and all of its size |
| Drivetrain.SteeredWheel | Assets/PLAYER/PlayerControls/Vehicle/VehicleController.cs:281-283 | only a front wheel with a collider changes, only its steerAngle, to old + 0.6·(target − old), which leaves 0.4 of the distance to the target |
| Drivetrain.SteerAll | Assets/PLAYER/PlayerControls/Vehicle/VehicleController.cs:279-284 | the steering loop over a list: same length, and every entry becomes its `SteeredWheel` |
| Drivetrain.SteerWheels | Assets/PLAYER/PlayerControls/Vehicle/VehicleController.cs:279-284 | the loop leaves every wheel of the array as `SteeredWheel` of its old value |
| VehicleControl.DirectionChanged | Assets/PLAYER/PlayerControls/Vehicle/VehicleController.cs:179-181 | the direction-change test as written, with Unity's Sign |
| VehicleControl.ThrottleGoal | Assets/PLAYER/PlayerControls/Vehicle/VehicleController.cs:192-199 | the value a tick without a snap heads for: 0 when \|target\| < 0.01, else the target |
| VehicleControl.ThrottleRate | Assets/PLAYER/PlayerControls/Vehicle/VehicleController.cs:192-198 | the rate of a tick without a snap: decelResponse with no input, else `ResponseRate` |
| VehicleControl.ThrottleDelta | Assets/PLAYER/PlayerControls/Vehicle/VehicleController.cs:194-199 | the largest change of a tick without a snap: rate·fixedDeltaTime |
| VehicleControl.ThrottleStep | Assets/PLAYER/PlayerControls/Vehicle/VehicleController.cs:174-200 | one smoothing tick as written: 0 on a direction change, else `MoveTowards` the goal by rate·dt |
| VehicleControl.ThrottleStepSnaps | Assets/PLAYER/PlayerControls/Vehicle/VehicleController.cs:179-189 | with Sign(0) = +1 the direction-change test holds iff exactly one of target and throttle is negative, and then the new throttle is exactly 0 |
| VehicleControl.ThrottleStepApproachesGoal | Assets/PLAYER/PlayerControls/Vehicle/VehicleController.cs:191-200 | on a tick without a snap the new throttle lies between the old one and the goal (0 below \|target\| 0.01, else the target), moves by at most rate·dt, and gets no farther from the goal |
| VehicleControl.ThrottleStepKeepsNonNegative | Assets/PLAYER/PlayerControls/Vehicle/VehicleController.cs:179-200 | one tick never takes a non-negative throttle below 0 |
| VehicleControl.ThrottleRun | Assets/PLAYER/PlayerControls/Vehicle/VehicleController.cs:106-109 | the throttle after a run of physics ticks: smoothing, then possibly zeroed by `Move` |
| VehicleControl.ThrottleRunNeverNegative | Assets/PLAYER/PlayerControls/Vehicle/VehicleController.cs:179-200 | over any sequence of ticks, a throttle that starts at or above 0 stays there |
| VehicleControl.SignOrZero | Assets/PLAYER/PlayerControls/Vehicle/VehicleController.cs:179-181 | the sign the `!= 0` guards presuppose: 0 exactly at 0, and Unity's sign elsewhere |
| VehicleControl.IntendedThrottleStep | Assets/PLAYER/PlayerControls/Vehicle/VehicleController.cs:179-200 | corrected step: an input opposite to a non-zero throttle snaps it to 0 |
| VehicleControl.IntendedAgreesAwayFromZero | Assets/PLAYER/PlayerControls/Vehicle/VehicleController.cs:179-200 | away from zero the corrected step and the written step agree |
| VehicleControl.ReverseInputFromRestStaysZero | Assets/PLAYER/PlayerControls/Vehicle/VehicleController.cs:179-189 | as written, holding a reverse input from rest keeps the throttle at exactly 0 for any number of ticks |
| VehicleControl.IntendedReversesFromRest | Assets/PLAYER/PlayerControls/Vehicle/VehicleController.cs:192-200 | with the corrected step a reverse input from rest moves the throttle below 0 |
| VehicleControl.IntendedNeverCrossesZero | Assets/PLAYER/PlayerControls/Vehicle/VehicleController.cs:179-200 | the corrected step never takes the throttle across 0 in one tick |
| VehicleControl.MoveWheel | Assets/PLAYER/PlayerControls/Vehicle/VehicleController.cs:215-265 | one pass of the wheel loop: a wheel without a collider is skipped; above the 0.001 dead zone, full brake and throttle 0 against motion (when brakeOnReverseInput), else drive torque on driven wheels; inside it, full brake and throttle 0 with the brake key, else coast |
| VehicleControl.MoveFold | Assets/PLAYER/PlayerControls/Vehicle/VehicleController.cs:213-266 | the wheel loop changes only the two torques of wheels with a collider, keeps the wheel count, and ends with the throttle unchanged or 0 |
| VehicleControl.MoveFoldExtend | Assets/PLAYER/PlayerControls/Vehicle/VehicleController.cs:213-266 | one more iteration extends the loop's result by the next wheel |
| VehicleControl.MoveFoldLast | Assets/PLAYER/PlayerControls/Vehicle/VehicleController.cs:213-266 | the loop over a list is the loop over all but the last wheel followed by the last wheel |
| VehicleControl.NoColliderBeforePrefix | Assets/PLAYER/PlayerControls/Vehicle/VehicleController.cs:215 | whether a wheel before index k has a collider depends only on the list up to k |
| VehicleControl.MoveReleasedThrottle | Assets/PLAYER/PlayerControls/Vehicle/VehicleController.cs:248-261 | with \|throttle\| ≤ 0.001 every wheel with a collider gets motor 0 and full brake if the brake key is held, else 0 (coast); the throttle is zeroed iff the brake key is held and some wheel has a collider |
| VehicleControl.MoveAgainstMotion | Assets/PLAYER/PlayerControls/Vehicle/VehicleController.cs:220-232 | when reversing against motion, the first wheel with a collider gets full brake and zeroes the throttle, and every later one gets the released-throttle brake (brake key or coast); all motors are 0 |
| VehicleControl.MoveDriving | Assets/PLAYER/PlayerControls/Vehicle/VehicleController.cs:236-245 | otherwise driven wheels with a collider get throttle·maxMotorTorque, others 0, no wheel brakes, and the throttle is kept |
| VehicleControl.PhysicsTick | Assets/PLAYER/PlayerControls/Vehicle/VehicleController.cs:106-112 | one FixedUpdate as a function: smoothing, then the wheel loop when there is a rigidbody, then steering toward the speed-attenuated angle; the wheel count is kept |
| VehicleControl.PhysicsTickKeeps | Assets/PLAYER/PlayerControls/Vehicle/VehicleController.cs:106-112 | a physics tick leaves the throttle at its smoothed value or 0 (the smoothed value without a rigidbody), keeps a non-negative throttle non-negative, and changes no wheel field but the two torques and the steer angle |
| VehicleControl.VehicleController.constructor | Assets/PLAYER/PlayerControls/Vehicle/VehicleController.cs:45-49 | the controller starts with throttle 0 and the given tuning and wheels |
| VehicleControl.VehicleController.UpdateThrottleSmoothing | Assets/PLAYER/PlayerControls/Vehicle/VehicleController.cs:174-203 | the new throttle is `ThrottleStep` of the old one |
| VehicleControl.VehicleController.Move | Assets/PLAYER/PlayerControls/Vehicle/VehicleController.cs:205-267 | without a rigidbody nothing changes; otherwise wheels and throttle are `MoveFold` of their old values, with the brake key counted only when one is configured |
| VehicleControl.VehicleController.ApplyWheelTorque | Assets/PLAYER/PlayerControls/Vehicle/VehicleController.cs:215-265 | one loop iteration sets wheel i and the throttle to `MoveWheel` of their old values and leaves every other wheel alone |
| VehicleControl.VehicleController.Steer | Assets/PLAYER/PlayerControls/Vehicle/VehicleController.cs:269-285 | every wheel becomes `SteeredWheel` of its old value toward the speed-attenuated angle |
| VehicleControl.VehicleController.FixedUpdate | Assets/PLAYER/PlayerControls/Vehicle/VehicleController.cs:106-112 | the new wheels and throttle are `PhysicsTick` of the old ones; a non-negative throttle stays non-negative and no wheel field changes but the two torques and the steer angle |
| EnemyNav.RayCount | Assets/SYSTEMS/ENEMY/EnemyAI.cs:203 | the loop casts numberOfRays rays, and none when it is ≤ 0 |
| EnemyNav.RayT | Assets/SYSTEMS/ENEMY/EnemyAI.cs:206 | ray i's place in the fan: i/(n−1) for several rays, 0.5 for one |
| EnemyNav.RayAngle | Assets/SYSTEMS/ENEMY/EnemyAI.cs:207 | ray i's yaw: `Lerp`(−spread, spread, t) |
| EnemyNav.LoneRayPointsAhead | Assets/SYSTEMS/ENEMY/EnemyAI.cs:206-207 | a single ray points straight ahead |
| EnemyNav.FanEnds | Assets/SYSTEMS/ENEMY/EnemyAI.cs:206-207 | with several rays the first is at −spread and the last at +spread |
| EnemyNav.RayWithinSpread | Assets/SYSTEMS/ENEMY/EnemyAI.cs:206-207 | every ray's angle lies within ±spread |
| EnemyNav.FanSymmetric | Assets/SYSTEMS/ENEMY/EnemyAI.cs:206-207 | ray n−1−i mirrors ray i |
| EnemyNav.RayStrength | Assets/SYSTEMS/ENEMY/EnemyAI.cs:228-230 | a hit's strength (1 − distance/detectionDistance)·(1 − \|angle\|/spread) |
| EnemyNav.RayStrengthUnit | Assets/SYSTEMS/ENEMY/EnemyAI.cs:228-230 | a hit within the detection distance on a ray within the spread has strength in [0, 1] |
| EnemyNav.SteerDirection | Assets/SYSTEMS/ENEMY/EnemyAI.cs:238 | −Sign(angle): −1 (left) exactly for angles ≥ 0, +1 otherwise |
| EnemyNav.AddRay | Assets/SYSTEMS/ENEMY/EnemyAI.cs:232-244 | one detected ray: strength becomes the max with its own, and dir·s is added to the vote and dir·s·force to the sum |
| EnemyNav.AvoidStep | Assets/SYSTEMS/ENEMY/EnemyAI.cs:213-244 | one ray of the loop: misses and self hits change nothing, a detected hit is `AddRay` of its strength and `SteerDirection` |
| EnemyNav.AvoidFold | Assets/SYSTEMS/ENEMY/EnemyAI.cs:203-260 | the loop's accumulated strength is never negative |
| EnemyNav.AvoidFoldExtend | Assets/SYSTEMS/ENEMY/EnemyAI.cs:203-260 | one more iteration extends the fold by the next ray |
| EnemyNav.StrengthIsMax | Assets/SYSTEMS/ENEMY/EnemyAI.cs:233 | the obstacle strength is the maximum of the non-self hits' strengths: at least each of them, and 0 or equal to one of them |
| EnemyNav.NoDetectionNoAvoidance | Assets/SYSTEMS/ENEMY/EnemyAI.cs:213-217 | with no hit or only self hits, strength, vote and steering all stay 0 |
| EnemyNav.OnlyDetectedHitsMatter | Assets/SYSTEMS/ENEMY/EnemyAI.cs:216-217 | self hits and misses are interchangeable: the fold sees only non-self hits |
| EnemyNav.RightObstaclesVoteLeft | Assets/SYSTEMS/ENEMY/EnemyAI.cs:236-244 | if every non-self hit is on a ray at positive angle, the vote and the sum are ≤ 0 (steer left) |
| EnemyNav.RightStepLeansLeft | Assets/SYSTEMS/ENEMY/EnemyAI.cs:236-244 | one ray on the right keeps vote and sum ≤ 0 |
| EnemyNav.LeftObstaclesVoteRight | Assets/SYSTEMS/ENEMY/EnemyAI.cs:236-244 | if every non-self hit is on a ray at negative angle, the vote and the sum are ≥ 0 (steer right) |
| EnemyNav.LeftStepLeansRight | Assets/SYSTEMS/ENEMY/EnemyAI.cs:236-244 | one ray on the left keeps vote and sum ≥ 0 |
| EnemyNav.Finish | Assets/SYSTEMS/ENEMY/EnemyAI.cs:262-269 | the returned steering is in [-1, 1] |
| EnemyNav.EnemyAI.FinishSteering | Assets/SYSTEMS/ENEMY/EnemyAI.cs:262-269 | the lines after the loop compute exactly `Finish` of the three accumulators |
| EnemyNav.AvoidanceResult | Assets/SYSTEMS/ENEMY/EnemyAI.cs:193-270 | the avoidance steering is in [-1, 1] and the strength is ≥ 0 |
| EnemyNav.StrengthAtMostOne | Assets/SYSTEMS/ENEMY/EnemyAI.cs:228-233 | with every hit within the detection range, the returned obstacle strength lies in [0, 1] |
| EnemyNav.NothingDetectedNoSteering | Assets/SYSTEMS/ENEMY/EnemyAI.cs:193-270 | with no non-self hit the result is steering 0 and strength 0 |
| EnemyNav.RightObstaclesSteerLeft | Assets/SYSTEMS/ENEMY/EnemyAI.cs:236-269 | obstacles only on the right give steering ≤ 0 |
| EnemyNav.LeftObstaclesSteerRight | Assets/SYSTEMS/ENEMY/EnemyAI.cs:236-269 | obstacles only on the left give steering ≥ 0 |
| EnemyNav.SteeringIsForcedVote | Assets/SYSTEMS/ENEMY/EnemyAI.cs:236-244 | the steering sum is always the vote times obstacleAvoidanceForce |
| EnemyNav.DefaultFanCentreRayAhead | Assets/SYSTEMS/ENEMY/EnemyAI.cs:32 | ray 4 of the default nine-ray fan points straight ahead |
| EnemyNav.HeadOnHitSteersLeft | Assets/SYSTEMS/ENEMY/EnemyAI.cs:238-269 | with Sign(0) = +1, a head-on hit (ray angle 0, as for a lone ray or ray 4 of nine) closer than the range steers strictly left when no detected hit is left of the heading, in any fan and with a positive force |
| EnemyNav.PursuitSteering | Assets/SYSTEMS/ENEMY/EnemyAI.cs:132 | pursuit steering is in [-1, 1] |
| EnemyNav.PursuitTurnsTowardTarget | Assets/SYSTEMS/ENEMY/EnemyAI.cs:129-132 | pursuit steering has the sign of the bearing to the target |
| EnemyNav.AiSteering | Assets/SYSTEMS/ENEMY/EnemyAI.cs:135-152 | with avoidance enabled the steering lies between pursuit and avoidance steering, is in [-1, 1], and is pure pursuit when the strength is ≤ 0.1 |
| EnemyNav.ThrottleRule | Assets/SYSTEMS/ENEMY/EnemyAI.cs:162-190 | the throttle command is one of 1, 0, sharpTurnSpeedMultiplier, −1 and does not depend on the obstacles; in [-1, 1] when the multiplier is |
| EnemyNav.ThrottleRuleCases | Assets/SYSTEMS/ENEMY/EnemyAI.cs:162-190 | −1 within stopping distance; else 1 below minSpeed; else 1 or 0 (below or at maxSpeed), times the multiplier for a sharp turn |
| EnemyNav.Slowed | Assets/SYSTEMS/ENEMY/EnemyAI.cs:146 | the slowdown as written: command·(1 − strength·0.5) |
| EnemyNav.IntendedAiMoveInput | Assets/SYSTEMS/ENEMY/EnemyAI.cs:146 | corrected: the throttle rule's command, `Slowed` by the obstacle strength while avoiding |
| EnemyNav.IntendedSlowdownSlows | Assets/SYSTEMS/ENEMY/EnemyAI.cs:146 | corrected: while avoiding obstacles within the detection range (strength ≤ 1 by `StrengthAtMostOne`), a positive command c becomes a value in [0.5·c, 0.95·c), so it stays positive |
| EnemyNav.SlowdownShrinks | Assets/SYSTEMS/ENEMY/EnemyAI.cs:146 | for a positive command c and a strength in (0.1, 1], the slowed command is positive, at least 0.5·c and below 0.95·c |
| EnemyNav.AvoidanceSlowdownLost | Assets/SYSTEMS/ENEMY/EnemyAI.cs:146-190 | as written, a head-on obstacle at distance 0 leaves the command at 1 where the slowdown would give 0.5 |
| EnemyNav.AiThrottleStep | Assets/SYSTEMS/ENEMY/EnemyAI.cs:272-277 | one AI smoothing tick: `MoveTowards` the command at `ResponseRate`·dt, with no snap |
| EnemyNav.AiThrottleStepApproaches | Assets/SYSTEMS/ENEMY/EnemyAI.cs:272-277 | AI smoothing never overshoots: the new throttle lies between the old one and the command and is no farther from the command |
| EnemyNav.AiThrottleStepCloses | Assets/SYSTEMS/ENEMY/EnemyAI.cs:272-277 | one tick shrinks the distance to the command by at least delta, or closes it |
| EnemyNav.AiThrottleConverges | Assets/SYSTEMS/ENEMY/EnemyAI.cs:272-277 | after k ticks with a fixed command the distance to it is at most max(0, initial − k·delta) |
| EnemyNav.AiWheel | Assets/SYSTEMS/ENEMY/EnemyAI.cs:286-327 | one pass of the AI wheel loop: skipped without a collider; above the dead zone full brake against motion, else drive torque on driven wheels; inside it coast |
| EnemyNav.AiMoveAll | Assets/SYSTEMS/ENEMY/EnemyAI.cs:286-327 | the AI wheel loop over a list: same length, and every entry becomes its `AiWheel` |
| EnemyNav.AiPhysicsTick | Assets/SYSTEMS/ENEMY/EnemyAI.cs:106-112 | one AI FixedUpdate as a function: smoothing toward the move command, the wheel loop when there is a rigidbody, then steering; the wheel count is kept |
| EnemyNav.AiPhysicsTickKeeps | Assets/SYSTEMS/ENEMY/EnemyAI.cs:106-112 | an AI tick leaves the throttle between its old value and the command and no farther from it, so throttle and command in [-1, 1] keep it there; no wheel field changes but the two torques and the steer angle |
| EnemyNav.AiTorqueFollowsMotion | Assets/SYSTEMS/ENEMY/EnemyAI.cs:286-327 | an AI wheel gets a motor torque only when not reversing against motion, with brake 0; when reversing against motion it gets full brake and motor 0 |
| EnemyNav.PlayerMoveMatchesAi | Assets/SYSTEMS/ENEMY/EnemyAI.cs:279-328 | outside reversing against motion and without the brake key, the player's loop keeps the throttle and gives every wheel the AI's torques |
| EnemyNav.EnemyAI.constructor | Assets/SYSTEMS/ENEMY/EnemyAI.cs:63-65 | the AI starts with both commands and the throttle at 0 |
| EnemyNav.EnemyAI.GetObstacleAvoidanceSteering | Assets/SYSTEMS/ENEMY/EnemyAI.cs:193-270 | the loop returns exactly `AvoidanceResult` of the ray hits |
| EnemyNav.EnemyAI.AccumulateRay | Assets/SYSTEMS/ENEMY/EnemyAI.cs:213-244 | one loop iteration updates the three accumulators as `AvoidStep` |
| EnemyNav.EnemyAI.UpdateAIInputs | Assets/SYSTEMS/ENEMY/EnemyAI.cs:114-191 | no target: both commands 0 and the avoiding flag unchanged; otherwise the throttle is `ThrottleRule`, steering is pursuit or `AiSteering` with the flag set to whether the strength exceeds 0.1; steering always in [-1, 1], the throttle too when sharpTurnSpeedMultiplier is |
| EnemyNav.EnemyAI.UpdateThrottleSmoothing | Assets/SYSTEMS/ENEMY/EnemyAI.cs:272-277 | the new throttle is `AiThrottleStep` toward the command |
| EnemyNav.EnemyAI.Move | Assets/SYSTEMS/ENEMY/EnemyAI.cs:279-328 | without a rigidbody nothing changes; otherwise every wheel becomes `AiWheel` of its old value, and the throttle is not written |
| EnemyNav.EnemyAI.Steer | Assets/SYSTEMS/ENEMY/EnemyAI.cs:330-347 | every wheel becomes `SteeredWheel` of its old value toward the speed-attenuated angle |
| EnemyNav.EnemyAI.FixedUpdate | Assets/SYSTEMS/ENEMY/EnemyAI.cs:106-112 | the new wheels and throttle are `AiPhysicsTick` of the old ones; throttle and commands in [-1, 1] stay there (with non-negative rates and dt) and no wheel field changes but the two torques and the steer angle |
| Health.AwakeHealth | Assets/PLAYER/PlayerControls/Vehicle/VehicleHealth.cs:49 | Awake leaves health in [0, maxHealth]: unchanged inside, maxHealth above, 0 below |
| Health.TakeDamageSpec | Assets/PLAYER/PlayerControls/Vehicle/VehicleHealth.cs:82-99 | TakeDamage as a function: a dead car or a non-positive amount changes nothing; otherwise health max(old − amount, 0) and dead at 0 |
| Health.TakeDamageIgnored | Assets/PLAYER/PlayerControls/Vehicle/VehicleHealth.cs:84-85 | damage to a dead car, or a non-positive amount, changes nothing |
| Health.TakeDamageApplies | Assets/PLAYER/PlayerControls/Vehicle/VehicleHealth.cs:87-98 | otherwise health becomes max(old − amount, 0), the car dies iff that reaches 0, and the timestamp is kept |
| Health.TakeDamageKeepsValid | Assets/PLAYER/PlayerControls/Vehicle/VehicleHealth.cs:82-99 | damage keeps health in [0, maxHealth] with dead ⇒ health 0, and never raises health |
| Health.LayerDamages | Assets/PLAYER/PlayerControls/Vehicle/VehicleHealth.cs:57 | the layer test: bit (layer mod 32) of the mask, as a C# shift of an int counts |
| Health.DefaultMaskOnlyDefaultLayer | Assets/PLAYER/PlayerControls/Vehicle/VehicleHealth.cs:57 | the default mask `1 << 0` (line 12) lets exactly layer 0 through |
| Health.RawDamage | Assets/PLAYER/PlayerControls/Vehicle/VehicleHealth.cs:72 | the unrounded damage (impactSpeed − minDamageSpeed)·damageScale |
| Health.CollisionDamage | Assets/PLAYER/PlayerControls/Vehicle/VehicleHealth.cs:72-73 | with maxDamagePerHit ≥ 1 a hit does between 1 and maxDamagePerHit damage |
| Health.CollisionDamageMonotone | Assets/PLAYER/PlayerControls/Vehicle/VehicleHealth.cs:72-73 | a harder impact never does less damage |
| Health.ClampBelowOneNotMonotone | Assets/PLAYER/PlayerControls/Vehicle/VehicleHealth.cs:73 | with maxDamagePerHit < 1 the minimum-first clamp makes a soft hit do 1 damage and a harder one maxDamagePerHit |
| Health.FloorMonotone | Assets/PLAYER/PlayerControls/Vehicle/VehicleHealth.cs:73 | `FloorToInt` is monotone |
| Health.CollisionSpec | Assets/PLAYER/PlayerControls/Vehicle/VehicleHealth.cs:52-79 | OnCollisionEnter as a function: the four gates in source order, then `TakeDamageSpec` of the clamped damage and the time stamp |
| Health.CollisionGates | Assets/PLAYER/PlayerControls/Vehicle/VehicleHealth.cs:52-79 | a collision that fails a gate (dead, layer, invulnerability, speed) changes nothing; one that passes them sets lastDamageTime to now and applies max(health − damage, 0), dying iff health ≤ damage |
| Health.InvulnerableAfterHit | Assets/PLAYER/PlayerControls/Vehicle/VehicleHealth.cs:61-78 | a collision inside the invulnerability window after a damaging one has no effect |
| Health.DeadIsAbsorbing | Assets/PLAYER/PlayerControls/Vehicle/VehicleHealth.cs:54-84 | once dead, no sequence of damage and collision events changes the state |
| Health.RunKeepsValid | Assets/PLAYER/PlayerControls/Vehicle/VehicleHealth.cs:52-99 | any sequence of events keeps the health invariant, never raises health, and keeps a dead car dead |
| Health.VehicleHealth.constructor | Assets/PLAYER/PlayerControls/Vehicle/VehicleHealth.cs:7-27 | a new component has lastDamageTime −10 and is alive |
| Health.VehicleHealth.Awake | Assets/PLAYER/PlayerControls/Vehicle/VehicleHealth.cs:47-50 | health becomes `AwakeHealth` of its old value, which satisfies the invariant |
| Health.VehicleHealth.TakeDamage | Assets/PLAYER/PlayerControls/Vehicle/VehicleHealth.cs:82-99 | the new state is `TakeDamageSpec` of the old one |
| Health.VehicleHealth.Die | Assets/PLAYER/PlayerControls/Vehicle/VehicleHealth.cs:138-141 | the car is dead afterwards, and only the dead flag is written |
| Health.VehicleHealth.OnCollisionEnter | Assets/PLAYER/PlayerControls/Vehicle/VehicleHealth.cs:52-79 | the new state is `CollisionSpec` of the old one |

## Left out

- Engine audio, wheel visual sync, centre of mass, `OnValidate`, gizmos and `Reset`: presentation and editor plumbing with no effect on the modelled state.
- `PlayRandomDamageSound`: it picks a clip at random in a loop, so it is left out with the other audio.
- `Debug.Log` and `Debug.DrawRay`, and the `SetActive` effects of `Die`: output only.
- `previousInput` and `closestObstacleDistance`: they are written but never read by the modelled logic.
- The AI's `targetUpdateInterval` and `targetUpdateTimer` (EnemyAI.cs lines 23 and 69): they are declared and never written or read.
- `sideRayOffset` and `safetyMargin` (EnemyAI.cs lines 34 and 28): they are declared and never read.
- `debugDrawRays` and `obstacleLayer`: they only shape the raycasts and their debug drawing, and the raycast results are parameters.
- Floating point: every `float` is a `real`. IEEE rounding, infinities and NaN are not modelled.
- Division by zero: the model requires a non-zero `maxSteeringAngle`, `obstacleDetectionDistance` and `raySpreadAngle` where the source divides by them. On floats those divisions give infinities or NaN instead.
- 32-bit integers: the `FloorToInt` cast and the health subtraction are unbounded in the model. An impact large enough to overflow `int` is not modelled.
- Wheels: each wheel owns its collider's torques and steer angle. Two list entries sharing one `WheelCollider` are not modelled.
- `UpdateAIInputs`: a missing rigidbody throws a null reference exception at line 160. In the model the speed is a parameter, so that exception is not modelled.
- `EnemyNav.EnemyAI.GetObstacleAvoidanceSteering`: the returned strength is the accumulated maximum even when it is 0.1 or less. The code does not zero it; only the steering depends on the 0.1 threshold.
- Health.CollisionDamageMonotone: proved only for `maxDamagePerHit ≥ 1` and `damageScale ≥ 0`. Below 1 the clamp is not monotone, and `Health.ClampBelowOneNotMonotone` exhibits why. A negative damageScale makes harder impacts do less damage.
- The loop bodies of `Move` and `GetObstacleAvoidanceSteering` are the helper methods `ApplyWheelTorque` and `AccumulateRay`, and the lines after the ray loop are `FinishSteering`. The methods compute the ray angle, the ray strength, the pursuit steering, the drive torque and the raw damage through the specification functions that define them.
- Arithmetic helper lemmas (`ScaleWithin`, `QuotientSign`, `ScaledBetween`, `StepApproaches`, `RateBound` and the like) and one-step lemmas such as `ThrottleStepBy`, `FinishOf`, `ForcedVoteStep`, `HeadOnHitIsFelt` and `FinishLeansLeft` carry no row: they state facts about real arithmetic or restate one definition for the proofs above.

## Findings

| source | as written | input that shows it | evidently intended | confidence | as-written member | corrected member |
|---|---|---|---|---|---|---|
| Assets/PLAYER/PlayerControls/Vehicle/VehicleController.cs:179-189 | `Mathf.Sign(0)` is +1, so the `!= 0` guards are always true and a reverse input at throttle 0 counts as a change of direction | currentThrottle 0, reverse input −1 held: the throttle snaps to 0 every tick, so the player car never reverses | a throttle at rest is no direction; reverse input from rest should ramp the throttle below 0 | not executed | VehicleControl.ReverseInputFromRestStaysZero | VehicleControl.IntendedThrottleStep |
| Assets/SYSTEMS/ENEMY/EnemyAI.cs:146 | the avoidance slowdown `aiMoveInput *= (1 - strength * 0.5)` is overwritten by the throttle rule at lines 162-190 on every path | target at distance 10, head-on obstacle at distance 0 (strength 1), speed 5 between minSpeed and maxSpeed: aiMoveInput is 1 | the slowdown applies to the decided command: 0.5 here | not executed | EnemyNav.AvoidanceSlowdownLost | EnemyNav.IntendedSlowdownSlows |

Both classes keep the behaviour as written. The corrected definitions are
`VehicleControl.IntendedThrottleStep`, with `VehicleControl.IntendedReversesFromRest`
and `VehicleControl.IntendedNeverCrossesZero` proved about it, and
`EnemyNav.IntendedAiMoveInput`, with `EnemyNav.IntendedSlowdownSlows`.
