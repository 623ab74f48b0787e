/**
 * The enemy driver: each frame it turns the target's distance and bearing and
 * a fan of obstacle rays into a throttle command and a steering command; each
 * physics tick it smooths the throttle, distributes torque over the wheels
 * and steers them, much as the player's controller does but without the
 * direction-change snap, without an explicit brake and without zeroing the
 * throttle from Move.
 */
module EnemyNav {
  import opened Options
  import opened UnityMath
  import opened Drivetrain
  import VehicleControl

  /** The inspector parameters of the AI that steer its decisions. */
  datatype NavTuning = NavTuning(
    stoppingDistance: real,
    enableObstacleAvoidance: bool,
    obstacleDetectionDistance: real,
    obstacleAvoidanceForce: real,
    avoidancePriority: real,
    numberOfRays: int,
    raySpreadAngle: real,
    maxSpeed: real,
    minSpeed: real,
    steeringSensitivity: real,
    sharpTurnAngle: real,
    sharpTurnSpeedMultiplier: real)
  {
    /** The divisors of the ray strength formula. */
    predicate SensingDivisorsNonZero() {
      obstacleDetectionDistance != 0.0 && raySpreadAngle != 0.0
    }

    /** A positive detection range and a positive half-angle of the ray fan. */
    predicate SensibleFan() {
      obstacleDetectionDistance > 0.0 && raySpreadAngle > 0.0
    }
  }

  /** Above this obstacle strength the AI counts as avoiding. */
  const AvoidanceThreshold: real := 0.1
  /** The slowdown factor per unit of obstacle strength that line 146 applies. */
  const AvoidanceSlowdown: real := 0.5

  // ---------------------------------------------------------------------
  // The ray fan
  // ---------------------------------------------------------------------

  /** How many rays the loop casts: none for a non-positive numberOfRays. */
  function RayCount(n: int): (r: nat)
    ensures n > 0 ==> r == n
    ensures n <= 0 ==> r == 0
  {
    if n > 0 then n else 0
  }

  /** Where ray i sits in the fan, from 0 (leftmost) to 1; a lone ray sits at 0.5. */
  function RayT(i: int, n: int): real {
    if n > 1 then (i as real) / ((n - 1) as real) else 0.5
  }

  /** The yaw of ray i relative to the car's heading, in degrees. */
  function RayAngle(i: int, n: int, spread: real): real {
    Lerp(-spread, spread, RayT(i, n))
  }

  /** A lone ray points straight ahead. */
  lemma LoneRayPointsAhead(spread: real)
    ensures RayAngle(0, 1, spread) == 0.0
  {
    assert RayT(0, 1) == 0.5;
    assert Clamp01(0.5) == 0.5;
  }

  /** The outermost rays of a fan of two or more point at -spread and +spread. */
  lemma FanEnds(n: int, spread: real)
    requires n > 1
    ensures RayAngle(0, n, spread) == -spread
    ensures RayAngle(n - 1, n, spread) == spread
  {
    assert RayT(0, n) == 0.0;
    assert RayT(n - 1, n) == 1.0;
  }

  /** Every ray of the fan lies within spread of the heading. */
  lemma RayWithinSpread(i: int, n: int, spread: real)
    requires spread >= 0.0
    ensures Abs(RayAngle(i, n, spread)) <= spread
  {
  }

  /** The fan is symmetric: ray n-1-i mirrors ray i about the heading. */
  lemma FanSymmetric(i: int, n: int, spread: real)
    requires n > 1 && 0 <= i < n
    ensures RayAngle(n - 1 - i, n, spread) == -RayAngle(i, n, spread)
  {
    var m := (n - 1) as real;
    var a := i as real;
    var t := RayT(i, n);
    var u := RayT(n - 1 - i, n);
    assert t == a / m;
    assert u == (m - a) / m;
    ComplementQuotient(a, m);
    QuotientAtMostOne(a, m);
    assert Clamp01(t) == t && Clamp01(u) == u;
    calc {
      RayAngle(n - 1 - i, n, spread);
      -spread + (spread - -spread) * u;
      -spread + 2.0 * spread * (1.0 - t);
      spread - 2.0 * spread * t;
      -(-spread + (spread - -spread) * t);
      -RayAngle(i, n, spread);
    }
  }

  lemma ComplementQuotient(a: real, m: real)
    requires m != 0.0
    ensures (m - a) / m == 1.0 - a / m
  {
    assert (a / m) * m == a;
    assert ((m - a) / m) * m == m - a;
    assert (1.0 - a / m) * m == m - a;
    CancelFactor((m - a) / m, 1.0 - a / m, m);
  }

  lemma CancelFactor(x: real, y: real, m: real)
    requires m != 0.0 && x * m == y * m
    ensures x == y
  {
    assert (x - y) * m == 0.0;
  }

  lemma QuotientAtMostOne(a: real, m: real)
    requires 0.0 <= a <= m && m > 0.0
    ensures 0.0 <= a / m <= 1.0
  {
    assert (a / m) * m == a;
  }

  // ---------------------------------------------------------------------
  // Obstacle avoidance
  // ---------------------------------------------------------------------

  /** What one ray reports: the hit distance and whether the hit collider is the car itself. */
  datatype RayHit = RayHit(distance: real, isSelf: bool)

  /** The ray hit something other than the car. */
  predicate Detected(hit: Option<RayHit>) {
    hit.Some? && !hit.value.isSelf
  }

  /**
   * The avoidance strength of a hit: closer obstacles and more central rays
   * weigh more, (1 - d/D) * (1 - |angle|/spread).
   */
  function RayStrength(distance: real, angle: real, nav: NavTuning): real
    requires nav.SensingDivisorsNonZero()
  {
    (1.0 - distance / nav.obstacleDetectionDistance) * (1.0 - Abs(angle) / nav.raySpreadAngle)
  }

  /** A hit within range on a ray within the fan has a strength in [0, 1]. */
  lemma RayStrengthUnit(distance: real, angle: real, nav: NavTuning)
    requires nav.SensibleFan()
    requires 0.0 <= distance <= nav.obstacleDetectionDistance
    requires Abs(angle) <= nav.raySpreadAngle
    ensures 0.0 <= RayStrength(distance, angle, nav) <= 1.0
  {
    QuotientAtMostOne(distance, nav.obstacleDetectionDistance);
    QuotientAtMostOne(Abs(angle), nav.raySpreadAngle);
    ScaleWithin(1.0 - distance / nav.obstacleDetectionDistance, 1.0 - Abs(angle) / nav.raySpreadAngle);
  }

  /** The three accumulators of the ray loop. */
  datatype Avoidance = Avoidance(strength: real, vote: real, steering: real)

  /**
   * One ray of the loop: a detected hit raises the strength to its own if
   * larger and adds its strength, signed away from the ray's side, to the
   * vote and (scaled by the avoidance force) to the steering sum.
   */
  function AvoidStep(acc: Avoidance, angle: real, hit: Option<RayHit>, nav: NavTuning): Avoidance
    requires nav.SensingDivisorsNonZero()
  {
    if !Detected(hit) then acc
    else
      AddRay(acc, RayStrength(hit.value.distance, angle, nav), SteerDirection(angle), nav.obstacleAvoidanceForce)
  }

  /**
   * A detected ray of strength s pushing in direction dir: the strength
   * becomes the larger of the two, and dir * s is added to the vote and,
   * scaled by the avoidance force, to the steering sum.
   */
  function AddRay(acc: Avoidance, s: real, dir: real, force: real): Avoidance {
    Avoidance(Max(acc.strength, s), acc.vote + dir * s, acc.steering + dir * s * force)
  }

  /** A ray on the right (angle >= 0, Mathf.Sign giving +1 at 0) pushes left, one on the left pushes right. */
  function SteerDirection(angle: real): (r: real)
    ensures r == -1.0 || r == 1.0
    ensures r < 0.0 <==> angle >= 0.0
  {
    -Sign(angle)
  }

  /** The ray loop over the first |hits| rays, left to right. */
  function AvoidFold(hits: seq<Option<RayHit>>, nav: NavTuning): (r: Avoidance)
    requires nav.SensingDivisorsNonZero()
    ensures r.strength >= 0.0
    decreases |hits|
  {
    if hits == [] then Avoidance(0.0, 0.0, 0.0)
    else
      var k := |hits| - 1;
      AvoidStep(AvoidFold(hits[..k], nav), RayAngle(k, nav.numberOfRays, nav.raySpreadAngle), hits[k], nav)
  }

  /** Ray i of the loop extends the fold over the rays before it. */
  lemma AvoidFoldExtend(hits: seq<Option<RayHit>>, i: nat, nav: NavTuning)
    requires nav.SensingDivisorsNonZero() && i < |hits|
    ensures AvoidFold(hits[..i + 1], nav) ==
            AvoidStep(AvoidFold(hits[..i], nav), RayAngle(i, nav.numberOfRays, nav.raySpreadAngle), hits[i], nav)
  {
    assert hits[..i + 1][..i] == hits[..i];
  }

  /** The strength of the hit on ray i. */
  function HitStrength(hits: seq<Option<RayHit>>, i: int, nav: NavTuning): real
    requires nav.SensingDivisorsNonZero()
    requires 0 <= i < |hits| && hits[i].Some?
  {
    RayStrength(hits[i].value.distance, RayAngle(i, nav.numberOfRays, nav.raySpreadAngle), nav)
  }

  /**
   * The obstacle strength is the largest strength among the detected hits,
   * or 0 when there is none stronger than 0.
   */
  lemma {:induction false} StrengthIsMax(hits: seq<Option<RayHit>>, nav: NavTuning)
    requires nav.SensingDivisorsNonZero()
    ensures forall i :: 0 <= i < |hits| && Detected(hits[i]) ==>
              AvoidFold(hits, nav).strength >= HitStrength(hits, i, nav)
    ensures AvoidFold(hits, nav).strength == 0.0 ||
            exists i :: 0 <= i < |hits| && Detected(hits[i]) && AvoidFold(hits, nav).strength == HitStrength(hits, i, nav)
    decreases |hits|
  {
    if hits != [] {
      var k := |hits| - 1;
      var prev := hits[..k];
      StrengthIsMax(prev, nav);
      forall i | 0 <= i < k && Detected(prev[i])
        ensures HitStrength(prev, i, nav) == HitStrength(hits, i, nav)
      {
        assert prev[i] == hits[i];
      }
      if AvoidFold(prev, nav).strength != 0.0 {
        var j :| 0 <= j < k && Detected(prev[j]) && AvoidFold(prev, nav).strength == HitStrength(prev, j, nav);
        assert prev[j] == hits[j];
      }
    }
  }

  /** Without a detected hit the accumulators stay at zero. */
  lemma {:induction false} NoDetectionNoAvoidance(hits: seq<Option<RayHit>>, nav: NavTuning)
    requires nav.SensingDivisorsNonZero()
    requires forall i :: 0 <= i < |hits| ==> !Detected(hits[i])
    ensures AvoidFold(hits, nav) == Avoidance(0.0, 0.0, 0.0)
    decreases |hits|
  {
    if hits != [] {
      var k := |hits| - 1;
      assert forall i :: 0 <= i < k ==> hits[..k][i] == hits[i];
      NoDetectionNoAvoidance(hits[..k], nav);
    }
  }

  /**
   * Only detected hits matter: two ray readings that agree on which rays
   * detected something, and on those hits, fold to the same accumulators,
   * so self-hits and misses are interchangeable.
   */
  lemma {:induction false} OnlyDetectedHitsMatter(hits: seq<Option<RayHit>>, other: seq<Option<RayHit>>, nav: NavTuning)
    requires nav.SensingDivisorsNonZero()
    requires |hits| == |other|
    requires forall i :: 0 <= i < |hits| ==>
               Detected(hits[i]) == Detected(other[i]) && (Detected(hits[i]) ==> hits[i] == other[i])
    ensures AvoidFold(hits, nav) == AvoidFold(other, nav)
    decreases |hits|
  {
    if hits != [] {
      var k := |hits| - 1;
      assert forall i :: 0 <= i < k ==> hits[..k][i] == hits[i] && other[..k][i] == other[i];
      OnlyDetectedHitsMatter(hits[..k], other[..k], nav);
    }
  }

  /**
   * Every detected hit is within range, the fan is sensible and the force is
   * not negative: then every hit's strength is in [0, 1].
   */
  predicate WellFormedHits(hits: seq<Option<RayHit>>, nav: NavTuning) {
    nav.SensibleFan() && nav.obstacleAvoidanceForce >= 0.0 &&
    forall i :: 0 <= i < |hits| && hits[i].Some? ==>
      0.0 <= hits[i].value.distance <= nav.obstacleDetectionDistance
  }

  /** Every detected hit lies on a ray at or right of the heading. */
  predicate AllOnRight(hits: seq<Option<RayHit>>, nav: NavTuning) {
    forall i :: 0 <= i < |hits| && Detected(hits[i]) ==>
      RayAngle(i, nav.numberOfRays, nav.raySpreadAngle) >= 0.0
  }

  /** Every detected hit lies on a ray left of the heading. */
  predicate AllOnLeft(hits: seq<Option<RayHit>>, nav: NavTuning) {
    forall i :: 0 <= i < |hits| && Detected(hits[i]) ==>
      RayAngle(i, nav.numberOfRays, nav.raySpreadAngle) < 0.0
  }

  /**
   * Obstacles only at or right of the heading push the vote and the steering
   * sum left (non-positive), and strictly left as soon as one has a positive strength.
   */
  lemma {:induction false} RightObstaclesVoteLeft(hits: seq<Option<RayHit>>, nav: NavTuning)
    requires WellFormedHits(hits, nav) && AllOnRight(hits, nav)
    ensures LeaningLeft(AvoidFold(hits, nav))
    decreases |hits|
  {
    if hits != [] {
      var k := |hits| - 1;
      var prev := hits[..k];
      assert forall i :: 0 <= i < k ==> prev[i] == hits[i];
      RightObstaclesVoteLeft(prev, nav);
      RightStepLeansLeft(AvoidFold(prev, nav), k, hits[k], nav);
    }
  }

  /** Vote and steering sum at or below zero, the vote strictly once something was detected. */
  predicate LeaningLeft(acc: Avoidance) {
    acc.vote <= 0.0 && acc.steering <= 0.0 && (acc.strength > 0.0 ==> acc.vote < 0.0)
  }

  /** Vote and steering sum at or above zero, the vote strictly once something was detected. */
  predicate LeaningRight(acc: Avoidance) {
    acc.vote >= 0.0 && acc.steering >= 0.0 && (acc.strength > 0.0 ==> acc.vote > 0.0)
  }

  lemma RightStepLeansLeft(acc: Avoidance, k: int, hit: Option<RayHit>, nav: NavTuning)
    requires nav.SensibleFan() && nav.obstacleAvoidanceForce >= 0.0
    requires LeaningLeft(acc) && acc.strength >= 0.0
    requires Detected(hit) ==>
               0.0 <= hit.value.distance <= nav.obstacleDetectionDistance &&
               RayAngle(k, nav.numberOfRays, nav.raySpreadAngle) >= 0.0
    ensures LeaningLeft(AvoidStep(acc, RayAngle(k, nav.numberOfRays, nav.raySpreadAngle), hit, nav))
  {
    if Detected(hit) {
      var angle := RayAngle(k, nav.numberOfRays, nav.raySpreadAngle);
      RayWithinSpread(k, nav.numberOfRays, nav.raySpreadAngle);
      RayStrengthUnit(hit.value.distance, angle, nav);
      var s := RayStrength(hit.value.distance, angle, nav);
      ProductNonNegative(s, nav.obstacleAvoidanceForce);
      assert SteerDirection(angle) == -1.0;
      assert -1.0 * s * nav.obstacleAvoidanceForce == -(s * nav.obstacleAvoidanceForce);
    }
  }

  /** The mirror image: obstacles only left of the heading push the vote and the steering sum right. */
  lemma {:induction false} LeftObstaclesVoteRight(hits: seq<Option<RayHit>>, nav: NavTuning)
    requires WellFormedHits(hits, nav) && AllOnLeft(hits, nav)
    ensures LeaningRight(AvoidFold(hits, nav))
    decreases |hits|
  {
    if hits != [] {
      var k := |hits| - 1;
      var prev := hits[..k];
      assert forall i :: 0 <= i < k ==> prev[i] == hits[i];
      LeftObstaclesVoteRight(prev, nav);
      LeftStepLeansRight(AvoidFold(prev, nav), k, hits[k], nav);
    }
  }

  lemma LeftStepLeansRight(acc: Avoidance, k: int, hit: Option<RayHit>, nav: NavTuning)
    requires nav.SensibleFan() && nav.obstacleAvoidanceForce >= 0.0
    requires LeaningRight(acc) && acc.strength >= 0.0
    requires Detected(hit) ==>
               0.0 <= hit.value.distance <= nav.obstacleDetectionDistance &&
               RayAngle(k, nav.numberOfRays, nav.raySpreadAngle) < 0.0
    ensures LeaningRight(AvoidStep(acc, RayAngle(k, nav.numberOfRays, nav.raySpreadAngle), hit, nav))
  {
    if Detected(hit) {
      var angle := RayAngle(k, nav.numberOfRays, nav.raySpreadAngle);
      RayWithinSpread(k, nav.numberOfRays, nav.raySpreadAngle);
      RayStrengthUnit(hit.value.distance, angle, nav);
      var s := RayStrength(hit.value.distance, angle, nav);
      ProductNonNegative(s, nav.obstacleAvoidanceForce);
      assert SteerDirection(angle) == 1.0;
      assert 1.0 * s * nav.obstacleAvoidanceForce == s * nav.obstacleAvoidanceForce;
    }
  }

  /** What GetObstacleAvoidanceSteering returns: the steering in [-1, 1] and the raw obstacle strength. */
  datatype AvoidanceOutput = AvoidanceOutput(steering: real, strength: real)

  /**
   * The loop's accumulators turned into the returned pair: above the 0.1
   * threshold the steering is the sign of the vote times the clamped strength
   * times the force, otherwise the summed steering; clamped to [-1, 1].
   */
  function Finish(acc: Avoidance, nav: NavTuning): (r: AvoidanceOutput)
    ensures -1.0 <= r.steering <= 1.0
  {
    var steering :=
      if acc.strength > AvoidanceThreshold then Sign(acc.vote) * Clamp01(acc.strength) * nav.obstacleAvoidanceForce
      else acc.steering;
    AvoidanceOutput(Clamp(steering, -1.0, 1.0), acc.strength)
  }

  /** Finish on the three accumulators, one threshold case at a time. */
  lemma FinishOf(strength: real, vote: real, sum: real, nav: NavTuning)
    ensures strength > AvoidanceThreshold ==>
              Finish(Avoidance(strength, vote, sum), nav) ==
              AvoidanceOutput(Clamp(Sign(vote) * Clamp01(strength) * nav.obstacleAvoidanceForce, -1.0, 1.0), strength)
    ensures strength <= AvoidanceThreshold ==>
              Finish(Avoidance(strength, vote, sum), nav) == AvoidanceOutput(Clamp(sum, -1.0, 1.0), strength)
  {
  }

  /** What GetObstacleAvoidanceSteering returns for the given ray readings. */
  function AvoidanceResult(hits: seq<Option<RayHit>>, nav: NavTuning): (r: AvoidanceOutput)
    requires nav.SensingDivisorsNonZero()
    ensures -1.0 <= r.steering <= 1.0
    ensures r.strength >= 0.0
  {
    Finish(AvoidFold(hits, nav), nav)
  }

  /**
   * With every hit within the detection range, the returned obstacle strength
   * is at most 1: it is the strength of one of the hits, and each of those is
   * in [0, 1].
   */
  lemma StrengthAtMostOne(hits: seq<Option<RayHit>>, nav: NavTuning)
    requires WellFormedHits(hits, nav)
    ensures 0.0 <= AvoidanceResult(hits, nav).strength <= 1.0
  {
    StrengthIsMax(hits, nav);
    if AvoidFold(hits, nav).strength != 0.0 {
      var j :| 0 <= j < |hits| && Detected(hits[j]) && AvoidFold(hits, nav).strength == HitStrength(hits, j, nav);
      var angle := RayAngle(j, nav.numberOfRays, nav.raySpreadAngle);
      RayWithinSpread(j, nav.numberOfRays, nav.raySpreadAngle);
      RayStrengthUnit(hits[j].value.distance, angle, nav);
    }
  }

  /** Without a detected hit the AI neither avoids nor steers away. */
  lemma NothingDetectedNoSteering(hits: seq<Option<RayHit>>, nav: NavTuning)
    requires nav.SensingDivisorsNonZero()
    requires forall i :: 0 <= i < |hits| ==> !Detected(hits[i])
    ensures AvoidanceResult(hits, nav) == AvoidanceOutput(0.0, 0.0)
  {
    NoDetectionNoAvoidance(hits, nav);
  }

  /** Obstacles only at or right of the heading make the AI steer left (or not at all). */
  lemma RightObstaclesSteerLeft(hits: seq<Option<RayHit>>, nav: NavTuning)
    requires WellFormedHits(hits, nav) && AllOnRight(hits, nav)
    ensures AvoidanceResult(hits, nav).steering <= 0.0
  {
    RightObstaclesVoteLeft(hits, nav);
    var acc := AvoidFold(hits, nav);
    if acc.strength > AvoidanceThreshold {
      ProductNonNegative(Clamp01(acc.strength), nav.obstacleAvoidanceForce);
      assert Sign(acc.vote) * Clamp01(acc.strength) * nav.obstacleAvoidanceForce
          == -(Clamp01(acc.strength) * nav.obstacleAvoidanceForce);
    }
  }

  /** Obstacles only left of the heading make the AI steer right (or not at all). */
  lemma LeftObstaclesSteerRight(hits: seq<Option<RayHit>>, nav: NavTuning)
    requires WellFormedHits(hits, nav) && AllOnLeft(hits, nav)
    ensures AvoidanceResult(hits, nav).steering >= 0.0
  {
    LeftObstaclesVoteRight(hits, nav);
    var acc := AvoidFold(hits, nav);
    if acc.strength > AvoidanceThreshold {
      ProductNonNegative(Clamp01(acc.strength), nav.obstacleAvoidanceForce);
      assert Sign(acc.vote) * Clamp01(acc.strength) * nav.obstacleAvoidanceForce
          == Clamp01(acc.strength) * nav.obstacleAvoidanceForce;
    }
  }

  /** The steering sum equals the vote scaled by the avoidance force. */
  predicate ForcedVote(acc: Avoidance, force: real) {
    acc.steering == acc.vote * force
  }

  /**
   * The steering sum is the vote scaled by the avoidance force: every
   * detected ray adds dir * s to the one and dir * s * force to the other.
   */
  lemma {:induction false} SteeringIsForcedVote(hits: seq<Option<RayHit>>, nav: NavTuning)
    requires nav.SensingDivisorsNonZero()
    ensures ForcedVote(AvoidFold(hits, nav), nav.obstacleAvoidanceForce)
    decreases |hits|
  {
    if hits != [] {
      var k := |hits| - 1;
      SteeringIsForcedVote(hits[..k], nav);
      ForcedVoteStep(AvoidFold(hits[..k], nav), RayAngle(k, nav.numberOfRays, nav.raySpreadAngle), hits[k], nav);
    }
  }

  lemma ForcedVoteStep(acc: Avoidance, angle: real, hit: Option<RayHit>, nav: NavTuning)
    requires nav.SensingDivisorsNonZero()
    requires ForcedVote(acc, nav.obstacleAvoidanceForce)
    ensures ForcedVote(AvoidStep(acc, angle, hit, nav), nav.obstacleAvoidanceForce)
  {
    if Detected(hit) {
      var s := RayStrength(hit.value.distance, angle, nav);
      var dir := SteerDirection(angle);
      var f := nav.obstacleAvoidanceForce;
      assert (acc.vote + dir * s) * f == acc.vote * f + dir * s * f;
    }
  }

  /** The centre ray of the default nine-ray fan points straight ahead. */
  lemma DefaultFanCentreRayAhead(spread: real)
    ensures RayAngle(4, 9, spread) == 0.0
  {
    assert RayT(4, 9) == 0.5;
    assert Clamp01(0.5) == 0.5;
  }

  /**
   * A head-on hit (a ray at angle 0, such as a lone ray or the centre ray of
   * an odd fan) closer than the detection range, with no detected hit left of
   * the heading, makes the AI steer strictly left: Mathf.Sign(0) is +1, so
   * the head-on ray votes left.
   */
  lemma HeadOnHitSteersLeft(hits: seq<Option<RayHit>>, j: int, nav: NavTuning)
    requires WellFormedHits(hits, nav) && AllOnRight(hits, nav) && nav.obstacleAvoidanceForce > 0.0
    requires 0 <= j < |hits| && Detected(hits[j]) && RayAngle(j, nav.numberOfRays, nav.raySpreadAngle) == 0.0
    requires hits[j].value.distance < nav.obstacleDetectionDistance
    ensures AvoidanceResult(hits, nav).steering < 0.0
  {
    HeadOnHitIsFelt(hits, j, nav);
    RightObstaclesVoteLeft(hits, nav);
    SteeringIsForcedVote(hits, nav);
    FinishLeansLeft(AvoidFold(hits, nav), nav);
  }

  /** A head-on hit closer than the range makes the accumulated strength positive. */
  lemma HeadOnHitIsFelt(hits: seq<Option<RayHit>>, j: int, nav: NavTuning)
    requires nav.SensibleFan()
    requires 0 <= j < |hits| && Detected(hits[j]) && RayAngle(j, nav.numberOfRays, nav.raySpreadAngle) == 0.0
    requires 0.0 <= hits[j].value.distance < nav.obstacleDetectionDistance
    ensures AvoidFold(hits, nav).strength > 0.0
  {
    var D := nav.obstacleDetectionDistance;
    var d := hits[j].value.distance;
    assert d / D < 1.0 by {
      assert (d / D) * D == d;
      if d / D >= 1.0 {
        ScaleMonotone(D, 1.0, d / D);
      }
    }
    assert HitStrength(hits, j, nav) == 1.0 - d / D;
    StrengthIsMax(hits, nav);
  }

  /** Accumulators leaning strictly left give a strictly leftward steering under a positive force. */
  lemma FinishLeansLeft(acc: Avoidance, nav: NavTuning)
    requires nav.obstacleAvoidanceForce > 0.0
    requires acc.strength > 0.0 && acc.vote < 0.0
    requires ForcedVote(acc, nav.obstacleAvoidanceForce)
    ensures Finish(acc, nav).steering < 0.0
  {
    var f := nav.obstacleAvoidanceForce;
    var raw: real;
    if acc.strength > AvoidanceThreshold {
      var c := Clamp01(acc.strength);
      assert c > 0.0;
      ProductPositive(c, f);
      assert Sign(acc.vote) == -1.0;
      raw := Sign(acc.vote) * c * f;
      assert Finish(acc, nav).steering == Clamp(raw, -1.0, 1.0);
      assert raw == -(c * f);
    } else {
      ProductPositive(-acc.vote, f);
      raw := acc.steering;
      assert Finish(acc, nav).steering == Clamp(raw, -1.0, 1.0);
      assert raw == -((-acc.vote) * f);
    }
    assert raw < 0.0;
  }

  // ---------------------------------------------------------------------
  // Pursuit, steering and throttle decisions
  // ---------------------------------------------------------------------

  /** Where the target is, as the engine reports it. */
  datatype TargetReading = TargetReading(distance: real, angle: real)

  /** Steering toward the target, proportional to its bearing and clamped to [-1, 1]. */
  function PursuitSteering(angle: real, nav: NavTuning, drive: DriveTuning): (r: real)
    requires drive.maxSteeringAngle != 0.0
    ensures -1.0 <= r <= 1.0
  {
    Clamp(angle / drive.maxSteeringAngle * nav.steeringSensitivity, -1.0, 1.0)
  }

  /** With positive gains the pursuit steering turns toward the side the target is on. */
  lemma PursuitTurnsTowardTarget(angle: real, nav: NavTuning, drive: DriveTuning)
    requires drive.maxSteeringAngle > 0.0 && nav.steeringSensitivity > 0.0
    ensures angle > 0.0 ==> PursuitSteering(angle, nav, drive) > 0.0
    ensures angle < 0.0 ==> PursuitSteering(angle, nav, drive) < 0.0
    ensures angle == 0.0 ==> PursuitSteering(angle, nav, drive) == 0.0
  {
    var q := angle / drive.maxSteeringAngle;
    var x := q * nav.steeringSensitivity;
    QuotientSign(angle, drive.maxSteeringAngle);
    if angle > 0.0 {
      ProductPositive(q, nav.steeringSensitivity);
    } else if angle < 0.0 {
      ProductPositive(-q, nav.steeringSensitivity);
      assert (-q) * nav.steeringSensitivity == -x;
    }
  }

  /** The avoidance result counts as an obstacle: avoidance is on and the strength exceeds 0.1. */
  predicate Avoiding(hits: seq<Option<RayHit>>, nav: NavTuning)
    requires nav.SensingDivisorsNonZero()
  {
    nav.enableObstacleAvoidance && AvoidanceResult(hits, nav).strength > AvoidanceThreshold
  }

  /**
   * The steering command: the pursuit steering, or, while avoiding, the
   * Lerp from it toward the avoidance steering by avoidancePriority. It
   * always lies in [-1, 1] and between the two steering proposals.
   */
  function AiSteering(angle: real, hits: seq<Option<RayHit>>, nav: NavTuning, drive: DriveTuning): (r: real)
    requires drive.maxSteeringAngle != 0.0 && nav.SensingDivisorsNonZero()
    ensures -1.0 <= r <= 1.0
    ensures Between(PursuitSteering(angle, nav, drive), AvoidanceResult(hits, nav).steering, r)
    ensures !Avoiding(hits, nav) ==> r == PursuitSteering(angle, nav, drive)
  {
    var pursuit := PursuitSteering(angle, nav, drive);
    if Avoiding(hits, nav) then Lerp(pursuit, AvoidanceResult(hits, nav).steering, nav.avoidancePriority)
    else pursuit
  }

  /**
   * The throttle command once the target is known: brake (-1) inside the
   * stopping distance; otherwise full throttle below maxSpeed and coasting
   * at or above it, scaled for a sharp turn, and full throttle below
   * minSpeed regardless.
   */
  function ThrottleRule(distance: real, angle: real, speed: real, nav: NavTuning): (r: real)
    ensures r == 1.0 || r == 0.0 || r == nav.sharpTurnSpeedMultiplier || r == -1.0
    ensures -1.0 <= nav.sharpTurnSpeedMultiplier <= 1.0 ==> -1.0 <= r <= 1.0
  {
    if distance > nav.stoppingDistance then
      var base := if speed < nav.maxSpeed then 1.0 else 0.0;
      var turned := if Abs(angle) > nav.sharpTurnAngle then base * nav.sharpTurnSpeedMultiplier else base;
      if speed < nav.minSpeed then 1.0 else turned
    else -1.0
  }

  /** The decision table of ThrottleRule, case by case. */
  lemma ThrottleRuleCases(distance: real, angle: real, speed: real, nav: NavTuning)
    ensures distance <= nav.stoppingDistance ==> ThrottleRule(distance, angle, speed, nav) == -1.0
    ensures distance > nav.stoppingDistance && speed < nav.minSpeed ==> ThrottleRule(distance, angle, speed, nav) == 1.0
    ensures distance > nav.stoppingDistance && speed >= nav.minSpeed && speed >= nav.maxSpeed ==>
              ThrottleRule(distance, angle, speed, nav) == 0.0
    ensures distance > nav.stoppingDistance && nav.minSpeed <= speed < nav.maxSpeed ==>
              ThrottleRule(distance, angle, speed, nav) ==
                (if Abs(angle) > nav.sharpTurnAngle then nav.sharpTurnSpeedMultiplier else 1.0)
  {
  }

  /**
   * The slowdown the avoidance branch evidently intends: the throttle rule's
   * command, scaled by 1 - 0.5 * strength while avoiding.
   */
  function IntendedAiMoveInput(reading: TargetReading, speed: real, hits: seq<Option<RayHit>>, nav: NavTuning): real
    requires nav.SensingDivisorsNonZero()
  {
    var command := ThrottleRule(reading.distance, reading.angle, speed, nav);
    if Avoiding(hits, nav) then Slowed(command, AvoidanceResult(hits, nav).strength)
    else command
  }

  /** A throttle command scaled down for an obstacle of the given strength, as line 146 computes it. */
  function Slowed(command: real, strength: real): real {
    command * (1.0 - strength * AvoidanceSlowdown)
  }

  /**
   * With the intended slowdown, a forward command shrinks while avoiding an
   * obstacle within the detection range (so of strength at most 1): it keeps
   * its sign and loses more than 5%.
   */
  lemma IntendedSlowdownSlows(reading: TargetReading, speed: real, hits: seq<Option<RayHit>>, nav: NavTuning)
    requires WellFormedHits(hits, nav) && nav.SensingDivisorsNonZero() && Avoiding(hits, nav)
    requires ThrottleRule(reading.distance, reading.angle, speed, nav) > 0.0
    ensures 0.0 < IntendedAiMoveInput(reading, speed, hits, nav)
    ensures 0.5 * ThrottleRule(reading.distance, reading.angle, speed, nav) <= IntendedAiMoveInput(reading, speed, hits, nav)
    ensures IntendedAiMoveInput(reading, speed, hits, nav) < 0.95 * ThrottleRule(reading.distance, reading.angle, speed, nav)
  {
    var command := ThrottleRule(reading.distance, reading.angle, speed, nav);
    var strength := AvoidanceResult(hits, nav).strength;
    StrengthAtMostOne(hits, nav);
    assert IntendedAiMoveInput(reading, speed, hits, nav) == Slowed(command, strength);
    SlowdownShrinks(command, strength);
  }

  /**
   * For a strength above the avoidance threshold and at most 1, the slowdown
   * factor 1 - strength/2 lies in [0.5, 0.95): a positive command keeps at
   * least half of itself and loses more than 5%.
   */
  lemma SlowdownShrinks(command: real, strength: real)
    requires command > 0.0 && AvoidanceThreshold < strength <= 1.0
    ensures 0.0 < Slowed(command, strength)
    ensures 0.5 * command <= Slowed(command, strength)
    ensures Slowed(command, strength) < 0.95 * command
  {
    ScaledBetween(command, 1.0 - strength * AvoidanceSlowdown);
  }

  /** A positive command scaled by a factor in [0.5, 0.95). */
  lemma ScaledBetween(command: real, f: real)
    requires command > 0.0 && 0.5 <= f < 0.95
    ensures 0.0 < command * f
    ensures 0.5 * command <= command * f < 0.95 * command
  {
    ScaleMonotone(command, 0.5, f);
    ScaleStrict(command, f, 0.95);
  }

  /**
   * As written, the command an obstacle produces is the throttle rule's,
   * whatever the obstacle: a strong head-on obstacle while cruising leaves
   * full throttle, where the intended slowdown halves it.
   */
  lemma AvoidanceSlowdownLost(nav: NavTuning)
    requires nav.numberOfRays == 1 && nav.SensibleFan() && nav.enableObstacleAvoidance
    requires nav.stoppingDistance < 10.0 && nav.minSpeed <= 5.0 < nav.maxSpeed && nav.sharpTurnAngle >= 0.0
    ensures var hits := [Some(RayHit(0.0, false))];
            var reading := TargetReading(10.0, 0.0);
            ThrottleRule(reading.distance, reading.angle, 5.0, nav) == 1.0 &&
            IntendedAiMoveInput(reading, 5.0, hits, nav) == 0.5
  {
    var hits := [Some(RayHit(0.0, false))];
    LoneRayPointsAhead(nav.raySpreadAngle);
    assert hits[..0] == [];
    assert RayStrength(0.0, 0.0, nav) == 1.0;
    assert AvoidFold(hits, nav).strength == 1.0;
  }

  // ---------------------------------------------------------------------
  // Throttle smoothing and torque
  // ---------------------------------------------------------------------

  /**
   * One tick of the AI's smoothing: MoveTowards the command at accelResponse
   * when the command is larger in magnitude, decelResponse otherwise; there
   * is no snap on a change of direction.
   */
  function AiThrottleStep(current: real, command: real, tuning: DriveTuning, dt: real): real {
    MoveTowards(current, command, ResponseRate(current, command, tuning) * dt)
  }

  /** A smoothing tick never overshoots the command and gets no farther from it. */
  lemma AiThrottleStepApproaches(current: real, command: real, tuning: DriveTuning, dt: real)
    requires tuning.NonNegativeRates() && dt >= 0.0
    ensures var r := AiThrottleStep(current, command, tuning, dt);
            Between(current, command, r) && Abs(r - command) <= Abs(current - command)
  {
    var responseRate := ResponseRate(current, command, tuning);
    ProductNonNegative(responseRate, dt);
    MoveTowardsApproaches(current, command, responseRate * dt);
  }

  /** k smoothing ticks toward a fixed command. */
  function AiThrottleRun(current: real, command: real, tuning: DriveTuning, dt: real, k: nat): real
    decreases k
  {
    if k == 0 then current else AiThrottleRun(AiThrottleStep(current, command, tuning, dt), command, tuning, dt, k - 1)
  }

  /**
   * Under a fixed command, each tick closes the gap by at least delta, a
   * lower bound on both rates times dt, until the throttle sits on the command.
   */
  lemma AiThrottleStepCloses(current: real, command: real, tuning: DriveTuning, dt: real, delta: real)
    requires 0.0 <= delta <= tuning.accelResponse * dt && delta <= tuning.decelResponse * dt
    ensures Abs(AiThrottleStep(current, command, tuning, dt) - command) <= Max(0.0, Abs(current - command) - delta)
  {
    AiThrottleStepIs(current, command, tuning, dt);
    StepAtRateCloses(current, command, AiThrottleStep(current, command, tuning, dt), ResponseRate(current, command, tuning),
                     tuning.accelResponse, tuning.decelResponse, dt, delta);
  }

  /** A smoothing tick is Mathf.MoveTowards by the chosen rate times dt. */
  lemma AiThrottleStepIs(current: real, command: real, tuning: DriveTuning, dt: real)
    ensures AiThrottleStep(current, command, tuning, dt) ==
            MoveTowards(current, command, ResponseRate(current, command, tuning) * dt)
  {
  }

  /**
   * A step next of MoveTowards at either of two rates closes the gap by
   * delta when delta is below both rates times dt.
   */
  lemma StepAtRateCloses(current: real, command: real, next: real, rate: real, a: real, d: real, dt: real, delta: real)
    requires next == MoveTowards(current, command, rate * dt)
    requires rate == a || rate == d
    requires 0.0 <= delta <= a * dt && delta <= d * dt
    ensures Abs(next - command) <= Max(0.0, Abs(current - command) - delta)
  {
    RateBound(rate, a, d, dt, delta);
    MoveTowardsCloses(current, command, rate * dt, delta);
  }

  /** A bound below both a * dt and d * dt is below rate * dt for either choice of rate. */
  lemma RateBound(rate: real, a: real, d: real, dt: real, delta: real)
    requires rate == a || rate == d
    requires delta <= a * dt && delta <= d * dt
    ensures delta <= rate * dt
  {
    if rate == a {
      assert rate * dt == a * dt;
    } else {
      assert rate * dt == d * dt;
    }
  }

  /**
   * After k ticks toward a fixed command the gap has shrunk by k * delta or
   * closed: the AI's throttle reaches any command in finitely many ticks.
   */
  lemma {:induction false} AiThrottleConverges(current: real, command: real, tuning: DriveTuning, dt: real, delta: real, k: nat)
    requires 0.0 <= delta <= tuning.accelResponse * dt && delta <= tuning.decelResponse * dt
    ensures Abs(AiThrottleRun(current, command, tuning, dt, k) - command) <= Max(0.0, Abs(current - command) - Ticks(k, delta))
    decreases k
  {
    if k > 0 {
      var next := AiThrottleStep(current, command, tuning, dt);
      AiThrottleStepCloses(current, command, tuning, dt, delta);
      AiThrottleConverges(next, command, tuning, dt, delta, k - 1);
      var before := Ticks(k - 1, delta);
      var total := Ticks(k, delta);
      TicksStep(k, delta);
      var g0 := Abs(current - command);
      var g1 := Abs(next - command);
      assert AiThrottleRun(current, command, tuning, dt, k) == AiThrottleRun(next, command, tuning, dt, k - 1);
      var gk := Abs(AiThrottleRun(next, command, tuning, dt, k - 1) - command);
      assert g1 >= 0.0;
      assert before >= 0.0;
      assert g1 <= Max(0.0, g0 - delta);
      assert gk <= Max(0.0, g1 - before);
      GapShrinks(g0, g1, gk, delta, before, total);
    }
  }

  /** k times delta: how far k ticks of at least delta close a gap. */
  function Ticks(k: nat, delta: real): real {
    (k as real) * delta
  }

  lemma TicksStep(k: nat, delta: real)
    requires k > 0 && delta >= 0.0
    ensures Ticks(k, delta) == Ticks(k - 1, delta) + delta
    ensures Ticks(k - 1, delta) >= 0.0
  {
    ProductNonNegative((k - 1) as real, delta);
  }

  /** The bookkeeping step of AiThrottleConverges: a gap closed by delta, then by before, is closed by their sum. */
  lemma GapShrinks(g0: real, g1: real, gk: real, delta: real, before: real, total: real)
    requires g1 >= 0.0 && before >= 0.0 && total == before + delta
    requires g1 <= Max(0.0, g0 - delta) && gk <= Max(0.0, g1 - before)
    ensures gk <= Max(0.0, g0 - total)
  {
  }

  /**
   * The AI's torque for one wheel: like the player's, but it always brakes
   * against motion and has no explicit brake; the throttle is only read.
   */
  function AiWheel(w: Wheel, throttle: real, forwardVel: real, tuning: DriveTuning): Wheel {
    if !w.hasCollider then w
    else if Abs(throttle) > ThrottleDeadZone then
      if AgainstMotion(throttle, forwardVel) then WithTorque(w, 0.0, tuning.maxBrakeTorque)
      else if w.isDriven then WithTorque(w, DriveTorque(throttle, tuning), 0.0)
      else WithTorque(w, 0.0, 0.0)
    else WithTorque(w, 0.0, 0.0)
  }

  /** The AI's Move loop over a list of wheels: each entry becomes its AiWheel. */
  function AiMoveAll(ws: seq<Wheel>, throttle: real, forwardVel: real, tuning: DriveTuning): (r: seq<Wheel>)
    ensures |r| == |ws|
    ensures forall i :: 0 <= i < |ws| ==> r[i] == AiWheel(ws[i], throttle, forwardVel, tuning)
  {
    seq(|ws|, i requires 0 <= i < |ws| => AiWheel(ws[i], throttle, forwardVel, tuning))
  }

  /**
   * One FixedUpdate of the AI's car: the throttle moves toward the move
   * command, Move writes the torques when the car has a rigidbody, and Steer
   * blends the front wheels toward the speed-attenuated steering command.
   */
  function AiPhysicsTick(ws: seq<Wheel>, throttle: real, command: real, steerCommand: real,
                         body: Option<VehicleControl.BodyReading>, drive: DriveTuning, dt: real): (r: VehicleControl.MoveState)
    ensures |r.wheels| == |ws|
  {
    var smoothed := AiThrottleStep(throttle, command, drive, dt);
    var moved := if body.None? then ws else AiMoveAll(ws, smoothed, body.value.forwardVel, drive);
    VehicleControl.MoveState(SteerAll(moved, CommandedSteerAngle(steerCommand, drive, VehicleControl.SpeedOf(body))), smoothed)
  }

  /**
   * An AI physics tick brings the throttle no farther from the move command,
   * so a throttle and a command in [-1, 1] leave the throttle in [-1, 1];
   * no wheel field changes but the two torques and the steer angle.
   */
  lemma AiPhysicsTickKeeps(ws: seq<Wheel>, throttle: real, command: real, steerCommand: real,
                           body: Option<VehicleControl.BodyReading>, drive: DriveTuning, dt: real)
    requires drive.NonNegativeRates() && dt >= 0.0
    ensures var r := AiPhysicsTick(ws, throttle, command, steerCommand, body, drive, dt);
            Between(throttle, command, r.throttle) &&
            Abs(r.throttle - command) <= Abs(throttle - command) &&
            (-1.0 <= throttle <= 1.0 && -1.0 <= command <= 1.0 ==> -1.0 <= r.throttle <= 1.0) &&
            forall i :: 0 <= i < |ws| ==>
              r.wheels[i].(motorTorque := ws[i].motorTorque, brakeTorque := ws[i].brakeTorque,
                           steerAngle := ws[i].steerAngle) == ws[i]
  {
    AiThrottleStepApproaches(throttle, command, drive, dt);
  }

  /**
   * The AI's wheel torques never fight the car's motion: a wheel gets motor
   * torque only outside the dead zone and when the throttle is not against
   * motion, and never motor and brake torque at once.
   */
  lemma AiTorqueFollowsMotion(w: Wheel, throttle: real, forwardVel: real, tuning: DriveTuning)
    requires w.hasCollider
    ensures var r := AiWheel(w, throttle, forwardVel, tuning);
            (r.motorTorque != 0.0 ==> Abs(throttle) > ThrottleDeadZone && !AgainstMotion(throttle, forwardVel) && r.brakeTorque == 0.0) &&
            (Abs(throttle) > ThrottleDeadZone && AgainstMotion(throttle, forwardVel) ==>
               r.motorTorque == 0.0 && r.brakeTorque == tuning.maxBrakeTorque)
  {
  }

  /**
   * Where the enemy and the player agree: outside a throttle against motion
   * and without the explicit brake, the player's wheel loop leaves the
   * throttle alone and gives every wheel the AI's torques.
   */
  lemma {:induction false} PlayerMoveMatchesAi(ws: seq<Wheel>, throttle: real, ctx: VehicleControl.MoveContext)
    requires !AgainstMotion(throttle, ctx.forwardVel) && !ctx.explicitBrake
    ensures VehicleControl.MoveFold(ws, throttle, ctx).throttle == throttle
    ensures forall i :: 0 <= i < |ws| ==>
              VehicleControl.MoveFold(ws, throttle, ctx).wheels[i] == AiWheel(ws[i], throttle, ctx.forwardVel, ctx.tuning)
    decreases |ws|
  {
    if ws != [] {
      var k := |ws| - 1;
      assert forall i :: 0 <= i < k ==> ws[..k][i] == ws[i];
      PlayerMoveMatchesAi(ws[..k], throttle, ctx);
      VehicleControl.MoveFoldLast(ws, throttle, ctx);
    }
  }

  // ---------------------------------------------------------------------
  // The controller
  // ---------------------------------------------------------------------

  class EnemyAI {
    const nav: NavTuning
    const drive: DriveTuning
    const wheels: array<Wheel>
    var aiMoveInput: real
    var aiSteerInput: real
    var currentThrottle: real
    var isAvoidingObstacle: bool

    constructor (nav: NavTuning, drive: DriveTuning, wheels: array<Wheel>)
      ensures this.nav == nav && this.drive == drive && this.wheels == wheels
      ensures aiMoveInput == 0.0 && aiSteerInput == 0.0 && currentThrottle == 0.0 && !isAvoidingObstacle
    {
      this.nav := nav;
      this.drive := drive;
      this.wheels := wheels;
      aiMoveInput := 0.0;
      aiSteerInput := 0.0;
      currentThrottle := 0.0;
      isAvoidingObstacle := false;
    }

    /** The commands and the throttle all lie in [-1, 1]. */
    predicate InRange()
      reads this
    {
      -1.0 <= aiMoveInput <= 1.0 && -1.0 <= aiSteerInput <= 1.0 && -1.0 <= currentThrottle <= 1.0
    }

    /**
     * Casts the ray fan (hits[i] is what ray i reported) and folds the hits
     * into the returned steering and obstacle strength.
     */
    method GetObstacleAvoidanceSteering(hits: seq<Option<RayHit>>) returns (steering: real, obstacleStrength: real)
      requires nav.SensingDivisorsNonZero()
      requires |hits| == RayCount(nav.numberOfRays)
      ensures AvoidanceOutput(steering, obstacleStrength) == AvoidanceResult(hits, nav)
    {
      var avoidanceSteering := 0.0;
      obstacleStrength := 0.0;
      var preferredSteerDirection := 0.0;
      var i := 0;
      while i < nav.numberOfRays
        invariant 0 <= i <= |hits|
        invariant Avoidance(obstacleStrength, preferredSteerDirection, avoidanceSteering) == AvoidFold(hits[..i], nav)
      {
        var angle := RayAngle(i, nav.numberOfRays, nav.raySpreadAngle);
        AvoidFoldExtend(hits, i, nav);
        obstacleStrength, preferredSteerDirection, avoidanceSteering :=
          AccumulateRay(hits[i], angle, obstacleStrength, preferredSteerDirection, avoidanceSteering);
        i := i + 1;
      }
      assert hits[..i] == hits;
      steering := FinishSteering(obstacleStrength, preferredSteerDirection, avoidanceSteering);
    }

    /**
     * The lines after the ray loop: above the threshold the summed steering is
     * replaced by the vote's sign times the clamped strength times the force;
     * the result is clamped to [-1, 1].
     */
    method FinishSteering(strength: real, vote: real, sum: real) returns (steering: real)
      ensures AvoidanceOutput(steering, strength) == Finish(Avoidance(strength, vote, sum), nav)
    {
      FinishOf(strength, vote, sum, nav);
      var avoidanceSteering := sum;
      if strength > AvoidanceThreshold {
        avoidanceSteering := Sign(vote) * Clamp01(strength) * nav.obstacleAvoidanceForce;
      }
      steering := Clamp(avoidanceSteering, -1.0, 1.0);
    }

    /**
     * The body of the ray loop for one ray at the given angle: a hit on
     * anything but the car itself updates the three accumulators.
     */
    method AccumulateRay(hit: Option<RayHit>, angle: real, strength: real, vote: real, sum: real)
      returns (strength': real, vote': real, sum': real)
      requires nav.SensingDivisorsNonZero()
      ensures Avoidance(strength', vote', sum') == AvoidStep(Avoidance(strength, vote, sum), angle, hit, nav)
    {
      strength', vote', sum' := strength, vote, sum;
      if hit.None? || hit.value.isSelf {
        return;
      }
      var rayAvoidanceStrength := RayStrength(hit.value.distance, angle, nav);
      strength' := Max(strength, rayAvoidanceStrength);
      var steerDirection := SteerDirection(angle);
      vote' := vote + steerDirection * rayAvoidanceStrength;
      sum' := sum + steerDirection * rayAvoidanceStrength * nav.obstacleAvoidanceForce;
      assert Avoidance(strength', vote', sum') ==
             AddRay(Avoidance(strength, vote, sum), rayAvoidanceStrength, steerDirection, nav.obstacleAvoidanceForce);
      assert AvoidStep(Avoidance(strength, vote, sum), angle, hit, nav) ==
             AddRay(Avoidance(strength, vote, sum), rayAvoidanceStrength, steerDirection, nav.obstacleAvoidanceForce);
    }

    /**
     * One frame of decision making: with no target both commands are 0;
     * otherwise steering from the pursuit rule, blended toward avoidance
     * while avoiding, and the throttle command from ThrottleRule. The
     * slowdown for an obstacle is applied and then overwritten.
     */
    method UpdateAIInputs(target: Option<TargetReading>, speed: real, hits: seq<Option<RayHit>>)
      requires target.Some? ==> drive.maxSteeringAngle != 0.0
      requires target.Some? && nav.enableObstacleAvoidance ==>
                 nav.SensingDivisorsNonZero() && |hits| == RayCount(nav.numberOfRays)
      modifies this`aiMoveInput, this`aiSteerInput, this`isAvoidingObstacle
      ensures target.None? ==>
                aiMoveInput == 0.0 && aiSteerInput == 0.0 && isAvoidingObstacle == old(isAvoidingObstacle)
      ensures target.Some? ==>
                aiMoveInput == ThrottleRule(target.value.distance, target.value.angle, speed, nav)
      ensures target.Some? && !nav.enableObstacleAvoidance ==>
                aiSteerInput == PursuitSteering(target.value.angle, nav, drive) &&
                isAvoidingObstacle == old(isAvoidingObstacle)
      ensures target.Some? && nav.enableObstacleAvoidance ==>
                aiSteerInput == AiSteering(target.value.angle, hits, nav, drive) &&
                isAvoidingObstacle == Avoiding(hits, nav)
      ensures -1.0 <= aiSteerInput <= 1.0
      ensures -1.0 <= nav.sharpTurnSpeedMultiplier <= 1.0 ==> -1.0 <= aiMoveInput <= 1.0
    {
      if target.None? {
        aiMoveInput := 0.0;
        aiSteerInput := 0.0;
        return;
      }
      var distanceToTarget := target.value.distance;
      var angleToTarget := target.value.angle;
      var targetSteering := PursuitSteering(angleToTarget, nav, drive);
      if nav.enableObstacleAvoidance {
        var avoidanceSteering, obstacleDetected := GetObstacleAvoidanceSteering(hits);
        if obstacleDetected > AvoidanceThreshold {
          isAvoidingObstacle := true;
          aiSteerInput := Lerp(targetSteering, avoidanceSteering, nav.avoidancePriority);
          aiMoveInput := aiMoveInput * (1.0 - obstacleDetected * AvoidanceSlowdown);
        } else {
          isAvoidingObstacle := false;
          aiSteerInput := targetSteering;
        }
      } else {
        aiSteerInput := targetSteering;
      }
      if distanceToTarget > nav.stoppingDistance {
        if speed < nav.maxSpeed {
          aiMoveInput := 1.0;
        } else {
          aiMoveInput := 0.0;
        }
        if Abs(angleToTarget) > nav.sharpTurnAngle {
          aiMoveInput := aiMoveInput * nav.sharpTurnSpeedMultiplier;
        }
        if speed < nav.minSpeed {
          aiMoveInput := 1.0;
        }
      } else {
        aiMoveInput := -1.0;
      }
    }

    /** Moves currentThrottle toward aiMoveInput over one fixed step dt. */
    method UpdateThrottleSmoothing(dt: real)
      modifies this`currentThrottle
      ensures currentThrottle == AiThrottleStep(old(currentThrottle), aiMoveInput, drive, dt)
    {
      var target := aiMoveInput;
      var responseRate := ResponseRate(currentThrottle, target, drive);
      currentThrottle := MoveTowards(currentThrottle, target, responseRate * dt);
    }

    /**
     * Writes motor and brake torque to every wheel with a collider; does
     * nothing when the car has no rigidbody. currentThrottle is only read.
     */
    method Move(forwardVel: Option<real>)
      modifies wheels
      ensures forwardVel.None? ==> wheels[..] == old(wheels[..])
      ensures forwardVel.Some? ==>
                forall i :: 0 <= i < wheels.Length ==>
                  wheels[i] == AiWheel(old(wheels[i]), currentThrottle, forwardVel.value, drive)
      ensures forwardVel.Some? ==> wheels[..] == AiMoveAll(old(wheels[..]), currentThrottle, forwardVel.value, drive)
    {
      if forwardVel.None? {
        return;
      }
      var fwd := forwardVel.value;
      var i := 0;
      while i < wheels.Length
        invariant 0 <= i <= wheels.Length
        invariant forall j :: 0 <= j < i ==> wheels[j] == AiWheel(old(wheels[j]), currentThrottle, fwd, drive)
        invariant forall j :: i <= j < wheels.Length ==> wheels[j] == old(wheels[j])
      {
        var w := wheels[i];
        if !w.hasCollider {
          i := i + 1;
          continue;
        }
        var motor := 0.0;
        var brake := 0.0;
        if Abs(currentThrottle) > ThrottleDeadZone {
          var reversingAgainstMotion :=
            Sign(currentThrottle) != 0.0 &&
            Sign(currentThrottle) != Sign(fwd) &&
            Abs(fwd) > ReverseBrakeSpeed;
          if reversingAgainstMotion {
            brake := drive.maxBrakeTorque;
            motor := 0.0;
          } else {
            if w.isDriven {
              motor := DriveTorque(currentThrottle, drive);
              brake := 0.0;
            } else {
              motor := 0.0;
              brake := 0.0;
            }
          }
        } else {
          motor := 0.0;
          brake := 0.0;
        }
        wheels[i] := w.(motorTorque := motor, brakeTorque := brake);
        i := i + 1;
      }
    }

    /**
     * Blends every front wheel with a collider toward the steering command
     * scaled by turnSensitivity and maxSteeringAngle, attenuated by speed
     * when the car has a rigidbody.
     */
    method Steer(speed: Option<real>)
      modifies wheels
      ensures forall i :: 0 <= i < wheels.Length ==>
                wheels[i] == SteeredWheel(old(wheels[i]), CommandedSteerAngle(aiSteerInput, drive, speed))
      ensures wheels[..] == SteerAll(old(wheels[..]), CommandedSteerAngle(aiSteerInput, drive, speed))
    {
      var steerAngle := FullSteerAngle(aiSteerInput, drive);
      if speed.Some? {
        var steerFactor := SteerFactor(speed.value);
        steerAngle := steerAngle * steerFactor;
      }
      assert steerAngle == CommandedSteerAngle(aiSteerInput, drive, speed);
      SteerWheels(wheels, steerAngle);
    }

    /**
     * One physics step: smoothing, torque, steering, as AiPhysicsTick. A
     * throttle and commands in [-1, 1] stay there, and the wheels keep their
     * configuration.
     */
    method FixedUpdate(body: Option<VehicleControl.BodyReading>, dt: real)
      modifies this`currentThrottle, wheels
      ensures VehicleControl.MoveState(wheels[..], currentThrottle) ==
              AiPhysicsTick(old(wheels[..]), old(currentThrottle), aiMoveInput, aiSteerInput, body, drive, dt)
      ensures old(InRange()) && drive.NonNegativeRates() && dt >= 0.0 ==> InRange()
      ensures forall i :: 0 <= i < wheels.Length ==>
                wheels[i].(motorTorque := old(wheels[i]).motorTorque,
                           brakeTorque := old(wheels[i]).brakeTorque,
                           steerAngle := old(wheels[i]).steerAngle) == old(wheels[i])
    {
      if drive.NonNegativeRates() && dt >= 0.0 {
        AiPhysicsTickKeeps(wheels[..], currentThrottle, aiMoveInput, aiSteerInput, body, drive, dt);
      }
      UpdateThrottleSmoothing(dt);
      Move(if body.Some? then Some(body.value.forwardVel) else None);
      Steer(VehicleControl.SpeedOf(body));
    }
  }
}
