/**
 * The car's health: integer hit points, a dead flag and the time of the
 * last damaging collision. Collisions on the damage layers that are fast
 * enough, and not inside the invulnerability window, deal damage that grows
 * linearly with the impact speed above a threshold, floored and clamped.
 */
module Health {
  import opened UnityMath

  /** The inspector parameters of the health component. */
  datatype HealthConfig = HealthConfig(
    maxHealth: int,
    damageLayer: bv32,
    minDamageSpeed: real,
    damageScale: real,
    maxDamagePerHit: int,
    invulnerabilityAfterHit: real)

  /** The fields the component updates. */
  datatype HealthState = HealthState(currentHealth: int, lastDamageTime: real, isDead: bool)

  /** lastDamageTime before any hit: far enough in the past that the first hit is never blocked. */
  const InitialLastDamageTime: real := -10.0

  /** Health within [0, maxHealth], and a dead car has none left. */
  predicate Valid(s: HealthState, config: HealthConfig) {
    0 <= s.currentHealth <= config.maxHealth && (s.isDead ==> s.currentHealth == 0)
  }

  // ---------------------------------------------------------------------
  // Awake and TakeDamage
  // ---------------------------------------------------------------------

  /** Awake clamps the inspector value of currentHealth into [0, maxHealth]. */
  function AwakeHealth(currentHealth: int, maxHealth: int): (r: int)
    ensures maxHealth >= 0 ==> 0 <= r <= maxHealth
    ensures 0 <= currentHealth <= maxHealth ==> r == currentHealth
    ensures maxHealth >= 0 && currentHealth > maxHealth ==> r == maxHealth
    ensures currentHealth < 0 ==> r == 0
  {
    ClampInt(currentHealth, 0, maxHealth)
  }

  /**
   * TakeDamage: nothing for a dead car or a non-positive amount; otherwise
   * health drops by the amount, not below 0, and the car dies at 0.
   */
  function TakeDamageSpec(s: HealthState, amount: int): HealthState {
    if s.isDead || amount <= 0 then s
    else
      var health := MaxInt(s.currentHealth - amount, 0);
      if health <= 0 then HealthState(health, s.lastDamageTime, true)
      else HealthState(health, s.lastDamageTime, s.isDead)
  }

  /** The two no-op cases of TakeDamage. */
  lemma TakeDamageIgnored(s: HealthState, amount: int)
    requires s.isDead || amount <= 0
    ensures TakeDamageSpec(s, amount) == s
  {
  }

  /**
   * Damage that lands: health becomes max(old - amount, 0), so it is never
   * negative and strictly lower unless already at 0; the car is dead
   * afterwards exactly when the amount used up all its health.
   */
  lemma TakeDamageApplies(s: HealthState, amount: int)
    requires !s.isDead && amount > 0
    ensures var r := TakeDamageSpec(s, amount);
            r.currentHealth == (if s.currentHealth - amount > 0 then s.currentHealth - amount else 0) &&
            r.currentHealth >= 0 &&
            (r.currentHealth < s.currentHealth || s.currentHealth <= 0) &&
            (r.isDead <==> amount >= s.currentHealth) &&
            r.lastDamageTime == s.lastDamageTime
  {
  }

  /** TakeDamage keeps the health invariant and never raises health. */
  lemma TakeDamageKeepsValid(s: HealthState, amount: int, config: HealthConfig)
    requires Valid(s, config)
    ensures Valid(TakeDamageSpec(s, amount), config)
    ensures TakeDamageSpec(s, amount).currentHealth <= s.currentHealth
  {
  }

  // ---------------------------------------------------------------------
  // Collisions
  // ---------------------------------------------------------------------

  /** What OnCollisionEnter reads from a collision: the other object's layer and the impact speed. */
  datatype Collision = Collision(layer: int, impactSpeed: real)

  /**
   * The layer test: bit (layer mod 32) of the mask, since a C# shift of a
   * 32-bit int uses only the low five bits of its count.
   */
  predicate LayerDamages(mask: bv32, layer: int) {
    mask & ((1 as bv32) << (layer % 32)) != 0
  }

  /** The default mask, 1 << 0, lets exactly the Default layer (0) through among layers 0 to 31. */
  lemma DefaultMaskOnlyDefaultLayer(layer: int)
    requires 0 <= layer < 32
    ensures LayerDamages(1, layer) <==> layer == 0
  {
  }

  /** The unrounded damage of an impact: linear in the speed above minDamageSpeed. */
  function RawDamage(impactSpeed: real, config: HealthConfig): real {
    (impactSpeed - config.minDamageSpeed) * config.damageScale
  }

  /** The damage of an impact: RawDamage floored, clamped to [1, maxDamagePerHit]. */
  function CollisionDamage(impactSpeed: real, config: HealthConfig): (r: int)
    ensures config.maxDamagePerHit >= 1 ==> 1 <= r <= config.maxDamagePerHit
  {
    ClampInt(FloorToInt(RawDamage(impactSpeed, config)), 1, config.maxDamagePerHit)
  }

  /**
   * With a non-negative damageScale and maxDamagePerHit at least 1, a harder
   * impact never does less damage.
   */
  lemma CollisionDamageMonotone(slow: real, fast: real, config: HealthConfig)
    requires slow <= fast && config.damageScale >= 0.0 && config.maxDamagePerHit >= 1
    ensures CollisionDamage(slow, config) <= CollisionDamage(fast, config)
  {
    var a := RawDamage(slow, config);
    var b := RawDamage(fast, config);
    assert a <= b by {
      ScaleMonotone(config.damageScale, slow - config.minDamageSpeed, fast - config.minDamageSpeed);
      assert config.damageScale * (slow - config.minDamageSpeed) == a;
      assert config.damageScale * (fast - config.minDamageSpeed) == b;
    }
    FloorMonotone(a, b);
  }

  /**
   * With maxDamagePerHit below 1 the clamp is not monotone: an impact whose
   * floored damage is below 1 does 1 damage, a harder one does maxDamagePerHit.
   */
  lemma ClampBelowOneNotMonotone(config: HealthConfig)
    requires config.maxDamagePerHit < 1 && config.damageScale == 1.0 && config.minDamageSpeed == 0.0
    ensures CollisionDamage(0.0, config) == 1 && CollisionDamage(1.0, config) == config.maxDamagePerHit
  {
    assert RawDamage(0.0, config) == 0.0;
    assert RawDamage(1.0, config) == 1.0;
  }

  lemma FloorMonotone(a: real, b: real)
    requires a <= b
    ensures FloorToInt(a) <= FloorToInt(b)
  {
    var fa := FloorToInt(a);
    var fb := FloorToInt(b);
    assert fa as real <= b;
    assert b < fb as real + 1.0;
  }

  /** The collision passes every gate of OnCollisionEnter and will apply its damage. */
  predicate PassesGates(s: HealthState, config: HealthConfig, c: Collision, now: real) {
    !s.isDead &&
    LayerDamages(config.damageLayer, c.layer) &&
    now >= s.lastDamageTime + config.invulnerabilityAfterHit &&
    c.impactSpeed >= config.minDamageSpeed
  }

  /**
   * OnCollisionEnter at time now: ignored by a dead car, on a layer outside
   * the mask, inside the invulnerability window or below minDamageSpeed;
   * otherwise TakeDamage with the collision damage, then the time stamp.
   */
  function CollisionSpec(s: HealthState, config: HealthConfig, c: Collision, now: real): HealthState {
    if s.isDead then s
    else if !LayerDamages(config.damageLayer, c.layer) then s
    else if now < s.lastDamageTime + config.invulnerabilityAfterHit then s
    else if c.impactSpeed < config.minDamageSpeed then s
    else TakeDamageSpec(s, CollisionDamage(c.impactSpeed, config)).(lastDamageTime := now)
  }

  /**
   * A collision changes the state only when it passes every gate; then it
   * stamps lastDamageTime with now (even when a maxDamagePerHit below 1
   * makes the damage a no-op) and, with maxDamagePerHit at least 1, takes
   * between 1 and maxDamagePerHit hit points, not going below 0.
   */
  lemma CollisionGates(s: HealthState, config: HealthConfig, c: Collision, now: real)
    ensures !PassesGates(s, config, c, now) ==> CollisionSpec(s, config, c, now) == s
    ensures PassesGates(s, config, c, now) ==>
              var r := CollisionSpec(s, config, c, now);
              var damage := CollisionDamage(c.impactSpeed, config);
              r.lastDamageTime == now &&
              (config.maxDamagePerHit >= 1 ==>
                 r.currentHealth == MaxInt(s.currentHealth - damage, 0) &&
                 (r.isDead <==> s.currentHealth <= damage))
  {
    if PassesGates(s, config, c, now) && config.maxDamagePerHit >= 1 {
      TakeDamageApplies(s, CollisionDamage(c.impactSpeed, config));
    }
  }

  /**
   * The invulnerability window: right after a damaging collision, another
   * collision before lastDamageTime + invulnerabilityAfterHit has no effect.
   */
  lemma InvulnerableAfterHit(s: HealthState, config: HealthConfig, first: Collision, t1: real, second: Collision, t2: real)
    requires PassesGates(s, config, first, t1)
    requires t2 < t1 + config.invulnerabilityAfterHit
    ensures var after := CollisionSpec(s, config, first, t1);
            CollisionSpec(after, config, second, t2) == after
  {
  }

  // ---------------------------------------------------------------------
  // Runs of events
  // ---------------------------------------------------------------------

  /** Something that can happen to the health component after Awake. */
  datatype HealthEvent =
    | Damage(amount: int)
    | Hit(collision: Collision, time: real)

  function ApplyEvent(s: HealthState, config: HealthConfig, e: HealthEvent): HealthState {
    match e
    case Damage(amount) => TakeDamageSpec(s, amount)
    case Hit(c, time) => CollisionSpec(s, config, c, time)
  }

  /** The state after a sequence of events, in order. */
  function Run(s: HealthState, config: HealthConfig, events: seq<HealthEvent>): HealthState
    decreases |events|
  {
    if events == [] then s else Run(ApplyEvent(s, config, events[0]), config, events[1..])
  }

  /** Death is final: once dead, no sequence of events changes anything. */
  lemma {:induction false} DeadIsAbsorbing(s: HealthState, config: HealthConfig, events: seq<HealthEvent>)
    requires s.isDead
    ensures Run(s, config, events) == s
    decreases |events|
  {
    if events != [] {
      DeadIsAbsorbing(ApplyEvent(s, config, events[0]), config, events[1..]);
    }
  }

  /**
   * From a valid state, every run of events keeps health within
   * [0, maxHealth], never raises it, and never revives a dead car.
   */
  lemma {:induction false} RunKeepsValid(s: HealthState, config: HealthConfig, events: seq<HealthEvent>)
    requires Valid(s, config)
    ensures Valid(Run(s, config, events), config)
    ensures Run(s, config, events).currentHealth <= s.currentHealth
    ensures s.isDead ==> Run(s, config, events).isDead
    decreases |events|
  {
    if events != [] {
      var next := ApplyEvent(s, config, events[0]);
      match events[0] {
        case Damage(amount) => TakeDamageKeepsValid(s, amount, config);
        case Hit(c, time) => TakeDamageKeepsValid(s, CollisionDamage(c.impactSpeed, config), config);
      }
      RunKeepsValid(next, config, events[1..]);
    }
  }

  // ---------------------------------------------------------------------
  // The component
  // ---------------------------------------------------------------------

  class VehicleHealth {
    const config: HealthConfig
    var currentHealth: int
    var lastDamageTime: real
    var isDead: bool

    function State(): HealthState
      reads this
    {
      HealthState(currentHealth, lastDamageTime, isDead)
    }

    /** currentHealth starts at its inspector value. */
    constructor (config: HealthConfig, currentHealth: int)
      ensures this.config == config
      ensures State() == HealthState(currentHealth, InitialLastDamageTime, false)
    {
      this.config := config;
      this.currentHealth := currentHealth;
      lastDamageTime := InitialLastDamageTime;
      isDead := false;
    }

    method Awake()
      modifies this`currentHealth
      ensures currentHealth == AwakeHealth(old(currentHealth), config.maxHealth)
      ensures config.maxHealth >= 0 && !isDead ==> Valid(State(), config)
    {
      currentHealth := ClampInt(currentHealth, 0, config.maxHealth);
    }

    /** Applies damage from any source. */
    method TakeDamage(amount: int)
      modifies this`currentHealth, this`isDead
      ensures State() == TakeDamageSpec(old(State()), amount)
    {
      if isDead {
        return;
      }
      if amount <= 0 {
        return;
      }
      currentHealth := currentHealth - amount;
      currentHealth := MaxInt(currentHealth, 0);
      if currentHealth <= 0 {
        Die();
      }
    }

    /** Marks the car dead; a second call changes nothing. */
    method Die()
      modifies this`isDead
      ensures isDead
    {
      if isDead {
        return;
      }
      isDead := true;
    }

    /** A collision with an object on the given layer, at time now, with the given relative speed. */
    method OnCollisionEnter(layer: int, now: real, impactSpeed: real)
      modifies this`currentHealth, this`isDead, this`lastDamageTime
      ensures State() == CollisionSpec(old(State()), config, Collision(layer, impactSpeed), now)
    {
      CollisionGates(State(), config, Collision(layer, impactSpeed), now);
      if isDead {
        return;
      }
      if config.damageLayer & ((1 as bv32) << (layer % 32)) == 0 {
        return;
      }
      if now < lastDamageTime + config.invulnerabilityAfterHit {
        return;
      }
      if impactSpeed < config.minDamageSpeed {
        return;
      }
      ghost var before := State();
      assert PassesGates(before, config, Collision(layer, impactSpeed), now);
      var rawDamage := RawDamage(impactSpeed, config);
      var damageAmount := ClampInt(FloorToInt(rawDamage), 1, config.maxDamagePerHit);
      TakeDamage(damageAmount);
      lastDamageTime := now;
      assert State() == TakeDamageSpec(before, CollisionDamage(impactSpeed, config)).(lastDamageTime := now);
    }
  }
}
