/**
 * The enemy entity of src/domain/entities/enemy.py: health that clamps like
 * the player's, an attack cooldown stamp of its own, and the spawn-position
 * generator (a bounded retry over random draws).
 */
module Enemies {

  import opened Health

  datatype Vec3 = Vec3(x: real, y: real, z: real)

  /** One random draw of the two ground coordinates. */
  datatype Sample = Sample(x: real, z: real)

  /** generate_spawn_position gives up after this many draws. */
  const MaxAttempts: nat := 10

  /**
   * A draw is far enough when its distance to the player in the xz-plane is at
   * least `minDistance`. Squared distances are compared, so no square root is
   * needed; a non-positive minimum is met by every draw.
   */
  predicate FarEnough(s: Sample, playerPos: Vec3, minDistance: real)
  {
    var dx := s.x - playerPos.x;
    var dz := s.z - playerPos.z;
    minDistance <= 0.0 || dx * dx + dz * dz >= minDistance * minDistance
  }

  /** The index of the draw that is kept: the first far-enough one from `from` on, else the last allowed one. */
  function ChosenAttempt(samples: nat -> Sample, playerPos: Vec3, minDistance: real, from: nat): (k: nat)
    requires from < MaxAttempts
    ensures from <= k < MaxAttempts
    ensures forall j :: from <= j < k ==> !FarEnough(samples(j), playerPos, minDistance)
    ensures FarEnough(samples(k), playerPos, minDistance) || k == MaxAttempts - 1
    decreases MaxAttempts - from
  {
    if FarEnough(samples(from), playerPos, minDistance) || from == MaxAttempts - 1 then from
    else ChosenAttempt(samples, playerPos, minDistance, from + 1)
  }

  /**
   * The spawn position for the draws `samples`: on the ground, one of the
   * first ten draws, and far enough from the player whenever any of those is.
   */
  function SpawnPoint(samples: nat -> Sample, playerPos: Vec3, minDistance: real): (p: Vec3)
    ensures p.y == 0.0
    ensures exists k :: 0 <= k < MaxAttempts && p == Vec3(samples(k).x, 0.0, samples(k).z)
    ensures (exists k :: 0 <= k < MaxAttempts && FarEnough(samples(k), playerPos, minDistance)) ==>
              FarEnough(Sample(p.x, p.z), playerPos, minDistance)
  {
    var k := ChosenAttempt(samples, playerPos, minDistance, 0);
    Vec3(samples(k).x, 0.0, samples(k).z)
  }

  /** No enemy occurs twice. */
  predicate Distinct(s: seq<Enemy>)
  {
    forall i, j :: 0 <= i < j < |s| ==> s[i] != s[j]
  }

  class Enemy {
    var position: Vec3
    var speed: real
    const maxHealth: nat
    var health: int
    var lastAttackTime: real

    /** Health stays within [0, maxHealth]. */
    ghost predicate Valid()
      reads this
    {
      0 <= health <= maxHealth
    }

    /** Alive means some health is left; within the bounds, that is any health but 0. */
    predicate IsAlive(): (alive: bool)
      reads this
      ensures alive ==> health >= 1
      ensures Valid() ==> (alive <==> health != 0)
    {
      health > 0
    }

    constructor (position: Vec3, speed: real, maxHealth: nat := 100)
      ensures Valid()
      ensures this.position == position && this.speed == speed && this.maxHealth == maxHealth
      ensures health == maxHealth && lastAttackTime == 0.0
    {
      this.position := position;
      this.speed := speed;
      this.maxHealth := maxHealth;
      health := maxHealth;
      lastAttackTime := 0.0;
    }

    method TakeDamage(amount: nat)
      requires Valid()
      modifies this`health
      ensures Valid()
      ensures health == Damaged(old(health), amount)
      ensures !old(IsAlive()) ==> health == old(health)
    {
      if IsAlive() {
        health := Max(0, health - amount);
      }
    }

    /**
     * The attack cooldown has passed: with a positive cooldown the clock must
     * have moved past the last attack; with none, any time not before it will do.
     */
    predicate CanAttack(currentTime: real, attackCooldown: real): (ready: bool)
      reads this
      ensures ready && attackCooldown > 0.0 ==> currentTime > lastAttackTime
      ensures attackCooldown <= 0.0 && currentTime >= lastAttackTime ==> ready
      ensures ready ==> currentTime >= lastAttackTime + attackCooldown
    {
      currentTime - lastAttackTime >= attackCooldown
    }

    method PerformAttack(currentTime: real)
      modifies this`lastAttackTime
      ensures lastAttackTime == currentTime
      ensures forall cooldown: real {:trigger CanAttack(currentTime, cooldown)} ::
                CanAttack(currentTime, cooldown) <==> cooldown <= 0.0
    {
      lastAttackTime := currentTime;
    }

    /**
     * Up to ten draws; the first one far enough from the player is returned
     * at once, and if none is, the last draw is returned anyway.
     */
    static method GenerateSpawnPosition(playerPos: Vec3, minPlayerDistance: real, samples: nat -> Sample)
      returns (pos: Vec3)
      ensures pos == SpawnPoint(samples, playerPos, minPlayerDistance)
    {
      var attempt := 0;
      var s := samples(0);
      while attempt < MaxAttempts
        invariant 0 <= attempt <= MaxAttempts
        invariant forall j :: 0 <= j < attempt ==> !FarEnough(samples(j), playerPos, minPlayerDistance)
        invariant attempt > 0 ==> s == samples(attempt - 1)
      {
        s := samples(attempt);
        if FarEnough(s, playerPos, minPlayerDistance) {
          ghost var k := ChosenAttempt(samples, playerPos, minPlayerDistance, 0);
          assert k == attempt;
          return Vec3(s.x, 0.0, s.z);
        }
        attempt := attempt + 1;
      }
      ghost var k := ChosenAttempt(samples, playerPos, minPlayerDistance, 0);
      assert k == MaxAttempts - 1;
      pos := Vec3(s.x, 0.0, s.z);
    }
  }
}
