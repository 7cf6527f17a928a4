/** The player entity of src/domain/entities/player.py. */
module Players {

  import opened Health

  class Player {
    const maxHealth: nat
    var health: int
    var kills: nat

    /** Health stays within [0, maxHealth]. */
    ghost predicate Valid()
      reads this
    {
      0 <= health <= maxHealth
    }

    /** Alive means some health is left; within the bounds, that is any health but 0. */
    predicate IsAlive(): (alive: bool)
      reads this
      ensures alive ==> health >= 1
      ensures Valid() ==> (alive <==> health != 0)
    {
      health > 0
    }

    constructor (maxHealth: nat := 100)
      ensures Valid()
      ensures this.maxHealth == maxHealth && health == maxHealth && kills == 0
    {
      this.maxHealth := maxHealth;
      health := maxHealth;
      kills := 0;
    }

    method TakeDamage(amount: nat)
      requires Valid()
      modifies this`health
      ensures Valid()
      ensures health == Damaged(old(health), amount)
      ensures old(IsAlive()) ==> (IsAlive() <==> amount < old(health))
      ensures !old(IsAlive()) ==> health == old(health)
    {
      if IsAlive() {
        health := Max(0, health - amount);
      }
    }

    method Heal(amount: nat)
      requires Valid()
      modifies this`health
      ensures Valid()
      ensures health == Healed(old(health), maxHealth, amount)
      ensures !old(IsAlive()) ==> health == old(health)
    {
      if IsAlive() {
        health := Min(maxHealth, health + amount);
      }
    }

    method AddKill()
      modifies this`kills
      ensures kills == old(kills) + 1
    {
      kills := kills + 1;
    }

    /** Restores full health and clears the kill counter, dead or alive. */
    method Reset()
      modifies this`health, this`kills
      ensures Valid()
      ensures health == maxHealth && kills == 0
    {
      health := maxHealth;
      kills := 0;
    }
  }
}
