/**
 * Health arithmetic shared by the player (src/domain/entities/player.py) and
 * the enemies (src/domain/entities/enemy.py), which implement it identically:
 * damage clamps at zero and is ignored once the combatant is dead, healing
 * clamps at the maximum and is ignored once dead.
 */
module Health {

  function Max(a: int, b: int): int { if a >= b then a else b }

  function Min(a: int, b: int): int { if a <= b then a else b }

  /** Health after one hit of `amount`; dead combatants (health <= 0) are unaffected. */
  function Damaged(health: int, amount: nat): (r: int)
    ensures health <= 0 ==> r == health
    ensures health > 0 ==> 0 <= r <= health
    ensures health > 0 ==> (r == 0 <==> amount >= health)
    ensures r > 0 ==> r == health - amount
  {
    if health > 0 then Max(0, health - amount) else health
  }

  /** Health after healing by `amount`; dead combatants are unaffected. */
  function Healed(health: int, maxHealth: int, amount: nat): (r: int)
    ensures health <= 0 ==> r == health
    ensures 0 < health <= maxHealth ==> health <= r <= maxHealth
    ensures health > 0 ==> (r == maxHealth <==> health + amount >= maxHealth)
    ensures health > 0 && r < maxHealth ==> r == health + amount
  {
    if health > 0 then Min(maxHealth, health + amount) else health
  }

  function Sum(amounts: seq<nat>): nat
  {
    if amounts == [] then 0 else amounts[0] + Sum(amounts[1..])
  }

  /** Health after a sequence of hits, applied in order. */
  function AfterDamages(health: int, amounts: seq<nat>): int
  {
    if amounts == [] then health else AfterDamages(Damaged(health, amounts[0]), amounts[1..])
  }

  /**
   * Any sequence of hits leaves a combatant with `max(0, health - total)`:
   * health never leaves [0, health], and once it reaches 0 further hits
   * change nothing.
   */
  lemma {:induction false} DamageSequence(health: int, amounts: seq<nat>)
    requires health >= 0
    ensures AfterDamages(health, amounts) == Max(0, health - Sum(amounts))
    ensures 0 <= AfterDamages(health, amounts) <= health
    ensures health == 0 ==> AfterDamages(health, amounts) == 0
  {
    if amounts != [] {
      DamageSequence(Damaged(health, amounts[0]), amounts[1..]);
    }
  }
}
