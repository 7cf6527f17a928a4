/** The weapon of src/domain/entities/weapon.py: a rate limiter with fixed damage and range. */
module Weapons {

  class Weapon {
    const fireRate: real
    const damage: nat
    const weaponRange: real
    var lastFireTime: real

    constructor (fireRate: real, damage: nat, weaponRange: real)
      ensures this.fireRate == fireRate && this.damage == damage && this.weaponRange == weaponRange
      ensures lastFireTime == 0.0
    {
      this.fireRate := fireRate;
      this.damage := damage;
      this.weaponRange := weaponRange;
      lastFireTime := 0.0;
    }

    /**
     * At least `fireRate` seconds have passed since the last shot: with a
     * positive rate the clock must have moved past it; with none, any time
     * not before it will do.
     */
    predicate CanFire(now: real): (ready: bool)
      reads this
      ensures ready && fireRate > 0.0 ==> now > lastFireTime
      ensures fireRate <= 0.0 && now >= lastFireTime ==> ready
      ensures ready ==> now >= lastFireTime + fireRate
    {
      now - lastFireTime >= fireRate
    }

    /** Records a shot; it does not check CanFire itself, the caller must. */
    method Fire(now: real)
      modifies this`lastFireTime
      ensures lastFireTime == now
      ensures CanFire(now) <==> fireRate <= 0.0
    {
      lastFireTime := now;
    }
  }
}
