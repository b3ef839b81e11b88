/**
 * The player's shooter: a cooldown timer that, while the fire key is held,
 * fires the magic queue's current category towards the mouse and advances
 * the queue. Screen-to-layer coordinate conversion is done by the caller:
 * the shooter receives the player's and the mouse's positions in the
 * projectile layer's local space.
 */
module Shooter {
  import opened Types
  import opened MagicQueue

  const MinSqrAim: real := 0.0001

  /** A projectile instantiated by a shot: where it starts, its category and raw aim. */
  datatype Shot = Shot(
    position: Vec2,
    // None when the prefab carries no projectile component (nothing is set on it)
    magicType: Option<WasteType>,
    aim: Vec2)

  /** The aim from the spawn point to the mouse; a near-zero vector becomes straight up. */
  function Aim(spawnLocal: Vec2, mouseLocal: Vec2): (dir: Vec2)
    ensures SqrMagnitude(dir) >= MinSqrAim || dir == Up
    ensures SqrMagnitude(Vec2(mouseLocal.x - spawnLocal.x, mouseLocal.y - spawnLocal.y)) >= MinSqrAim ==>
              Add(spawnLocal, dir) == mouseLocal
  {
    var d := Vec2(mouseLocal.x - spawnLocal.x, mouseLocal.y - spawnLocal.y);
    if SqrMagnitude(d) < MinSqrAim then Up else d
  }

  class UIPlayerShooter {
    const fireCooldown: real
    const hasPrefab: bool
    /** Whether the prefab carries a projectile component. */
    const prefabHasProjectile: bool
    /** Whether a projectile layer or, failing that, a shoot parent exists. */
    const hasParent: bool
    const magicQueue: PlayerMagicQueue?
    var cd: real

    constructor (fireCooldown: real, hasPrefab: bool, prefabHasProjectile: bool, hasParent: bool,
                 magicQueue: PlayerMagicQueue?)
      ensures this.fireCooldown == fireCooldown && this.hasPrefab == hasPrefab
      ensures this.prefabHasProjectile == prefabHasProjectile && this.hasParent == hasParent
      ensures this.magicQueue == magicQueue && cd == 0.0
    {
      this.fireCooldown, this.hasPrefab := fireCooldown, hasPrefab;
      this.prefabHasProjectile, this.hasParent := prefabHasProjectile, hasParent;
      this.magicQueue, cd := magicQueue, 0.0;
    }

    /** Whether TryShoot gets past its early exits. */
    predicate CanFire()
      reads this
    {
      hasPrefab && magicQueue != null && hasParent
    }

    /**
     * One shot attempt: leaves everything untouched when the prefab, the
     * queue or a parent is missing; otherwise fires the current category,
     * advances the queue once (also when the prefab has no projectile
     * component) and restarts the cooldown.
     */
    method TryShoot(spawnLocal: Vec2, mouseLocal: Vec2, draws: seq<real>) returns (shot: Option<Shot>)
      requires magicQueue != null ==> CanDraw(draws, magicQueue.avoidImmediateRepeat, magicQueue.next)
      modifies this`cd, magicQueue
      ensures !CanFire() ==> shot.None? && cd == old(cd) && (magicQueue != null ==> unchanged(magicQueue))
      ensures CanFire() ==>
                shot == Some(Shot(spawnLocal,
                                  if prefabHasProjectile then Some(old(magicQueue.current)) else None,
                                  Aim(spawnLocal, mouseLocal))) &&
                magicQueue.current == old(magicQueue.next) &&
                magicQueue.next == FirstAcceptable(draws, magicQueue.avoidImmediateRepeat, magicQueue.current) &&
                cd == fireCooldown
    {
      if !hasPrefab || magicQueue == null {
        return None;
      }
      if !hasParent {
        return None;
      }
      var dir := Aim(spawnLocal, mouseLocal);
      var magic := if prefabHasProjectile then Some(magicQueue.current) else None;
      shot := Some(Shot(spawnLocal, magic, dir));
      var _ := magicQueue.ConsumeAndAdvance(draws);
      cd := fireCooldown;
    }

    /**
     * One frame: frozen while paused or after game over; otherwise the
     * cooldown runs down by dt and, once it is at or below zero with the fire
     * key held, a shot is attempted.
     */
    method Update(dt: real, paused: bool, gameOver: bool, fireHeld: bool,
                  spawnLocal: Vec2, mouseLocal: Vec2, draws: seq<real>)
      returns (shot: Option<Shot>)
      requires magicQueue != null ==> CanDraw(draws, magicQueue.avoidImmediateRepeat, magicQueue.next)
      modifies this`cd, magicQueue
      ensures paused || gameOver ==>
                shot.None? && cd == old(cd) && (magicQueue != null ==> unchanged(magicQueue))
      ensures !(paused || gameOver) && !(old(cd) - dt <= 0.0 && fireHeld) ==>
                shot.None? && cd == old(cd) - dt && (magicQueue != null ==> unchanged(magicQueue))
      ensures !(paused || gameOver) && old(cd) - dt <= 0.0 && fireHeld && !CanFire() ==>
                shot.None? && cd == old(cd) - dt && (magicQueue != null ==> unchanged(magicQueue))
      ensures !(paused || gameOver) && old(cd) - dt <= 0.0 && fireHeld && CanFire() ==>
                shot == Some(Shot(spawnLocal,
                                  if prefabHasProjectile then Some(old(magicQueue.current)) else None,
                                  Aim(spawnLocal, mouseLocal))) &&
                cd == fireCooldown &&
                magicQueue.current == old(magicQueue.next) &&
                magicQueue.next == FirstAcceptable(draws, magicQueue.avoidImmediateRepeat, magicQueue.current)
    {
      if paused || gameOver {
        return None;
      }
      cd := cd - dt;
      shot := None;
      if cd <= 0.0 && fireHeld {
        shot := TryShoot(spawnLocal, mouseLocal, draws);
      }
    }
  }
}
