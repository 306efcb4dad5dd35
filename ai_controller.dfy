/**
 * The opponent's paddle controller (src/pong/core/AiController.ts): it
 * latches the ball's lateral position as its target only once a reaction
 * delay has elapsed, and moves toward that target at a capped speed,
 * snapping onto it rather than overshooting.
 */
module AiControl {
  /** The reaction delay the engine's opponent uses (the constructor's default). */
  const DEFAULT_REACTION_DELAY: real := 0.12

  function Abs(x: real): real {
    if x < 0.0 then -x else x
  }

  /** `Math.sign` on a number that is not NaN. */
  function Sign(x: real): (s: real)
    ensures s == 1.0 || s == 0.0 || s == -1.0
    ensures s * x == Abs(x)
    ensures x > 0.0 ==> s == 1.0
    ensures x < 0.0 ==> s == -1.0
    ensures x == 0.0 ==> s == 0.0
  {
    if x > 0.0 then 1.0 else if x < 0.0 then -1.0 else 0.0
  }

  /** `z` lies on the closed segment between `a` and `b`. */
  predicate Between(a: real, z: real, b: real) {
    (a <= z <= b) || (b <= z <= a)
  }

  class AiController {
    const maxSpeed: real
    const reactionDelay: real
    var timeAccumulator: real
    var targetZ: real

    constructor (maxSpeed: real, reactionDelay: real)
      ensures this.maxSpeed == maxSpeed && this.reactionDelay == reactionDelay
      ensures timeAccumulator == 0.0 && targetZ == 0.0
    {
      this.maxSpeed := maxSpeed;
      this.reactionDelay := reactionDelay;
      timeAccumulator := 0.0;
      targetZ := 0.0;
    }

    /** The accumulator has not yet reached the reaction delay. */
    ghost predicate Waiting()
      reads this
    {
      0.0 <= timeAccumulator < reactionDelay
    }

    method UpdateTarget(ballZ: real, dt: real)
      modifies this
      ensures old(timeAccumulator) + dt >= reactionDelay ==> targetZ == ballZ && timeAccumulator == 0.0
      ensures old(timeAccumulator) + dt < reactionDelay ==> targetZ == old(targetZ) && timeAccumulator == old(timeAccumulator) + dt
      ensures reactionDelay > 0.0 && dt >= 0.0 && old(Waiting()) ==> Waiting()
    {
      timeAccumulator := timeAccumulator + dt;
      if timeAccumulator >= reactionDelay {
        targetZ := ballZ;
        timeAccumulator := 0.0;
      }
    }

    /**
     * The next paddle position: the target itself when one step would
     * reach or pass it, otherwise one full step of `maxSpeed * dt` toward
     * it. It never moves further than a step, and for a forward step it
     * never passes the target.
     */
    function Move(currentZ: real, dt: real): (z: real)
      reads this
      ensures Abs(maxSpeed * dt) >= Abs(targetZ - currentZ) ==> z == targetZ
      ensures Abs(maxSpeed * dt) < Abs(targetZ - currentZ) ==> z - currentZ == Sign(targetZ - currentZ) * maxSpeed * dt
      ensures Abs(z - currentZ) <= Abs(maxSpeed * dt)
      ensures maxSpeed >= 0.0 && dt >= 0.0 ==> Between(currentZ, z, targetZ)
    {
      var diff := targetZ - currentZ;
      var direction := Sign(diff);
      var moveAmount := direction * maxSpeed * dt;
      StepSize(direction, maxSpeed * dt, diff);
      if Abs(moveAmount) >= Abs(diff) then targetZ else currentZ + moveAmount
    }
  }

  /** A signed step keeps the size of the unsigned one when the sign is not zero. */
  lemma StepSize(direction: real, step: real, diff: real)
    requires direction == Sign(diff)
    ensures diff != 0.0 ==> Abs(direction * step) == Abs(step)
    ensures diff == 0.0 ==> direction * step == 0.0
  {
    if diff > 0.0 {
      assert direction * step == step;
    } else if diff < 0.0 {
      assert direction * step == -step;
    }
  }
}
