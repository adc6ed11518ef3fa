/** The momentum engine's arithmetic: wheel impulses add to a velocity,
    each animation frame moves the viewport by the velocity and multiplies
    the velocity by a friction factor, and the loop stops once the
    velocity is at most a threshold. Reals stand for JavaScript numbers. */
module Momentum {
  import opened JsMath

  /** Wheel delta to velocity gain. */
  const ScrollMultiplier: real := 1.2
  /** Velocity kept from one frame to the next. */
  const Friction: real := 0.92
  /** At or below this speed the loop stops and snaps. */
  const MinVelocity: real := 0.5

  /** The velocity after one accepted wheel event: a downward delta pushes
      the momentum right, an upward one left, by 1.2 times the delta. */
  function Impulse(velocity: real, deltaY: real): (v: real)
    ensures deltaY > 0.0 ==> v > velocity
    ensures deltaY < 0.0 ==> v < velocity
    ensures deltaY == 0.0 ==> v == velocity
    ensures Abs(v - velocity) == ScrollMultiplier * Abs(deltaY)
  {
    velocity + deltaY * ScrollMultiplier
  }

  /** Impulses accumulate: two wheel events in one frame give the same
      velocity as one event with the summed delta. */
  lemma ImpulsesAccumulate(velocity: real, first: real, second: real)
    ensures Impulse(Impulse(velocity, first), second) == Impulse(velocity, first + second)
  {
  }

  /** Friction applied once: the speed strictly drops and the direction
      is kept. */
  function Decay(velocity: real): (v: real)
    ensures velocity != 0.0 ==> Abs(v) < Abs(velocity)
    ensures v > 0.0 <==> velocity > 0.0
    ensures v < 0.0 <==> velocity < 0.0
  {
    velocity * Friction
  }

  /** Whether a frame with this velocity moves the viewport (and keeps the
      loop alive) rather than ending it. A moving frame's friction takes
      more than 0.04 off the speed, which bounds how long the loop runs. */
  predicate Moving(velocity: real)
    ensures Moving(velocity) ==> velocity != 0.0 && Abs(Decay(velocity)) < Abs(velocity) - 0.04
    ensures !Moving(velocity) ==> -MinVelocity <= velocity <= MinVelocity
  {
    Abs(velocity) > MinVelocity
  }

  /** Where an undisturbed momentum loop ends: the resting offset, the
      number of frames that moved the viewport, and the velocity that the
      stopping frame found (and then set to zero). */
  datatype Coasting = Coasting(rest: real, frames: nat, residual: real)

  /** The momentum loop, run from `offset` with `velocity` and no further
      input until a frame finds the speed at or below the threshold.

      Each moving frame removes at least 0.04 from the speed (8% of more
      than 0.5), so 25 * |velocity| bounds the number of frames. The
      travelled distance is the geometric sum of the velocities, which
      telescopes to (velocity - residual) / (1 - Friction). */
  function Coast(offset: real, velocity: real): (c: Coasting)
    ensures Abs(c.residual) <= MinVelocity
    ensures c.frames as real <= 25.0 * Abs(velocity)
    ensures c.rest == offset + 12.5 * (velocity - c.residual)
    ensures Abs(c.residual) <= Abs(velocity)
    ensures velocity > 0.0 ==> c.residual > 0.0 && c.rest >= offset
    ensures velocity < 0.0 ==> c.residual < 0.0 && c.rest <= offset
    ensures velocity == 0.0 ==> c == Coasting(offset, 0, 0.0)
    decreases (25.0 * Abs(velocity)).Floor
  {
    if Moving(velocity) then
      var c := Coast(offset + velocity, Decay(velocity));
      Coasting(c.rest, c.frames + 1, c.residual)
    else
      Coasting(offset, 0, velocity)
  }

  /** The distance a fling travels is below 12.5 times its initial speed
      and, when the first frame moves, at least 12.5 times (speed - 0.5). */
  lemma GlideBounds(offset: real, velocity: real)
    ensures velocity != 0.0 ==> Abs(Coast(offset, velocity).rest - offset) < 12.5 * Abs(velocity)
    ensures Moving(velocity) ==> Abs(Coast(offset, velocity).rest - offset) >= 12.5 * (Abs(velocity) - MinVelocity)
  {
  }

  /** A moving frame does not change where the loop will come to rest: it
      only moves the viewport along the path already determined. */
  lemma {:induction false} MovingFramePreservesRest(offset: real, velocity: real)
    requires Moving(velocity)
    ensures Coast(offset + velocity, Decay(velocity)).rest == Coast(offset, velocity).rest
    ensures Coast(offset + velocity, Decay(velocity)).frames + 1 == Coast(offset, velocity).frames
  {
  }

  /** A loop that no frame can move rests where it is. */
  lemma StillLoopRestsInPlace(offset: real, velocity: real)
    requires !Moving(velocity)
    ensures Coast(offset, velocity) == Coasting(offset, 0, velocity)
  {
  }
}
