/**
 * The player's tick (Assets/Scripts/Player.cs): the distance travelled is
 * turned into a rotation of the pipe system about its z axis, and the head
 * pipe is recycled once that rotation reaches the head pipe's curve angle.
 *
 * `Time.deltaTime` is the parameter `dt` of each tick; floats are reals.
 */
module Traveler {
  import opened PipeMesh
  import opened PipeChain

  /** Degrees the pipe system turns per unit of distance travelled along a
      pipe whose centre line has radius `curveRadius`: a full circumference
      is a full turn. */
  function RotationFactor(curveRadius: PosReal): (f: real)
    ensures f > 0.0
    ensures f * (2.0 * Pi * curveRadius) == 360.0
  {
    360.0 / (2.0 * Pi * curveRadius)
  }

  /** A pipe's curve angle is the rotation its arc length is worth: the arc
      is `curveSegmentCount` rings `ringDistance` apart. */
  lemma CurveAngleIsArcRotation(ringDistance: real, curveRadius: PosReal, curveSegmentCount: nat)
    ensures CurveAngleOf(ringDistance, curveRadius, curveSegmentCount)
         == RotationFactor(curveRadius) * (ringDistance * curveSegmentCount as real)
  {
    var perRadian := 360.0 / (2.0 * Pi);
    assert RotationFactor(curveRadius) == perRadian / curveRadius;
    assert CurveAngleOf(ringDistance, curveRadius, curveSegmentCount)
        == (ringDistance * curveSegmentCount as real) * perRadian / curveRadius;
  }

  /** The numeric state of a player: distanceTraveled, systemRotation and
      deltaToRotation. */
  datatype Progress = Progress(distanceTraveled: real, systemRotation: real, deltaToRotation: real)

  /** The rotation after a tick of length `delta`. */
  function Rotated(p: Progress, delta: real): real
  {
    p.systemRotation + delta * p.deltaToRotation
  }

  /** Whether a tick of length `delta` carries the rotation to the curve angle
      of the current pipe. */
  predicate Crosses(p: Progress, delta: real, curveAngle: real)
  {
    Rotated(p, delta) >= curveAngle
  }

  /** One tick as Update performs it: distance and rotation grow, and on a
      crossing only the factor changes, to that of the next pipe. */
  function Step(p: Progress, delta: real, curveAngle: real, nextRadius: PosReal): (r: Progress)
    ensures Crosses(p, delta, curveAngle) <==> r.systemRotation >= curveAngle
    ensures p.deltaToRotation > 0.0 ==> r.deltaToRotation > 0.0
    ensures !Crosses(p, delta, curveAngle) ==> r.deltaToRotation == p.deltaToRotation
  {
    var rotation := Rotated(p, delta);
    Progress(p.distanceTraveled + delta,
             rotation,
             if Crosses(p, delta, curveAngle) then RotationFactor(nextRadius) else p.deltaToRotation)
  }

  /** One tick as evidently intended: on a crossing the distance run past the
      end of the pipe is carried into the next pipe as its rotation. */
  function StepCarryingOverflow(p: Progress, delta: real, curveAngle: real, nextRadius: PosReal): (r: Progress)
    requires p.deltaToRotation > 0.0
    ensures r.deltaToRotation > 0.0
    ensures !Crosses(p, delta, curveAngle) ==> r == Step(p, delta, curveAngle, nextRadius)
    ensures Crosses(p, delta, curveAngle) ==>
      r.systemRotation >= 0.0 && r.deltaToRotation == RotationFactor(nextRadius)
      && r.distanceTraveled == Step(p, delta, curveAngle, nextRadius).distanceTraveled
  {
    var rotation := p.systemRotation + delta * p.deltaToRotation;
    if rotation >= curveAngle then
      var overflow := (rotation - curveAngle) / p.deltaToRotation;
      Progress(p.distanceTraveled + delta, overflow * RotationFactor(nextRadius), RotationFactor(nextRadius))
    else
      Progress(p.distanceTraveled + delta, rotation, p.deltaToRotation)
  }

  /** The rotation measures the distance travelled since the current pipe was
      entered at distance `entered`. */
  ghost predicate RotationMeasuresArc(p: Progress, entered: real)
  {
    p.systemRotation == (p.distanceTraveled - entered) * p.deltaToRotation
  }

  /** Within a pipe both versions of the tick keep the rotation equal to the
      distance covered in that pipe, turned into degrees. */
  lemma StepKeepsArcWithinPipe(p: Progress, entered: real, delta: real, curveAngle: real, nextRadius: PosReal)
    requires RotationMeasuresArc(p, entered) && p.deltaToRotation > 0.0
    requires !Crosses(p, delta, curveAngle)
    ensures RotationMeasuresArc(Step(p, delta, curveAngle, nextRadius), entered)
    ensures StepCarryingOverflow(p, delta, curveAngle, nextRadius) == Step(p, delta, curveAngle, nextRadius)
  {
    assert (p.distanceTraveled + delta - entered) * p.deltaToRotation
        == (p.distanceTraveled - entered) * p.deltaToRotation + delta * p.deltaToRotation;
  }

  /** A crossing happens exactly when the distance covered in the pipe reaches
      its arc length. */
  lemma CrossesAtArcEnd(p: Progress, entered: real, delta: real, arcLength: real)
    requires RotationMeasuresArc(p, entered) && p.deltaToRotation > 0.0
    ensures Crosses(p, delta, p.deltaToRotation * arcLength)
        <==> p.distanceTraveled + delta - entered >= arcLength
  {
    var f := p.deltaToRotation;
    var covered := p.distanceTraveled + delta - entered;
    assert p.systemRotation + delta * f == covered * f;
    if covered >= arcLength {
      assert covered * f - arcLength * f == (covered - arcLength) * f;
    } else {
      assert arcLength * f - covered * f == (arcLength - covered) * f;
    }
  }

  /** For a pipe whose curve angle matches its arc, travelled with that pipe's
      rotation factor, a crossing happens exactly when the distance covered in
      the pipe reaches the pipe's arc length `ringDistance * curveSegmentCount`. */
  lemma CrossesAtPipeEnd(p: Progress, entered: real, delta: real, pipe: Pipe)
    requires pipe.AngleMatchesArc() && p.deltaToRotation == RotationFactor(pipe.curveRadius)
    requires RotationMeasuresArc(p, entered)
    ensures Crosses(p, delta, pipe.curveAngle)
        <==> p.distanceTraveled + delta - entered >= pipe.ringDistance * pipe.curveSegmentCount as real
  {
    var arcLength := pipe.ringDistance * pipe.curveSegmentCount as real;
    CurveAngleIsArcRotation(pipe.ringDistance, pipe.curveRadius, pipe.curveSegmentCount);
    CrossesAtArcEnd(p, entered, delta, arcLength);
  }

  /** As written, the rotation is not reset at a crossing: it stays at or past
      the curve angle of the pipe just left. */
  lemma StepKeepsRotationPastEnd(p: Progress, delta: real, curveAngle: real, nextRadius: PosReal)
    requires Crosses(p, delta, curveAngle)
    ensures Step(p, delta, curveAngle, nextRadius).systemRotation >= curveAngle
    ensures Step(p, delta, curveAngle, nextRadius).distanceTraveled == p.distanceTraveled + delta
  {
  }

  /** As written, after a crossing into a pipe whose curve angle is no larger,
      a tick that moves no distance at all crosses again, recycling a second
      pipe. */
  lemma StepRecyclesWithoutMoving(p: Progress, delta: real, curveAngle: real, nextRadius: PosReal, nextCurveAngle: real, afterRadius: PosReal)
    requires Crosses(p, delta, curveAngle) && nextCurveAngle <= curveAngle
    ensures var q := Step(p, delta, curveAngle, nextRadius);
      Crosses(q, 0.0, nextCurveAngle)
      && Step(q, 0.0, nextCurveAngle, afterRadius).distanceTraveled == q.distanceTraveled
  {
  }

  /** With the overflow carried, the rotation after a crossing is the
      distance covered in the new pipe, turned into degrees: less than one
      tick's worth, and not negative. */
  lemma {:induction false} CarriedProgressBelowOneTick(p: Progress, delta: real, curveAngle: real, nextRadius: PosReal)
    requires p.deltaToRotation > 0.0 && delta >= 0.0
    requires 0.0 <= p.systemRotation < curveAngle
    requires Crosses(p, delta, curveAngle)
    ensures var q := StepCarryingOverflow(p, delta, curveAngle, nextRadius);
      0.0 <= q.systemRotation < delta * q.deltaToRotation
  {
    var f := p.deltaToRotation;
    var overflow := (p.systemRotation + delta * f - curveAngle) / f;
    assert overflow * f == p.systemRotation + delta * f - curveAngle;
    assert overflow < delta by {
      assert overflow * f < delta * f;
    }
    var g := RotationFactor(nextRadius);
    assert overflow * g < delta * g by {
      assert (delta - overflow) * g > 0.0;
    }
  }

  /** With the overflow carried, a crossing enters the next pipe at the
      distance where the old one ended, so the rotation still measures the
      distance covered in the current pipe. */
  lemma {:induction false} CarryingOverflowKeepsArc(p: Progress, entered: real, delta: real, arcLength: real, nextRadius: PosReal)
    requires RotationMeasuresArc(p, entered) && p.deltaToRotation > 0.0
    requires Crosses(p, delta, p.deltaToRotation * arcLength)
    ensures RotationMeasuresArc(StepCarryingOverflow(p, delta, p.deltaToRotation * arcLength, nextRadius), entered + arcLength)
  {
    var f := p.deltaToRotation;
    var rotation := p.systemRotation + delta * f;
    assert rotation == (p.distanceTraveled + delta - entered) * f;
    assert rotation - f * arcLength == (p.distanceTraveled + delta - (entered + arcLength)) * f;
    assert (rotation - f * arcLength) / f == p.distanceTraveled + delta - (entered + arcLength);
  }

  // ---------------------------------------------------------------------------
  // The player

  class Player {
    const pipeSystem: PipeSystem
    const velocity: real
    var currentPipe: Pipe
    var distanceTraveled: real
    var deltaToRotation: real
    var systemRotation: real

    ghost predicate Valid()
      reads this, pipeSystem, pipeSystem.pipes, pipeSystem.pipes[..]
    {
      && pipeSystem.Valid() && pipeSystem.pipes.Length >= 1
      && currentPipe == pipeSystem.pipes[0]
      && deltaToRotation == RotationFactor(currentPipe.curveRadius)
    }

    function Snapshot(): Progress
      reads this
    {
      Progress(distanceTraveled, systemRotation, deltaToRotation)
    }

    /** Start: takes the head pipe and its rotation factor. */
    constructor Start(pipeSystem: PipeSystem, velocity: real)
      requires pipeSystem.Valid() && pipeSystem.pipes.Length >= 1
      modifies pipeSystem`localPosition
      ensures Valid()
      ensures this.pipeSystem == pipeSystem && this.velocity == velocity
      ensures currentPipe == pipeSystem.pipes[0]
      ensures Snapshot() == Progress(0.0, 0.0, RotationFactor(currentPipe.curveRadius))
      ensures pipeSystem.localPosition == Vector3(0.0, -(currentPipe.curveRadius as real), 0.0)
    {
      var head := pipeSystem.SetupFirstPipe();
      this.pipeSystem := pipeSystem;
      this.velocity := velocity;
      currentPipe := head;
      distanceTraveled := 0.0;
      systemRotation := 0.0;
      deltaToRotation := RotationFactor(head.curveRadius);
    }

    /** One frame of `dt` seconds. */
    method Update(dt: real)
      requires Valid()
      modifies this, pipeSystem, pipeSystem.pipes
      ensures Valid()
      ensures Snapshot() == Step(old(Snapshot()), velocity * dt, old(currentPipe.curveAngle), old(pipeSystem.NextHead()).curveRadius)
      ensures pipeSystem.localRotationZ == systemRotation
      ensures Crosses(old(Snapshot()), velocity * dt, old(currentPipe.curveAngle)) ==>
        && pipeSystem.pipes[..] == RotateLeft(old(pipeSystem.pipes[..]))
        && currentPipe == pipeSystem.anchor == old(pipeSystem.NextHead())
        && pipeSystem.localPosition == Vector3(0.0, -(currentPipe.curveRadius as real), 0.0)
      ensures !Crosses(old(Snapshot()), velocity * dt, old(currentPipe.curveAngle)) ==>
        && currentPipe == old(currentPipe)
        && pipeSystem.pipes[..] == old(pipeSystem.pipes[..])
        && pipeSystem.anchor == old(pipeSystem.anchor)
        && pipeSystem.localPosition == old(pipeSystem.localPosition)
    {
      var delta := velocity * dt;
      distanceTraveled := distanceTraveled + delta;
      systemRotation := systemRotation + delta * deltaToRotation;
      if systemRotation >= currentPipe.curveAngle {
        delta := (systemRotation - currentPipe.curveAngle) / deltaToRotation;
        currentPipe := pipeSystem.SetupNextPipe();
        deltaToRotation := RotationFactor(currentPipe.curveRadius);
      }
      pipeSystem.localRotationZ := systemRotation;
    }
  }

  /** The curve angle a valid player compares against is its current pipe's
      arc turned into degrees: while the rotation measures the distance covered
      since the pipe was entered at `entered`, a tick of `delta` recycles the
      pipe exactly when that distance reaches the pipe's arc length. */
  lemma PlayerCrossesAtPipeEnd(player: Player, entered: real, delta: real)
    requires player.Valid() && RotationMeasuresArc(player.Snapshot(), entered)
    ensures Crosses(player.Snapshot(), delta, player.currentPipe.curveAngle)
        <==> player.distanceTraveled + delta - entered
             >= player.currentPipe.ringDistance * player.currentPipe.curveSegmentCount as real
  {
    assert player.pipeSystem.pipes[0].AngleMatchesArc();
    CrossesAtPipeEnd(player.Snapshot(), entered, delta, player.currentPipe);
  }
}
