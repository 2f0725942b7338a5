/**
 * The speed/acceleration kick detector the live pipeline uses: a kick is a
 * frame in which the ball's frame-to-frame displacement exceeds 8 pixels and
 * its change from the previous displacement exceeds 5, at least 5 frames
 * after the previous kick.
 */
module InstanceBallKickDetector {
  import opened Common
  import opened BBoxUtils

  const DefaultVelocityThreshold: real := 8.0
  const DefaultAccelerationThreshold: real := 5.0

  /** `last_kick_frame` before any kick. */
  const InitialKickFrame: int := -30

  /** Frames that must pass after a kick before the next one can be reported. */
  const Cooldown: int := 5

  /** The detector's fields `last_position`, `last_velocity` and `last_kick_frame`. */
  datatype DetectorState = DetectorState(lastPosition: Option<Point>, lastVelocity: Option<Point>, lastKickFrame: int)

  /** The state of a freshly constructed detector. */
  const Initial := DetectorState(None, None, InitialKickFrame)

  /** The source sets both `last_position` and `last_velocity` on the first call. */
  predicate Consistent(s: DetectorState)
  {
    s.lastPosition.Some? ==> s.lastVelocity.Some?
  }

  /** One argument pair of `update`: the ball centre and the frame number. */
  datatype Sample = Sample(position: Point, frame: int)

  function Diff(p: Point, q: Point): Point
  {
    Point(p.x - q.x, p.y - q.y)
  }

  /** `np.linalg.norm(v) > t` without the square root: a negative `t` is always exceeded. */
  predicate Exceeds(v: Point, t: real)
  {
    t < 0.0 || Square(v.x) + Square(v.y) > t * t
  }

  /** One call of `update`: the new state and the value returned. */
  function Step(s: DetectorState, x: Sample, velocityThreshold: real, accelerationThreshold: real): (r: (DetectorState, bool))
    requires Consistent(s)
    ensures Consistent(r.0)
    ensures r.0.lastPosition == Some(x.position)
  {
    if s.lastPosition.None? then (DetectorState(Some(x.position), Some(Point(0.0, 0.0)), s.lastKickFrame), false)
    else
      var velocity := Diff(x.position, s.lastPosition.value);
      var acceleration := Diff(velocity, s.lastVelocity.value);
      var moved := DetectorState(Some(x.position), Some(velocity), s.lastKickFrame);
      if x.frame - s.lastKickFrame < Cooldown then (moved, false)
      else if Exceeds(velocity, velocityThreshold) && Exceeds(acceleration, accelerationThreshold) then
        (moved.(lastKickFrame := x.frame), true)
      else (moved, false)
  }

  /** The state after a sequence of calls. */
  function Final(s: DetectorState, xs: seq<Sample>, vt: real, at: real): (r: DetectorState)
    requires Consistent(s)
    ensures Consistent(r)
  {
    if xs == [] then s
    else Step(Final(s, xs[..|xs| - 1], vt, at), xs[|xs| - 1], vt, at).0
  }

  /** The values a sequence of calls returns, one per call. */
  function Run(s: DetectorState, xs: seq<Sample>, vt: real, at: real): (out: seq<bool>)
    requires Consistent(s)
    ensures |out| == |xs|
  {
    if xs == [] then []
    else
      var pre := xs[..|xs| - 1];
      Run(s, pre, vt, at) + [Step(Final(s, pre, vt, at), xs[|xs| - 1], vt, at).1]
  }

  /** Frame numbers never go down along the sequence. */
  predicate NonDecreasingFrames(xs: seq<Sample>)
  {
    forall i, j :: 0 <= i < j < |xs| ==> xs[i].frame <= xs[j].frame
  }

  /**
   * What one call does. The first call records the position and a zero
   * velocity and returns False. Every later call records the position and
   * its difference from the previous one, also during the cooldown, and
   * reports a kick exactly when the cooldown is over and both the speed and
   * the acceleration exceed their thresholds; a kick records its frame, and
   * otherwise the kick frame is kept.
   */
  lemma StepSpec(s: DetectorState, x: Sample, vt: real, at: real)
    requires Consistent(s)
    ensures var (t, kicked) := Step(s, x, vt, at);
      && t.lastPosition == Some(x.position)
      && (s.lastPosition.None? ==> t.lastVelocity == Some(Point(0.0, 0.0)) && !kicked && t.lastKickFrame == s.lastKickFrame)
      && (s.lastPosition.Some? ==>
            && t.lastVelocity == Some(Diff(x.position, s.lastPosition.value))
            && (kicked <==>
                  && x.frame - s.lastKickFrame >= Cooldown
                  && Exceeds(Diff(x.position, s.lastPosition.value), vt)
                  && Exceeds(Diff(Diff(x.position, s.lastPosition.value), s.lastVelocity.value), at)))
      && (kicked ==> t.lastKickFrame == x.frame)
      && (!kicked ==> t.lastKickFrame == s.lastKickFrame)
  {
  }

  /** The `i`th call of a run returns what one step returns from the state left by the calls before it. */
  lemma {:induction false} RunAt(s: DetectorState, xs: seq<Sample>, vt: real, at: real, i: nat)
    requires Consistent(s) && i < |xs|
    ensures Run(s, xs, vt, at)[i] == Step(Final(s, xs[..i], vt, at), xs[i], vt, at).1
  {
    var n := |xs|;
    var pre := xs[..n - 1];
    if i < n - 1 {
      assert pre[..i] == xs[..i];
      RunAt(s, pre, vt, at, i);
    } else {
      assert pre == xs[..i];
    }
  }

  /** A call inside the cooldown never reports a kick. */
  lemma CooldownSilences(s: DetectorState, x: Sample, vt: real, at: real)
    requires Consistent(s) && x.frame - s.lastKickFrame < Cooldown
    ensures !Step(s, x, vt, at).1
  {
  }

  /** The first call of a fresh detector never reports a kick. */
  lemma FirstCallSilent(xs: seq<Sample>, vt: real, at: real)
    requires xs != []
    ensures !Run(Initial, xs, vt, at)[0]
  {
    RunAt(Initial, xs, vt, at, 0);
    assert xs[..0] == [];
  }

  /** With non-decreasing frames, the recorded kick frame is at least the frame of every kick so far. */
  lemma {:induction false} KickFrameBound(s: DetectorState, xs: seq<Sample>, vt: real, at: real)
    requires Consistent(s) && NonDecreasingFrames(xs)
    ensures forall i :: 0 <= i < |xs| && Run(s, xs, vt, at)[i] ==> Final(s, xs, vt, at).lastKickFrame >= xs[i].frame
  {
    if xs != [] {
      var n := |xs|;
      var pre := xs[..n - 1];
      assert NonDecreasingFrames(pre) by {
        assert forall i :: 0 <= i < n - 1 ==> pre[i] == xs[i];
      }
      KickFrameBound(s, pre, vt, at);
      var before := Final(s, pre, vt, at);
      StepSpec(before, xs[n - 1], vt, at);
      forall i | 0 <= i < n && Run(s, xs, vt, at)[i]
        ensures Final(s, xs, vt, at).lastKickFrame >= xs[i].frame
      {
        if i < n - 1 {
          assert Run(s, xs, vt, at)[i] == Run(s, pre, vt, at)[i];
          assert pre[i] == xs[i];
          assert xs[i].frame <= xs[n - 1].frame;
        }
      }
    }
  }

  /** With non-decreasing frame numbers, any two kicks are at least five frames apart. */
  lemma KicksSpaced(s: DetectorState, xs: seq<Sample>, vt: real, at: real, i: nat, j: nat)
    requires Consistent(s) && NonDecreasingFrames(xs)
    requires i < j < |xs|
    requires Run(s, xs, vt, at)[i] && Run(s, xs, vt, at)[j]
    ensures xs[j].frame - xs[i].frame >= Cooldown
  {
    var pre := xs[..j];
    assert NonDecreasingFrames(pre) by {
      assert forall l :: 0 <= l < j ==> pre[l] == xs[l];
    }
    RunAt(s, xs, vt, at, j);
    RunAt(s, xs, vt, at, i);
    RunAt(s, pre, vt, at, i);
    assert pre[..i] == xs[..i];
    KickFrameBound(s, pre, vt, at);
    StepSpec(Final(s, pre, vt, at), xs[j], vt, at);
  }

  /** A ball that never moves is never reported kicked, whatever the frame numbers. */
  lemma StationaryNeverKicks(xs: seq<Sample>, vt: real, at: real, i: nat)
    requires vt >= 0.0 && i < |xs|
    requires forall l :: 0 <= l < |xs| ==> xs[l].position == xs[0].position
    ensures !Run(Initial, xs, vt, at)[i]
  {
    RunAt(Initial, xs, vt, at, i);
    if i > 0 {
      var pre := xs[..i];
      assert pre[..i - 1] + [pre[i - 1]] == pre;
      assert Final(Initial, pre, vt, at).lastPosition == Some(pre[i - 1].position);
      assert Square(0.0) == 0.0;
      SquareNonNegative(vt);
      assert Square(vt) == vt * vt;
    } else {
      assert xs[..0] == [];
    }
  }

  class BallKickDetector {
    var velocityThreshold: real
    var accelerationThreshold: real
    var lastPosition: Option<Point>
    var lastVelocity: Option<Point>
    var lastKickFrame: int

    /** The fields as a value. */
    function Snapshot(): DetectorState
      reads this
    {
      DetectorState(lastPosition, lastVelocity, lastKickFrame)
    }

    predicate Valid()
      reads this
    {
      Consistent(Snapshot())
    }

    constructor(velocityThreshold: real, accelerationThreshold: real)
      ensures this.velocityThreshold == velocityThreshold && this.accelerationThreshold == accelerationThreshold
      ensures Snapshot() == Initial && Valid()
    {
      this.velocityThreshold := velocityThreshold;
      this.accelerationThreshold := accelerationThreshold;
      lastPosition := None;
      lastVelocity := None;
      lastKickFrame := InitialKickFrame;
    }

    /** `update(ball_position, current_frame)`. */
    method Update(ballPosition: Point, currentFrame: int) returns (kicked: bool)
      requires Valid()
      modifies this
      ensures Valid()
      ensures velocityThreshold == old(velocityThreshold) && accelerationThreshold == old(accelerationThreshold)
      ensures (Snapshot(), kicked)
        == Step(old(Snapshot()), Sample(ballPosition, currentFrame), velocityThreshold, accelerationThreshold)
    {
      if lastPosition.None? {
        lastPosition := Some(ballPosition);
        lastVelocity := Some(Point(0.0, 0.0));
        return false;
      }
      var velocity := Diff(ballPosition, lastPosition.value);
      var acceleration := Diff(velocity, lastVelocity.value);
      lastPosition := Some(ballPosition);
      lastVelocity := Some(velocity);
      if currentFrame - lastKickFrame < Cooldown {
        return false;
      }
      if Exceeds(velocity, velocityThreshold) && Exceeds(acceleration, accelerationThreshold) {
        lastKickFrame := currentFrame;
        return true;
      }
      return false;
    }
  }
}
