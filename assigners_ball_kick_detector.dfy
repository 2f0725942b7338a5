/**
 * The touch/exit kick detector of the newer assigners package: a ball that
 * comes within `distance_threshold` pixels (edge to edge) of a player arms it,
 * and the first later call that sees the ball beyond the threshold reports a
 * kick and disarms it.
 */
module AssignersBallKickDetector {
  import opened Common
  import opened BBoxUtils

  /** `distance_threshold` when the constructor is called without one. */
  const DefaultThreshold: real := 5.0

  /** An argument of `update`: something that is not a dict, or a dict with or without a `bbox`. */
  datatype Input = NotDict | Dict(bbox: Option<seq<real>>)

  /** What one call sees: an input it rejects, a ball touching the player, or a ball away from it. */
  datatype Observation = Invalid | Near | Far

  /** The source unpacks both boxes into four values once both inputs have passed the checks. */
  predicate Unpackable(ball: Input, player: Input)
  {
    ball.Dict? && player.Dict? && ball.bbox.Some? && player.bbox.Some? ==>
      |ball.bbox.value| == 4 && |player.bbox.value| == 4
  }

  /**
   * The gap between the intervals `[lo1, hi1]` and `[lo2, hi2]` along one axis:
   * `max(0, max(lo1 - hi2, lo2 - hi1))`.
   */
  function Gap(lo1: real, hi1: real, lo2: real, hi2: real): (g: real)
    ensures g >= 0.0
    ensures g >= lo1 - hi2 && g >= lo2 - hi1
    ensures g == 0.0 || g == lo1 - hi2 || g == lo2 - hi1
    ensures g == 0.0 <==> lo1 <= hi2 && lo2 <= hi1
  {
    var m := if lo1 - hi2 >= lo2 - hi1 then lo1 - hi2 else lo2 - hi1;
    if m >= 0.0 then m else 0.0
  }

  /**
   * `hypot(horizontal_dist, vertical_dist) <= threshold`, stated without the
   * square root: the threshold is non-negative and the squared edge
   * distance is at most its square.
   */
  predicate Touching(player: seq<real>, ball: seq<real>, threshold: real)
    requires |player| == 4 && |ball| == 4
  {
    var h := Gap(player[0], player[2], ball[0], ball[2]);
    var v := Gap(player[1], player[3], ball[1], ball[3]);
    threshold >= 0.0 && Square(h) + Square(v) <= threshold * threshold
  }

  /** How one call classifies its arguments. */
  function Observe(ball: Input, player: Input, threshold: real): Observation
    requires Unpackable(ball, player)
  {
    if !ball.Dict? || !player.Dict? then Invalid
    else if ball.bbox.None? || player.bbox.None? then Invalid
    else if Touching(player.bbox.value, ball.bbox.value, threshold) then Near
    else Far
  }

  /** One call of `update` on the armed flag: the new flag and the value returned. */
  function Step(awaitingExit: bool, o: Observation): (bool, bool)
  {
    match o
    case Invalid => (awaitingExit, false)
    case Near => (true, false)
    case Far => if awaitingExit then (false, true) else (awaitingExit, false)
  }

  /** The armed flag after a sequence of calls. */
  function Final(awaitingExit: bool, os: seq<Observation>): bool
  {
    if os == [] then awaitingExit
    else Step(Final(awaitingExit, os[..|os| - 1]), os[|os| - 1]).0
  }

  /** The values a sequence of calls returns, one per call. */
  function Run(awaitingExit: bool, os: seq<Observation>): (out: seq<bool>)
    ensures |out| == |os|
  {
    if os == [] then []
    else
      var pre := os[..|os| - 1];
      Run(awaitingExit, pre) + [Step(Final(awaitingExit, pre), os[|os| - 1]).1]
  }

  /** The last valid observation in `os` is a touch. */
  predicate LastValidIsNear(os: seq<Observation>)
  {
    exists j :: 0 <= j < |os| && os[j] == Near && forall l :: j < l < |os| ==> os[l] == Invalid
  }

  /** Overlapping boxes are touching at any non-negative threshold. */
  lemma OverlapTouches(player: seq<real>, ball: seq<real>, threshold: real)
    requires |player| == 4 && |ball| == 4
    requires player[0] <= ball[2] && ball[0] <= player[2]
    requires player[1] <= ball[3] && ball[1] <= player[3]
    requires threshold >= 0.0
    ensures Touching(player, ball, threshold)
  {
    assert Gap(player[0], player[2], ball[0], ball[2]) == 0.0;
    assert Gap(player[1], player[3], ball[1], ball[3]) == 0.0;
    assert Square(0.0) == 0.0;
    SquareNonNegative(threshold);
  }

  /**
   * A rejected input returns False and leaves the flag as it was; a call
   * reports a kick exactly when the detector was armed and the ball is away;
   * after a valid call the detector is armed exactly when it saw a touch.
   */
  lemma StepIff(awaitingExit: bool, o: Observation)
    ensures Step(awaitingExit, Invalid) == (awaitingExit, false)
    ensures Step(awaitingExit, o).1 <==> awaitingExit && o == Far
    ensures o != Invalid ==> (Step(awaitingExit, o).0 <==> o == Near)
  {
  }

  /** The flag after a run: armed exactly when the last valid call saw a touch, or, with no valid call, as it started. */
  lemma {:induction false} FinalIff(awaitingExit: bool, os: seq<Observation>)
    ensures Final(awaitingExit, os) <==>
      LastValidIsNear(os) || (awaitingExit && forall l :: 0 <= l < |os| ==> os[l] == Invalid)
  {
    if os != [] {
      var n := |os|;
      var pre := os[..n - 1];
      FinalIff(awaitingExit, pre);
      assert forall l :: 0 <= l < n - 1 ==> pre[l] == os[l];
      if os[n - 1] == Near {
        assert LastValidIsNear(os) by {
          assert os[n - 1] == Near;
        }
      } else if os[n - 1] == Far {
        forall j | 0 <= j < n && os[j] == Near
          ensures !(forall l :: j < l < n ==> os[l] == Invalid)
        {
          assert j < n - 1 && os[n - 1] != Invalid;
        }
      } else {
        if LastValidIsNear(pre) {
          var j :| 0 <= j < n - 1 && pre[j] == Near && forall l :: j < l < n - 1 ==> pre[l] == Invalid;
          assert os[j] == Near && forall l :: j < l < n ==> os[l] == Invalid;
        }
        if LastValidIsNear(os) {
          var j :| 0 <= j < n && os[j] == Near && forall l :: j < l < n ==> os[l] == Invalid;
          assert j < n - 1;
          assert pre[j] == Near && forall l :: j < l < n - 1 ==> pre[l] == Invalid;
        }
      }
    }
  }

  /** The `i`th call of a run returns what one step returns from the flag left by the calls before it. */
  lemma {:induction false} RunAt(awaitingExit: bool, os: seq<Observation>, i: nat)
    requires i < |os|
    ensures Run(awaitingExit, os)[i] == Step(Final(awaitingExit, os[..i]), os[i]).1
  {
    var n := |os|;
    var pre := os[..n - 1];
    if i < n - 1 {
      assert pre[..i] == os[..i];
      RunAt(awaitingExit, pre, i);
    } else {
      assert pre == os[..i];
    }
  }

  /**
   * From a fresh detector, call `i` reports a kick exactly when it sees the
   * ball away from the player and the last valid call before it saw a touch.
   */
  lemma KickIff(os: seq<Observation>, i: nat)
    requires i < |os|
    ensures Run(false, os)[i] <==> os[i] == Far && LastValidIsNear(os[..i])
  {
    RunAt(false, os, i);
    FinalIff(false, os[..i]);
  }

  /** Two consecutive calls never both report a kick. */
  lemma NoConsecutiveKicks(awaitingExit: bool, os: seq<Observation>, i: nat)
    requires i + 1 < |os|
    ensures !(Run(awaitingExit, os)[i] && Run(awaitingExit, os)[i + 1])
  {
    RunAt(awaitingExit, os, i);
    RunAt(awaitingExit, os, i + 1);
    var pre := os[..i + 1];
    assert pre[..i] == os[..i];
    assert Final(awaitingExit, pre) == Step(Final(awaitingExit, os[..i]), os[i]).0;
  }

  /** A ball horizontally `d` pixels from a 10-by-10 player box at the origin. */
  function BallAt(d: real): Input
  {
    Dict(Some([10.0 + d, 0.0, 12.0 + d, 2.0]))
  }

  /** With the default threshold, a ball 3 pixels from the player touches it and one 10 pixels away does not. */
  lemma ExampleObservations()
    ensures Observe(BallAt(3.0), Dict(Some([0.0, 0.0, 10.0, 10.0])), DefaultThreshold) == Near
    ensures Observe(BallAt(10.0), Dict(Some([0.0, 0.0, 10.0, 10.0])), DefaultThreshold) == Far
  {
    assert Gap(0.0, 10.0, 13.0, 15.0) == 3.0;
    assert Gap(0.0, 10.0, 20.0, 22.0) == 10.0;
    assert Gap(0.0, 10.0, 0.0, 2.0) == 0.0;
    assert Square(3.0) == 9.0 && Square(10.0) == 100.0 && Square(0.0) == 0.0;
  }

  /** Edge distances 3, 3, 3, 10, 10 (touch three times, then away twice) give False, False, False, True, False. */
  lemma ExampleTrace()
    ensures Run(false, [Near, Near, Near, Far, Far]) == [false, false, false, true, false]
  {
    var os := [Near, Near, Near, Far, Far];
    assert os[..4] == [Near, Near, Near, Far];
    assert os[..4][..3] == [Near, Near, Near];
    assert os[..3][..2] == [Near, Near];
    assert os[..2][..1] == [Near];
    assert Final(false, [Near]) == true;
    assert Final(false, [Near, Near]) == true;
    assert Final(false, [Near, Near, Near]) == true;
    assert Final(false, [Near, Near, Near, Far]) == false;
    assert Run(false, [Near]) == [false];
    assert Run(false, [Near, Near]) == [false, false];
    assert Run(false, [Near, Near, Near]) == [false, false, false];
    assert Run(false, [Near, Near, Near, Far]) == [false, false, false, true];
  }

  class BallKickDetector {
    var distanceThreshold: real
    var awaitingExit: bool

    constructor(distanceThreshold: real)
      ensures this.distanceThreshold == distanceThreshold && !awaitingExit
    {
      this.distanceThreshold := distanceThreshold;
      awaitingExit := false;
    }

    /** `update`; the frame number is only logged by the source. */
    method Update(ball: Input, player: Input, currentFrame: int) returns (kicked: bool)
      requires Unpackable(ball, player)
      modifies this
      ensures distanceThreshold == old(distanceThreshold)
      ensures (awaitingExit, kicked) == Step(old(awaitingExit), Observe(ball, player, distanceThreshold))
    {
      if !ball.Dict? || !player.Dict? {
        return false;
      }
      if ball.bbox.None? || player.bbox.None? {
        return false;
      }
      var p, b := player.bbox.value, ball.bbox.value;
      var horizontal := Gap(p[0], p[2], b[0], b[2]);
      var vertical := Gap(p[1], p[3], b[1], b[3]);
      if distanceThreshold >= 0.0 && Square(horizontal) + Square(vertical) <= distanceThreshold * distanceThreshold {
        awaitingExit := true;
        return false;
      }
      if awaitingExit {
        awaitingExit := false;
        return true;
      }
      return false;
    }
  }
}
