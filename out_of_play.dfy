/**
 * The two out-of-play deciders of the event package, which the live
 * pipeline leaves switched off: `ThrowInDetector.check_throw_in` and
 * `CornerGoalDetector.check_corner_goal`. Both read only the ball position,
 * the team that touched the ball last and the constant field width.
 */
module OutOfPlay {
  import opened Common

  /** `field_width` when the constructors are called without one. */
  const DefaultFieldWidth: int := 1280
  /** `goal_width` of the corner decider when called without one. */
  const DefaultGoalWidth: int := 300

  /** The `ball_position` argument: a list or tuple of numbers, or anything else. */
  datatype BallPosition = Coords(values: seq<real>) | NotSequence

  /** What both deciders accept: a two-element list or tuple, and team 1 or 2. */
  predicate ValidArguments(position: BallPosition, lastTeamTouch: int)
  {
    position.Coords? && |position.values| == 2 && (lastTeamTouch == 1 || lastTeamTouch == 2)
  }

  /** The team that did not touch the ball last. */
  function OtherTeam(team: int): int
  {
    if team == 1 then 2 else 1
  }

  /** `check_throw_in`: the team awarded the throw-in when the ball is beyond either side line. */
  function CheckThrowIn(fieldWidth: int, position: BallPosition, lastTeamTouch: int): Option<int>
  {
    if !ValidArguments(position, lastTeamTouch) then None
    else
      var x := position.values[0];
      if x < 0.0 then Some(OtherTeam(lastTeamTouch))
      else if x > fieldWidth as real then Some(OtherTeam(lastTeamTouch))
      else None
  }

  /** Rejected arguments give `None`. */
  lemma ThrowInInvalid(fieldWidth: int, position: BallPosition, lastTeamTouch: int)
    requires !ValidArguments(position, lastTeamTouch)
    ensures CheckThrowIn(fieldWidth, position, lastTeamTouch).None?
  {
  }

  /**
   * With valid arguments a throw-in is awarded exactly when x is outside
   * `[0, field_width]`, always to the team that did not touch the ball last,
   * and whatever y is.
   */
  lemma ThrowInSpec(fieldWidth: int, x: real, y: real, y': real, lastTeamTouch: int)
    requires lastTeamTouch == 1 || lastTeamTouch == 2
    ensures var r := CheckThrowIn(fieldWidth, Coords([x, y]), lastTeamTouch);
      && (r.Some? <==> x < 0.0 || x > fieldWidth as real)
      && (r.Some? ==> (r.value == 1 || r.value == 2) && r.value != lastTeamTouch)
      && r == CheckThrowIn(fieldWidth, Coords([x, y']), lastTeamTouch)
  {
  }

  /** `check_corner_goal`: "goal_kick" for team 1 and "corner" for team 2 when y is beyond 0.65 of the width. */
  function CheckCornerGoal(fieldWidth: int, goalWidth: int, position: BallPosition, lastTeamTouch: int): Option<string>
  {
    if !ValidArguments(position, lastTeamTouch) then None
    else
      var y := position.values[1];
      var pitchHeight := fieldWidth as real * 0.65;
      if y < 0.0 || y > pitchHeight then
        if lastTeamTouch == 1 then Some("goal_kick")
        else if lastTeamTouch == 2 then Some("corner")
        else None
      else None
  }

  /** Rejected arguments give `None`. */
  lemma CornerGoalInvalid(fieldWidth: int, goalWidth: int, position: BallPosition, lastTeamTouch: int)
    requires !ValidArguments(position, lastTeamTouch)
    ensures CheckCornerGoal(fieldWidth, goalWidth, position, lastTeamTouch).None?
  {
  }

  /**
   * With valid arguments the decision is made exactly when y is outside
   * `[0, 0.65 * field_width]`: a goal kick after team 1, a corner after
   * team 2. Neither x nor the goal width plays any part.
   */
  lemma CornerGoalSpec(fieldWidth: int, goalWidth: int, goalWidth': int, x: real, x': real, y: real, lastTeamTouch: int)
    requires lastTeamTouch == 1 || lastTeamTouch == 2
    ensures var r := CheckCornerGoal(fieldWidth, goalWidth, Coords([x, y]), lastTeamTouch);
      && (r.Some? <==> y < 0.0 || y > fieldWidth as real * 0.65)
      && (r.Some? ==> r == if lastTeamTouch == 1 then Some("goal_kick") else Some("corner"))
      && r == CheckCornerGoal(fieldWidth, goalWidth', Coords([x', y]), lastTeamTouch)
  {
  }

  /** With the default width, a ball at y = 900 is out (the limit is 832) and one at y = 800 is not. */
  lemma CornerGoalDefaults()
    ensures CheckCornerGoal(DefaultFieldWidth, DefaultGoalWidth, Coords([10.0, 900.0]), 2) == Some("corner")
    ensures CheckCornerGoal(DefaultFieldWidth, DefaultGoalWidth, Coords([10.0, 800.0]), 1).None?
  {
  }
}
