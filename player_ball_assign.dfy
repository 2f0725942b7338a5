/**
 * `PlayerBallAssigner.assign_ball_to_player` of the variant the live
 * pipeline uses. Every class "2" track is measured; the source indexes its
 * box at 0, 2 and 3 without a length check, so such tracks must carry at
 * least four values. The nearest one whose nearer bottom corner is within 70
 * pixels of the ball centre wins; the first-listed player wins ties.
 */
module PlayerBallAssign {
  import opened Common
  import opened BBoxUtils
  import opened ArgMin
  import opened Possession
  import AssignersPlayerBallAssign

  /** A track the loop measures: class "2" (whose box the caller guarantees). */
  predicate Eligible(p: Track)
  {
    p.cls == "2" && |p.bbox| >= 4
  }

  lemma EligibleMeasurable()
    ensures Measurable(Eligible)
  {
  }

  /** What the source demands of its input: every class "2" track has a box it can index. */
  predicate WellFormed(players: seq<Track>)
  {
    forall j :: 0 <= j < |players| && players[j].cls == "2" ==> |players[j].bbox| >= 4
  }

  /** The loop of `assign_ball_to_player`, with `None` standing for `float('inf')`. */
  method AssignBallToPlayer(players: seq<Track>, ballBbox: seq<real>) returns (assignedPlayer: int)
    requires |ballBbox| == 4 && WellFormed(players)
    ensures Measurable(Eligible)
    ensures assignedPlayer == Winner(players, Owner(Eligible, players, ballBbox))
  {
    EligibleMeasurable();
    var ball := Centre(ballBbox);
    ghost var cs := Candidates(Eligible, players, ball);
    assignedPlayer := NoOwner;
    var minimumDistance: Option<real> := None;
    var i := 0;
    while i < |players|
      invariant 0 <= i <= |players|
      invariant FirstMin(cs[..i]).None? ==> minimumDistance.None? && assignedPlayer == NoOwner
      invariant FirstMin(cs[..i]).Some? ==>
        var k := FirstMin(cs[..i]).value;
        minimumDistance == Some(cs[k].value) && assignedPlayer == players[k].id
    {
      var player := players[i];
      assert cs[..i + 1][..i] == cs[..i];
      if player.cls == "2" {
        var distance := CornerDistanceSq(player.bbox, ball);
        if distance < MaxDistanceSq && (minimumDistance.None? || distance < minimumDistance.value) {
          minimumDistance := Some(distance);
          assignedPlayer := player.id;
        }
      }
      i := i + 1;
    }
    assert cs[..|players|] == cs;
  }

  /**
   * On well-formed input both variants choose the same player: the guard
   * the newer variant adds only skips boxes this variant cannot measure.
   */
  lemma AgreesWithGuardedVariant(players: seq<Track>, ballBbox: seq<real>)
    requires |ballBbox| == 4 && WellFormed(players)
    requires forall j :: 0 <= j < |players| && players[j].cls == "2" ==> |players[j].bbox| == 4
    ensures Measurable(Eligible) && Measurable(AssignersPlayerBallAssign.Eligible)
    ensures Owner(Eligible, players, ballBbox) == Owner(AssignersPlayerBallAssign.Eligible, players, ballBbox)
  {
    EligibleMeasurable();
    AssignersPlayerBallAssign.EligibleMeasurable();
    var ball := Centre(ballBbox);
    assert Candidates(Eligible, players, ball) == Candidates(AssignersPlayerBallAssign.Eligible, players, ball);
  }
}
