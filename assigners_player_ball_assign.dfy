/**
 * `PlayerBallAssigner.assign_ball_to_player` of the newer, guarded variant:
 * only tracks of class "2" with a four-value box are measured, and the
 * nearest one whose nearer bottom corner is within 70 pixels of the ball
 * centre wins; the first-listed player wins ties.
 */
module AssignersPlayerBallAssign {
  import opened Common
  import opened BBoxUtils
  import opened ArgMin
  import opened Possession

  /** A track the loop measures: class "2" and a box of exactly four values. */
  predicate Eligible(p: Track)
  {
    p.cls == "2" && |p.bbox| == 4
  }

  lemma EligibleMeasurable()
    ensures Measurable(Eligible)
  {
  }

  /** The loop of `assign_ball_to_player`, with `None` standing for `float('inf')`. */
  method AssignBallToPlayer(players: seq<Track>, ballBbox: seq<real>) returns (assignedPlayer: int)
    requires |ballBbox| == 4
    ensures Measurable(Eligible)
    ensures assignedPlayer == Winner(players, Owner(Eligible, players, ballBbox))
  {
    EligibleMeasurable();
    var ball := Centre(ballBbox);
    ghost var cs := Candidates(Eligible, players, ball);
    assignedPlayer := NoOwner;
    var minimumDistance: Option<real> := None;
    var i := 0;
    while i < |players|
      invariant 0 <= i <= |players|
      invariant FirstMin(cs[..i]).None? ==> minimumDistance.None? && assignedPlayer == NoOwner
      invariant FirstMin(cs[..i]).Some? ==>
        var k := FirstMin(cs[..i]).value;
        minimumDistance == Some(cs[k].value) && assignedPlayer == players[k].id
    {
      var player := players[i];
      assert cs[..i + 1][..i] == cs[..i];
      if player.cls == "2" && |player.bbox| == 4 {
        var distance := CornerDistanceSq(player.bbox, ball);
        if distance < MaxDistanceSq && (minimumDistance.None? || distance < minimumDistance.value) {
          minimumDistance := Some(distance);
          assignedPlayer := player.id;
        }
      }
      i := i + 1;
    }
    assert cs[..|players|] == cs;
  }

  /** Without a measurable class "2" track nobody is chosen: the result is `-1`. */
  lemma NoPlayersNoOwner(players: seq<Track>, ballBbox: seq<real>)
    requires |ballBbox| == 4
    requires forall j :: 0 <= j < |players| ==> !Eligible(players[j])
    ensures Measurable(Eligible)
    ensures Winner(players, Owner(Eligible, players, ballBbox)) == NoOwner
  {
    EligibleMeasurable();
    NoOwnerIff(Eligible, players, ballBbox);
  }

  /**
   * Class "2" tracks whose box does not have four values are skipped
   * wherever they sit: they never change who is chosen.
   */
  lemma SkipsMalformedBoxes(players: seq<Track>, malformed: seq<Track>, ballBbox: seq<real>)
    requires |ballBbox| == 4
    requires forall j :: 0 <= j < |malformed| ==> |malformed[j].bbox| != 4
    ensures Measurable(Eligible)
    ensures Winner(players + malformed, Owner(Eligible, players + malformed, ballBbox))
         == Winner(players, Owner(Eligible, players, ballBbox))
  {
    EligibleMeasurable();
    AppendFarPlayers(Eligible, players, malformed, ballBbox);
  }
}
