/**
 * What the two possession assigners share: the 70-pixel reach, the distance
 * from a player's nearer bottom corner to the ball, the result encoding
 * (`-1` for "nobody") and the choice itself. The variants differ only in
 * which tracks they measure, so the choice is stated for any eligibility
 * test that admits only tracks whose box can be indexed.
 */
module Possession {
  import opened Common
  import opened BBoxUtils
  import opened ArgMin

  /** `max_player_ball_distance` = 70 pixels, squared. */
  const MaxDistanceSq: real := 4900.0

  /** The value returned when no player is close enough. */
  const NoOwner: int := -1

  /**
   * `min(dist_left, dist_right)` squared: the distance from the ball centre to
   * the nearer of the bottom-left `(x1, y2)` and bottom-right `(x2, y2)` corners.
   */
  function CornerDistanceSq(bbox: seq<real>, ball: Point): (d: real)
    requires |bbox| >= 4
    ensures d == SquaredDistance(Point(bbox[0], bbox[3]), ball) || d == SquaredDistance(Point(bbox[2], bbox[3]), ball)
    ensures d <= SquaredDistance(Point(bbox[0], bbox[3]), ball) && d <= SquaredDistance(Point(bbox[2], bbox[3]), ball)
  {
    var left := SquaredDistance(Point(bbox[0], bbox[3]), ball);
    var right := SquaredDistance(Point(bbox[2], bbox[3]), ball);
    if left <= right then left else right
  }

  /** The id of the chosen player, or `-1` when the loop chose nobody. */
  function Winner(players: seq<Track>, owner: Option<nat>): int
    requires owner.Some? ==> owner.value < |players|
  {
    match owner
    case None => NoOwner
    case Some(k) => players[k].id
  }

  /** Every track a variant measures has a box with corners to measure from. */
  ghost predicate Measurable(eligible: Track -> bool)
  {
    forall p :: eligible(p) ==> |p.bbox| >= 4
  }

  /** What one player offers the running minimum: its distance, if it is measured and within reach. */
  function Candidate(eligible: Track -> bool, p: Track, ball: Point): Option<real>
    requires Measurable(eligible)
  {
    if eligible(p) && CornerDistanceSq(p.bbox, ball) < MaxDistanceSq then Some(CornerDistanceSq(p.bbox, ball))
    else None
  }

  function Candidates(eligible: Track -> bool, players: seq<Track>, ball: Point): (cs: seq<Option<real>>)
    requires Measurable(eligible)
    ensures |cs| == |players|
    ensures forall i :: 0 <= i < |players| ==> cs[i] == Candidate(eligible, players[i], ball)
  {
    seq(|players|, i requires 0 <= i < |players| => Candidate(eligible, players[i], ball))
  }

  /** Position of the player the assigner picks, if any. */
  function Owner(eligible: Track -> bool, players: seq<Track>, ballBbox: seq<real>): (k: Option<nat>)
    requires |ballBbox| == 4 && Measurable(eligible)
    ensures k.Some? ==> k.value < |players| && eligible(players[k.value])
  {
    FirstMin(Candidates(eligible, players, Centre(ballBbox)))
  }

  /**
   * The player at `k` is measured, within reach, no farther than any
   * measured player, and strictly nearer than every measured player
   * listed before it.
   */
  ghost predicate IsOwner(eligible: Track -> bool, players: seq<Track>, ball: Point, k: nat)
    requires Measurable(eligible)
  {
    && k < |players|
    && eligible(players[k])
    && CornerDistanceSq(players[k].bbox, ball) < MaxDistanceSq
    && (forall j :: 0 <= j < |players| && eligible(players[j]) ==>
          CornerDistanceSq(players[k].bbox, ball) <= CornerDistanceSq(players[j].bbox, ball))
    && (forall j :: 0 <= j < k && eligible(players[j]) ==>
          CornerDistanceSq(players[k].bbox, ball) < CornerDistanceSq(players[j].bbox, ball))
  }

  /** The assigner's choice, characterised: it picks `k` exactly when `k` is the owner described above. */
  lemma OwnerIff(eligible: Track -> bool, players: seq<Track>, ballBbox: seq<real>, k: nat)
    requires |ballBbox| == 4 && Measurable(eligible)
    ensures Owner(eligible, players, ballBbox) == Some(k) <==> IsOwner(eligible, players, Centre(ballBbox), k)
  {
    var ball := Centre(ballBbox);
    var cs := Candidates(eligible, players, ball);
    FirstMinIff(cs, k);
    if IsOwner(eligible, players, ball, k) {
      assert IsFirstMin(cs, k);
    }
    if IsFirstMin(cs, k) {
      forall j | 0 <= j < |players| && eligible(players[j])
        ensures CornerDistanceSq(players[k].bbox, ball) <= CornerDistanceSq(players[j].bbox, ball)
      {
        if cs[j].None? {
          assert CornerDistanceSq(players[j].bbox, ball) >= MaxDistanceSq;
        }
      }
      forall j | 0 <= j < k && eligible(players[j])
        ensures CornerDistanceSq(players[k].bbox, ball) < CornerDistanceSq(players[j].bbox, ball)
      {
        if cs[j].None? {
          assert CornerDistanceSq(players[j].bbox, ball) >= MaxDistanceSq;
        }
      }
    }
  }

  /** Nobody is chosen exactly when no measured player is within reach. */
  lemma NoOwnerIff(eligible: Track -> bool, players: seq<Track>, ballBbox: seq<real>)
    requires |ballBbox| == 4 && Measurable(eligible)
    ensures Owner(eligible, players, ballBbox).None? <==>
      forall j :: 0 <= j < |players| && eligible(players[j]) ==>
        CornerDistanceSq(players[j].bbox, Centre(ballBbox)) >= MaxDistanceSq
  {
    var cs := Candidates(eligible, players, Centre(ballBbox));
    FirstMinNone(cs);
  }

  /** Appending players that are not measured or out of reach never changes the result. */
  lemma AppendFarPlayers(eligible: Track -> bool, players: seq<Track>, far: seq<Track>, ballBbox: seq<real>)
    requires |ballBbox| == 4 && Measurable(eligible)
    requires forall j :: 0 <= j < |far| && eligible(far[j]) ==>
      CornerDistanceSq(far[j].bbox, Centre(ballBbox)) >= MaxDistanceSq
    ensures Owner(eligible, players + far, ballBbox) == Owner(eligible, players, ballBbox)
    ensures Winner(players + far, Owner(eligible, players + far, ballBbox)) == Winner(players, Owner(eligible, players, ballBbox))
  {
    var ball := Centre(ballBbox);
    var cs, es := Candidates(eligible, players, ball), Candidates(eligible, far, ball);
    assert Candidates(eligible, players + far, ball) == cs + es;
    FirstMinAppendAbsent(cs, es);
  }
}
