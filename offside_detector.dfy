/**
 * `OffsideDetector`: at every frame it rebuilds the list of attackers that
 * meet the Offside conditions of the rule graph, measured against the
 * second-last defender, and it can look up a new ball possessor in that list.
 */
module OffsideDetector {
  import opened Common
  import opened RuleGraph

  /** One entry of `offside_candidates`: the player's id and `player.get('team')`. */
  datatype Candidate = Candidate(id: int, team: Option<int>)

  /** Every track in the list has a box that unpacks into four values. */
  predicate FourValueBoxes(ts: seq<Track>)
  {
    forall i :: 0 <= i < |ts| ==> |ts[i].bbox| == 4
  }

  /** `_get_far_side`: the larger x edge when attacking to the right, the smaller one otherwise. */
  function FarSide(bbox: seq<real>, direction: string): (x: real)
    requires |bbox| == 4
    ensures x == bbox[0] || x == bbox[2]
    ensures direction == "right" ==> x >= bbox[0] && x >= bbox[2]
    ensures direction != "right" ==> x <= bbox[0] && x <= bbox[2]
  {
    if direction == "right" then (if bbox[0] >= bbox[2] then bbox[0] else bbox[2])
    else (if bbox[0] <= bbox[2] then bbox[0] else bbox[2])
  }

  /** `a` may stand before `b` in the sorted list: by far side, descending when `descending`. */
  predicate InOrder(a: Track, b: Track, direction: string, descending: bool)
    requires |a.bbox| == 4 && |b.bbox| == 4
  {
    if descending then FarSide(a.bbox, direction) >= FarSide(b.bbox, direction)
    else FarSide(a.bbox, direction) <= FarSide(b.bbox, direction)
  }

  predicate Sorted(ts: seq<Track>, direction: string, descending: bool)
    requires FourValueBoxes(ts)
  {
    forall i, j :: 0 <= i < j < |ts| ==> InOrder(ts[i], ts[j], direction, descending)
  }

  /** Put `t` before the first element it may precede, so that equal keys keep their order. */
  function Insert(t: Track, ts: seq<Track>, direction: string, descending: bool): (r: seq<Track>)
    requires |t.bbox| == 4 && FourValueBoxes(ts)
    ensures FourValueBoxes(r) && |r| == |ts| + 1
  {
    if ts == [] || InOrder(t, ts[0], direction, descending) then [t] + ts
    else [ts[0]] + Insert(t, ts[1..], direction, descending)
  }

  /** `sorted(defenders, key=far side, reverse=(attack_dir == 'left'))`, as a stable insertion sort. */
  function SortByFarSide(ts: seq<Track>, direction: string, descending: bool): (r: seq<Track>)
    requires FourValueBoxes(ts)
    ensures FourValueBoxes(r) && |r| == |ts|
  {
    if ts == [] then [] else Insert(ts[0], SortByFarSide(ts[1..], direction, descending), direction, descending)
  }

  /** Every element of `ts` may stand after `a`. */
  predicate Follows(a: Track, ts: seq<Track>, direction: string, descending: bool)
    requires |a.bbox| == 4 && FourValueBoxes(ts)
  {
    forall k :: 0 <= k < |ts| ==> InOrder(a, ts[k], direction, descending)
  }

  lemma {:induction false} InsertFollows(a: Track, t: Track, ts: seq<Track>, direction: string, descending: bool)
    requires |a.bbox| == 4 && |t.bbox| == 4 && FourValueBoxes(ts)
    requires InOrder(a, t, direction, descending) && Follows(a, ts, direction, descending)
    ensures Follows(a, Insert(t, ts, direction, descending), direction, descending)
  {
    if ts != [] && !InOrder(t, ts[0], direction, descending) {
      InsertFollows(a, t, ts[1..], direction, descending);
    }
  }

  lemma {:induction false} InsertPermutes(t: Track, ts: seq<Track>, direction: string, descending: bool)
    requires |t.bbox| == 4 && FourValueBoxes(ts)
    ensures multiset(Insert(t, ts, direction, descending)) == multiset(ts) + multiset{t}
  {
    if ts != [] && !InOrder(t, ts[0], direction, descending) {
      InsertPermutes(t, ts[1..], direction, descending);
      assert ts == [ts[0]] + ts[1..];
    }
  }

  lemma {:induction false} InsertSorted(t: Track, ts: seq<Track>, direction: string, descending: bool)
    requires |t.bbox| == 4 && FourValueBoxes(ts) && Sorted(ts, direction, descending)
    ensures Sorted(Insert(t, ts, direction, descending), direction, descending)
  {
    if ts != [] {
      var rest := ts[1..];
      if InOrder(t, ts[0], direction, descending) {
        assert Follows(ts[0], rest, direction, descending);
      } else {
        InsertSorted(t, rest, direction, descending);
        assert Follows(ts[0], rest, direction, descending);
        InsertFollows(ts[0], t, rest, direction, descending);
      }
    }
  }

  /** The defenders come out ordered by far side in the requested direction, and none is lost or added. */
  lemma {:induction false} SortByFarSideSpec(ts: seq<Track>, direction: string, descending: bool)
    requires FourValueBoxes(ts)
    ensures Sorted(SortByFarSide(ts, direction, descending), direction, descending)
    ensures multiset(SortByFarSide(ts, direction, descending)) == multiset(ts)
  {
    if ts != [] {
      SortByFarSideSpec(ts[1..], direction, descending);
      InsertSorted(ts[0], SortByFarSide(ts[1..], direction, descending), direction, descending);
      InsertPermutes(ts[0], SortByFarSide(ts[1..], direction, descending), direction, descending);
      assert ts == [ts[0]] + ts[1..];
    }
  }

  /** The far side of the second-last defender: index 1 of the sorted defenders. */
  function SecondLastDefenderX(defenders: seq<Track>, direction: string): real
    requires |defenders| >= 2 && FourValueBoxes(defenders)
  {
    FarSide(SortByFarSide(defenders, direction, direction == "left")[1].bbox, direction)
  }

  /**
   * The value one condition name gets in `condition_results`, or `None`
   * when the name matches none of the branches and no entry is written.
   */
  function ConditionResult(condition: string, direction: string, playerX: real, defenderX: real, ballX: real): Option<bool>
  {
    if condition == "Ball is played or touched by teammate" then Some(true)
    else if condition == "Player is in opponent's half" then Some(true)
    else if condition == "Player is ahead of the second-last defender" then
      Some((direction == "right" && playerX > defenderX) || (direction == "left" && playerX < defenderX))
    else if condition == "Player is ahead of the ball" then
      Some((direction == "right" && playerX > ballX) || (direction == "left" && playerX < ballX))
    else if condition == "Player interferes with play" then Some(true)
    else None
  }

  /** `condition_results.get(c, False)`. */
  predicate Holds(condition: string, direction: string, playerX: real, defenderX: real, ballX: real)
  {
    ConditionResult(condition, direction, playerX, defenderX, ballX) == Some(true)
  }

  /** `all(...)` over the listed conditions. */
  predicate Qualifies(conditions: seq<string>, direction: string, playerX: real, defenderX: real, ballX: real)
  {
    forall i :: 0 <= i < |conditions| ==> Holds(conditions[i], direction, playerX, defenderX, ballX)
  }

  /** The candidates the loop has appended after looking at `attackers`. */
  function Candidates(attackers: seq<Track>, defenderX: real, ballX: real, direction: string, conditions: seq<string>): (r: seq<Candidate>)
    requires FourValueBoxes(attackers)
    ensures |r| <= |attackers|
  {
    if attackers == [] then []
    else
      var n := |attackers|;
      var p := attackers[n - 1];
      var prev := Candidates(attackers[..n - 1], defenderX, ballX, direction, conditions);
      if Qualifies(conditions, direction, FarSide(p.bbox, direction), defenderX, ballX) then prev + [Candidate(p.id, p.team)]
      else prev
  }

  /** The list `update_candidates` leaves behind. */
  function UpdatedCandidates(attackers: seq<Track>, defenders: seq<Track>, ballPosition: Option<Point>,
                             direction: string, conditions: seq<string>): seq<Candidate>
    requires |defenders| >= 2 && ballPosition.Some? ==> FourValueBoxes(attackers) && FourValueBoxes(defenders)
  {
    if |defenders| < 2 || ballPosition.None? then []
    else Candidates(attackers, SecondLastDefenderX(defenders, direction), ballPosition.value.x, direction, conditions)
  }

  /** A player enters the list exactly when every listed condition evaluated to True for it. */
  lemma {:induction false} CandidatesIff(attackers: seq<Track>, defenderX: real, ballX: real, direction: string,
                                         conditions: seq<string>, c: Candidate)
    requires FourValueBoxes(attackers)
    ensures c in Candidates(attackers, defenderX, ballX, direction, conditions) <==>
      exists i :: 0 <= i < |attackers| && Candidate(attackers[i].id, attackers[i].team) == c
        && Qualifies(conditions, direction, FarSide(attackers[i].bbox, direction), defenderX, ballX)
  {
    if attackers != [] {
      var n := |attackers|;
      var pre := attackers[..n - 1];
      CandidatesIff(pre, defenderX, ballX, direction, conditions, c);
      assert forall i :: 0 <= i < n - 1 ==> pre[i] == attackers[i];
      if exists i :: (0 <= i < n && Candidate(attackers[i].id, attackers[i].team) == c
        && Qualifies(conditions, direction, FarSide(attackers[i].bbox, direction), defenderX, ballX))
      {
        var i :| 0 <= i < n && Candidate(attackers[i].id, attackers[i].team) == c
          && Qualifies(conditions, direction, FarSide(attackers[i].bbox, direction), defenderX, ballX);
        if i < n - 1 {
          assert pre[i] == attackers[i];
        }
      }
    }
  }

  /** A condition name that starts with 'A' matches none of the evaluator's branches. */
  lemma UnrecognisedName(condition: string, direction: string, playerX: real, defenderX: real, ballX: real)
    requires |condition| > 0 && condition[0] == 'A'
    ensures ConditionResult(condition, direction, playerX, defenderX, ballX).None?
  {
  }

  /** No attacker meets the rule graph's Offside conditions, wherever it stands. */
  lemma GraphConditionsFail(direction: string, playerX: real, defenderX: real, ballX: real)
    ensures !Qualifies(OffsideConditions, direction, playerX, defenderX, ballX)
  {
    var c := OffsideConditions[0];
    assert c == "Attacker is in opponent's half";
    UnrecognisedName(c, direction, playerX, defenderX, ballX);
    assert !Holds(c, direction, playerX, defenderX, ballX);
  }

  lemma {:induction false} NoGraphCandidates(attackers: seq<Track>, defenderX: real, ballX: real, direction: string)
    requires FourValueBoxes(attackers)
    ensures Candidates(attackers, defenderX, ballX, direction, OffsideConditions) == []
  {
    if attackers != [] {
      var n := |attackers|;
      NoGraphCandidates(attackers[..n - 1], defenderX, ballX, direction);
      GraphConditionsFail(direction, FarSide(attackers[n - 1].bbox, direction), defenderX, ballX);
    }
  }

  /**
   * With the conditions the rule graph actually holds, no attacker ever
   * qualifies, so the candidate list is always empty.
   */
  lemma NoCandidatesFromGraph(attackers: seq<Track>, defenders: seq<Track>,
                              ballPosition: Option<Point>, direction: string)
    requires |defenders| >= 2 && ballPosition.Some? ==> FourValueBoxes(attackers) && FourValueBoxes(defenders)
    ensures UpdatedCandidates(attackers, defenders, ballPosition, direction, GetConditions("Offside")) == []
  {
    OffsideConditionsExact();
    if |defenders| >= 2 && ballPosition.Some? {
      NoGraphCandidates(attackers, SecondLastDefenderX(defenders, direction), ballPosition.value.x, direction);
    }
  }

  /**
   * With the conditions the evaluator does recognise, attacking to the
   * right, a player qualifies exactly when its right edge is beyond both the
   * second-last defender's and the ball.
   */
  lemma RecognisedConditions(playerX: real, defenderX: real, ballX: real)
    ensures Qualifies(["Player is ahead of the second-last defender", "Player is ahead of the ball"], "right", playerX, defenderX, ballX)
      <==> playerX > defenderX && playerX > ballX
  {
    var cs := ["Player is ahead of the second-last defender", "Player is ahead of the ball"];
    assert Holds(cs[0], "right", playerX, defenderX, ballX) <==> playerX > defenderX;
    assert Holds(cs[1], "right", playerX, defenderX, ballX) <==> playerX > ballX;
  }

  class OffsideDetector {
    var offsideCandidates: seq<Candidate>
    var triggeredOffside: Option<int>

    constructor()
      ensures offsideCandidates == [] && triggeredOffside.None?
    {
      offsideCandidates := [];
      triggeredOffside := None;
    }

    /**
     * `update_candidates`; the rule graph's Offside conditions are read
     * afresh on each call, and `frame_width` is accepted and not used.
     */
    method UpdateCandidates(attackers: seq<Track>, defenders: seq<Track>, ballPosition: Option<Point>,
                            attackDir: string, frameWidth: int)
      requires |defenders| >= 2 && ballPosition.Some? ==> FourValueBoxes(attackers) && FourValueBoxes(defenders)
      modifies this`offsideCandidates
      ensures offsideCandidates == UpdatedCandidates(attackers, defenders, ballPosition, attackDir, GetConditions("Offside"))
    {
      offsideCandidates := [];
      if |defenders| < 2 || ballPosition.None? {
        return;
      }
      var sortedDefs := SortByFarSide(defenders, attackDir, attackDir == "left");
      var secondLastDefX := FarSide(sortedDefs[1].bbox, attackDir);
      var ballX := ballPosition.value.x;
      var conditions := GetConditions("Offside");
      var i := 0;
      while i < |attackers|
        invariant 0 <= i <= |attackers|
        invariant offsideCandidates == Candidates(attackers[..i], secondLastDefX, ballX, attackDir, conditions)
      {
        var player := attackers[i];
        assert attackers[..i + 1][..i] == attackers[..i];
        var playerX := FarSide(player.bbox, attackDir);
        if Qualifies(conditions, attackDir, playerX, secondLastDefX, ballX) {
          offsideCandidates := offsideCandidates + [Candidate(player.id, player.team)];
        }
        i := i + 1;
      }
      assert attackers[..|attackers|] == attackers;
    }

    /** `check_violation`: the new possessor's id if it is a candidate, recorded as triggered. */
    method CheckViolation(newPossessorId: int) returns (r: Option<int>)
      modifies this`triggeredOffside
      ensures r == (if exists i :: 0 <= i < |offsideCandidates| && offsideCandidates[i].id == newPossessorId
                    then Some(newPossessorId) else None)
      ensures triggeredOffside == if r.Some? then r else old(triggeredOffside)
    {
      var i := 0;
      while i < |offsideCandidates|
        invariant 0 <= i <= |offsideCandidates|
        invariant forall j :: 0 <= j < i ==> offsideCandidates[j].id != newPossessorId
      {
        if newPossessorId == offsideCandidates[i].id {
          triggeredOffside := Some(offsideCandidates[i].id);
          return Some(offsideCandidates[i].id);
        }
        i := i + 1;
      }
      return None;
    }
  }
}
