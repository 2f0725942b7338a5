/**
 * `EventDetector.detect`: every frame with a ball refreshes the offside
 * candidates; a kicked ball snapshots them and starts waiting for a new
 * possessor, and the first frame with a possessor ends the wait, raising
 * "Offside" when that possessor is a new player found in the snapshot.
 */
module EventDetector {
  import opened Common
  import opened BBoxUtils
  import opened Numerals
  import opened RuleGraph
  import opened OffsideDetector

  /** Every class "2" track has a box that unpacks into four values. */
  predicate PlayerBoxes(tracks: seq<Track>)
  {
    forall i :: 0 <= i < |tracks| && tracks[i].cls == "2" ==> |tracks[i].bbox| == 4
  }

  /** What `detect` can read of its ball argument: absent, or a track with a four-value box. */
  predicate BallOk(ball: Option<Track>)
  {
    ball.Some? ==> |ball.value.bbox| == 4
  }

  /** `next((p for p in tracks if p['id'] == id), None)`. */
  function FirstWithId(tracks: seq<Track>, id: int): (r: Option<Track>)
    ensures r.Some? ==> r.value in tracks && r.value.id == id
    ensures r.None? <==> forall i :: 0 <= i < |tracks| ==> tracks[i].id != id
  {
    if tracks == [] then None
    else if tracks[0].id == id then Some(tracks[0])
    else FirstWithId(tracks[1..], id)
  }

  /** The team of the player the ball names as its possessor, if that player is among the tracks. */
  function PossessingTeam(tracks: seq<Track>, ball: Option<Track>): Option<int>
  {
    if ball.Some? && ball.value.possessedBy.Some? then
      match FirstWithId(tracks, ball.value.possessedBy.value)
      case None => None
      case Some(p) => p.team
    else None
  }

  /** Class "2" tracks whose team equals the possessing team (`None` included). */
  function Attackers(tracks: seq<Track>, team: Option<int>): (r: seq<Track>)
    ensures forall t :: t in r <==> t in tracks && t.cls == "2" && t.team == team
    ensures PlayerBoxes(tracks) ==> FourValueBoxes(r)
  {
    if tracks == [] then []
    else (if tracks[0].cls == "2" && tracks[0].team == team then [tracks[0]] else []) + Attackers(tracks[1..], team)
  }

  /** Class "2" tracks whose team is none of `None`, 0 and the possessing team. */
  function Defenders(tracks: seq<Track>, team: Option<int>): (r: seq<Track>)
    ensures forall t :: t in r <==> t in tracks && t.cls == "2" && t.team.Some? && t.team.value != 0 && t.team != team
    ensures PlayerBoxes(tracks) ==> FourValueBoxes(r)
  {
    if tracks == [] then []
    else
      var t := tracks[0];
      (if t.cls == "2" && t.team.Some? && t.team.value != 0 && t.team != team then [t] else []) + Defenders(tracks[1..], team)
  }

  /** The offside detector's candidates after the frame: refreshed when there is a ball, untouched otherwise. */
  function FrameCandidates(tracks: seq<Track>, ball: Option<Track>, direction: string, previous: seq<Candidate>): seq<Candidate>
    requires PlayerBoxes(tracks) && BallOk(ball)
  {
    if ball.None? then previous
    else
      var team := PossessingTeam(tracks, ball);
      UpdatedCandidates(Attackers(tracks, team), Defenders(tracks, team), Some(Centre(ball.value.bbox)), direction,
                        GetConditions("Offside"))
  }

  /** The text of an offside by player `pid`. */
  function OffsideText(pid: int): string
  {
    "Offside by Player " + IntToString(pid)
  }

  /** Player `pid` is in the snapshot. */
  predicate InSnapshot(pending: seq<Candidate>, pid: int)
  {
    exists i :: 0 <= i < |pending| && pending[i].id == pid
  }

  /** The detector's fields `waiting_for_possession`, `pending_offside_list`, `last_ball_holder` and `last_event`. */
  datatype EventState = EventState(
    waiting: bool,
    pending: seq<Candidate>,
    holder: Option<int>,
    lastEvent: Option<(Option<string>, Option<string>)>)

  /** A fresh detector. */
  const Initial := EventState(false, [], None, None)

  /** `ball['possessed_by']` when it is present and not `-1`. */
  predicate HasPossessor(ball: Track)
  {
    ball.possessedBy.Some? && ball.possessedBy.value != -1
  }

  /**
   * One call of `detect`, given the candidates the offside detector holds
   * after its refresh: the new state, the event and its text.
   */
  function DetectStep(s: EventState, candidates: seq<Candidate>, ball: Option<Track>, lastPlayerPossession: Option<int>)
    : (r: (EventState, Option<string>, Option<string>))
    ensures r.0.lastEvent == Some((r.1, r.2))
  {
    if ball.None? then (s.(lastEvent := Some((None, None))), None, None)
    else
      var b := ball.value;
      var kicked := s.(waiting := true, pending := candidates, holder := lastPlayerPossession);
      var t := if b.kicked == Some(true) then kicked else s;
      if t.waiting && HasPossessor(b) then
        var pid := b.possessedBy.value;
        var fires := Some(pid) != t.holder && InSnapshot(t.pending, pid);
        var event := if fires then Some("Offside") else None;
        var text := if fires then Some(OffsideText(pid)) else None;
        (t.(waiting := false, lastEvent := Some((event, text))), event, text)
      else (t.(lastEvent := Some((None, None))), None, None)
  }

  /** Without a ball nothing is raised and the wait, the snapshot and the holder are kept. */
  lemma NoBallNoEvent(s: EventState, candidates: seq<Candidate>, lpp: Option<int>)
    ensures var (t, event, text) := DetectStep(s, candidates, None, lpp);
      event.None? && text.None? && t.waiting == s.waiting && t.pending == s.pending && t.holder == s.holder
  {
  }

  /** A kicked ball snapshots the candidates and records the holder; the wait starts unless a possessor ends it at once. */
  lemma KickSnapshots(s: EventState, candidates: seq<Candidate>, ball: Track, lpp: Option<int>)
    requires ball.kicked == Some(true)
    ensures var (t, _, _) := DetectStep(s, candidates, Some(ball), lpp);
      t.pending == candidates && t.holder == lpp && t.waiting == !HasPossessor(ball)
  {
  }

  /** While waiting, a frame with no possessor keeps waiting and raises nothing. */
  lemma WaitWithoutPossessor(s: EventState, candidates: seq<Candidate>, ball: Track, lpp: Option<int>)
    requires s.waiting && !HasPossessor(ball)
    ensures var (t, event, text) := DetectStep(s, candidates, Some(ball), lpp);
      t.waiting && event.None? && text.None?
  {
  }

  /**
   * While waiting, a frame with a possessor ends the wait; "Offside" is raised
   * exactly when that possessor is not the recorded holder and is in the snapshot.
   */
  lemma PossessorEndsWait(s: EventState, candidates: seq<Candidate>, ball: Track, lpp: Option<int>)
    requires ball.kicked != Some(true) && s.waiting && HasPossessor(ball)
    ensures var (t, event, text) := DetectStep(s, candidates, Some(ball), lpp);
      var pid := ball.possessedBy.value;
      && !t.waiting && t.pending == s.pending && t.holder == s.holder
      && (event == Some("Offside") <==> Some(pid) != s.holder && InSnapshot(s.pending, pid))
  {
  }

  /**
   * The event and its text are both absent or both present; the only event
   * is "Offside", its text names a player of the snapshot that now holds
   * the ball, and it is recorded as the last event.
   */
  lemma EventShape(s: EventState, candidates: seq<Candidate>, ball: Option<Track>, lpp: Option<int>)
    ensures var (t, event, text) := DetectStep(s, candidates, ball, lpp);
      && (event.None? <==> text.None?)
      && t.lastEvent == Some((event, text))
      && (event.Some? ==>
            && event == Some("Offside")
            && ball.Some? && HasPossessor(ball.value)
            && text == Some(OffsideText(ball.value.possessedBy.value))
            && InSnapshot(t.pending, ball.value.possessedBy.value)
            && !t.waiting)
  {
  }

  /** The text names the player: distinct players give distinct texts. */
  lemma OffsideTextInjective(a: int, b: int)
    requires OffsideText(a) == OffsideText(b)
    ensures a == b
  {
    var p := "Offside by Player ";
    assert OffsideText(a)[|p|..] == IntToString(a);
    assert OffsideText(b)[|p|..] == IntToString(b);
    TextInjective(a, b);
  }

  /**
   * A snapshot holding player 17 of team 1, taken while player 5 held the
   * ball: when player 17 gains the ball "Offside by Player 17" is raised
   * once, and the next frame with the same possessor raises nothing.
   */
  lemma ResolutionExample(candidates: seq<Candidate>, ball: Track)
    requires ball.possessedBy == Some(17) && ball.kicked == Some(false)
    ensures var s := EventState(true, [Candidate(17, Some(1))], Some(5), None);
      var (t, event, text) := DetectStep(s, candidates, Some(ball), Some(17));
      && event == Some("Offside") && text == Some("Offside by Player 17")
      && DetectStep(t, candidates, Some(ball), Some(17)).1.None?
  {
    var s := EventState(true, [Candidate(17, Some(1))], Some(5), None);
    assert s.pending[0].id == 17;
    assert InSnapshot(s.pending, 17);
    assert IntToString(17) == "17" by {
      assert NatToString(1) == "1";
      assert NatToString(17) == NatToString(1) + [DigitChar(7)];
    }
    assert OffsideText(17) == "Offside by Player 17";
  }

  /** The state keeps an empty snapshot. */
  predicate EmptySnapshot(s: EventState)
  {
    s.pending == []
  }

  /**
   * With the rule graph's Offside conditions the candidate list is always
   * empty, so a detector that starts fresh keeps an empty snapshot and never
   * raises "Offside".
   */
  lemma NeverOffside(s: EventState, previous: seq<Candidate>, tracks: seq<Track>, ball: Option<Track>,
                     direction: string, lpp: Option<int>)
    requires PlayerBoxes(tracks) && BallOk(ball)
    requires EmptySnapshot(s) && (ball.None? ==> previous == [])
    ensures var candidates := FrameCandidates(tracks, ball, direction, previous);
      var (t, event, _) := DetectStep(s, candidates, ball, lpp);
      candidates == [] && EmptySnapshot(t) && event.None?
  {
    if ball.Some? {
      var team := PossessingTeam(tracks, ball);
      NoCandidatesFromGraph(Attackers(tracks, team), Defenders(tracks, team), Some(Centre(ball.value.bbox)), direction);
    }
  }

  /** The loop over `pending_offside_list` that stops at the first entry naming `pid`. */
  method FindInSnapshot(pending: seq<Candidate>, pid: int) returns (found: bool)
    ensures found <==> InSnapshot(pending, pid)
  {
    var i := 0;
    while i < |pending|
      invariant 0 <= i <= |pending|
      invariant forall j :: 0 <= j < i ==> pending[j].id != pid
    {
      if pid == pending[i].id {
        return true;
      }
      i := i + 1;
    }
    return false;
  }

  class EventDetector {
    const offside: OffsideDetector
    const frameWidth: int
    var waitingForPossession: bool
    var pendingOffsideList: seq<Candidate>
    var lastBallHolder: Option<int>
    var lastEvent: Option<(Option<string>, Option<string>)>

    function Snapshot(): EventState
      reads this
    {
      EventState(waitingForPossession, pendingOffsideList, lastBallHolder, lastEvent)
    }

    constructor(frameWidth: int)
      ensures this.frameWidth == frameWidth && fresh(offside)
      ensures Snapshot() == Initial && offside.offsideCandidates == []
    {
      offside := new OffsideDetector();
      this.frameWidth := frameWidth;
      waitingForPossession := false;
      pendingOffsideList := [];
      lastBallHolder := None;
      lastEvent := None;
    }

    /** `detect`; `frame_id` is accepted and not used. */
    method Detect(frameId: int, tracks: seq<Track>, ball: Option<Track>, direction: string, lastPlayerPossession: Option<int>)
      returns (event: Option<string>, eventText: Option<string>)
      requires PlayerBoxes(tracks) && BallOk(ball)
      modifies this, offside
      ensures offside.offsideCandidates == FrameCandidates(tracks, ball, direction, old(offside.offsideCandidates))
      ensures offside.triggeredOffside == old(offside.triggeredOffside)
      ensures (Snapshot(), event, eventText)
        == DetectStep(old(Snapshot()), offside.offsideCandidates, ball, lastPlayerPossession)
    {
      var possessingTeam := PossessingTeam(tracks, ball);
      var attackers := Attackers(tracks, possessingTeam);
      var defenders := Defenders(tracks, possessingTeam);
      event, eventText := None, None;
      if ball.Some? {
        var b := ball.value;
        offside.UpdateCandidates(attackers, defenders, Some(Centre(b.bbox)), direction, frameWidth);
        if b.kicked == Some(true) {
          pendingOffsideList := offside.offsideCandidates;
          waitingForPossession := true;
          lastBallHolder := lastPlayerPossession;
        }
        if waitingForPossession && b.possessedBy.Some? && b.possessedBy.value != -1 {
          var pid := b.possessedBy.value;
          if Some(pid) != lastBallHolder {
            var found := FindInSnapshot(pendingOffsideList, pid);
            if found {
              event := Some("Offside");
              eventText := Some(OffsideText(pid));
            }
          }
          waitingForPossession := false;
        }
      }
      lastEvent := Some((event, eventText));
    }
  }
}
