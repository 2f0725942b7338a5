/**
 * `LiveProcessor`, the per-frame orchestrator of the live stream: it counts
 * frames, reruns detection on every `detect_every`-th frame, pauses at
 * half time, marks the ball with its possessor and kick flag, and remembers
 * the last player seen with the ball. The components it drives are modelled
 * in their own modules; here their replies for the frame are parameters.
 */
module Stream {
  import opened Common
  import opened Numerals
  import opened PlayerTracking
  import PlayerTracker
  import opened TeamColours
  import TeamAssign

  /** One row of the detector's output: the box, the class and the confidence. */
  datatype RawBox = RawBox(x1: real, y1: real, x2: real, y2: real, cls: real, conf: real)

  /** A detector row as a detection dict; the class becomes `str(int(cls))`. */
  function ToDetection(r: RawBox): Detection
  {
    Detection([r.x1, r.y1, r.x2, r.y2], IntToString(Trunc(r.cls)), Some(r.conf))
  }

  /** `last_dets` after a detection rerun. */
  function ToDetections(raw: seq<RawBox>): (ds: seq<Detection>)
    ensures |ds| == |raw| && forall i :: 0 <= i < |raw| ==> ds[i] == ToDetection(raw[i])
  {
    seq(|raw|, i requires 0 <= i < |raw| => ToDetection(raw[i]))
  }

  /** What the components reply for one frame. */
  datatype Replies = Replies(
    /** The detector's rows, read only on a detection frame. */
    detections: seq<RawBox>,
    /** The team assigner's labelled tracks. */
    teamTracks: seq<Track>,
    /** The kick detector's verdict for the ball. */
    kicked: bool,
    /** The player the ball assigner picks, -1 for none. */
    possessor: int)

  /**
   * What `process` returns: at half time `{"frame_id", "tracks": [],
   * "pitch_lines": []}`, otherwise `{"frame_id", "tracks"}`.
   */
  datatype Result = Paused(frameId: int) | Tracked(frameId: int, tracks: seq<Track>)

  /** The orchestrator's own fields as a value. */
  datatype StreamState = StreamState(
    frameCount: int,
    detectEvery: int,
    lastDets: seq<Detection>,
    lastPlayerPossession: Option<int>,
    halftimeMode: bool,
    team1Dir: string,
    team2Dir: string)

  /** `'left' if d == 'right' else 'right'`. */
  function Flip(d: string): string
  {
    if d == "right" then "left" else "right"
  }

  predicate IsSide(d: string)
  {
    d == "left" || d == "right"
  }

  /** The two teams attack opposite sides. */
  predicate Opposite(a: string, b: string)
  {
    (a == "left" && b == "right") || (a == "right" && b == "left")
  }

  /** The state `__init__(source, detect_every, attacking_dir)` leaves. */
  function Initial(detectEvery: int, attackingDir: string): StreamState
  {
    StreamState(0, detectEvery, [], None, false, attackingDir, Flip(attackingDir))
  }

  /** `toggle_halftime()`. */
  function Toggle(s: StreamState): StreamState
  {
    s.(halftimeMode := !s.halftimeMode, team1Dir := Flip(s.team1Dir), team2Dir := Flip(s.team2Dir))
  }

  /**
   * Toggling twice always restores half-time mode, and restores the whole
   * state exactly when both directions are "left" or "right"; after any
   * toggle they are.
   */
  lemma ToggleTwice(s: StreamState)
    ensures Toggle(Toggle(s)).halftimeMode == s.halftimeMode
    ensures Toggle(Toggle(s)) == s <==> IsSide(s.team1Dir) && IsSide(s.team2Dir)
    ensures IsSide(Toggle(s).team1Dir) && IsSide(Toggle(s).team2Dir)
  {
  }

  /**
   * With an attacking direction of "left" or "right" the two teams start on
   * opposite sides, and every toggle keeps them opposite; any other
   * direction makes the second team attack "right" whatever the first does.
   */
  lemma DirectionsOpposite(attackingDir: string, s: StreamState)
    ensures Opposite(Initial(1, attackingDir).team1Dir, Initial(1, attackingDir).team2Dir) <==> IsSide(attackingDir)
    ensures Opposite(s.team1Dir, s.team2Dir) ==> Opposite(Toggle(s).team1Dir, Toggle(s).team2Dir)
  {
  }

  /** The index of the first track of class "0", as `next(...)` finds it. */
  function FirstBall(tracks: seq<Track>): (r: Option<nat>)
    ensures r.Some? ==>
      && r.value < |tracks| && tracks[r.value].cls == "0"
      && forall j :: 0 <= j < r.value ==> tracks[j].cls != "0"
    ensures r.None? ==> forall j :: 0 <= j < |tracks| ==> tracks[j].cls != "0"
  {
    if tracks == [] then None
    else if tracks[0].cls == "0" then Some(0)
    else match FirstBall(tracks[1..])
      case None => None
      case Some(k) => Some(k + 1)
  }

  /**
   * `process(frame)` with frame id `fid`: count the frame; at half time
   * return nothing else; otherwise rerun detection on every
   * `detect_every`-th frame, write the possessor and the kick flag into the
   * first ball of the labelled tracks, and remember a real possessor.
   */
  function ProcessFrame(s: StreamState, fid: int, r: Replies): (StreamState, Result)
    requires s.detectEvery != 0
  {
    var frameCount := s.frameCount + 1;
    if s.halftimeMode then (s.(frameCount := frameCount), Paused(fid))
    else
      var dets := if frameCount % s.detectEvery == 0 then ToDetections(r.detections) else s.lastDets;
      var counted := s.(frameCount := frameCount, lastDets := dets);
      match FirstBall(r.teamTracks)
      case None => (counted, Tracked(fid, r.teamTracks))
      case Some(k) =>
        var ball := r.teamTracks[k].(possessedBy := Some(r.possessor), kicked := Some(r.kicked));
        var possession := if r.possessor != -1 then Some(r.possessor) else s.lastPlayerPossession;
        (counted.(lastPlayerPossession := possession), Tracked(fid, r.teamTracks[k := ball]))
  }

  /**
   * Every call counts the frame and leaves the half-time mode and the team
   * directions alone. At half time nothing else changes and the result
   * carries no tracks.
   */
  lemma ProcessCounts(s: StreamState, fid: int, r: Replies)
    requires s.detectEvery != 0
    ensures var (t, res) := ProcessFrame(s, fid, r);
      && t.frameCount == s.frameCount + 1 && t.detectEvery == s.detectEvery
      && t.halftimeMode == s.halftimeMode && t.team1Dir == s.team1Dir && t.team2Dir == s.team2Dir
      && res.frameId == fid
      && (s.halftimeMode <==> res.Paused?)
      && (s.halftimeMode ==> t == s.(frameCount := s.frameCount + 1))
  {
  }

  /**
   * Outside half time the detections are replaced by the detector's rows
   * exactly on the frames whose count is a multiple of `detect_every`, and
   * are reused unchanged on every other frame.
   */
  lemma DetectionCadence(s: StreamState, fid: int, r: Replies)
    requires s.detectEvery != 0 && !s.halftimeMode
    ensures var t := ProcessFrame(s, fid, r).0;
      && ((s.frameCount + 1) % s.detectEvery == 0 ==> t.lastDets == ToDetections(r.detections))
      && ((s.frameCount + 1) % s.detectEvery != 0 ==> t.lastDets == s.lastDets)
  {
  }

  /**
   * The remembered possessor changes only to a real player reported with a
   * ball in sight, and once set it is never forgotten.
   */
  lemma PossessionSticky(s: StreamState, fid: int, r: Replies)
    requires s.detectEvery != 0
    ensures var t := ProcessFrame(s, fid, r).0;
      && (t.lastPlayerPossession != s.lastPlayerPossession ==>
            !s.halftimeMode && FirstBall(r.teamTracks).Some? && r.possessor != -1
            && t.lastPlayerPossession == Some(r.possessor))
      && (s.lastPlayerPossession.Some? ==> t.lastPlayerPossession.Some?)
  {
  }

  /** The number of tracks of class "0". */
  function BallCount(tracks: seq<Track>): nat
  {
    if tracks == [] then 0
    else BallCount(tracks[..|tracks| - 1]) + (if tracks[|tracks| - 1].cls == "0" then 1 else 0)
  }

  lemma {:induction false} BallCountAppend(a: seq<Track>, b: seq<Track>)
    ensures BallCount(a + b) == BallCount(a) + BallCount(b)
  {
    if b == [] {
      assert a + b == a;
    } else {
      BallCountAppend(a, b[..|b| - 1]);
      assert (a + b)[..|a + b| - 1] == a + b[..|b| - 1];
      assert (a + b)[|a + b| - 1] == b[|b| - 1];
    }
  }

  /** Tracks with the same classes, position by position, hold as many balls. */
  lemma {:induction false} BallCountClasses(a: seq<Track>, b: seq<Track>)
    requires |a| == |b| && forall i :: 0 <= i < |a| ==> a[i].cls == b[i].cls
    ensures BallCount(a) == BallCount(b)
  {
    if a != [] {
      BallCountClasses(a[..|a| - 1], b[..|b| - 1]);
    }
  }

  /** No track is of class "0" exactly when there are no balls. */
  lemma {:induction false} BallCountZero(a: seq<Track>)
    ensures BallCount(a) == 0 <==> forall i :: 0 <= i < |a| ==> a[i].cls != "0"
  {
    if a != [] {
      var pre := a[..|a| - 1];
      BallCountZero(pre);
      assert forall i :: 0 <= i < |a| - 1 ==> pre[i] == a[i];
    }
  }

  /**
   * The result holds the labelled tracks in order, and only the first ball
   * gains its possessor and kick flag: no track is added, dropped or
   * reclassified, so the number of balls is unchanged.
   */
  lemma ResultTracks(s: StreamState, fid: int, r: Replies)
    requires s.detectEvery != 0 && !s.halftimeMode
    ensures var res := ProcessFrame(s, fid, r).1;
      && res.Tracked? && |res.tracks| == |r.teamTracks|
      && (forall i :: 0 <= i < |r.teamTracks| ==>
            res.tracks[i] == r.teamTracks[i].(possessedBy := res.tracks[i].possessedBy, kicked := res.tracks[i].kicked))
      && (forall i :: 0 <= i < |r.teamTracks| && Some(i) != FirstBall(r.teamTracks) ==> res.tracks[i] == r.teamTracks[i])
      && (FirstBall(r.teamTracks).Some? ==>
            var ball := res.tracks[FirstBall(r.teamTracks).value];
            ball.possessedBy == Some(r.possessor) && ball.kicked == Some(r.kicked))
      && BallCount(res.tracks) == BallCount(r.teamTracks)
  {
    var res := ProcessFrame(s, fid, r).1;
    BallCountClasses(res.tracks, r.teamTracks);
  }

  /** The detections a rerun produces are all of a shape the player tracker can convert. */
  lemma DetectionsConvertible(raw: seq<RawBox>)
    ensures Convertible(ToDetections(raw))
  {
    forall i | 0 <= i < |raw|
      ensures ParseInt(ToDetections(raw)[i].cls).Some?
    {
      RoundTrip(Trunc(raw[i].cls));
    }
  }

  /** No detection handed to ByteTrack is of class 0. */
  lemma SentNoBall(raw: seq<RawBox>, x: SentDetection)
    requires Convertible(ToDetections(raw))
    requires x in TrackerInput(ToDetections(raw))
    ensures x.classId != 0
  {
    var ds := ToDetections(raw);
    TrackerInputIff(ds, x);
    var i :| 0 <= i < |ds| && ds[i].cls != "0" && Convert(ds[i]) == x;
    RoundTrip(Trunc(raw[i].cls));
    assert x.classId == Trunc(raw[i].cls);
    assert IntToString(0) == "0";
  }

  /**
   * Provided ByteTrack reports only classes it was given, no track of the
   * player tracker is of class "0", and every one has a box of four values.
   */
  lemma PlayersNoBall(raw: seq<RawBox>, positions: map<int, seq<Point>>, rows: seq<TrackerRow>)
    requires RowsOk(rows) && Convertible(ToDetections(raw))
    requires forall j :: 0 <= j < |rows| ==>
      exists x :: x in TrackerInput(ToDetections(raw)) && x.classId == rows[j].classId
    ensures var players := PlayerTracker.Process(positions, rows).out;
      BallCount(players) == 0 && forall i :: 0 <= i < |players| ==> |players[i].bbox| == 4
  {
    var players := PlayerTracker.Process(positions, rows).out;
    PlayerTracker.ProcessTracks(positions, rows);
    assert ParseInt("0") == Some(0);
    forall i | 0 <= i < |players|
      ensures players[i].cls != "0"
    {
      var x :| x in TrackerInput(ToDetections(raw)) && x.classId == rows[i].classId;
      SentNoBall(raw, x);
    }
    BallCountZero(players);
  }

  /** Labelling changes no class, so it keeps the number of balls. */
  lemma LabellingKeepsBalls(ts: TeamAssign.State, frame: Image, tracks: seq<Track>,
                            mean: (Image, Region) -> Colour, kmeans: seq<Colour> -> Centres)
    requires TeamAssign.StateOk(ts) && TeamAssign.BoxesUnpack(tracks)
    ensures BallCount(TeamAssign.AssignOutcome(ts, frame, tracks, mean, kmeans).tracks) == BallCount(tracks)
  {
    TeamAssign.AssignKeeps(ts, frame, tracks, mean, kmeans);
    var o := TeamAssign.AssignOutcome(ts, frame, tracks, mean, kmeans);
    assert forall i :: 0 <= i < |tracks| ==> o.tracks[i].cls == tracks[i].cls;
    BallCountClasses(o.tracks, tracks);
  }

  /**
   * Provided ByteTrack reports only classes it was given, the player tracker
   * never outputs a ball, the ball tracker outputs at most one, and the team
   * assigner changes no class: so at most one track of class "0" reaches the
   * result.
   */
  lemma AtMostOneBall(raw: seq<RawBox>, positions: map<int, seq<Point>>, rows: seq<TrackerRow>,
                      ballTracks: seq<Track>, ts: TeamAssign.State, frame: Image,
                      mean: (Image, Region) -> Colour, kmeans: seq<Colour> -> Centres)
    requires RowsOk(rows) && TeamAssign.StateOk(ts) && Convertible(ToDetections(raw))
    requires forall j :: 0 <= j < |rows| ==>
      exists x :: x in TrackerInput(ToDetections(raw)) && x.classId == rows[j].classId
    requires |ballTracks| <= 1 && forall i :: 0 <= i < |ballTracks| ==> |ballTracks[i].bbox| == 4
    ensures var tracks := PlayerTracker.Process(positions, rows).out + ballTracks;
      && TeamAssign.BoxesUnpack(tracks)
      && BallCount(TeamAssign.AssignOutcome(ts, frame, tracks, mean, kmeans).tracks) <= 1
  {
    var players := PlayerTracker.Process(positions, rows).out;
    var tracks := players + ballTracks;
    PlayersNoBall(raw, positions, rows);
    assert TeamAssign.BoxesUnpack(tracks) by {
      forall t | t in tracks
        ensures |t.bbox| == 4
      {
        var i :| 0 <= i < |tracks| && tracks[i] == t;
        if i >= |players| {
          assert t == ballTracks[i - |players|];
        }
      }
    }
    BallCountAppend(players, ballTracks);
    if ballTracks != [] {
      assert ballTracks[..0] == [];
    }
    LabellingKeepsBalls(ts, frame, tracks, mean, kmeans);
  }

  class LiveProcessor {
    var frameCount: int
    const detectEvery: int
    var lastDets: seq<Detection>
    var lastPlayerPossession: Option<int>
    var halftimeMode: bool
    var team1Dir: string
    var team2Dir: string

    function Snapshot(): StreamState
      reads this
    {
      StreamState(frameCount, detectEvery, lastDets, lastPlayerPossession, halftimeMode, team1Dir, team2Dir)
    }

    /** `LiveProcessor(source, detect_every, attacking_dir)`; opening the capture is left out. */
    constructor(detectEvery: int, attackingDir: string)
      ensures Snapshot() == Initial(detectEvery, attackingDir)
    {
      frameCount := 0;
      this.detectEvery := detectEvery;
      lastDets := [];
      lastPlayerPossession := None;
      halftimeMode := false;
      team1Dir := attackingDir;
      team2Dir := if attackingDir == "right" then "left" else "right";
    }

    /** `toggle_halftime()`. */
    method ToggleHalftime()
      modifies this
      ensures Snapshot() == Toggle(old(Snapshot()))
    {
      halftimeMode := !halftimeMode;
      team1Dir := if team1Dir == "right" then "left" else "right";
      team2Dir := if team2Dir == "right" then "left" else "right";
    }

    /** `process(frame)`, where `fid` is the capture's frame position and `r` the components' replies. */
    method Process(fid: int, r: Replies) returns (result: Result)
      requires detectEvery != 0
      modifies this
      ensures (Snapshot(), result) == ProcessFrame(old(Snapshot()), fid, r)
    {
      frameCount := frameCount + 1;
      if halftimeMode {
        return Paused(fid);
      }
      if frameCount % detectEvery == 0 {
        lastDets := ToDetections(r.detections);
      }
      var teamTracks := r.teamTracks;
      var ball := FirstBall(teamTracks);
      if ball.Some? {
        var k := ball.value;
        var playerWithBall := r.possessor;
        teamTracks := teamTracks[k := teamTracks[k].(possessedBy := Some(playerWithBall), kicked := Some(r.kicked))];
        if playerWithBall != -1 {
          lastPlayerPossession := Some(playerWithBall);
        }
      }
      result := Tracked(fid, teamTracks);
    }
  }
}
