/**
 * The newer `TeamAssigner`: it clusters goalkeeper and player shirt colours
 * into two teams once, remembers each track's team, and re-evaluates every
 * remembered team on every tenth call. KMeans and the mean colour of an
 * image region are oracles: their replies are parameters.
 */
module AssignersTeamAssign {
  import opened Common
  import opened TeamColours

  /** The assigner's fields as a value. */
  datatype State = State(centres: Option<Centres>, idToTeam: map<int, int>, initialised: bool, frameCounter: int)

  /** The state `__init__` and `reset` leave: no colours, no teams, the counter at zero. */
  const Initial := State(None, map[], false, 0)

  /** Remembered teams are re-evaluated on every call whose count is a multiple of this. */
  const RefreshEvery := 10

  /** The assigner is initialised exactly when it has colours, and every remembered team is 1 or 2. */
  predicate StateOk(s: State)
  {
    s.initialised == s.centres.Some? && CacheTeams(s.idToTeam)
  }

  /** `int(max(0, min(val, lim)))`: a coordinate clamped into `[0, lim]` and truncated. */
  function Clamp(v: real, lim: nat): (r: int)
    ensures 0 <= r <= lim
    ensures 0.0 <= v <= lim as real ==> r as real <= v < r as real + 1.0
  {
    var m := if lim as real < v then lim as real else v;
    Trunc(if m < 0.0 then 0.0 else m)
  }

  /**
   * The upper half of the box, clamped into the frame, or `None` when the
   * clamped box has no area or that half is less than three pixels tall or
   * wide. A region lies inside the frame and is at least 3 by 3; every box
   * inside the frame at least 3 wide and 6 tall has one.
   */
  function ShirtRegion(frame: Image, bbox: seq<real>): (r: Option<Region>)
    requires |bbox| >= 4
    ensures r.Some? ==>
      && 0 <= r.value.top && r.value.top + 3 <= r.value.bottom <= frame.height
      && 0 <= r.value.left && r.value.left + 3 <= r.value.right <= frame.width
    ensures (0.0 <= bbox[0] && bbox[2] <= frame.width as real && bbox[2] - bbox[0] >= 3.0
             && 0.0 <= bbox[1] && bbox[3] <= frame.height as real && bbox[3] - bbox[1] >= 6.0) ==> r.Some?
  {
    var x1, y1 := Clamp(bbox[0], frame.width), Clamp(bbox[1], frame.height);
    var x2, y2 := Clamp(bbox[2], frame.width), Clamp(bbox[3], frame.height);
    if x2 <= x1 || y2 <= y1 then None
    else
      var rows, cols := (y2 - y1) / 2, x2 - x1;
      if rows == 0 || cols == 0 || rows < 3 || cols < 3 then None
      else Some(Region(y1, y1 + rows, x1, x2))
  }

  /** `extract_shirt_colour`: the mean colour of the shirt region, or black without one. */
  function ShirtColour(frame: Image, bbox: seq<real>, mean: (Image, Region) -> Colour): Colour
    requires |bbox| >= 4
  {
    match ShirtRegion(frame, bbox)
    case Some(g) => mean(frame, g)
    case None => Black
  }

  /** The shirt-colour extraction for one frame, defined on every box that unpacks. */
  function Shirt(frame: Image, mean: (Image, Region) -> Colour): seq<real> --> Colour
  {
    b requires |b| >= 4 => ShirtColour(frame, b, mean)
  }

  /** Every goalkeeper and player box unpacks into four values. */
  predicate BoxesUnpack(tracks: seq<Track>)
  {
    forall t :: t in tracks && IsPlayerClass(t.cls) ==> |t.bbox| >= 4
  }

  /** The display colour of a remembered team, grey for a team without a colour. */
  function TeamColour(c: Centres, team: int): Rgb
  {
    if team == 1 || team == 2 then ToRgb(CentreOf(c, team)) else Grey
  }

  /** Where the assign loop stands: the remembered teams and the tracks labelled so far. */
  datatype Pass = Pass(idToTeam: map<int, int>, out: seq<Track>)

  /** One pass of the assign loop, on the call numbered `counter`. */
  function TrackStep(c: Centres, counter: int, frame: Image, mean: (Image, Region) -> Colour, p: Pass, t: Track): (q: Pass)
    requires IsPlayerClass(t.cls) ==> |t.bbox| >= 4
  {
    if t.cls == "0" then Pass(p.idToTeam, p.out + [t.(team := None, colour := Some(Green))])
    else if t.cls == "3" then Pass(p.idToTeam - {t.id}, p.out + [t.(team := None, colour := Some(Yellow))])
    else if IsPlayerClass(t.cls) then
      var reassign := t.id !in p.idToTeam || counter % RefreshEvery == 0;
      var cache := if reassign then p.idToTeam[t.id := Nearest(ShirtColour(frame, t.bbox, mean), c)] else p.idToTeam;
      var team := cache[t.id];
      Pass(cache, p.out + [t.(team := Some(team), colour := Some(TeamColour(c, team)))])
    else Pass(p.idToTeam, p.out + [t.(team := None, colour := Some(Grey))])
  }

  /** Where the assign loop stands after it has looked at `tracks`. */
  function AssignAll(c: Centres, counter: int, frame: Image, mean: (Image, Region) -> Colour,
                     idToTeam: map<int, int>, tracks: seq<Track>): (p: Pass)
    requires BoxesUnpack(tracks)
    ensures |p.out| == |tracks|
  {
    if tracks == [] then Pass(idToTeam, [])
    else
      var n := |tracks|;
      assert forall t :: t in tracks[..n - 1] ==> t in tracks;
      TrackStep(c, counter, frame, mean, AssignAll(c, counter, frame, mean, idToTeam, tracks[..n - 1]), tracks[n - 1])
  }

  /** The result of `assign`: the new state and the labelled tracks. */
  datatype Outcome = Outcome(state: State, tracks: seq<Track>)

  /**
   * The centres `initialise_teams` settles on: KMeans's reply for the
   * candidates' shirt samples, or `None` with fewer than two samples.
   */
  function Clustered(frame: Image, candidates: seq<Track>, mean: (Image, Region) -> Colour,
                     kmeans: seq<Colour> -> Option<Centres>): Option<Centres>
    requires BoxesUnpack(candidates)
  {
    assert ShirtsDefined(candidates, Shirt(frame, mean));
    var samples := Samples(candidates, Shirt(frame, mean));
    if |samples| < 2 then None else kmeans(samples)
  }

  /**
   * `assign(frame, full_tracks)`: count the call; if not initialised, cluster
   * the candidates' shirts, and on failure label every track grey; otherwise
   * label every track.
   */
  function AssignOutcome(s: State, frame: Image, tracks: seq<Track>,
                         mean: (Image, Region) -> Colour, kmeans: seq<Colour> -> Option<Centres>): Outcome
    requires StateOk(s) && BoxesUnpack(tracks)
  {
    var counter := s.frameCounter + 1;
    var centres := if s.initialised then s.centres else Clustered(frame, Candidates(tracks), mean, kmeans);
    match centres
    case None => Outcome(s.(frameCounter := counter), AllGrey(tracks))
    case Some(c) =>
      var p := AssignAll(c, counter, frame, mean, s.idToTeam, tracks);
      Outcome(State(Some(c), p.idToTeam, true, counter), p.out)
  }

  /** One pass appends one labelled track and keeps remembered teams 1 or 2. */
  lemma StepLabels(c: Centres, counter: int, frame: Image, mean: (Image, Region) -> Colour, p: Pass, t: Track)
    requires (IsPlayerClass(t.cls) ==> |t.bbox| >= 4) && CacheTeams(p.idToTeam)
    ensures var q := TrackStep(c, counter, frame, mean, p, t);
      && CacheTeams(q.idToTeam) && |q.out| == |p.out| + 1
      && q.out[..|p.out|] == p.out && Labelled(c, t, q.out[|p.out|])
  {
    if IsPlayerClass(t.cls) {
      NearestSpec(ShirtColour(frame, t.bbox, mean), c);
    }
  }

  /** No track before position `i` carries the id of the track at `i`. */
  predicate FirstSighting(tracks: seq<Track>, i: nat)
    requires i < |tracks|
  {
    forall j :: 0 <= j < i ==> tracks[j].id != tracks[i].id
  }

  /** The loop only remembers ids it was given or that some track carries. */
  lemma {:induction false} NotAdded(c: Centres, counter: int, frame: Image, mean: (Image, Region) -> Colour,
                                    idToTeam: map<int, int>, tracks: seq<Track>, id: int)
    requires BoxesUnpack(tracks)
    requires id !in idToTeam && forall j :: 0 <= j < |tracks| ==> tracks[j].id != id
    ensures id !in AssignAll(c, counter, frame, mean, idToTeam, tracks).idToTeam
  {
    if tracks != [] {
      var n := |tracks|;
      var pre := tracks[..n - 1];
      assert forall t :: t in pre ==> t in tracks;
      assert forall j :: 0 <= j < n - 1 ==> pre[j] == tracks[j];
      NotAdded(c, counter, frame, mean, idToTeam, pre, id);
    }
  }

  /**
   * One pass measures a goalkeeper or player whose id is not remembered:
   * it gets the nearest centre's team, and the id now remembers it.
   */
  lemma StepFresh(c: Centres, counter: int, frame: Image, mean: (Image, Region) -> Colour, p: Pass, t: Track)
    requires IsPlayerClass(t.cls) && |t.bbox| >= 4 && t.id !in p.idToTeam
    ensures var q := TrackStep(c, counter, frame, mean, p, t);
      var team := Nearest(ShirtColour(frame, t.bbox, mean), c);
      && q.out[|p.out|].team == Some(team) && t.id in q.idToTeam && q.idToTeam[t.id] == team
  {
  }

  /**
   * On any call, a goalkeeper or player whose id is neither remembered nor
   * carried by an earlier track is measured: it gets the team whose colour
   * is nearest to its shirt, team 1 on a tie.
   */
  lemma {:induction false} AssignAllFresh(c: Centres, counter: int, frame: Image, mean: (Image, Region) -> Colour,
                                          idToTeam: map<int, int>, tracks: seq<Track>)
    requires BoxesUnpack(tracks)
    ensures var out := AssignAll(c, counter, frame, mean, idToTeam, tracks).out;
      forall i :: 0 <= i < |tracks| && IsPlayerClass(tracks[i].cls) && tracks[i].id !in idToTeam && FirstSighting(tracks, i) ==>
        out[i].team == Some(Nearest(ShirtColour(frame, tracks[i].bbox, mean), c))
  {
    if tracks != [] {
      var n := |tracks|;
      var pre := tracks[..n - 1];
      assert forall t :: t in pre ==> t in tracks;
      AssignAllFresh(c, counter, frame, mean, idToTeam, pre);
      var p := AssignAll(c, counter, frame, mean, idToTeam, pre);
      var t := tracks[n - 1];
      var q := TrackStep(c, counter, frame, mean, p, t);
      assert AssignAll(c, counter, frame, mean, idToTeam, tracks) == q;
      assert q.out[..n - 1] == p.out;
      forall i | 0 <= i < n && IsPlayerClass(tracks[i].cls) && tracks[i].id !in idToTeam && FirstSighting(tracks, i)
        ensures q.out[i].team == Some(Nearest(ShirtColour(frame, tracks[i].bbox, mean), c))
      {
        if i < n - 1 {
          assert q.out[i] == q.out[..n - 1][i];
          assert tracks[i] == pre[i];
          assert FirstSighting(pre, i);
        } else {
          NotAdded(c, counter, frame, mean, idToTeam, pre, t.id);
          StepFresh(c, counter, frame, mean, p, t);
        }
      }
    }
  }

  /**
   * Every track is labelled as its class demands, remembered teams stay 1
   * or 2, and a goalkeeper or player seen for the first time gets the
   * nearest centre's team.
   */
  lemma {:induction false} AssignAllLabels(c: Centres, counter: int, frame: Image, mean: (Image, Region) -> Colour,
                                           idToTeam: map<int, int>, tracks: seq<Track>)
    requires BoxesUnpack(tracks) && CacheTeams(idToTeam)
    ensures var p := AssignAll(c, counter, frame, mean, idToTeam, tracks);
      && CacheTeams(p.idToTeam)
      && (forall i :: 0 <= i < |tracks| ==> Labelled(c, tracks[i], p.out[i]))
      && (forall i :: 0 <= i < |tracks| && IsPlayerClass(tracks[i].cls) && tracks[i].id !in idToTeam && FirstSighting(tracks, i) ==>
            p.out[i].team == Some(Nearest(ShirtColour(frame, tracks[i].bbox, mean), c)))
  {
    AssignAllFresh(c, counter, frame, mean, idToTeam, tracks);
    if tracks != [] {
      var n := |tracks|;
      var pre := tracks[..n - 1];
      assert forall t :: t in pre ==> t in tracks;
      AssignAllLabels(c, counter, frame, mean, idToTeam, pre);
      var p := AssignAll(c, counter, frame, mean, idToTeam, pre);
      StepLabels(c, counter, frame, mean, p, tracks[n - 1]);
      var q := TrackStep(c, counter, frame, mean, p, tracks[n - 1]);
      assert AssignAll(c, counter, frame, mean, idToTeam, tracks) == q;
      forall i | 0 <= i < n
        ensures Labelled(c, tracks[i], q.out[i])
      {
        if i < n - 1 {
          assert q.out[i] == q.out[..n - 1][i] == p.out[i];
          assert tracks[i] == pre[i];
        }
      }
    }
  }

  /** On a tenth call one pass gives a goalkeeper or player the nearest team. */
  lemma StepRefresh(c: Centres, counter: int, frame: Image, mean: (Image, Region) -> Colour, p: Pass, t: Track)
    requires (IsPlayerClass(t.cls) ==> |t.bbox| >= 4) && counter % RefreshEvery == 0
    ensures var q := TrackStep(c, counter, frame, mean, p, t);
      && |q.out| == |p.out| + 1 && q.out[..|p.out|] == p.out
      && (IsPlayerClass(t.cls) ==> q.out[|p.out|].team == Some(Nearest(ShirtColour(frame, t.bbox, mean), c)))
  {
  }

  /**
   * On every tenth call each goalkeeper and player gets the team whose
   * colour is nearest to its shirt, whatever was remembered.
   */
  lemma {:induction false} AssignAllRefresh(c: Centres, counter: int, frame: Image, mean: (Image, Region) -> Colour,
                                            idToTeam: map<int, int>, tracks: seq<Track>)
    requires BoxesUnpack(tracks) && counter % RefreshEvery == 0
    ensures var out := AssignAll(c, counter, frame, mean, idToTeam, tracks).out;
      forall i :: 0 <= i < |tracks| && IsPlayerClass(tracks[i].cls) ==>
        out[i].team == Some(Nearest(ShirtColour(frame, tracks[i].bbox, mean), c))
  {
    if tracks != [] {
      var n := |tracks|;
      var pre := tracks[..n - 1];
      assert forall t :: t in pre ==> t in tracks;
      AssignAllRefresh(c, counter, frame, mean, idToTeam, pre);
      var p := AssignAll(c, counter, frame, mean, idToTeam, pre);
      StepRefresh(c, counter, frame, mean, p, tracks[n - 1]);
      var q := TrackStep(c, counter, frame, mean, p, tracks[n - 1]);
      assert AssignAll(c, counter, frame, mean, idToTeam, tracks) == q;
      forall i | 0 <= i < n && IsPlayerClass(tracks[i].cls)
        ensures q.out[i].team == Some(Nearest(ShirtColour(frame, tracks[i].bbox, mean), c))
      {
        if i < n - 1 {
          assert q.out[i] == q.out[..n - 1][i];
          assert tracks[i] == pre[i];
        }
      }
    }
  }

  /** Some track of class "3" carries `id`. */
  predicate RefereeSeen(tracks: seq<Track>, id: int)
  {
    exists i :: 0 <= i < |tracks| && tracks[i].id == id && tracks[i].cls == "3"
  }

  /** Outside a tenth call one pass keeps a remembered team unless the track is a referee with that id. */
  lemma StepSticky(c: Centres, counter: int, frame: Image, mean: (Image, Region) -> Colour, p: Pass, t: Track, id: int)
    requires (IsPlayerClass(t.cls) ==> |t.bbox| >= 4) && counter % RefreshEvery != 0
    requires id in p.idToTeam && !(t.id == id && t.cls == "3")
    ensures var q := TrackStep(c, counter, frame, mean, p, t);
      && id in q.idToTeam && q.idToTeam[id] == p.idToTeam[id]
      && |q.out| == |p.out| + 1 && q.out[..|p.out|] == p.out
      && (t.id == id && IsPlayerClass(t.cls) ==> q.out[|p.out|].team == Some(p.idToTeam[id]))
  {
  }

  /**
   * Outside the tenth calls a remembered team sticks: unless a referee track
   * carries the id, the id keeps its team and every goalkeeper or player
   * track with that id is labelled with it.
   */
  lemma {:induction false} AssignAllSticky(c: Centres, counter: int, frame: Image, mean: (Image, Region) -> Colour,
                                           idToTeam: map<int, int>, tracks: seq<Track>, id: int)
    requires BoxesUnpack(tracks) && counter % RefreshEvery != 0
    requires id in idToTeam && !RefereeSeen(tracks, id)
    ensures var p := AssignAll(c, counter, frame, mean, idToTeam, tracks);
      && id in p.idToTeam && p.idToTeam[id] == idToTeam[id]
      && forall i :: 0 <= i < |tracks| && tracks[i].id == id && IsPlayerClass(tracks[i].cls) ==>
           p.out[i].team == Some(idToTeam[id])
  {
    if tracks != [] {
      var n := |tracks|;
      var pre := tracks[..n - 1];
      assert forall t :: t in pre ==> t in tracks;
      assert !RefereeSeen(pre, id) by {
        assert forall i :: 0 <= i < n - 1 ==> tracks[i] == pre[i];
      }
      AssignAllSticky(c, counter, frame, mean, idToTeam, pre, id);
      var p := AssignAll(c, counter, frame, mean, idToTeam, pre);
      StepSticky(c, counter, frame, mean, p, tracks[n - 1], id);
      var q := TrackStep(c, counter, frame, mean, p, tracks[n - 1]);
      assert AssignAll(c, counter, frame, mean, idToTeam, tracks) == q;
      forall i | 0 <= i < n && tracks[i].id == id && IsPlayerClass(tracks[i].cls)
        ensures q.out[i].team == Some(idToTeam[id])
      {
        if i < n - 1 {
          assert q.out[i] == q.out[..n - 1][i];
          assert tracks[i] == pre[i];
        }
      }
    }
  }

  /** One pass over a referee forgets the referee's id. */
  lemma StepEvicts(c: Centres, counter: int, frame: Image, mean: (Image, Region) -> Colour, p: Pass, t: Track)
    requires t.cls == "3"
    ensures t.id !in TrackStep(c, counter, frame, mean, p, t).idToTeam
  {
  }

  /**
   * A referee sighting forgets the id: when the last track carrying an id
   * is a referee, the id has no remembered team after the call.
   */
  lemma {:induction false} AssignAllEvicts(c: Centres, counter: int, frame: Image, mean: (Image, Region) -> Colour,
                                           idToTeam: map<int, int>, tracks: seq<Track>, i: nat)
    requires BoxesUnpack(tracks)
    requires i < |tracks| && tracks[i].cls == "3"
    requires forall j :: i < j < |tracks| ==> tracks[j].id != tracks[i].id
    ensures tracks[i].id !in AssignAll(c, counter, frame, mean, idToTeam, tracks).idToTeam
  {
    var n := |tracks|;
    var pre := tracks[..n - 1];
    assert forall t :: t in pre ==> t in tracks;
    if i < n - 1 {
      assert pre[i] == tracks[i];
      AssignAllEvicts(c, counter, frame, mean, idToTeam, pre, i);
    } else {
      StepEvicts(c, counter, frame, mean, AssignAll(c, counter, frame, mean, idToTeam, pre), tracks[i]);
    }
  }

  /**
   * Every call counts itself and keeps the state well formed; once
   * initialised the colours never change, and each track is labelled as
   * its class demands.
   */
  lemma AssignKeeps(s: State, frame: Image, tracks: seq<Track>,
                    mean: (Image, Region) -> Colour, kmeans: seq<Colour> -> Option<Centres>)
    requires StateOk(s) && BoxesUnpack(tracks)
    ensures var o := AssignOutcome(s, frame, tracks, mean, kmeans);
      && StateOk(o.state) && o.state.frameCounter == s.frameCounter + 1
      && Relabelled(tracks, o.tracks)
      && (s.initialised ==> o.state.centres == s.centres)
      && (o.state.initialised ==> forall i :: 0 <= i < |tracks| ==> Labelled(o.state.centres.value, tracks[i], o.tracks[i]))
  {
    var o := AssignOutcome(s, frame, tracks, mean, kmeans);
    if o.state.initialised {
      AssignAllLabels(o.state.centres.value, s.frameCounter + 1, frame, mean, s.idToTeam, tracks);
    }
  }

  /**
   * With fewer than two goalkeepers and players in sight an uninitialised
   * assigner stays uninitialised and labels every track grey.
   */
  lemma NeedsTwoShirts(s: State, frame: Image, tracks: seq<Track>,
                       mean: (Image, Region) -> Colour, kmeans: seq<Colour> -> Option<Centres>)
    requires StateOk(s) && BoxesUnpack(tracks)
    requires !s.initialised && PlayerCount(tracks) < 2
    ensures AssignOutcome(s, frame, tracks, mean, kmeans) == Outcome(s.(frameCounter := s.frameCounter + 1), AllGrey(tracks))
  {
    assert ShirtsDefined(tracks, Shirt(frame, mean));
    CandidatesSamples(tracks, Shirt(frame, mean));
    SamplesSpec(tracks, Shirt(frame, mean));
  }

  class TeamAssigner {
    var teamColours: Option<Centres>
    var idToTeam: map<int, int>
    var initialised: bool
    var frameCounter: int

    function Snapshot(): State
      reads this
    {
      State(teamColours, idToTeam, initialised, frameCounter)
    }

    predicate Valid()
      reads this
    {
      StateOk(Snapshot())
    }

    constructor()
      ensures Snapshot() == Initial && Valid()
    {
      teamColours := None;
      idToTeam := map[];
      initialised := false;
      frameCounter := 0;
    }

    /** `reset()`: forget the colours and every team, and restart the count. */
    method Reset()
      modifies this
      ensures Snapshot() == Initial && Valid()
    {
      teamColours := None;
      idToTeam := map[];
      initialised := false;
      frameCounter := 0;
    }

    /**
     * `initialise_teams(frame, tracks)`: sample the goalkeeper and player
     * shirts and, with at least two samples, take KMeans's centres if it
     * succeeds. Nothing changes on failure.
     */
    method InitialiseTeams(frame: Image, tracks: seq<Track>, mean: (Image, Region) -> Colour,
                           kmeans: seq<Colour> -> Option<Centres>) returns (success: bool)
      requires Valid() && BoxesUnpack(tracks)
      modifies this
      ensures Valid()
      ensures var centres := Clustered(frame, tracks, mean, kmeans);
        success == centres.Some?
        && Snapshot() == if success then old(Snapshot()).(centres := centres, initialised := true) else old(Snapshot())
    {
      assert ShirtsDefined(tracks, Shirt(frame, mean));
      var samples := [];
      var i := 0;
      while i < |tracks|
        invariant 0 <= i <= |tracks|
        invariant ShirtsDefined(tracks[..i], Shirt(frame, mean))
        invariant samples == Samples(tracks[..i], Shirt(frame, mean))
      {
        var t := tracks[i];
        assert tracks[..i + 1][..i] == tracks[..i];
        assert forall u :: u in tracks[..i + 1] ==> u in tracks;
        if IsPlayerClass(t.cls) {
          samples := samples + [ShirtColour(frame, t.bbox, mean)];
        }
        i := i + 1;
      }
      assert tracks[..|tracks|] == tracks;
      if |samples| < 2 {
        return false;
      }
      match kmeans(samples)
      case None =>
        success := false;
      case Some(centres) =>
        teamColours := Some(centres);
        initialised := true;
        success := true;
    }

    /** The assign loop: label every track, remembering and forgetting teams on the way. */
    method LabelAll(frame: Image, fullTracks: seq<Track>, mean: (Image, Region) -> Colour) returns (out: seq<Track>)
      requires Valid() && initialised && BoxesUnpack(fullTracks)
      modifies this
      ensures teamColours == old(teamColours) && initialised && frameCounter == old(frameCounter)
      ensures Pass(idToTeam, out) == AssignAll(teamColours.value, frameCounter, frame, mean, old(idToTeam), fullTracks)
    {
      var c := teamColours.value;
      ghost var cache0 := idToTeam;
      out := [];
      var i := 0;
      while i < |fullTracks|
        invariant 0 <= i <= |fullTracks|
        invariant forall u :: u in fullTracks[..i] ==> u in fullTracks
        invariant teamColours == Some(c) && initialised && frameCounter == old(frameCounter)
        invariant Pass(idToTeam, out) == AssignAll(c, frameCounter, frame, mean, cache0, fullTracks[..i])
      {
        var t := fullTracks[i];
        assert fullTracks[..i + 1][..i] == fullTracks[..i];
        assert forall u :: u in fullTracks[..i + 1] ==> u in fullTracks;
        if t.cls == "0" {
          out := out + [t.(team := None, colour := Some(Green))];
        } else if t.cls == "3" {
          out := out + [t.(team := None, colour := Some(Yellow))];
          idToTeam := idToTeam - {t.id};
        } else if IsPlayerClass(t.cls) {
          var reassign := t.id !in idToTeam || frameCounter % RefreshEvery == 0;
          if reassign {
            var shirt := ShirtColour(frame, t.bbox, mean);
            idToTeam := idToTeam[t.id := Nearest(shirt, c)];
          }
          var teamId := idToTeam[t.id];
          out := out + [t.(team := Some(teamId), colour := Some(TeamColour(c, teamId)))];
        } else {
          out := out + [t.(team := None, colour := Some(Grey))];
        }
        i := i + 1;
      }
      assert fullTracks[..|fullTracks|] == fullTracks;
    }

    /** `assign(frame, full_tracks)`: the tracks labelled with a team and a colour each. */
    method Assign(frame: Image, fullTracks: seq<Track>, mean: (Image, Region) -> Colour,
                  kmeans: seq<Colour> -> Option<Centres>) returns (out: seq<Track>)
      requires Valid() && BoxesUnpack(fullTracks)
      modifies this
      ensures Valid()
      ensures Outcome(Snapshot(), out) == AssignOutcome(old(Snapshot()), frame, fullTracks, mean, kmeans)
    {
      ghost var s0 := Snapshot();
      AssignKeeps(s0, frame, fullTracks, mean, kmeans);
      frameCounter := frameCounter + 1;
      var candidates := Candidates(fullTracks);
      if !initialised {
        var success := InitialiseTeams(frame, candidates, mean, kmeans);
        if !success {
          out := MarkAllGrey(fullTracks);
          return;
        }
      }
      out := LabelAll(frame, fullTracks, mean);
    }
  }
}
