/**
 * The `TeamAssigner` the live stream uses: it clusters goalkeeper and player
 * shirt colours into two teams on the first call with at least two of them,
 * and then keeps each track's first team for good (a referee sighting
 * forgets it). It neither clamps boxes into the frame nor counts calls.
 * KMeans and the mean colour of an image region are oracles.
 */
module TeamAssign {
  import opened Common
  import opened TeamColours

  /** The assigner's fields as a value. */
  datatype State = State(centres: Option<Centres>, idToTeam: map<int, int>, initialised: bool)

  /** The state `__init__` leaves. */
  const Initial := State(None, map[], false)

  /** The assigner is initialised exactly when it has colours, and every remembered team is 1 or 2. */
  predicate StateOk(s: State)
  {
    s.initialised == s.centres.Some? && CacheTeams(s.idToTeam)
  }

  /**
   * Where slicing a sequence of length `len` starts or stops for the index
   * `i`: a negative index counts from the end, and the result is clamped to
   * `[0, len]`.
   */
  function SliceIndex(i: int, len: nat): (r: int)
    ensures 0 <= r <= len
    ensures 0 <= i <= len ==> r == i
    ensures i < 0 <= i + len ==> r == i + len
  {
    if i < 0 then (if i + len < 0 then 0 else i + len)
    else if i > len then len
    else i
  }

  /**
   * `frame[y1:y1 + h // 2, x1:x2]` for the truncated box, or `None` when that
   * slice is empty. A region lies inside the frame and is not empty; a box
   * inside the frame at least one pixel wide and two tall has one, starting
   * at its truncated top left corner.
   */
  function ShirtRegion(frame: Image, bbox: seq<real>): (r: Option<Region>)
    requires |bbox| == 4
    ensures r.Some? ==>
      && 0 <= r.value.top < r.value.bottom <= frame.height
      && 0 <= r.value.left < r.value.right <= frame.width
    ensures (0.0 <= bbox[0] && bbox[2] <= frame.width as real && bbox[2] - bbox[0] >= 1.0
             && 0.0 <= bbox[1] && bbox[3] <= frame.height as real && bbox[3] - bbox[1] >= 2.0) ==>
      r.Some? && r.value.top == Trunc(bbox[1]) && r.value.left == Trunc(bbox[0])
  {
    var x1, y1, x2, y2 := Trunc(bbox[0]), Trunc(bbox[1]), Trunc(bbox[2]), Trunc(bbox[3]);
    var h := y2 - y1;
    var top, bottom := SliceIndex(y1, frame.height), SliceIndex(y1 + h / 2, frame.height);
    var left, right := SliceIndex(x1, frame.width), SliceIndex(x2, frame.width);
    if bottom <= top || right <= left then None
    else Some(Region(top, bottom, left, right))
  }

  /**
   * A box that overhangs the frame's left edge is sliced from the far end of
   * the row, so its shirt region is empty even when almost all of the box
   * is inside the frame.
   */
  lemma OverhangLosesShirt()
    ensures ShirtRegion(Image(100, 100, []), [-2.0, 10.0, 30.0, 50.0]).None?
  {
    assert Trunc(-2.0) == -2 && Trunc(30.0) == 30;
    assert SliceIndex(-2, 100) == 98;
  }

  /** `extract_shirt_colour`: the mean colour of the shirt region, or black without one. */
  function ShirtColour(frame: Image, bbox: seq<real>, mean: (Image, Region) -> Colour): Colour
    requires |bbox| == 4
  {
    match ShirtRegion(frame, bbox)
    case Some(g) => mean(frame, g)
    case None => Black
  }

  /** The shirt-colour extraction for one frame, defined on every box of four values. */
  function Shirt(frame: Image, mean: (Image, Region) -> Colour): seq<real> --> Colour
  {
    b requires |b| == 4 => ShirtColour(frame, b, mean)
  }

  /** Every goalkeeper and player box unpacks into exactly four values. */
  predicate BoxesUnpack(tracks: seq<Track>)
  {
    forall t :: t in tracks && IsPlayerClass(t.cls) ==> |t.bbox| == 4
  }

  /** Where the assign loop stands: the remembered teams and the tracks labelled so far. */
  datatype Pass = Pass(idToTeam: map<int, int>, out: seq<Track>)

  /** One pass of the assign loop. */
  function TrackStep(c: Centres, frame: Image, mean: (Image, Region) -> Colour, p: Pass, t: Track): (q: Pass)
    requires (IsPlayerClass(t.cls) ==> |t.bbox| == 4) && CacheTeams(p.idToTeam)
    ensures CacheTeams(q.idToTeam)
  {
    if t.cls == "0" then Pass(p.idToTeam, p.out + [t.(team := None, colour := Some(Green))])
    else if t.cls == "3" then Pass(p.idToTeam - {t.id}, p.out + [t.(team := None, colour := Some(Yellow))])
    else if IsPlayerClass(t.cls) then
      var team := if t.id in p.idToTeam then p.idToTeam[t.id] else Nearest(ShirtColour(frame, t.bbox, mean), c);
      Pass(p.idToTeam[t.id := team], p.out + [t.(team := Some(team), colour := Some(ToRgb(CentreOf(c, team))))])
    else Pass(p.idToTeam, p.out + [t.(team := None, colour := Some(Grey))])
  }

  /** Where the assign loop stands after it has looked at `tracks`. */
  function AssignAll(c: Centres, frame: Image, mean: (Image, Region) -> Colour,
                     idToTeam: map<int, int>, tracks: seq<Track>): (p: Pass)
    requires BoxesUnpack(tracks) && CacheTeams(idToTeam)
    ensures |p.out| == |tracks| && CacheTeams(p.idToTeam)
  {
    if tracks == [] then Pass(idToTeam, [])
    else
      var n := |tracks|;
      assert forall t :: t in tracks[..n - 1] ==> t in tracks;
      TrackStep(c, frame, mean, AssignAll(c, frame, mean, idToTeam, tracks[..n - 1]), tracks[n - 1])
  }

  /** The centres `initialise_teams` settles on, or `None` with fewer than two shirt samples. */
  function Clustered(frame: Image, candidates: seq<Track>, mean: (Image, Region) -> Colour,
                     kmeans: seq<Colour> -> Centres): Option<Centres>
    requires BoxesUnpack(candidates)
  {
    assert ShirtsDefined(candidates, Shirt(frame, mean));
    var samples := Samples(candidates, Shirt(frame, mean));
    if |samples| < 2 then None else Some(kmeans(samples))
  }

  /** The result of `assign`: the new state and the labelled tracks. */
  datatype Outcome = Outcome(state: State, tracks: seq<Track>)

  /**
   * `assign(frame, full_tracks)`: if not initialised, cluster the
   * candidates' shirts, and without enough of them label every track grey;
   * otherwise label every track.
   */
  function AssignOutcome(s: State, frame: Image, tracks: seq<Track>,
                         mean: (Image, Region) -> Colour, kmeans: seq<Colour> -> Centres): Outcome
    requires StateOk(s) && BoxesUnpack(tracks)
  {
    var centres := if s.initialised then s.centres else Clustered(frame, Candidates(tracks), mean, kmeans);
    match centres
    case None => Outcome(s, AllGrey(tracks))
    case Some(c) =>
      var p := AssignAll(c, frame, mean, s.idToTeam, tracks);
      Outcome(State(Some(c), p.idToTeam, true), p.out)
  }

  /** One pass appends one labelled track. */
  lemma StepLabels(c: Centres, frame: Image, mean: (Image, Region) -> Colour, p: Pass, t: Track)
    requires (IsPlayerClass(t.cls) ==> |t.bbox| == 4) && CacheTeams(p.idToTeam)
    ensures var q := TrackStep(c, frame, mean, p, t);
      |q.out| == |p.out| + 1 && q.out[..|p.out|] == p.out && Labelled(c, t, q.out[|p.out|])
  {
    if IsPlayerClass(t.cls) && t.id !in p.idToTeam {
      NearestSpec(ShirtColour(frame, t.bbox, mean), c);
    }
  }

  /** No track before position `i` carries the id of the track at `i`. */
  predicate FirstSighting(tracks: seq<Track>, i: nat)
    requires i < |tracks|
  {
    forall j :: 0 <= j < i ==> tracks[j].id != tracks[i].id
  }

  /** The loop only remembers ids it was given or that some track carries. */
  lemma {:induction false} NotAdded(c: Centres, frame: Image, mean: (Image, Region) -> Colour,
                                    idToTeam: map<int, int>, tracks: seq<Track>, id: int)
    requires BoxesUnpack(tracks) && CacheTeams(idToTeam)
    requires id !in idToTeam && forall j :: 0 <= j < |tracks| ==> tracks[j].id != id
    ensures id !in AssignAll(c, frame, mean, idToTeam, tracks).idToTeam
  {
    if tracks != [] {
      var n := |tracks|;
      var pre := tracks[..n - 1];
      assert forall t :: t in pre ==> t in tracks;
      assert forall j :: 0 <= j < n - 1 ==> pre[j] == tracks[j];
      NotAdded(c, frame, mean, idToTeam, pre, id);
    }
  }

  /**
   * One pass measures a goalkeeper or player whose id is not remembered:
   * it gets the nearest centre's team, and the id now remembers it.
   */
  lemma StepFresh(c: Centres, frame: Image, mean: (Image, Region) -> Colour, p: Pass, t: Track)
    requires IsPlayerClass(t.cls) && |t.bbox| == 4 && CacheTeams(p.idToTeam) && t.id !in p.idToTeam
    ensures var q := TrackStep(c, frame, mean, p, t);
      var team := Nearest(ShirtColour(frame, t.bbox, mean), c);
      && q.out[|p.out|].team == Some(team) && t.id in q.idToTeam && q.idToTeam[t.id] == team
  {
  }

  /**
   * A goalkeeper or player whose id is neither remembered nor carried by an
   * earlier track is measured: it gets the team whose colour is nearest to
   * its shirt, team 1 on a tie.
   */
  lemma {:induction false} AssignAllFresh(c: Centres, frame: Image, mean: (Image, Region) -> Colour,
                                          idToTeam: map<int, int>, tracks: seq<Track>)
    requires BoxesUnpack(tracks) && CacheTeams(idToTeam)
    ensures var out := AssignAll(c, frame, mean, idToTeam, tracks).out;
      forall i :: 0 <= i < |tracks| && IsPlayerClass(tracks[i].cls) && tracks[i].id !in idToTeam && FirstSighting(tracks, i) ==>
        out[i].team == Some(Nearest(ShirtColour(frame, tracks[i].bbox, mean), c))
  {
    if tracks != [] {
      var n := |tracks|;
      var pre := tracks[..n - 1];
      assert forall t :: t in pre ==> t in tracks;
      AssignAllFresh(c, frame, mean, idToTeam, pre);
      var p := AssignAll(c, frame, mean, idToTeam, pre);
      var t := tracks[n - 1];
      var q := TrackStep(c, frame, mean, p, t);
      assert AssignAll(c, frame, mean, idToTeam, tracks) == q;
      StepLabels(c, frame, mean, p, t);
      forall i | 0 <= i < n && IsPlayerClass(tracks[i].cls) && tracks[i].id !in idToTeam && FirstSighting(tracks, i)
        ensures q.out[i].team == Some(Nearest(ShirtColour(frame, tracks[i].bbox, mean), c))
      {
        if i < n - 1 {
          assert q.out[i] == q.out[..n - 1][i];
          assert tracks[i] == pre[i];
          assert FirstSighting(pre, i);
        } else {
          NotAdded(c, frame, mean, idToTeam, pre, t.id);
          StepFresh(c, frame, mean, p, t);
        }
      }
    }
  }

  /**
   * Every track is labelled as its class demands, and a goalkeeper or player
   * seen for the first time gets the nearest centre's team.
   */
  lemma {:induction false} AssignAllLabels(c: Centres, frame: Image, mean: (Image, Region) -> Colour,
                                           idToTeam: map<int, int>, tracks: seq<Track>)
    requires BoxesUnpack(tracks) && CacheTeams(idToTeam)
    ensures var out := AssignAll(c, frame, mean, idToTeam, tracks).out;
      && (forall i :: 0 <= i < |tracks| ==> Labelled(c, tracks[i], out[i]))
      && (forall i :: 0 <= i < |tracks| && IsPlayerClass(tracks[i].cls) && tracks[i].id !in idToTeam && FirstSighting(tracks, i) ==>
            out[i].team == Some(Nearest(ShirtColour(frame, tracks[i].bbox, mean), c)))
  {
    AssignAllFresh(c, frame, mean, idToTeam, tracks);
    if tracks != [] {
      var n := |tracks|;
      var pre := tracks[..n - 1];
      assert forall t :: t in pre ==> t in tracks;
      AssignAllLabels(c, frame, mean, idToTeam, pre);
      var p := AssignAll(c, frame, mean, idToTeam, pre);
      StepLabels(c, frame, mean, p, tracks[n - 1]);
      var q := TrackStep(c, frame, mean, p, tracks[n - 1]);
      assert AssignAll(c, frame, mean, idToTeam, tracks) == q;
      forall i | 0 <= i < n
        ensures Labelled(c, tracks[i], q.out[i])
      {
        if i < n - 1 {
          assert q.out[i] == q.out[..n - 1][i] == p.out[i];
          assert tracks[i] == pre[i];
        }
      }
    }
  }

  /** Some track of class "3" carries `id`. */
  predicate RefereeSeen(tracks: seq<Track>, id: int)
  {
    exists i :: 0 <= i < |tracks| && tracks[i].id == id && tracks[i].cls == "3"
  }

  /** One pass keeps a remembered team unless the track is a referee with that id. */
  lemma StepSticky(c: Centres, frame: Image, mean: (Image, Region) -> Colour, p: Pass, t: Track, id: int)
    requires (IsPlayerClass(t.cls) ==> |t.bbox| == 4) && CacheTeams(p.idToTeam)
    requires id in p.idToTeam && !(t.id == id && t.cls == "3")
    ensures var q := TrackStep(c, frame, mean, p, t);
      && id in q.idToTeam && q.idToTeam[id] == p.idToTeam[id]
      && |q.out| == |p.out| + 1 && q.out[..|p.out|] == p.out
      && (t.id == id && IsPlayerClass(t.cls) ==> q.out[|p.out|].team == Some(p.idToTeam[id]))
  {
  }

  /**
   * A remembered team never changes: unless a referee track carries the id,
   * the id keeps its team and every goalkeeper or player track with that id
   * is labelled with it, whatever its shirt looks like now.
   */
  lemma {:induction false} AssignAllSticky(c: Centres, frame: Image, mean: (Image, Region) -> Colour,
                                           idToTeam: map<int, int>, tracks: seq<Track>, id: int)
    requires BoxesUnpack(tracks) && CacheTeams(idToTeam)
    requires id in idToTeam && !RefereeSeen(tracks, id)
    ensures var p := AssignAll(c, frame, mean, idToTeam, tracks);
      && id in p.idToTeam && p.idToTeam[id] == idToTeam[id]
      && forall i :: 0 <= i < |tracks| && tracks[i].id == id && IsPlayerClass(tracks[i].cls) ==>
           p.out[i].team == Some(idToTeam[id])
  {
    if tracks != [] {
      var n := |tracks|;
      var pre := tracks[..n - 1];
      assert forall t :: t in pre ==> t in tracks;
      assert !RefereeSeen(pre, id) by {
        assert forall i :: 0 <= i < n - 1 ==> tracks[i] == pre[i];
      }
      AssignAllSticky(c, frame, mean, idToTeam, pre, id);
      var p := AssignAll(c, frame, mean, idToTeam, pre);
      StepSticky(c, frame, mean, p, tracks[n - 1], id);
      var q := TrackStep(c, frame, mean, p, tracks[n - 1]);
      assert AssignAll(c, frame, mean, idToTeam, tracks) == q;
      forall i | 0 <= i < n && tracks[i].id == id && IsPlayerClass(tracks[i].cls)
        ensures q.out[i].team == Some(idToTeam[id])
      {
        if i < n - 1 {
          assert q.out[i] == q.out[..n - 1][i];
          assert tracks[i] == pre[i];
        }
      }
    }
  }

  /** One pass over a referee forgets the referee's id. */
  lemma StepEvicts(c: Centres, frame: Image, mean: (Image, Region) -> Colour, p: Pass, t: Track)
    requires t.cls == "3" && CacheTeams(p.idToTeam)
    ensures t.id !in TrackStep(c, frame, mean, p, t).idToTeam
  {
  }

  /**
   * A referee sighting forgets the id: when the last track carrying an id
   * is a referee, the id has no remembered team after the call.
   */
  lemma {:induction false} AssignAllEvicts(c: Centres, frame: Image, mean: (Image, Region) -> Colour,
                                           idToTeam: map<int, int>, tracks: seq<Track>, i: nat)
    requires BoxesUnpack(tracks) && CacheTeams(idToTeam)
    requires i < |tracks| && tracks[i].cls == "3"
    requires forall j :: i < j < |tracks| ==> tracks[j].id != tracks[i].id
    ensures tracks[i].id !in AssignAll(c, frame, mean, idToTeam, tracks).idToTeam
  {
    var n := |tracks|;
    var pre := tracks[..n - 1];
    assert forall t :: t in pre ==> t in tracks;
    if i < n - 1 {
      assert pre[i] == tracks[i];
      AssignAllEvicts(c, frame, mean, idToTeam, pre, i);
    } else {
      StepEvicts(c, frame, mean, AssignAll(c, frame, mean, idToTeam, pre), tracks[i]);
    }
  }

  /**
   * The state stays well formed, the colours never change once set, and
   * after a successful initialisation each track is labelled as its class
   * demands.
   */
  lemma AssignKeeps(s: State, frame: Image, tracks: seq<Track>,
                    mean: (Image, Region) -> Colour, kmeans: seq<Colour> -> Centres)
    requires StateOk(s) && BoxesUnpack(tracks)
    ensures var o := AssignOutcome(s, frame, tracks, mean, kmeans);
      && StateOk(o.state) && Relabelled(tracks, o.tracks)
      && (s.initialised ==> o.state.centres == s.centres)
      && (o.state.initialised ==> forall i :: 0 <= i < |tracks| ==> Labelled(o.state.centres.value, tracks[i], o.tracks[i]))
  {
    var o := AssignOutcome(s, frame, tracks, mean, kmeans);
    if o.state.initialised {
      AssignAllLabels(o.state.centres.value, frame, mean, s.idToTeam, tracks);
    }
  }

  /**
   * KMeans never fails here: an uninitialised assigner initialises exactly
   * when at least two goalkeepers and players are in sight, and otherwise
   * changes nothing and labels every track grey.
   */
  lemma InitialisesIff(s: State, frame: Image, tracks: seq<Track>,
                       mean: (Image, Region) -> Colour, kmeans: seq<Colour> -> Centres)
    requires StateOk(s) && BoxesUnpack(tracks) && !s.initialised
    ensures var o := AssignOutcome(s, frame, tracks, mean, kmeans);
      && (o.state.initialised <==> PlayerCount(tracks) >= 2)
      && (PlayerCount(tracks) < 2 ==> o == Outcome(s, AllGrey(tracks)))
  {
    assert ShirtsDefined(tracks, Shirt(frame, mean));
    CandidatesSamples(tracks, Shirt(frame, mean));
    SamplesSpec(tracks, Shirt(frame, mean));
  }

  class TeamAssigner {
    var teamColours: Option<Centres>
    var idToTeam: map<int, int>
    var initialised: bool

    function Snapshot(): State
      reads this
    {
      State(teamColours, idToTeam, initialised)
    }

    predicate Valid()
      reads this
    {
      StateOk(Snapshot())
    }

    constructor()
      ensures Snapshot() == Initial && Valid()
    {
      teamColours := None;
      idToTeam := map[];
      initialised := false;
    }

    /**
     * `initialise_teams(frame, tracks)`: sample the goalkeeper and player
     * shirts and, with at least two samples, take KMeans's centres.
     */
    method InitialiseTeams(frame: Image, tracks: seq<Track>, mean: (Image, Region) -> Colour,
                           kmeans: seq<Colour> -> Centres) returns (success: bool)
      requires Valid() && BoxesUnpack(tracks)
      modifies this
      ensures Valid()
      ensures var centres := Clustered(frame, tracks, mean, kmeans);
        success == centres.Some?
        && Snapshot() == if success then old(Snapshot()).(centres := centres, initialised := true) else old(Snapshot())
    {
      assert ShirtsDefined(tracks, Shirt(frame, mean));
      var shirtColours := [];
      var i := 0;
      while i < |tracks|
        invariant 0 <= i <= |tracks|
        invariant ShirtsDefined(tracks[..i], Shirt(frame, mean))
        invariant shirtColours == Samples(tracks[..i], Shirt(frame, mean))
      {
        var t := tracks[i];
        assert tracks[..i + 1][..i] == tracks[..i];
        assert forall u :: u in tracks[..i + 1] ==> u in tracks;
        if IsPlayerClass(t.cls) {
          shirtColours := shirtColours + [ShirtColour(frame, t.bbox, mean)];
        }
        i := i + 1;
      }
      assert tracks[..|tracks|] == tracks;
      if |shirtColours| < 2 {
        return false;
      }
      teamColours := Some(kmeans(shirtColours));
      initialised := true;
      success := true;
    }

    /** The assign loop: label every track, remembering and forgetting teams on the way. */
    method LabelAll(frame: Image, fullTracks: seq<Track>, mean: (Image, Region) -> Colour) returns (out: seq<Track>)
      requires Valid() && initialised && BoxesUnpack(fullTracks)
      modifies this
      ensures teamColours == old(teamColours) && initialised
      ensures Pass(idToTeam, out) == AssignAll(teamColours.value, frame, mean, old(idToTeam), fullTracks)
    {
      var c := teamColours.value;
      ghost var cache0 := idToTeam;
      out := [];
      var i := 0;
      while i < |fullTracks|
        invariant 0 <= i <= |fullTracks|
        invariant forall u :: u in fullTracks[..i] ==> u in fullTracks
        invariant teamColours == Some(c) && initialised
        invariant Pass(idToTeam, out) == AssignAll(c, frame, mean, cache0, fullTracks[..i])
      {
        var t := fullTracks[i];
        assert fullTracks[..i + 1][..i] == fullTracks[..i];
        assert forall u :: u in fullTracks[..i + 1] ==> u in fullTracks;
        if t.cls == "0" {
          out := out + [t.(team := None, colour := Some(Green))];
        } else if t.cls == "3" {
          out := out + [t.(team := None, colour := Some(Yellow))];
          if t.id in idToTeam {
            idToTeam := idToTeam - {t.id};
          }
        } else if IsPlayerClass(t.cls) {
          var teamId;
          if t.id in idToTeam {
            teamId := idToTeam[t.id];
          } else {
            var shirt := ShirtColour(frame, t.bbox, mean);
            teamId := Nearest(shirt, c);
            idToTeam := idToTeam[t.id := teamId];
          }
          out := out + [t.(team := Some(teamId), colour := Some(ToRgb(CentreOf(c, teamId))))];
        } else {
          out := out + [t.(team := None, colour := Some(Grey))];
        }
        i := i + 1;
      }
      assert fullTracks[..|fullTracks|] == fullTracks;
    }

    /** `assign(frame, full_tracks)`: the tracks labelled with a team and a colour each. */
    method Assign(frame: Image, fullTracks: seq<Track>, mean: (Image, Region) -> Colour,
                  kmeans: seq<Colour> -> Centres) returns (out: seq<Track>)
      requires Valid() && BoxesUnpack(fullTracks)
      modifies this
      ensures Valid()
      ensures Outcome(Snapshot(), out) == AssignOutcome(old(Snapshot()), frame, fullTracks, mean, kmeans)
    {
      ghost var s0 := Snapshot();
      AssignKeeps(s0, frame, fullTracks, mean, kmeans);
      var candidates := Candidates(fullTracks);
      if !initialised {
        var success := InitialiseTeams(frame, candidates, mean, kmeans);
        if !success {
          out := MarkAllGrey(fullTracks);
          return;
        }
      }
      out := LabelAll(frame, fullTracks, mean);
    }
  }
}
