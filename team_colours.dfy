/**
 * What both `TeamAssigner` variants share: the two cluster-centre colours,
 * the choice of the nearer centre, the shirt samples handed to KMeans and
 * the conversion of a centre to a display colour.
 */
module TeamColours {
  import opened Common
  import opened BBoxUtils

  /** `team_colors`: team 1's and team 2's cluster centres. */
  datatype Centres = Centres(team1: Colour, team2: Colour)

  /** The rows `top..bottom` and columns `left..right` of a frame whose mean colour the image oracle returns. */
  datatype Region = Region(top: int, bottom: int, left: int, right: int)

  /** `np.zeros(3)`: the colour returned for an unusable shirt region. */
  const Black := Colour(0.0, 0.0, 0.0)

  /** The classes whose shirts are sampled and which get a team: goalkeeper "1" and player "2". */
  predicate IsPlayerClass(cls: string)
  {
    cls == "1" || cls == "2"
  }

  /**
   * The squared Euclidean distance between two colours. `np.linalg.norm` is
   * its square root, which orders colours the same way.
   */
  function ColourDistSq(a: Colour, b: Colour): (d: real)
    ensures d >= 0.0
  {
    SquareNonNegative(a.c0 - b.c0);
    SquareNonNegative(a.c1 - b.c1);
    SquareNonNegative(a.c2 - b.c2);
    Square(a.c0 - b.c0) + Square(a.c1 - b.c1) + Square(a.c2 - b.c2)
  }

  /** The centre of team 1 or team 2. */
  function CentreOf(c: Centres, team: int): Colour
    requires team == 1 || team == 2
  {
    if team == 1 then c.team1 else c.team2
  }

  /** The team whose centre is nearer to `shirt`; the first team wins a tie, as with `min` and `np.argmin`. */
  function Nearest(shirt: Colour, c: Centres): int
  {
    if ColourDistSq(shirt, c.team2) < ColourDistSq(shirt, c.team1) then 2 else 1
  }

  /**
   * The chosen team is 1 or 2, no centre is nearer than its own, and on a
   * tie team 1 is chosen.
   */
  lemma NearestSpec(shirt: Colour, c: Centres)
    ensures var t := Nearest(shirt, c);
      && (t == 1 || t == 2)
      && ColourDistSq(shirt, CentreOf(c, t)) <= ColourDistSq(shirt, c.team1)
      && ColourDistSq(shirt, CentreOf(c, t)) <= ColourDistSq(shirt, c.team2)
      && (ColourDistSq(shirt, c.team1) == ColourDistSq(shirt, c.team2) ==> t == 1)
  {
  }

  /** A centre as the `color` tuple: each channel through `int()`. */
  function ToRgb(c: Colour): (r: Rgb)
    ensures c.c0 >= 0.0 ==> 0 <= r.c0 && r.c0 as real <= c.c0 < r.c0 as real + 1.0
    ensures c.c1 >= 0.0 ==> 0 <= r.c1 && r.c1 as real <= c.c1 < r.c1 as real + 1.0
    ensures c.c2 >= 0.0 ==> 0 <= r.c2 && r.c2 as real <= c.c2 < r.c2 as real + 1.0
  {
    Rgb(Trunc(c.c0), Trunc(c.c1), Trunc(c.c2))
  }

  /** Every remembered team is 1 or 2. */
  predicate CacheTeams(idToTeam: map<int, int>)
  {
    forall k :: k in idToTeam ==> idToTeam[k] == 1 || idToTeam[k] == 2
  }

  /** The goalkeeper and player tracks. */
  function PlayerCount(tracks: seq<Track>): nat
  {
    if tracks == [] then 0
    else PlayerCount(tracks[..|tracks| - 1]) + (if IsPlayerClass(tracks[|tracks| - 1].cls) then 1 else 0)
  }

  /** The shirt-colour extraction accepts the box of every goalkeeper and player track. */
  ghost predicate ShirtsDefined(tracks: seq<Track>, shirt: seq<real> --> Colour)
  {
    forall t :: t in tracks && IsPlayerClass(t.cls) ==> shirt.requires(t.bbox)
  }

  /** The shirt colours handed to KMeans: one per goalkeeper or player track, in order. */
  function Samples(tracks: seq<Track>, shirt: seq<real> --> Colour): seq<Colour>
    requires ShirtsDefined(tracks, shirt)
  {
    if tracks == [] then []
    else
      var n := |tracks|;
      var pre := Samples(tracks[..n - 1], shirt);
      if IsPlayerClass(tracks[n - 1].cls) then pre + [shirt(tracks[n - 1].bbox)] else pre
  }

  /** There is exactly one sample per goalkeeper or player track, and each is that track's shirt colour. */
  lemma {:induction false} SamplesSpec(tracks: seq<Track>, shirt: seq<real> --> Colour)
    requires ShirtsDefined(tracks, shirt)
    ensures |Samples(tracks, shirt)| == PlayerCount(tracks)
    ensures forall c :: c in Samples(tracks, shirt) <==>
      exists i :: 0 <= i < |tracks| && IsPlayerClass(tracks[i].cls) && c == shirt(tracks[i].bbox)
  {
    if tracks != [] {
      var n := |tracks|;
      var pre := tracks[..n - 1];
      assert forall i :: 0 <= i < n - 1 ==> pre[i] == tracks[i];
      SamplesSpec(pre, shirt);
      forall c | c in Samples(tracks, shirt)
        ensures exists i :: 0 <= i < n && IsPlayerClass(tracks[i].cls) && c == shirt(tracks[i].bbox)
      {
        if c !in Samples(pre, shirt) {
          assert IsPlayerClass(tracks[n - 1].cls) && c == shirt(tracks[n - 1].bbox);
        }
      }
      forall c | exists i :: 0 <= i < n && IsPlayerClass(tracks[i].cls) && c == shirt(tracks[i].bbox)
        ensures c in Samples(tracks, shirt)
      {
        var i :| 0 <= i < n && IsPlayerClass(tracks[i].cls) && c == shirt(tracks[i].bbox);
        if i < n - 1 {
          assert IsPlayerClass(pre[i].cls) && c == shirt(pre[i].bbox);
        }
      }
    }
  }

  /** `candidates`: the goalkeeper and player tracks, in order. */
  function Candidates(tracks: seq<Track>): (r: seq<Track>)
    ensures forall i :: 0 <= i < |r| ==> IsPlayerClass(r[i].cls)
    ensures forall t :: t in r <==> t in tracks && IsPlayerClass(t.cls)
  {
    if tracks == [] then []
    else
      var n := |tracks|;
      var pre := Candidates(tracks[..n - 1]);
      assert forall t :: t in tracks <==> t in tracks[..n - 1] || t == tracks[n - 1];
      if IsPlayerClass(tracks[n - 1].cls) then pre + [tracks[n - 1]] else pre
  }

  /**
   * Filtering the tracks to candidates before sampling changes nothing:
   * sampling already skips every track that is not a goalkeeper or player.
   */
  lemma {:induction false} CandidatesSamples(tracks: seq<Track>, shirt: seq<real> --> Colour)
    requires ShirtsDefined(tracks, shirt)
    ensures ShirtsDefined(Candidates(tracks), shirt)
    ensures Samples(Candidates(tracks), shirt) == Samples(tracks, shirt)
  {
    if tracks != [] {
      var n := |tracks|;
      var pre := tracks[..n - 1];
      assert forall i :: 0 <= i < n - 1 ==> pre[i] == tracks[i];
      CandidatesSamples(pre, shirt);
      var c := Candidates(pre);
      if IsPlayerClass(tracks[n - 1].cls) {
        assert (c + [tracks[n - 1]])[..|c|] == c;
      }
    }
  }

  /** What a failed initialisation writes: every track gets no team and grey. */
  function AllGrey(tracks: seq<Track>): (r: seq<Track>)
    ensures |r| == |tracks|
    ensures forall i :: 0 <= i < |r| ==> r[i] == tracks[i].(team := None, colour := Some(Grey))
  {
    if tracks == [] then []
    else AllGrey(tracks[..|tracks| - 1]) + [tracks[|tracks| - 1].(team := None, colour := Some(Grey))]
  }

  /**
   * What the assign loop writes on track `t`, giving `x`: only the team and
   * colour change; the ball gets no team and green, a referee no team and
   * yellow, a goalkeeper or player team 1 or 2 and that team's colour, and
   * any other class no team and grey.
   */
  predicate Labelled(c: Centres, t: Track, x: Track)
  {
    && x == t.(team := x.team, colour := x.colour)
    && (if t.cls == "0" then x.team.None? && x.colour == Some(Green)
        else if t.cls == "3" then x.team.None? && x.colour == Some(Yellow)
        else if IsPlayerClass(t.cls) then
          && x.team.Some? && (x.team.value == 1 || x.team.value == 2)
          && x.colour == Some(ToRgb(CentreOf(c, x.team.value)))
        else x.team.None? && x.colour == Some(Grey))
  }

  /** `out` is `tracks` with at most the team and colour of each track changed. */
  predicate Relabelled(tracks: seq<Track>, out: seq<Track>)
  {
    |out| == |tracks| && forall i :: 0 <= i < |tracks| ==> out[i] == tracks[i].(team := out[i].team, colour := out[i].colour)
  }

  /** The loop that labels every track grey after a failed initialisation. */
  method MarkAllGrey(tracks: seq<Track>) returns (out: seq<Track>)
    ensures out == AllGrey(tracks)
  {
    out := [];
    var i := 0;
    while i < |tracks|
      invariant 0 <= i <= |tracks|
      invariant out == AllGrey(tracks[..i])
    {
      assert tracks[..i + 1][..i] == tracks[..i];
      out := out + [tracks[i].(team := None, colour := Some(Grey))];
      i := i + 1;
    }
    assert tracks[..|tracks|] == tracks;
  }
}
