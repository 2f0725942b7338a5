/**
 * `PlayerTracker.update` as the live stream uses it. ByteTrack's reply is a
 * parameter. Unlike the newer variant this one always calls ByteTrack, does
 * not drop repeated ids and keeps no class history: every row becomes a
 * track, with the class ByteTrack reports.
 */
module PlayerTracker {
  import opened Common
  import opened Numerals
  import opened BBoxUtils
  import opened History
  import opened PlayerTracking

  /** The track for one row, given the centre histories after the row was recorded. */
  function RowTrack(positions: map<int, seq<Point>>, r: TrackerRow): (t: Track)
    requires |r.xyxy| == 4 && r.trackerId in positions
    ensures t.id == r.trackerId && t.bbox == r.xyxy && ParseInt(t.cls) == Some(r.classId)
    ensures t.team.None? && t.possessedBy.None?
  {
    RoundTrip(r.classId);
    NewTrack(r.trackerId, r.xyxy, IntToString(r.classId), EstimateVelocity(positions[r.trackerId]))
  }

  /** Where the result loop stands: the centre histories and the tracks built so far. */
  datatype Pass = Pass(positions: map<int, seq<Point>>, out: seq<Track>)

  /** One pass of the result loop: remember the row's centre, then append its track. */
  function RowStep(p: Pass, r: TrackerRow): (q: Pass)
    requires |r.xyxy| == 4
    ensures |q.out| == |p.out| + 1
  {
    var positions := Remember(p.positions, r.trackerId, Centre(r.xyxy));
    Pass(positions, p.out + [RowTrack(positions, r)])
  }

  /** Where the loop stands after it has looked at `rows`. */
  function Process(positions: map<int, seq<Point>>, rows: seq<TrackerRow>): (r: Pass)
    requires RowsOk(rows)
    ensures |r.out| == |rows|
  {
    if rows == [] then Pass(positions, [])
    else RowStep(Process(positions, rows[..|rows| - 1]), rows[|rows| - 1])
  }

  /**
   * One track per row, in ByteTrack's order, repeated ids included: track i
   * has row i's id and box and the class as text that reads back as row
   * i's class.
   */
  lemma {:induction false} ProcessTracks(positions: map<int, seq<Point>>, rows: seq<TrackerRow>)
    requires RowsOk(rows)
    ensures var out := Process(positions, rows).out;
      forall i :: 0 <= i < |rows| ==>
        && out[i].id == rows[i].trackerId && out[i].bbox == rows[i].xyxy
        && ParseInt(out[i].cls) == Some(rows[i].classId)
        && out[i].team.None? && out[i].possessedBy.None?
  {
    if rows != [] {
      var n := |rows|;
      var pre := rows[..n - 1];
      var r := rows[n - 1];
      ProcessTracks(positions, pre);
      var prev := Process(positions, pre);
      var q := RowStep(prev, r);
      assert Process(positions, rows) == q;
      assert q.out[n - 1] == RowTrack(q.positions, r);
      forall i | 0 <= i < n - 1
        ensures q.out[i] == prev.out[i] && rows[i] == pre[i]
      {
      }
    }
  }

  /** The histories stay bounded and gain exactly the ids ByteTrack reported. */
  lemma {:induction false} ProcessHistories(positions: map<int, seq<Point>>, rows: seq<TrackerRow>)
    requires RowsOk(rows) && HistoriesBounded(positions)
    ensures var p := Process(positions, rows).positions;
      HistoriesBounded(p) && (forall k :: k in p <==> k in positions || k in Ids(rows))
  {
    if rows != [] {
      var n := |rows|;
      var pre := rows[..n - 1];
      var r := rows[n - 1];
      assert RowsOk(pre);
      ProcessHistories(positions, pre);
      var p := Process(positions, pre);
      assert Process(positions, rows) == RowStep(p, r);
      RememberKeeps(p.positions, r.trackerId, Centre(r.xyxy));
    }
  }

  /**
   * The velocity of the track a row appends is the step from the centre
   * recorded for its id before the row, or zero if the id had none.
   */
  lemma RowStepVelocity(p: Pass, r: TrackerRow)
    requires |r.xyxy| == 4 && HistoriesBounded(p.positions)
    ensures var c := Centre(r.xyxy);
      var v := RowStep(p, r).out[|p.out|].velocity;
      && (r.trackerId !in p.positions ==> v == Point(0.0, 0.0))
      && (r.trackerId in p.positions ==>
            var last := p.positions[r.trackerId][|p.positions[r.trackerId]| - 1];
            v == Point(c.x - last.x, c.y - last.y))
  {
    RememberLatest(p.positions, r.trackerId, Centre(r.xyxy));
  }

  class PlayerTracker {
    var previousPositions: map<int, seq<Point>>

    predicate Valid()
      reads this
    {
      HistoriesBounded(previousPositions)
    }

    constructor()
      ensures previousPositions == map[] && Valid()
    {
      previousPositions := map[];
    }

    /**
     * `update(detections, frame)`: hands ByteTrack the non-ball detections,
     * returned as `sent`, and turns its reply `results` into tracks.
     */
    method Update(detections: seq<Detection>, results: seq<TrackerRow>) returns (sent: seq<SentDetection>, tracks: seq<Track>)
      requires Valid() && Convertible(detections) && RowsOk(results)
      modifies this
      ensures Valid()
      ensures sent == TrackerInput(detections)
      ensures Pass(previousPositions, tracks) == Process(old(previousPositions), results)
    {
      sent := CollectDetections(detections);
      ghost var p0 := previousPositions;
      tracks := [];
      var i := 0;
      while i < |results|
        invariant 0 <= i <= |results|
        invariant Pass(previousPositions, tracks) == Process(p0, results[..i])
      {
        var r := results[i];
        assert results[..i + 1][..i] == results[..i];
        previousPositions := Remember(previousPositions, r.trackerId, Centre(r.xyxy));
        var velocity := EstimateVelocity(previousPositions[r.trackerId]);
        tracks := tracks + [NewTrack(r.trackerId, r.xyxy, IntToString(r.classId), velocity)];
        i := i + 1;
      }
      assert results[..|results|] == results;
      ProcessHistories(p0, results);
    }
  }
}
