/**
 * What both `PlayerTracker` variants share: the detections they hand to
 * ByteTrack, the rows ByteTrack hands back, and the per-id history of the
 * last five centres.
 */
module PlayerTracking {
  import opened Common
  import opened Numerals
  import opened BBoxUtils
  import opened History

  /** One detection as handed to ByteTrack: box, integer class and confidence. */
  datatype SentDetection = SentDetection(xyxy: seq<real>, classId: int, confidence: real)

  /** One row of ByteTrack's reply: the box `r[0]`, the class `r[3]` and the tracker id `r[4]`. */
  datatype TrackerRow = TrackerRow(xyxy: seq<real>, classId: int, trackerId: int)

  /** The trackers skip the ball class and hand on everything else. */
  predicate Trackable(d: Detection)
  {
    d.cls != "0"
  }

  /**
   * What the input loop demands of every detection it hands on: a box that
   * unpacks into four values, a class `int()` accepts and a confidence.
   */
  predicate Convertible(ds: seq<Detection>)
  {
    forall i :: 0 <= i < |ds| && Trackable(ds[i]) ==>
      |ds[i].bbox| == 4 && ParseInt(ds[i].cls).Some? && ds[i].conf.Some?
  }

  function Convert(d: Detection): SentDetection
    requires |d.bbox| == 4 && ParseInt(d.cls).Some? && d.conf.Some?
  {
    SentDetection(d.bbox, ParseInt(d.cls).value, d.conf.value)
  }

  /** The detections the input loop hands to ByteTrack, in order. */
  function TrackerInput(ds: seq<Detection>): (r: seq<SentDetection>)
    requires Convertible(ds)
    ensures |r| <= |ds|
  {
    if ds == [] then []
    else
      var n := |ds|;
      var pre := TrackerInput(ds[..n - 1]);
      if Trackable(ds[n - 1]) then pre + [Convert(ds[n - 1])] else pre
  }

  /**
   * ByteTrack receives exactly the converted non-ball detections: nothing of
   * class "0" is ever handed on, and every other detection is.
   */
  lemma {:induction false} TrackerInputIff(ds: seq<Detection>, x: SentDetection)
    requires Convertible(ds)
    ensures x in TrackerInput(ds) <==> exists i :: 0 <= i < |ds| && ds[i].cls != "0" && Convert(ds[i]) == x
  {
    if ds != [] {
      var n := |ds|;
      var pre := ds[..n - 1];
      TrackerInputIff(pre, x);
      assert forall i :: 0 <= i < n - 1 ==> pre[i] == ds[i];
      if exists i :: 0 <= i < n && ds[i].cls != "0" && Convert(ds[i]) == x {
        var i :| 0 <= i < n && ds[i].cls != "0" && Convert(ds[i]) == x;
        if i < n - 1 {
          assert pre[i] == ds[i];
        }
      }
    }
  }

  /** Nothing is handed on exactly when every detection is of class "0". */
  lemma {:induction false} TrackerInputEmpty(ds: seq<Detection>)
    requires Convertible(ds)
    ensures TrackerInput(ds) == [] <==> forall i :: 0 <= i < |ds| ==> ds[i].cls == "0"
  {
    if ds != [] {
      var n := |ds|;
      var pre := ds[..n - 1];
      TrackerInputEmpty(pre);
      assert forall i :: 0 <= i < n - 1 ==> pre[i] == ds[i];
    }
  }

  /** The input loop: every detection not of class "0" is unpacked and converted. */
  method CollectDetections(detections: seq<Detection>) returns (sent: seq<SentDetection>)
    requires Convertible(detections)
    ensures sent == TrackerInput(detections)
  {
    sent := [];
    var i := 0;
    while i < |detections|
      invariant 0 <= i <= |detections|
      invariant sent == TrackerInput(detections[..i])
    {
      var det := detections[i];
      assert detections[..i + 1][..i] == detections[..i];
      if det.cls != "0" {
        sent := sent + [SentDetection(det.bbox, ParseInt(det.cls).value, det.conf.value)];
      }
      i := i + 1;
    }
    assert detections[..|detections|] == detections;
  }

  /** Every row's box unpacks into four values. */
  predicate RowsOk(rows: seq<TrackerRow>)
  {
    forall i :: 0 <= i < |rows| ==> |rows[i].xyxy| == 4
  }

  /** The tracker ids of `rows`. */
  function Ids(rows: seq<TrackerRow>): set<int>
  {
    if rows == [] then {} else Ids(rows[..|rows| - 1]) + {rows[|rows| - 1].trackerId}
  }

  /** An id is among `Ids(rows)` exactly when some row carries it. */
  lemma {:induction false} IdsIff(rows: seq<TrackerRow>, k: int)
    ensures k in Ids(rows) <==> exists j :: 0 <= j < |rows| && rows[j].trackerId == k
  {
    if rows != [] {
      var n := |rows|;
      var pre := rows[..n - 1];
      IdsIff(pre, k);
      if exists j :: 0 <= j < n && rows[j].trackerId == k {
        var j :| 0 <= j < n && rows[j].trackerId == k;
        if j < n - 1 {
          assert pre[j].trackerId == k;
        }
      }
      if k in Ids(pre) {
        var j :| 0 <= j < n - 1 && pre[j].trackerId == k;
        assert rows[j].trackerId == k;
      }
    }
  }

  /** The centres recorded so far for `id`. */
  function PositionsOf(positions: map<int, seq<Point>>, id: int): seq<Point>
  {
    if id in positions then positions[id] else []
  }

  /** Append a centre to `id`'s history and keep only the last five. */
  function Remember(positions: map<int, seq<Point>>, id: int, c: Point): map<int, seq<Point>>
  {
    positions[id := KeepLast(PositionsOf(positions, id) + [c], MaxHistory)]
  }

  /** Every recorded history is non-empty and holds at most five centres. */
  predicate HistoriesBounded(positions: map<int, seq<Point>>)
  {
    forall id :: id in positions ==> 1 <= |positions[id]| <= MaxHistory
  }

  /** Recording a centre keeps every history bounded and touches no other id. */
  lemma RememberKeeps(positions: map<int, seq<Point>>, id: int, c: Point)
    requires HistoriesBounded(positions)
    ensures var p := Remember(positions, id, c);
      && HistoriesBounded(p)
      && (forall k :: k in p <==> k in positions || k == id)
      && (forall k :: k in positions && k != id ==> p[k] == positions[k])
  {
    var p := Remember(positions, id, c);
    RecordBounded(PositionsOf(positions, id), c);
    forall k | k in p ensures 1 <= |p[k]| <= MaxHistory
    {
      if k != id {
        assert p[k] == positions[k];
      }
    }
  }

  /**
   * Recording a centre ends `id`'s history with it and makes the velocity
   * the step from the previously recorded centre, or zero on first sight.
   */
  lemma RememberLatest(positions: map<int, seq<Point>>, id: int, c: Point)
    requires id in positions ==> positions[id] != []
    ensures var h := Remember(positions, id, c)[id];
      && h != [] && h[|h| - 1] == c
      && EstimateVelocity(h) ==
           (if id !in positions then Point(0.0, 0.0)
            else Point(c.x - positions[id][|positions[id]| - 1].x, c.y - positions[id][|positions[id]| - 1].y))
  {
    var h := PositionsOf(positions, id);
    RecordBounded(h, c);
    VelocityAfterRecord(h, c);
  }
}
