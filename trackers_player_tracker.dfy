/**
 * `PlayerTracker.update` of the newer trackers package. ByteTrack's
 * association is an oracle: its reply is a parameter. Around it the tracker
 * drops repeated ids within a frame, keeps each id's first class for good
 * (forgetting the id's previous team when ByteTrack reports another class),
 * and keeps the last five centres per id for the velocity.
 */
module TrackersPlayerTracker {
  import opened Common
  import opened Numerals
  import opened BBoxUtils
  import opened History
  import opened PlayerTracking

  /** The tracker's dicts `previous_positions`, `class_history` and `prev_assignments`. */
  datatype TrackerState = TrackerState(positions: map<int, seq<Point>>, classes: map<int, int>, prevAssignments: map<int, int>)

  /** Where the result loop stands: the tracker's dicts, `seen_ids` and the tracks built so far. */
  datatype Pass = Pass(state: TrackerState, seen: set<int>, out: seq<Track>)

  /** The class an unseen row's id keeps: the one recorded first, else the row's own. */
  function KeptClass(s: TrackerState, r: TrackerRow): int
  {
    if r.trackerId in s.classes then s.classes[r.trackerId] else r.classId
  }

  /** ByteTrack reports a class other than the one recorded for the id. */
  predicate Mismatch(s: TrackerState, r: TrackerRow)
  {
    r.trackerId in s.classes && s.classes[r.trackerId] != r.classId
  }

  /** The dicts after an unseen row: kept class recorded, assignment dropped on a mismatch, centre remembered. */
  function RowState(s: TrackerState, r: TrackerRow): TrackerState
    requires |r.xyxy| == 4
  {
    var tid := r.trackerId;
    var assignments := if Mismatch(s, r) then s.prevAssignments - {tid} else s.prevAssignments;
    TrackerState(Remember(s.positions, tid, Centre(r.xyxy)), s.classes[tid := KeptClass(s, r)], assignments)
  }

  /** The track an unseen row appends. */
  function RowTrack(s: TrackerState, r: TrackerRow): (t: Track)
    requires |r.xyxy| == 4
    ensures t.id == r.trackerId
  {
    var tid := r.trackerId;
    NewTrack(tid, r.xyxy, IntToString(KeptClass(s, r)), EstimateVelocity(RowState(s, r).positions[tid]))
  }

  /** One pass of the result loop over row `r`: a repeated id is skipped. */
  function RowStep(p: Pass, r: TrackerRow): Pass
    requires |r.xyxy| == 4
  {
    if r.trackerId in p.seen then p
    else Pass(RowState(p.state, r), p.seen + {r.trackerId}, p.out + [RowTrack(p.state, r)])
  }

  /** Where the loop stands after it has looked at `rows`. */
  function Process(s: TrackerState, rows: seq<TrackerRow>): (r: Pass)
    requires RowsOk(rows)
    ensures |r.out| <= |rows|
  {
    if rows == [] then Pass(s, {}, [])
    else RowStep(Process(s, rows[..|rows| - 1]), rows[|rows| - 1])
  }

  /**
   * An unseen row records the kept class (a class once recorded never
   * changes, nor does any other id's), drops the id from `prev_assignments`
   * exactly on a class mismatch and leaves every other entry untouched.
   */
  lemma RowStepClasses(p: Pass, r: TrackerRow)
    requires |r.xyxy| == 4 && r.trackerId !in p.seen
    ensures var t := RowStep(p, r).state;
      var s := p.state;
      && (forall k :: k in t.classes <==> k in s.classes || k == r.trackerId)
      && t.classes[r.trackerId] == KeptClass(s, r)
      && (forall k :: k in s.classes ==> t.classes[k] == s.classes[k])
      && (r.trackerId in t.prevAssignments <==> r.trackerId in s.prevAssignments && !Mismatch(s, r))
      && (forall k :: k != r.trackerId ==> (k in t.prevAssignments <==> k in s.prevAssignments))
      && (forall k :: k in t.prevAssignments ==> t.prevAssignments[k] == s.prevAssignments[k])
  {
  }

  /**
   * An unseen row appends exactly one track: the row's id and box, the kept
   * class as text and the velocity from the id's updated history, which
   * ends with the row's centre and stays bounded.
   */
  lemma RowStepTrack(p: Pass, r: TrackerRow)
    requires |r.xyxy| == 4 && r.trackerId !in p.seen && HistoriesBounded(p.state.positions)
    ensures var q := RowStep(p, r);
      var h := q.state.positions[r.trackerId];
      && q.seen == p.seen + {r.trackerId}
      && HistoriesBounded(q.state.positions)
      && (forall k :: k in p.state.positions ==> k in q.state.positions)
      && (forall k :: k in p.state.positions && k != r.trackerId ==> q.state.positions[k] == p.state.positions[k])
      && h[|h| - 1] == Centre(r.xyxy)
      && |q.out| == |p.out| + 1 && q.out[..|p.out|] == p.out
      && q.out[|p.out|] == NewTrack(r.trackerId, r.xyxy, IntToString(KeptClass(p.state, r)), EstimateVelocity(h))
  {
    RememberKeeps(p.state.positions, r.trackerId, Centre(r.xyxy));
    RememberLatest(p.state.positions, r.trackerId, Centre(r.xyxy));
    assert (p.out + [RowStep(p, r).out[|p.out|]])[..|p.out|] == p.out;
  }

  /** Recorded classes survive, and `prev_assignments` only loses entries. */
  predicate RecordsKept(s0: TrackerState, t: TrackerState)
  {
    && (forall k :: k in s0.classes ==> k in t.classes && t.classes[k] == s0.classes[k])
    && (forall k :: k in t.prevAssignments ==> k in s0.prevAssignments && t.prevAssignments[k] == s0.prevAssignments[k])
  }

  /** The ids output so far are exactly the ids seen. */
  predicate SeenIsOutput(q: Pass)
  {
    && (forall i :: 0 <= i < |q.out| ==> q.out[i].id in q.seen)
    && (forall k :: k in q.seen ==> exists i :: 0 <= i < |q.out| && q.out[i].id == k)
  }

  /** No id is output twice. */
  predicate DistinctIds(out: seq<Track>)
  {
    forall i, j :: 0 <= i < j < |out| ==> out[i].id != out[j].id
  }

  /** Every track output carries its id's recorded class and the velocity from its recorded history. */
  predicate TracksCurrent(q: Pass)
  {
    forall i :: 0 <= i < |q.out| ==>
      && q.out[i].id in q.state.classes && q.out[i].cls == IntToString(q.state.classes[q.out[i].id])
      && q.out[i].id in q.state.positions && q.out[i].velocity == EstimateVelocity(q.state.positions[q.out[i].id])
  }

  /** What the loop keeps true. */
  predicate OutputInvariant(s0: TrackerState, q: Pass)
  {
    HistoriesBounded(q.state.positions) && RecordsKept(s0, q.state) && SeenIsOutput(q) && DistinctIds(q.out) && TracksCurrent(q)
  }

  lemma KeepsRecords(s0: TrackerState, p: Pass, r: TrackerRow)
    requires |r.xyxy| == 4 && RecordsKept(s0, p.state)
    ensures RecordsKept(s0, RowStep(p, r).state)
  {
    if r.trackerId !in p.seen {
      RowStepClasses(p, r);
    }
  }

  lemma KeepsSeen(p: Pass, r: TrackerRow)
    requires |r.xyxy| == 4 && SeenIsOutput(p)
    ensures SeenIsOutput(RowStep(p, r))
  {
    if r.trackerId !in p.seen {
      var t := RowTrack(p.state, r);
      var out := p.out + [t];
      var seen := p.seen + {r.trackerId};
      assert RowStep(p, r) == Pass(RowState(p.state, r), seen, out);
      var n := |p.out|;
      forall k | k in seen
        ensures exists i :: 0 <= i < |out| && out[i].id == k
      {
        if k == r.trackerId {
          assert out[n].id == k;
        } else {
          var i :| 0 <= i < n && p.out[i].id == k;
          assert out[i].id == k;
        }
      }
    }
  }

  lemma KeepsDistinct(p: Pass, r: TrackerRow)
    requires |r.xyxy| == 4 && HistoriesBounded(p.state.positions) && SeenIsOutput(p) && DistinctIds(p.out)
    ensures DistinctIds(RowStep(p, r).out)
  {
    if r.trackerId !in p.seen {
      var q := RowStep(p, r);
      RowStepTrack(p, r);
      var n := |p.out|;
      forall i, j | 0 <= i < j < |q.out| ensures q.out[i].id != q.out[j].id
      {
        assert q.out[..n][i] == q.out[i];
        if j < n {
          assert q.out[..n][j] == q.out[j];
        } else {
          assert p.out[i].id in p.seen;
        }
      }
    }
  }

  lemma KeepsCurrent(p: Pass, r: TrackerRow)
    requires |r.xyxy| == 4 && HistoriesBounded(p.state.positions) && SeenIsOutput(p) && TracksCurrent(p)
    ensures TracksCurrent(RowStep(p, r))
  {
    if r.trackerId !in p.seen {
      var q := RowStep(p, r);
      RowStepClasses(p, r);
      RowStepTrack(p, r);
      var n := |p.out|;
      forall i | 0 <= i < |q.out|
        ensures q.out[i].id in q.state.classes && q.out[i].cls == IntToString(q.state.classes[q.out[i].id])
        ensures q.out[i].id in q.state.positions && q.out[i].velocity == EstimateVelocity(q.state.positions[q.out[i].id])
      {
        if i < n {
          assert q.out[..n][i] == q.out[i];
          assert p.out[i].id in p.seen;
        }
      }
    }
  }

  /** One pass keeps the loop invariant. */
  lemma RowStepKeeps(s0: TrackerState, p: Pass, r: TrackerRow)
    requires |r.xyxy| == 4 && OutputInvariant(s0, p)
    ensures OutputInvariant(s0, RowStep(p, r))
  {
    KeepsRecords(s0, p, r);
    KeepsSeen(p, r);
    KeepsDistinct(p, r);
    KeepsCurrent(p, r);
    if r.trackerId !in p.seen {
      RowStepTrack(p, r);
    }
  }

  /** After the loop, `seen_ids` holds exactly the ids ByteTrack reported. */
  lemma {:induction false} ProcessSeen(s: TrackerState, rows: seq<TrackerRow>)
    requires RowsOk(rows)
    ensures Process(s, rows).seen == Ids(rows)
  {
    if rows != [] {
      var n := |rows|;
      var pre := rows[..n - 1];
      ProcessSeen(s, pre);
    }
  }

  /** The loop invariant holds after the loop. */
  lemma {:induction false} ProcessInvariant(s: TrackerState, rows: seq<TrackerRow>)
    requires RowsOk(rows) && HistoriesBounded(s.positions)
    ensures OutputInvariant(s, Process(s, rows))
  {
    if rows != [] {
      var n := |rows|;
      ProcessInvariant(s, rows[..n - 1]);
      RowStepKeeps(s, Process(s, rows[..n - 1]), rows[n - 1]);
    }
  }

  /**
   * Across calls: once an id has a recorded class, every track the tracker
   * outputs for it carries that class, and the record never changes.
   */
  lemma ClassStable(s: TrackerState, rows: seq<TrackerRow>, i: nat)
    requires RowsOk(rows) && HistoriesBounded(s.positions)
    requires i < |Process(s, rows).out| && Process(s, rows).out[i].id in s.classes
    ensures var q := Process(s, rows);
      && q.out[i].cls == IntToString(s.classes[q.out[i].id])
      && q.out[i].id in q.state.classes && q.state.classes[q.out[i].id] == s.classes[q.out[i].id]
  {
    ProcessInvariant(s, rows);
  }

  /** The ids of one call's output are distinct, and every id ByteTrack reported is output. */
  lemma UniqueIds(s: TrackerState, rows: seq<TrackerRow>)
    requires RowsOk(rows) && HistoriesBounded(s.positions)
    ensures var out := Process(s, rows).out;
      && (forall i, j :: 0 <= i < j < |out| ==> out[i].id != out[j].id)
      && (forall j :: 0 <= j < |rows| ==> exists i :: 0 <= i < |out| && out[i].id == rows[j].trackerId)
  {
    ProcessInvariant(s, rows);
    ProcessSeen(s, rows);
    var q := Process(s, rows);
    forall j | 0 <= j < |rows|
      ensures exists i :: 0 <= i < |q.out| && q.out[i].id == rows[j].trackerId
    {
      IdsIff(rows, rows[j].trackerId);
    }
  }

  class PlayerTracker {
    var previousPositions: map<int, seq<Point>>
    var classHistory: map<int, int>
    var prevAssignments: map<int, int>

    function Snapshot(): TrackerState
      reads this
    {
      TrackerState(previousPositions, classHistory, prevAssignments)
    }

    predicate Valid()
      reads this
    {
      HistoriesBounded(previousPositions)
    }

    constructor()
      ensures Snapshot() == TrackerState(map[], map[], map[]) && Valid()
    {
      previousPositions := map[];
      classHistory := map[];
      prevAssignments := map[];
    }

    /**
     * `update(detections, frame)`. `results` is ByteTrack's reply to the
     * detections handed on, which are returned as `sent`; `sent` is `None`
     * when ByteTrack is not called.
     */
    method Update(detections: seq<Detection>, results: seq<TrackerRow>) returns (sent: Option<seq<SentDetection>>, tracks: seq<Track>)
      requires Valid() && Convertible(detections) && RowsOk(results)
      modifies this
      ensures Valid()
      ensures TrackerInput(detections) == [] ==> sent.None? && tracks == [] && Snapshot() == old(Snapshot())
      ensures TrackerInput(detections) != [] ==>
        sent == Some(TrackerInput(detections)) && Snapshot() == Process(old(Snapshot()), results).state
        && tracks == Process(old(Snapshot()), results).out
    {
      var input := CollectDetections(detections);
      if input == [] {
        return None, [];
      }
      sent := Some(input);
      ghost var s0 := Snapshot();
      tracks := [];
      var seenIds: set<int> := {};
      var i := 0;
      while i < |results|
        invariant 0 <= i <= |results|
        invariant Pass(Snapshot(), seenIds, tracks) == Process(s0, results[..i])
      {
        var r := results[i];
        assert results[..i + 1][..i] == results[..i];
        ghost var before := Snapshot();
        var tid := r.trackerId;
        if tid in seenIds {
          i := i + 1;
          continue;
        }
        seenIds := seenIds + {tid};
        var cls := r.classId;
        if tid in classHistory {
          if classHistory[tid] != cls {
            cls := classHistory[tid];
            prevAssignments := prevAssignments - {tid};
          }
        }
        classHistory := classHistory[tid := cls];
        previousPositions := Remember(previousPositions, tid, Centre(r.xyxy));
        var velocity := EstimateVelocity(previousPositions[tid]);
        assert Snapshot() == RowState(before, r);
        tracks := tracks + [NewTrack(tid, r.xyxy, IntToString(cls), velocity)];
        i := i + 1;
      }
      ProcessInvariant(s0, results);
      assert results[..|results|] == results;
    }
  }
}
