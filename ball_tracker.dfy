/**
 * `BallTracker`: keeps one ball track, fed by the best-scoring ball detection
 * of the frame or, when there is none, by one optical-flow step from the
 * previous box. It keeps the last five centres and reports their last
 * difference as the velocity.
 *
 * The wired tracker (`core/ball_tracker.py`) and the newer one
 * (`core/trackers/ball_tracker.py`) do the same thing on well-formed
 * detections, so one model serves both.
 */
module BallTracker {
  import opened Common
  import opened BBoxUtils
  import opened ArgMin
  import opened History

  /** The id every ball track carries. */
  const BallId: int := 1

  const DistanceWeight: real := 1.0
  const ConfidenceWeight: real := 100.0
  /** A jump longer than this, made by a confident detection, earns the bonus. */
  const MaxReasonableDistance: real := 100.0
  const ConfidentJump: real := 0.6
  const JumpBonus: real := 50.0
  /** A best score above this is rejected. */
  const RejectThreshold: real := 150.0

  /** What one call of the optical-flow oracle returns: the tracked point and whether it was found. */
  datatype FlowResult = FlowResult(found: bool, next: Point)

  predicate IsBall(d: Detection)
  {
    d.cls == "0"
  }

  /** `_select_best_ball` takes the centre of every ball detection, so their boxes have four values. */
  predicate BallBoxes(ds: seq<Detection>)
  {
    forall i :: 0 <= i < |ds| && IsBall(ds[i]) ==> |ds[i].bbox| == 4
  }

  /** `det.get('conf', 0)`. */
  function Confidence(d: Detection): real
  {
    if d.conf.Some? then d.conf.value else 0.0
  }

  /** The ball detections, in order. */
  function Balls(ds: seq<Detection>): (bs: seq<Detection>)
    ensures forall i :: 0 <= i < |bs| ==> IsBall(bs[i]) && bs[i] in ds
    ensures forall i :: 0 <= i < |ds| && IsBall(ds[i]) ==> ds[i] in bs
    ensures BallBoxes(ds) ==> forall i :: 0 <= i < |bs| ==> |bs[i].bbox| == 4
  {
    if ds == [] then []
    else (if IsBall(ds[0]) then [ds[0]] else []) + Balls(ds[1..])
  }

  /** A box the tracker keeps has four values. */
  predicate BoxOk(b: Option<seq<real>>)
  {
    b.Some? ==> |b.value| == 4
  }

  /**
   * The score of one ball detection: its distance from the last ball's centre
   * (measured by `norm`, zero without a last ball) plus 100 per unit of
   * missing confidence, less 50 for a confident jump of over 100 pixels.
   */
  function Score(d: Detection, last: Option<seq<real>>, norm: Point -> real): real
    requires |d.bbox| == 4 && BoxOk(last)
  {
    var conf := Confidence(d);
    var dist := if last.Some? then norm(XyDistance(Centre(d.bbox), Centre(last.value))) else 0.0;
    var score := dist * DistanceWeight + (1.0 - conf) * ConfidenceWeight;
    if last.Some? && dist > MaxReasonableDistance && conf > ConfidentJump then score - JumpBonus else score
  }

  function Scores(bs: seq<Detection>, last: Option<seq<real>>, norm: Point -> real): (ss: seq<Option<real>>)
    requires forall i :: 0 <= i < |bs| ==> |bs[i].bbox| == 4
    requires BoxOk(last)
    ensures |ss| == |bs|
    ensures forall i :: 0 <= i < |bs| ==> ss[i] == Some(Score(bs[i], last, norm))
  {
    seq(|bs|, i requires 0 <= i < |bs| => Some(Score(bs[i], last, norm)))
  }

  /** `_select_best_ball`: the first lowest-scoring ball, unless even that one scores above 150. */
  function SelectBest(ds: seq<Detection>, last: Option<seq<real>>, norm: Point -> real): Option<Detection>
    requires BallBoxes(ds) && BoxOk(last)
  {
    var bs := Balls(ds);
    match FirstMin(Scores(bs, last, norm))
    case None => None
    case Some(k) => if Score(bs[k], last, norm) > RejectThreshold then None else Some(bs[k])
  }

  /** Ball `k` scores no more than any ball and strictly less than every ball before it. */
  predicate FirstLowest(bs: seq<Detection>, k: nat, last: Option<seq<real>>, norm: Point -> real)
    requires forall i :: 0 <= i < |bs| ==> |bs[i].bbox| == 4
    requires BoxOk(last)
  {
    && k < |bs|
    && (forall j :: 0 <= j < |bs| ==> Score(bs[k], last, norm) <= Score(bs[j], last, norm))
    && (forall j :: 0 <= j < k ==> Score(bs[k], last, norm) < Score(bs[j], last, norm))
  }

  /**
   * A chosen detection is a ball of the input scoring at most 150, no more
   * than any ball, and strictly less than every ball before it.
   */
  lemma SelectBestChosen(ds: seq<Detection>, last: Option<seq<real>>, norm: Point -> real)
    requires BallBoxes(ds) && BoxOk(last)
    requires SelectBest(ds, last, norm).Some?
    ensures var d := SelectBest(ds, last, norm).value;
      var bs := Balls(ds);
      && IsBall(d) && d in ds
      && Score(d, last, norm) <= RejectThreshold
      && exists k :: 0 <= k < |bs| && bs[k] == d && FirstLowest(bs, k, last, norm)
  {
    var bs := Balls(ds);
    var ss := Scores(bs, last, norm);
    FirstMinSound(ss);
    var k := FirstMin(ss).value;
    var d := bs[k];
    assert SelectBest(ds, last, norm) == Some(d);
    assert IsFirstMin(ss, k);
    forall j | 0 <= j < |bs|
      ensures Score(d, last, norm) <= Score(bs[j], last, norm)
    {
      assert ss[j].Some?;
    }
    forall j | 0 <= j < k
      ensures Score(d, last, norm) < Score(bs[j], last, norm)
    {
      assert ss[j].Some?;
    }
    assert Balls(ds)[k] == SelectBest(ds, last, norm).value && FirstLowest(Balls(ds), k, last, norm);
  }

  /** Nothing is chosen exactly when every ball scores above 150, in particular when there is no ball. */
  lemma SelectBestNone(ds: seq<Detection>, last: Option<seq<real>>, norm: Point -> real)
    requires BallBoxes(ds) && BoxOk(last)
    ensures SelectBest(ds, last, norm).None? <==>
      forall j :: 0 <= j < |Balls(ds)| ==> Score(Balls(ds)[j], last, norm) > RejectThreshold
  {
    var bs := Balls(ds);
    var ss := Scores(bs, last, norm);
    FirstMinNone(ss);
    FirstMinSound(ss);
    if FirstMin(ss).Some? {
      var k := FirstMin(ss).value;
      assert IsFirstMin(ss, k);
      if Score(bs[k], last, norm) > RejectThreshold {
        forall j | 0 <= j < |bs|
          ensures Score(bs[j], last, norm) > RejectThreshold
        {
          assert ss[j].Some?;
        }
      }
    }
  }

  /** With no input ball, nothing is chosen. */
  lemma NoBallNone(ds: seq<Detection>, last: Option<seq<real>>, norm: Point -> real)
    requires BallBoxes(ds) && BoxOk(last)
    requires forall i :: 0 <= i < |ds| ==> !IsBall(ds[i])
    ensures SelectBest(ds, last, norm).None?
  {
    SelectBestNone(ds, last, norm);
  }

  /**
   * Without a last ball the score is confidence alone, so the chosen ball is
   * a most confident one, and one is chosen exactly when some ball has
   * confidence at least -0.5.
   */
  lemma NoLastBallMostConfident(ds: seq<Detection>, norm: Point -> real)
    requires BallBoxes(ds)
    ensures var r := SelectBest(ds, None, norm);
      && (r.Some? ==> forall j :: 0 <= j < |Balls(ds)| ==> Confidence(Balls(ds)[j]) <= Confidence(r.value))
      && (r.None? <==> forall j :: 0 <= j < |Balls(ds)| ==> Confidence(Balls(ds)[j]) < -0.5)
  {
    SelectBestNone(ds, None, norm);
    if SelectBest(ds, None, norm).Some? {
      SelectBestChosen(ds, None, norm);
    }
  }

  /** The box of the flow fallback: the previous box's width and height, centred on the tracked point. */
  function FlowBox(prev: seq<real>, c: Point): (b: seq<real>)
    requires |prev| == 4
    ensures |b| == 4 && Width(b) == Width(prev) && Height(b) == Height(prev) && Centre(b) == c
  {
    var w := prev[2] - prev[0];
    var h := prev[3] - prev[1];
    [c.x - w / 2.0, c.y - h / 2.0, c.x + w / 2.0, c.y + h / 2.0]
  }

  /** The tracker's fields `last_ball`, `ball_history`, `prev_gray` and `prev_bbox`. */
  datatype TrackerState = TrackerState(lastBall: Option<Track>, history: seq<Point>, prevGray: Option<Image>, prevBbox: Option<seq<real>>)

  /** The kept boxes have four values and the history respects its bound. */
  predicate Good(s: TrackerState, maxHistory: nat)
  {
    && (s.lastBall.Some? ==> |s.lastBall.value.bbox| == 4)
    && BoxOk(s.prevBbox)
    && |s.history| <= maxHistory
  }

  function LastBox(s: TrackerState): (b: Option<seq<real>>)
  {
    if s.lastBall.Some? then Some(s.lastBall.value.bbox) else None
  }

  /** The history after `c` is appended to the bounded deque `h`. */
  function Record(h: seq<Point>, c: Point, maxHistory: nat): seq<Point>
  {
    KeepLast(h + [c], maxHistory)
  }

  /**
   * The state after the ball is placed at `b` with centre `c`: the centre
   * is recorded, the velocity re-estimated, and `b` and the frame become the
   * flow reference.
   */
  function Adopt(s: TrackerState, b: seq<real>, c: Point, frame: Image, maxHistory: nat): TrackerState
  {
    var h := Record(s.history, c, maxHistory);
    TrackerState(Some(NewTrack(BallId, b, "0", EstimateVelocity(h))), h, Some(frame), Some(b))
  }

  /**
   * Placing the ball keeps at most `maxHistory` centres, ends the history
   * with the new centre and sets the velocity to the step from the previous
   * centre, or zero when there was none.
   */
  lemma AdoptSpec(s: TrackerState, b: seq<real>, c: Point, frame: Image, maxHistory: nat)
    requires maxHistory >= 2
    ensures var t := Adopt(s, b, c, frame, maxHistory);
      && t.lastBall.Some? && t.lastBall.value.bbox == b && t.prevBbox == Some(b) && t.prevGray == Some(frame)
      && 1 <= |t.history| <= maxHistory && t.history[|t.history| - 1] == c
      && t.lastBall.value.velocity ==
           (if s.history == [] then Point(0.0, 0.0)
            else Point(c.x - s.history[|s.history| - 1].x, c.y - s.history[|s.history| - 1].y))
  {
    var h := s.history + [c];
    var r := KeepLast(h, maxHistory);
    assert r[|r| - 1] == h[|h| - 1];
    if s.history != [] {
      assert |r| >= 2;
      assert r[|r| - 2] == h[|h| - 2];
    }
  }

  /** What `[self.last_ball] if self.last_ball else []` returns. */
  function Output(s: TrackerState): seq<Track>
  {
    if s.lastBall.Some? then [s.lastBall.value] else []
  }

  /**
   * One call of `update`. `frame` is `None` for an argument that is not an
   * image; `flow` maps the previous image, the current one and the previous
   * centre to the optical-flow result.
   */
  function UpdateStep(s: TrackerState, maxHistory: nat, frame: Option<Image>, ds: seq<Detection>,
                      norm: Point -> real, flow: (Image, Image, Point) -> FlowResult): (r: (TrackerState, seq<Track>))
    requires Good(s, maxHistory) && BallBoxes(ds)
    ensures Good(r.0, maxHistory)
  {
    if frame.None? then (s, [])
    else
      var best := SelectBest(ds, LastBox(s), norm);
      var t :=
        if best.Some? then
          var b := best.value.bbox;
          assert best.value in ds && IsBall(best.value) by {
            SelectBestChosen(ds, LastBox(s), norm);
          }
          Adopt(s, b, Centre(b), frame.value, maxHistory)
        else if s.lastBall.Some? && s.prevGray.Some? && s.prevBbox.Some? then
          var fr := flow(s.prevGray.value, frame.value, Centre(s.prevBbox.value));
          if fr.found then
            Adopt(s, FlowBox(s.prevBbox.value, fr.next), fr.next, frame.value, maxHistory)
          else s
        else s;
      (t, Output(t))
  }

  /** The shape of every track the ball tracker produces. */
  predicate IsBallTrack(t: Track)
  {
    t.id == BallId && t.cls == "0" && |t.bbox| == 4
  }

  /**
   * `update` returns at most one track, with id 1 and class "0"; it is the
   * stored last ball. A call without an image returns nothing and changes
   * nothing; once there is a last ball, every call with an image returns one
   * track.
   */
  lemma OutputShape(s: TrackerState, maxHistory: nat, frame: Option<Image>, ds: seq<Detection>,
                    norm: Point -> real, flow: (Image, Image, Point) -> FlowResult)
    requires Good(s, maxHistory) && BallBoxes(ds)
    requires s.lastBall.Some? ==> IsBallTrack(s.lastBall.value)
    ensures var (t, out) := UpdateStep(s, maxHistory, frame, ds, norm, flow);
      && |out| <= 1
      && (forall i :: 0 <= i < |out| ==> IsBallTrack(out[i]))
      && (t.lastBall.Some? ==> IsBallTrack(t.lastBall.value))
      && (frame.None? ==> t == s && out == [])
      && (frame.Some? ==> out == Output(t))
      && (frame.Some? && s.lastBall.Some? ==> |out| == 1)
  {
  }

  /**
   * A chosen detection becomes the ball: its box is the output box and the
   * new flow reference, its centre ends the history, and the velocity is the
   * step from the previously recorded centre (zero with no history).
   */
  lemma DetectionUpdates(s: TrackerState, maxHistory: nat, frame: Option<Image>, ds: seq<Detection>,
                         norm: Point -> real, flow: (Image, Image, Point) -> FlowResult)
    requires Good(s, maxHistory) && BallBoxes(ds) && maxHistory >= 2
    requires frame.Some? && SelectBest(ds, LastBox(s), norm).Some?
    ensures var (t, out) := UpdateStep(s, maxHistory, frame, ds, norm, flow);
      var d := SelectBest(ds, LastBox(s), norm).value;
      var c := Centre(d.bbox);
      && t.prevBbox == Some(d.bbox) && t.prevGray == frame
      && t.history[|t.history| - 1] == c
      && out == [t.lastBall.value]
      && t.lastBall.value.bbox == d.bbox
      && t.lastBall.value.velocity ==
           (if s.history == [] then Point(0.0, 0.0)
            else Point(c.x - s.history[|s.history| - 1].x, c.y - s.history[|s.history| - 1].y))
  {
    var d := SelectBest(ds, LastBox(s), norm).value;
    SelectBestChosen(ds, LastBox(s), norm);
    assert UpdateStep(s, maxHistory, frame, ds, norm, flow).0 == Adopt(s, d.bbox, Centre(d.bbox), frame.value, maxHistory);
    AdoptSpec(s, d.bbox, Centre(d.bbox), frame.value, maxHistory);
  }

  /**
   * Without a chosen detection, a successful flow step moves the ball: the
   * new box keeps the previous box's size and is centred on the tracked
   * point, which ends the history.
   */
  lemma FlowUpdates(s: TrackerState, maxHistory: nat, frame: Option<Image>, ds: seq<Detection>,
                    norm: Point -> real, flow: (Image, Image, Point) -> FlowResult)
    requires Good(s, maxHistory) && BallBoxes(ds) && maxHistory >= 2
    requires frame.Some? && SelectBest(ds, LastBox(s), norm).None?
    requires s.lastBall.Some? && s.prevGray.Some? && s.prevBbox.Some?
    requires flow(s.prevGray.value, frame.value, Centre(s.prevBbox.value)).found
    ensures var (t, out) := UpdateStep(s, maxHistory, frame, ds, norm, flow);
      var p := flow(s.prevGray.value, frame.value, Centre(s.prevBbox.value)).next;
      && t.prevBbox.Some? && t.lastBall.Some?
      && t.lastBall.value.bbox == t.prevBbox.value
      && Width(t.prevBbox.value) == Width(s.prevBbox.value)
      && Height(t.prevBbox.value) == Height(s.prevBbox.value)
      && Centre(t.prevBbox.value) == p
      && t.history[|t.history| - 1] == p
      && out == [t.lastBall.value]
  {
    var p := flow(s.prevGray.value, frame.value, Centre(s.prevBbox.value)).next;
    AdoptSpec(s, FlowBox(s.prevBbox.value, p), p, frame.value, maxHistory);
  }

  /**
   * Without a chosen detection, when there is no flow reference or the flow
   * step fails, nothing changes and the previous ball is returned again.
   */
  lemma StaleBall(s: TrackerState, maxHistory: nat, frame: Option<Image>, ds: seq<Detection>,
                  norm: Point -> real, flow: (Image, Image, Point) -> FlowResult)
    requires Good(s, maxHistory) && BallBoxes(ds)
    requires frame.Some? && SelectBest(ds, LastBox(s), norm).None?
    requires !(s.lastBall.Some? && s.prevGray.Some? && s.prevBbox.Some?)
             || !flow(s.prevGray.value, frame.value, Centre(s.prevBbox.value)).found
    ensures UpdateStep(s, maxHistory, frame, ds, norm, flow) == (s, Output(s))
  {
  }

  class BallTracker {
    const maxHistory: nat
    var lastBall: Option<Track>
    var ballHistory: seq<Point>
    var prevGray: Option<Image>
    var prevBbox: Option<seq<real>>

    function Snapshot(): TrackerState
      reads this
    {
      TrackerState(lastBall, ballHistory, prevGray, prevBbox)
    }

    predicate Valid()
      reads this
    {
      Good(Snapshot(), maxHistory)
    }

    /** `BallTracker(max_history)`; the source's default is 5. */
    constructor(maxHistory: nat)
      ensures this.maxHistory == maxHistory
      ensures Snapshot() == TrackerState(None, [], None, None) && Valid()
    {
      this.maxHistory := maxHistory;
      lastBall := None;
      ballHistory := [];
      prevGray := None;
      prevBbox := None;
    }

    /** `_select_best_ball`: the running minimum of the scores over the ball detections. */
    method SelectBestBall(detections: seq<Detection>, norm: Point -> real) returns (best: Option<Detection>)
      requires Valid() && BallBoxes(detections)
      ensures best == SelectBest(detections, LastBox(Snapshot()), norm)
    {
      var last := if lastBall.Some? then Some(lastBall.value.bbox) else None;
      var balls := Balls(detections);
      if balls == [] {
        return None;
      }
      ghost var ss := Scores(balls, last, norm);
      best := None;
      var bestScore: Option<real> := None;
      var i := 0;
      while i < |balls|
        invariant 0 <= i <= |balls|
        invariant FirstMin(ss[..i]).None? ==> best.None? && bestScore.None?
        invariant FirstMin(ss[..i]).Some? ==>
          var k := FirstMin(ss[..i]).value;
          best == Some(balls[k]) && bestScore == Some(Score(balls[k], last, norm))
      {
        assert ss[..i + 1][..i] == ss[..i];
        var det := balls[i];
        var conf := Confidence(det);
        var dist := if last.Some? then norm(XyDistance(Centre(det.bbox), Centre(last.value))) else 0.0;
        var score := dist * DistanceWeight + (1.0 - conf) * ConfidenceWeight;
        if last.Some? && dist > MaxReasonableDistance && conf > ConfidentJump {
          score := score - JumpBonus;
        }
        if bestScore.None? || score < bestScore.value {
          bestScore := Some(score);
          best := Some(det);
        }
        i := i + 1;
      }
      assert ss[..|balls|] == ss;
      if bestScore.Some? && bestScore.value > RejectThreshold {
        return None;
      }
    }

    /** `update(frame, detections)`, with the image oracles as parameters. */
    method Update(frame: Option<Image>, detections: seq<Detection>,
                  norm: Point -> real, flow: (Image, Image, Point) -> FlowResult) returns (tracks: seq<Track>)
      requires Valid() && BallBoxes(detections)
      modifies this
      ensures Valid()
      ensures (Snapshot(), tracks) == UpdateStep(old(Snapshot()), maxHistory, frame, detections, norm, flow)
    {
      if frame.None? {
        return [];
      }
      var bestBall := SelectBestBall(detections, norm);
      if bestBall.Some? {
        SelectBestChosen(detections, LastBox(Snapshot()), norm);
        var b := bestBall.value.bbox;
        prevBbox := Some(b);
        prevGray := frame;
        ballHistory := Record(ballHistory, Centre(b), maxHistory);
        var velocity := EstimateVelocity(ballHistory);
        lastBall := Some(NewTrack(BallId, b, "0", velocity));
      } else if lastBall.Some? && prevGray.Some? && prevBbox.Some? {
        var fr := flow(prevGray.value, frame.value, Centre(prevBbox.value));
        if fr.found {
          var newBbox := FlowBox(prevBbox.value, fr.next);
          prevBbox := Some(newBbox);
          prevGray := frame;
          ballHistory := Record(ballHistory, fr.next, maxHistory);
          var velocity := EstimateVelocity(ballHistory);
          lastBall := Some(NewTrack(BallId, newBbox, "0", velocity));
        }
      }
      tracks := if lastBall.Some? then [lastBall.value] else [];
    }
  }
}
