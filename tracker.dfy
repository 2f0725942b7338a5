/**
 * `Tracker`, the DeepSort wrapper: it cleans the detector's dicts into
 * DeepSort's `([x, y, w, h], score, class)` inputs, skipping any it cannot
 * convert, and turns DeepSort's confirmed tracks into output dicts. DeepSort
 * itself (association, appearance embedding, track ageing) is an oracle: its
 * reply to the inputs is a parameter.
 */
module Tracker {
  import opened Common
  import opened Numerals

  /**
   * A dict entry that `float()` is applied to: missing (so the default is
   * used), a value `float()` accepts (its result), or one it rejects.
   */
  datatype Field = Absent | Numeric(value: real) | NotNumeric

  /** A detection dict as the wrapper sees it: `bbox` may be missing or of any length. */
  datatype RawDetection = RawDetection(bbox: Option<seq<real>>, cls: Field, conf: Field)

  /** One entry of `ds_inputs`: the box as left, top, width, height, the score and the class. */
  datatype DsInput = DsInput(ltwh: seq<real>, score: real, cls: int)

  /** What DeepSort reports about one track; `detClass` is `None` when the track has no `det_class`. */
  datatype DsTrack = DsTrack(confirmed: bool, ltrb: seq<real>, trackId: int, detClass: Option<int>)

  /** One output dict: id, box as corners, class as text. */
  datatype Output = Output(id: int, bbox: seq<real>, cls: string)

  /** `cls = int(float(det.get('cls', 2)))`: 2 when missing, truncated toward zero otherwise. */
  function ClassOf(f: Field): Option<int>
  {
    match f
    case Absent => Some(2)
    case Numeric(v) => Some(Trunc(v))
    case NotNumeric => None
  }

  /** `score = float(det.get('conf', 1.0))`. */
  function ScoreOf(f: Field): Option<real>
  {
    match f
    case Absent => Some(1.0)
    case Numeric(v) => Some(v)
    case NotNumeric => None
  }

  /**
   * The try block of the input loop: the converted entry, or `None` when it
   * raises and the detection is skipped. A kept entry starts at the box's
   * first corner and reaches its second one, and class 2 and score 1.0
   * stand in for missing values.
   */
  function Sanitize(d: RawDetection): (r: Option<DsInput>)
    ensures r.Some? <==> d.bbox.Some? && |d.bbox.value| == 4 && !d.cls.NotNumeric? && !d.conf.NotNumeric?
    ensures r.Some? ==>
      var b, x := d.bbox.value, r.value;
      && |x.ltwh| == 4 && x.ltwh[0] == b[0] && x.ltwh[1] == b[1]
      && x.ltwh[0] + x.ltwh[2] == b[2] && x.ltwh[1] + x.ltwh[3] == b[3]
      && x.cls == (if d.cls.Absent? then 2 else Trunc(d.cls.value))
      && x.score == (if d.conf.Absent? then 1.0 else d.conf.value)
  {
    if d.bbox.None? || |d.bbox.value| != 4 then None
    else
      var b := d.bbox.value;
      match (ClassOf(d.cls), ScoreOf(d.conf))
      case (Some(cls), Some(score)) => Some(DsInput([b[0], b[1], b[2] - b[0], b[3] - b[1]], score, cls))
      case _ => None
  }

  /** `ds_inputs` after the input loop has looked at `dets`. */
  function Inputs(dets: seq<RawDetection>): (r: seq<DsInput>)
    ensures |r| <= |dets|
  {
    if dets == [] then []
    else
      var n := |dets|;
      var pre := Inputs(dets[..n - 1]);
      match Sanitize(dets[n - 1])
      case Some(x) => pre + [x]
      case None => pre
  }

  /** Cleaning a concatenation cleans each part: the kept entries stay in their order. */
  lemma {:induction false} InputsAppend(a: seq<RawDetection>, b: seq<RawDetection>)
    ensures Inputs(a + b) == Inputs(a) + Inputs(b)
  {
    if b == [] {
      assert a + b == a;
    } else {
      var n := |b|;
      InputsAppend(a, b[..n - 1]);
      assert (a + b)[..|a + b| - 1] == a + b[..n - 1];
    }
  }

  /** A detection that cannot be converted adds nothing, wherever it sits. */
  lemma SkipMalformed(a: seq<RawDetection>, d: RawDetection, b: seq<RawDetection>)
    requires Sanitize(d).None?
    ensures Inputs(a + [d] + b) == Inputs(a + b)
  {
    InputsAppend(a + [d], b);
    InputsAppend(a, [d]);
    InputsAppend(a, b);
    assert [d][..0] == [];
  }

  /** When every detection converts, entry i comes from detection i. */
  lemma {:induction false} InputsAllValid(dets: seq<RawDetection>)
    requires forall i :: 0 <= i < |dets| ==> Sanitize(dets[i]).Some?
    ensures |Inputs(dets)| == |dets|
    ensures forall i :: 0 <= i < |dets| ==> Inputs(dets)[i] == Sanitize(dets[i]).value
  {
    if dets != [] {
      var n := |dets|;
      var pre := dets[..n - 1];
      assert forall i :: 0 <= i < n - 1 ==> pre[i] == dets[i];
      InputsAllValid(pre);
    }
  }

  /**
   * The class reported for the i-th track DeepSort returns: its
   * `det_class`, else the i-th input's class if there is one, else 2.
   */
  function TrackClass(t: DsTrack, i: nat, inputs: seq<DsInput>): int
  {
    match t.detClass
    case Some(c) => c
    case None => if i < |inputs| then inputs[i].cls else 2
  }

  /** The output dicts after the track loop has looked at `tracks`. */
  function Outputs(tracks: seq<DsTrack>, inputs: seq<DsInput>): (r: seq<Output>)
    requires forall i :: 0 <= i < |tracks| ==> |tracks[i].ltrb| == 4
    ensures |r| <= |tracks|
  {
    if tracks == [] then []
    else
      var n := |tracks|;
      var pre := Outputs(tracks[..n - 1], inputs);
      var t := tracks[n - 1];
      if !t.confirmed then pre
      else pre + [Output(t.trackId, t.ltrb, IntToString(TrackClass(t, n - 1, inputs)))]
  }

  /**
   * An output dict exists exactly for each confirmed track: it carries the
   * track's id and box, and the track's class as text.
   */
  lemma {:induction false} OutputsIff(tracks: seq<DsTrack>, inputs: seq<DsInput>, o: Output)
    requires forall i :: 0 <= i < |tracks| ==> |tracks[i].ltrb| == 4
    ensures o in Outputs(tracks, inputs) <==>
      exists i :: 0 <= i < |tracks| && tracks[i].confirmed &&
        o == Output(tracks[i].trackId, tracks[i].ltrb, IntToString(TrackClass(tracks[i], i, inputs)))
  {
    if tracks != [] {
      var n := |tracks|;
      var pre := tracks[..n - 1];
      OutputsIff(pre, inputs, o);
      assert forall i :: 0 <= i < n - 1 ==> pre[i] == tracks[i];
      if exists i :: 0 <= i < n && tracks[i].confirmed &&
          o == Output(tracks[i].trackId, tracks[i].ltrb, IntToString(TrackClass(tracks[i], i, inputs))) {
        var i :| 0 <= i < n && tracks[i].confirmed &&
          o == Output(tracks[i].trackId, tracks[i].ltrb, IntToString(TrackClass(tracks[i], i, inputs)));
        if i < n - 1 {
          assert pre[i] == tracks[i];
        }
      }
    }
  }

  /** The number of output dicts is the number of confirmed tracks. */
  function Confirmed(tracks: seq<DsTrack>): nat
  {
    if tracks == [] then 0
    else Confirmed(tracks[..|tracks| - 1]) + (if tracks[|tracks| - 1].confirmed then 1 else 0)
  }

  lemma {:induction false} OutputsCount(tracks: seq<DsTrack>, inputs: seq<DsInput>)
    requires forall i :: 0 <= i < |tracks| ==> |tracks[i].ltrb| == 4
    ensures |Outputs(tracks, inputs)| == Confirmed(tracks)
  {
    if tracks != [] {
      OutputsCount(tracks[..|tracks| - 1], inputs);
    }
  }

  /** The input loop: convert each detection, skipping those that raise. */
  method CollectInputs(detections: seq<RawDetection>) returns (sent: seq<DsInput>)
    ensures sent == Inputs(detections)
  {
    sent := [];
    var i := 0;
    while i < |detections|
      invariant 0 <= i <= |detections|
      invariant sent == Inputs(detections[..i])
    {
      var det := detections[i];
      assert detections[..i + 1][..i] == detections[..i];
      if det.bbox.Some? && |det.bbox.value| == 4 {
        var b := det.bbox.value;
        var cls := ClassOf(det.cls);
        var score := ScoreOf(det.conf);
        if cls.Some? && score.Some? {
          sent := sent + [DsInput([b[0], b[1], b[2] - b[0], b[3] - b[1]], score.value, cls.value)];
        }
      }
      i := i + 1;
    }
    assert detections[..|detections|] == detections;
  }

  /** The output loop: one dict per confirmed track. */
  method CollectOutputs(tracks: seq<DsTrack>, sent: seq<DsInput>) returns (out: seq<Output>)
    requires forall i :: 0 <= i < |tracks| ==> |tracks[i].ltrb| == 4
    ensures out == Outputs(tracks, sent)
  {
    out := [];
    var j := 0;
    while j < |tracks|
      invariant 0 <= j <= |tracks|
      invariant out == Outputs(tracks[..j], sent)
    {
      var t := tracks[j];
      assert tracks[..j + 1][..j] == tracks[..j];
      if t.confirmed {
        var cls := if t.detClass.Some? then t.detClass.value else if j < |sent| then sent[j].cls else 2;
        out := out + [Output(t.trackId, t.ltrb, IntToString(cls))];
      }
      j := j + 1;
    }
    assert tracks[..|tracks|] == tracks;
  }

  class Tracker {
    /** The settings DeepSort is built with. */
    const maxAge: int
    const nInit: int
    const maxCosineDistance: real

    /** `Tracker(max_age, n_init, max_cosine_distance)`: the arguments are ignored. */
    constructor(maxAge: int, nInit: int, maxCosineDistance: real)
      ensures this.maxAge == 5 && this.nInit == 1 && this.maxCosineDistance == 0.3
    {
      this.maxAge := 5;
      this.nInit := 1;
      this.maxCosineDistance := 0.3;
    }

    /**
     * `update(detections, frame)`: `sent` is what DeepSort receives and
     * `tracks` its reply; the result holds one dict per confirmed track.
     */
    method Update(detections: seq<RawDetection>, tracks: seq<DsTrack>) returns (sent: seq<DsInput>, out: seq<Output>)
      requires forall i :: 0 <= i < |tracks| ==> |tracks[i].ltrb| == 4
      ensures sent == Inputs(detections)
      ensures out == Outputs(tracks, sent)
    {
      sent := CollectInputs(detections);
      out := CollectOutputs(tracks, sent);
    }
  }
}
