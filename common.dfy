/** Values shared by every component of the pipeline. */
module Common {

  /** Python's `None` or a value. */
  datatype Option<T> = None | Some(value: T)

  /** An (x, y) pair in pixel coordinates. */
  datatype Point = Point(x: real, y: real)

  /** A mean or cluster-centre colour: three channel values as floats. */
  datatype Colour = Colour(c0: real, c1: real, c2: real)

  /** A display colour: the tuple of three ints written into a track's `color`. */
  datatype Rgb = Rgb(c0: int, c1: int, c2: int)

  const Grey := Rgb(128, 128, 128)
  const Green := Rgb(0, 255, 0)
  const Yellow := Rgb(0, 255, 255)

  /**
   * A video frame. Only its shape is read by the modelled logic; the pixels
   * are passed on to the image oracles (optical flow, shirt colour).
   */
  datatype Image = Image(height: nat, width: nat, pixels: seq<Colour>)

  /**
   * A detector output dict `{'bbox', 'cls', 'conf'}`; `conf` is `None` when
   * the key is absent.
   */
  datatype Detection = Detection(bbox: seq<real>, cls: string, conf: Option<real>)

  /**
   * A track dict as it flows through the pipeline. The trackers fill `id`,
   * `bbox`, `cls` and `velocity`; the team assigner adds `team` and `color`;
   * the orchestrator adds `possessed_by` and `kicked` to the ball. A key that
   * has not been written yet is `None`.
   */
  datatype Track = Track(
    id: int,
    bbox: seq<real>,
    cls: string,
    velocity: Point,
    team: Option<int>,
    colour: Option<Rgb>,
    possessedBy: Option<int>,
    kicked: Option<bool>)

  /** A fresh tracker output: no team, colour or ball flags yet. */
  function NewTrack(id: int, bbox: seq<real>, cls: string, velocity: Point): Track
  {
    Track(id, bbox, cls, velocity, None, None, None, None)
  }

  /** Python's `int(r)` on a float: truncation toward zero. */
  function Trunc(r: real): (i: int)
    ensures 0.0 <= r ==> 0 <= i && i as real <= r < i as real + 1.0
    ensures r < 0.0 ==> i <= 0 && i as real - 1.0 < r <= i as real
  {
    if r >= 0.0 then r.Floor else -((-r).Floor)
  }
}
