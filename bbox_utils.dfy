/**
 * Geometry helpers on bounding boxes `[x1, y1, x2, y2]` and points.
 * Boxes are lists, as in the source, so the helpers that unpack exactly four
 * values require length 4.
 */
module BBoxUtils {
  import opened Common

  /** `bbox[2] - bbox[0]`, the only helper that indexes instead of unpacking. */
  function Width(b: seq<real>): (w: real)
    requires |b| >= 3
    ensures b[0] + w == b[2]
    ensures w >= 0.0 <==> b[0] <= b[2]
  {
    b[2] - b[0]
  }

  /** Vertical extent `y2 - y1` of a four-value box. */
  function Height(b: seq<real>): (h: real)
    requires |b| == 4
    ensures b[1] + h == b[3]
  {
    b[3] - b[1]
  }

  /** `get_bbox_area`: width times height; never negative for an ordered box. */
  function Area(b: seq<real>): (a: real)
    requires |b| == 4
    ensures a == Width(b) * Height(b)
    ensures b[0] <= b[2] && b[1] <= b[3] ==> a >= 0.0
    ensures b[0] == b[2] || b[1] == b[3] ==> a == 0.0
  {
    (b[2] - b[0]) * (b[3] - b[1])
  }

  /** `get_centre`: the point halfway between the two corners. */
  function Centre(b: seq<real>): (c: Point)
    requires |b| == 4
    ensures c.x - b[0] == b[2] - c.x && c.y - b[1] == b[3] - c.y
    ensures b[0] <= b[2] ==> b[0] <= c.x <= b[2]
    ensures b[1] <= b[3] ==> b[1] <= c.y <= b[3]
  {
    Point((b[0] + b[2]) / 2.0, (b[1] + b[3]) / 2.0)
  }

  /** The square of a real number. */
  function Square(r: real): real
  {
    r * r
  }

  /** A square is never negative. */
  lemma SquareNonNegative(r: real)
    ensures Square(r) >= 0.0
  {
    assert Square(r) == r * r;
  }

  /**
   * The square of `measure_distance(p, q)`. Every caller compares the
   * Euclidean distance with a threshold or with another distance, and for
   * non-negative values those comparisons agree with the squared ones.
   */
  function SquaredDistance(p: Point, q: Point): real
  {
    Square(p.x - q.x) + Square(p.y - q.y)
  }

  /** A product with a non-zero factor is zero only when the other factor is. */
  lemma ZeroProduct(a: real, b: real)
    requires a != 0.0 && a * b == 0.0
    ensures b == 0.0
  {
  }

  /** A square is zero only for zero. */
  lemma SquareZero(r: real)
    ensures Square(r) == 0.0 <==> r == 0.0
  {
    if Square(r) == 0.0 {
      assert r * r == 0.0;
      if r != 0.0 {
        ZeroProduct(r, r);
      }
    }
  }

  /** `measure_distance` is never negative and is zero exactly between a point and itself. */
  lemma DistanceNonNegative(p: Point, q: Point)
    ensures SquaredDistance(p, q) >= 0.0
    ensures SquaredDistance(p, q) == 0.0 <==> p == q
  {
    SquareNonNegative(p.x - q.x);
    SquareNonNegative(p.y - q.y);
    SquareZero(p.x - q.x);
    SquareZero(p.y - q.y);
  }

  /** `measure_distance` is symmetric. */
  lemma DistanceSymmetric(p: Point, q: Point)
    ensures SquaredDistance(p, q) == SquaredDistance(q, p)
  {
  }

  /** `measure_xy_distance`: the offset that moves `q` onto `p`. */
  function XyDistance(p: Point, q: Point): (d: Point)
    ensures q.x + d.x == p.x && q.y + d.y == p.y
  {
    Point(p.x - q.x, p.y - q.y)
  }

  /** Swapping the arguments of `measure_xy_distance` negates both components. */
  lemma XyDistanceAntisymmetric(p: Point, q: Point)
    ensures XyDistance(q, p) == Point(-XyDistance(p, q).x, -XyDistance(p, q).y)
  {
  }

  /** `get_foot_position`: the bottom centre, each coordinate cut by Python's `int`. */
  function FootPosition(b: seq<real>): (f: (int, int))
    requires |b| == 4
    ensures f.0 == Trunc(Centre(b).x) && f.1 == Trunc(b[3])
    ensures b[0] <= b[2] && 0.0 <= b[0] ==> b[0].Floor <= f.0 <= b[2].Floor
  {
    (Trunc((b[0] + b[2]) / 2.0), Trunc(b[3]))
  }
}
