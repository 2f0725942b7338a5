/**
 * `PitchDetector.detect`: from the straight lines found in a frame it picks
 * the pitch's top and bottom edges (horizontal lines) and its left, halfway
 * and right lines (vertical lines about as tall as the pitch). Edge and line
 * finding (Canny, HoughLinesP) is an oracle whose reply is the `lines`
 * parameter, and so is each line's angle.
 */
module PitchDetector {
  import opened Common

  /** A line as HoughLinesP reports it, from `(x1, y1)` to `(x2, y2)` in whole pixels. */
  datatype Segment = Segment(x1: int, y1: int, x2: int, y2: int)

  /** The dict `detect` returns; each boundary is a pixel coordinate or `None`. */
  datatype Boundaries = Boundaries(left: Option<int>, right: Option<int>, top: Option<int>,
                                   bottom: Option<int>, halfway: Option<int>)

  function Abs(r: real): (a: real)
    ensures a >= 0.0 && (a == r || a == -r)
  {
    if r < 0.0 then -r else r
  }

  /** A line within 30 degrees of the horizontal. */
  predicate IsHorizontal(angle: real)
  {
    Abs(angle) < 30.0
  }

  /** A line within 30 degrees of the vertical. */
  predicate IsVertical(angle: real)
  {
    Abs(angle) > 60.0
  }

  /** The lines of `lines` that `keep` accepts, in order. */
  function Filter(lines: seq<Segment>, keep: Segment -> bool): (r: seq<Segment>)
    ensures |r| <= |lines|
  {
    if lines == [] then []
    else
      var n := |lines|;
      var pre := Filter(lines[..n - 1], keep);
      if keep(lines[n - 1]) then pre + [lines[n - 1]] else pre
  }

  /** A line is kept exactly when it is one of `lines` and `keep` accepts it. */
  lemma {:induction false} FilterIff(lines: seq<Segment>, keep: Segment -> bool, l: Segment)
    ensures l in Filter(lines, keep) <==> l in lines && keep(l)
  {
    if lines != [] {
      var n := |lines|;
      FilterIff(lines[..n - 1], keep, l);
      assert l in lines <==> l in lines[..n - 1] || l == lines[n - 1];
    }
  }

  function Horizontal(angle: Segment -> real): Segment -> bool
  {
    l => IsHorizontal(angle(l))
  }

  function Vertical(angle: Segment -> real): Segment -> bool
  {
    l => IsVertical(angle(l))
  }

  /**
   * Every line is sorted as horizontal, as vertical, or dropped: a line
   * lands in the horizontal list exactly when it is within 30 degrees of
   * the horizontal, in the vertical list exactly when it is within 30
   * degrees of the vertical, and never in both.
   */
  lemma Classified(lines: seq<Segment>, angle: Segment -> real, l: Segment)
    ensures l in Filter(lines, Horizontal(angle)) <==> l in lines && Abs(angle(l)) < 30.0
    ensures l in Filter(lines, Vertical(angle)) <==> l in lines && Abs(angle(l)) > 60.0
    ensures !(l in Filter(lines, Horizontal(angle)) && l in Filter(lines, Vertical(angle)))
  {
    FilterIff(lines, Horizontal(angle), l);
    FilterIff(lines, Vertical(angle), l);
  }

  /** The smallest of a non-empty list of numbers. */
  function MinOf(xs: seq<real>): (m: real)
    requires xs != []
    ensures m in xs && forall i :: 0 <= i < |xs| ==> m <= xs[i]
  {
    if |xs| == 1 then xs[0]
    else
      var rest := MinOf(xs[..|xs| - 1]);
      assert forall i :: 0 <= i < |xs| - 1 ==> xs[..|xs| - 1][i] == xs[i];
      if xs[|xs| - 1] < rest then xs[|xs| - 1] else rest
  }

  /** The largest of a non-empty list of numbers. */
  function MaxOf(xs: seq<real>): (m: real)
    requires xs != []
    ensures m in xs && forall i :: 0 <= i < |xs| ==> xs[i] <= m
  {
    if |xs| == 1 then xs[0]
    else
      var rest := MaxOf(xs[..|xs| - 1]);
      assert forall i :: 0 <= i < |xs| - 1 ==> xs[..|xs| - 1][i] == xs[i];
      if rest < xs[|xs| - 1] then xs[|xs| - 1] else rest
  }

  /** The smallest of a non-empty list of whole numbers. */
  function MinInt(xs: seq<int>): (m: int)
    requires xs != []
    ensures m in xs && forall i :: 0 <= i < |xs| ==> m <= xs[i]
  {
    if |xs| == 1 then xs[0]
    else
      var rest := MinInt(xs[..|xs| - 1]);
      assert forall i :: 0 <= i < |xs| - 1 ==> xs[..|xs| - 1][i] == xs[i];
      if xs[|xs| - 1] < rest then xs[|xs| - 1] else rest
  }

  /** The largest of a non-empty list of whole numbers. */
  function MaxInt(xs: seq<int>): (m: int)
    requires xs != []
    ensures m in xs && forall i :: 0 <= i < |xs| ==> xs[i] <= m
  {
    if |xs| == 1 then xs[0]
    else
      var rest := MaxInt(xs[..|xs| - 1]);
      assert forall i :: 0 <= i < |xs| - 1 ==> xs[..|xs| - 1][i] == xs[i];
      if rest < xs[|xs| - 1] then xs[|xs| - 1] else rest
  }

  /** The height of a line's midpoint. */
  function MidY(l: Segment): real
  {
    (l.y1 + l.y2) as real / 2.0
  }

  /** `y_mids`: the midpoint heights of the horizontal lines. */
  function YMids(ls: seq<Segment>): (r: seq<real>)
    ensures |r| == |ls| && forall i :: 0 <= i < |ls| ==> r[i] == MidY(ls[i])
  {
    seq(|ls|, i requires 0 <= i < |ls| => MidY(ls[i]))
  }

  /** The top and bottom edges found among the horizontal lines. */
  datatype Span = Span(top: int, bottom: int)

  /** `int()` never reverses the order of two numbers. */
  lemma TruncMonotone(a: real, b: real)
    requires a <= b
    ensures Trunc(a) <= Trunc(b)
  {
  }

  /**
   * The top edge is the highest horizontal midpoint and the bottom edge the
   * lowest, each through `int()`; there is none without horizontal lines,
   * and the top is never below the bottom.
   */
  function PitchSpan(horizontal: seq<Segment>): (r: Option<Span>)
    ensures r.None? <==> horizontal == []
    ensures r.Some? ==> r.value.top <= r.value.bottom
    ensures r.Some? ==> forall i :: 0 <= i < |horizontal| ==>
      r.value.top <= Trunc(MidY(horizontal[i])) <= r.value.bottom
  {
    if horizontal == [] then None
    else
      var ys := YMids(horizontal);
      TruncMonotone(MinOf(ys), MaxOf(ys));
      assert forall i :: 0 <= i < |horizontal| ==> MinOf(ys) <= ys[i] <= MaxOf(ys);
      forall i | 0 <= i < |horizontal|
        ensures Trunc(MinOf(ys)) <= Trunc(ys[i]) <= Trunc(MaxOf(ys))
      {
        TruncMonotone(MinOf(ys), ys[i]);
        TruncMonotone(ys[i], MaxOf(ys));
      }
      Some(Span(Trunc(MinOf(ys)), Trunc(MaxOf(ys))))
  }

  /** `line_height`: how far a line reaches up or down. */
  function LineHeight(l: Segment): (h: int)
    ensures h >= 0
  {
    if l.y1 >= l.y2 then l.y1 - l.y2 else l.y2 - l.y1
  }

  /** A vertical line whose height is within 15% of the pitch's height. */
  function SpansPitch(s: Span): Segment -> bool
  {
    l => var pitchHeight := s.bottom - s.top;
         Abs((LineHeight(l) - pitchHeight) as real) < 0.15 * pitchHeight as real
  }

  /** The verticals kept as pitch lines: none without a top and bottom. */
  function ValidVerticals(vertical: seq<Segment>, span: Option<Span>): seq<Segment>
  {
    match span
    case None => []
    case Some(s) => Filter(vertical, SpansPitch(s))
  }

  /** The horizontal middle of a line, through `int()`. */
  function XMid(l: Segment): int
  {
    Trunc((l.x1 + l.x2) as real / 2.0)
  }

  /** `x_mids`: the middles of the kept verticals. */
  function XMids(ls: seq<Segment>): (r: seq<int>)
    ensures |r| == |ls| && forall i :: 0 <= i < |ls| ==> r[i] == XMid(ls[i])
  {
    seq(|ls|, i requires 0 <= i < |ls| => XMid(ls[i]))
  }

  /** The left, halfway and right lines chosen, and the new `previous_right`. */
  datatype Choice = Choice(left: Option<int>, halfway: Option<int>, right: Option<int>, previousRight: Option<int>)

  /**
   * Choosing among the vertical middles: the first time, the leftmost is the
   * left line and the rightmost the halfway line, which is remembered; later,
   * a rightmost line beyond the remembered one becomes the right line, with
   * the remembered one as the left line; otherwise as the first time, but
   * nothing is remembered.
   */
  function Choose(previousRight: Option<int>, xMids: seq<int>): Choice
  {
    if xMids == [] then Choice(None, None, None, previousRight)
    else if previousRight.None? then
      Choice(Some(MinInt(xMids)), Some(MaxInt(xMids)), None, Some(MaxInt(xMids)))
    else
      var currentMax := MaxInt(xMids);
      if currentMax > previousRight.value then
        Choice(previousRight, None, Some(currentMax), Some(currentMax))
      else Choice(Some(MinInt(xMids)), Some(MaxInt(xMids)), None, previousRight)
  }

  /**
   * The remembered right line is the rightmost vertical middle seen so far:
   * it becomes the largest of the old one and this call's middles, and
   * stays when there are none. A halfway and a right line are never
   * reported together; a halfway line is never left of the left line and a
   * right line is always right of it.
   */
  lemma ChooseSpec(previousRight: Option<int>, xMids: seq<int>)
    ensures var c := Choose(previousRight, xMids);
      && (xMids == [] ==> c.previousRight == previousRight)
      && (xMids != [] ==>
            c.previousRight.Some? && c.previousRight.value in xMids + (if previousRight.Some? then [previousRight.value] else [])
            && (forall i :: 0 <= i < |xMids| ==> xMids[i] <= c.previousRight.value)
            && (previousRight.Some? ==> previousRight.value <= c.previousRight.value))
      && !(c.halfway.Some? && c.right.Some?)
      && (c.halfway.Some? ==> c.left.Some? && c.left.value <= c.halfway.value)
      && (c.right.Some? ==> c.left.Some? && c.left.value < c.right.value && c.previousRight == c.right)
  {
    if xMids != [] {
      assert MinInt(xMids) <= xMids[0] <= MaxInt(xMids);
    }
  }

  /** What one call yields: the boundaries and the new `previous_right`. */
  datatype Outcome = Outcome(boundaries: Boundaries, previousRight: Option<int>)

  /** `detect(frame)` for the lines found in the frame. */
  function Detected(previousRight: Option<int>, lines: seq<Segment>, angle: Segment -> real): Outcome
  {
    var span := PitchSpan(Filter(lines, Horizontal(angle)));
    var c := Choose(previousRight, XMids(ValidVerticals(Filter(lines, Vertical(angle)), span)));
    Outcome(Boundaries(c.left, c.right, if span.Some? then Some(span.value.top) else None,
                       if span.Some? then Some(span.value.bottom) else None, c.halfway),
            c.previousRight)
  }

  /**
   * Without a horizontal line nothing is found: every boundary is `None`
   * and the remembered right line stays.
   */
  lemma NoHorizontalNoPitch(previousRight: Option<int>, lines: seq<Segment>, angle: Segment -> real)
    requires forall i :: 0 <= i < |lines| ==> !IsHorizontal(angle(lines[i]))
    ensures Detected(previousRight, lines, angle) == Outcome(Boundaries(None, None, None, None, None), previousRight)
  {
    if Filter(lines, Horizontal(angle)) != [] {
      var l := Filter(lines, Horizontal(angle))[0];
      FilterIff(lines, Horizontal(angle), l);
      assert false;
    }
  }

  /**
   * Once set, the remembered right line never moves left, and it is right
   * of or on every vertical middle of this call.
   */
  lemma PreviousRightMonotone(previousRight: Option<int>, lines: seq<Segment>, angle: Segment -> real)
    ensures var o := Detected(previousRight, lines, angle);
      && (previousRight.Some? ==> o.previousRight.Some? && previousRight.value <= o.previousRight.value)
      && (o.boundaries.right.Some? ==> o.previousRight == o.boundaries.right)
      && (o.boundaries.top.Some? <==> o.boundaries.bottom.Some?)
      && (o.boundaries.top.Some? ==> o.boundaries.top.value <= o.boundaries.bottom.value)
  {
    var span := PitchSpan(Filter(lines, Horizontal(angle)));
    ChooseSpec(previousRight, XMids(ValidVerticals(Filter(lines, Vertical(angle)), span)));
  }

  /** The classification loop: each line goes to the horizontal list, the vertical list, or neither. */
  method SplitLines(lines: seq<Segment>, angle: Segment -> real) returns (horizontal: seq<Segment>, vertical: seq<Segment>)
    ensures horizontal == Filter(lines, Horizontal(angle))
    ensures vertical == Filter(lines, Vertical(angle))
  {
    horizontal, vertical := [], [];
    var i := 0;
    while i < |lines|
      invariant 0 <= i <= |lines|
      invariant horizontal == Filter(lines[..i], Horizontal(angle))
      invariant vertical == Filter(lines[..i], Vertical(angle))
    {
      var l := lines[i];
      assert lines[..i + 1][..i] == lines[..i];
      var a := angle(l);
      if Abs(a) < 30.0 {
        horizontal := horizontal + [l];
      } else if Abs(a) > 60.0 {
        vertical := vertical + [l];
      }
      i := i + 1;
    }
    assert lines[..|lines|] == lines;
  }

  /** The loop keeping the verticals whose height is within 15% of the pitch's. */
  method KeepSpanning(vertical: seq<Segment>, span: Span) returns (valid: seq<Segment>)
    ensures valid == Filter(vertical, SpansPitch(span))
  {
    var pitchHeight := span.bottom - span.top;
    valid := [];
    var j := 0;
    while j < |vertical|
      invariant 0 <= j <= |vertical|
      invariant valid == Filter(vertical[..j], SpansPitch(span))
    {
      var l := vertical[j];
      assert vertical[..j + 1][..j] == vertical[..j];
      if Abs((LineHeight(l) - pitchHeight) as real) < 0.15 * pitchHeight as real {
        valid := valid + [l];
      }
      j := j + 1;
    }
    assert vertical[..|vertical|] == vertical;
  }

  class PitchDetector {
    /** The last dict returned, `None` before the first call. */
    var lastLines: Option<Boundaries>
    const cacheInterval: int
    var frameCount: int
    var previousRight: Option<int>

    constructor()
      ensures lastLines.None? && cacheInterval == 30 && frameCount == 0 && previousRight.None?
    {
      lastLines := None;
      cacheInterval := 30;
      frameCount := 0;
      previousRight := None;
    }

    /**
     * `detect(frame)`, where `lines` is what HoughLinesP finds (none is an
     * empty list) and `angle` gives each line's angle in degrees.
     */
    method Detect(lines: seq<Segment>, angle: Segment -> real) returns (b: Boundaries)
      modifies this
      ensures frameCount == old(frameCount) + 1
      ensures Outcome(b, previousRight) == Detected(old(previousRight), lines, angle)
      ensures lastLines == Some(b)
    {
      frameCount := frameCount + 1;
      var horizontal, vertical := SplitLines(lines, angle);

      var top, bottom := None, None;
      if horizontal != [] {
        var yMids := YMids(horizontal);
        top := Some(Trunc(MinOf(yMids)));
        bottom := Some(Trunc(MaxOf(yMids)));
      }

      var valid := [];
      if vertical != [] && top.Some? && bottom.Some? {
        valid := KeepSpanning(vertical, Span(top.value, bottom.value));
      }
      assert valid == ValidVerticals(vertical, PitchSpan(horizontal));

      var xMids := XMids(valid);
      var left, halfway, right := None, None, None;
      if xMids != [] {
        if previousRight.None? {
          left := Some(MinInt(xMids));
          halfway := Some(MaxInt(xMids));
          previousRight := halfway;
        } else {
          var currentMax := MaxInt(xMids);
          if currentMax > previousRight.value {
            left := previousRight;
            right := Some(currentMax);
            halfway := None;
            previousRight := Some(currentMax);
          } else {
            left := Some(MinInt(xMids));
            halfway := Some(MaxInt(xMids));
          }
        }
      }

      b := Boundaries(left, right, top, bottom, halfway);
      lastLines := Some(b);
    }
  }
}
