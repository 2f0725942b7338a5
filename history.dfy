/**
 * Bounded position histories and the finite-difference velocity that both
 * ball trackers and both player trackers keep per track.
 */
module History {
  import opened Common

  /** Number of centres every tracker keeps per track. */
  const MaxHistory: nat := 5

  /**
   * The newest `n` entries: what `deque(maxlen=n)` holds after an append, and
   * what `lst[-n:]` keeps when the list has grown past `n`.
   */
  function KeepLast<T>(s: seq<T>, n: nat): (r: seq<T>)
    ensures |r| == if |s| <= n then |s| else n
    ensures forall i :: 0 <= i < |r| ==> r[i] == s[|s| - |r| + i]
  {
    if |s| <= n then s else s[|s| - n..]
  }

  /** `_estimate_velocity`: the last centre minus the one before it, or zero with fewer than two. */
  function EstimateVelocity(history: seq<Point>): (v: Point)
    ensures |history| < 2 ==> v == Point(0.0, 0.0)
    ensures |history| >= 2 ==>
      history[|history| - 2].x + v.x == history[|history| - 1].x &&
      history[|history| - 2].y + v.y == history[|history| - 1].y
  {
    if |history| < 2 then Point(0.0, 0.0)
    else
      var prev, curr := history[|history| - 2], history[|history| - 1];
      Point(curr.x - prev.x, curr.y - prev.y)
  }

  /** Recording a centre keeps at most five, the new one last. */
  lemma RecordBounded(h: seq<Point>, p: Point)
    ensures |KeepLast(h + [p], MaxHistory)| <= MaxHistory
    ensures |KeepLast(h + [p], MaxHistory)| >= 1
    ensures KeepLast(h + [p], MaxHistory)[|KeepLast(h + [p], MaxHistory)| - 1] == p
  {
    var s := h + [p];
    var r := KeepLast(s, MaxHistory);
    assert r[|r| - 1] == s[|s| - 1];
  }

  /**
   * After a centre is recorded, the velocity is the step from the previously
   * recorded centre, or zero when the track had no history.
   */
  lemma VelocityAfterRecord(h: seq<Point>, p: Point)
    ensures h == [] ==> EstimateVelocity(KeepLast(h + [p], MaxHistory)) == Point(0.0, 0.0)
    ensures h != [] ==> EstimateVelocity(KeepLast(h + [p], MaxHistory))
                        == Point(p.x - h[|h| - 1].x, p.y - h[|h| - 1].y)
  {
    var s := h + [p];
    var r := KeepLast(s, MaxHistory);
    if h != [] {
      assert |r| >= 2;
      assert r[|r| - 1] == s[|s| - 1] == p;
      assert r[|r| - 2] == s[|s| - 2] == h[|h| - 1];
    }
  }
}
