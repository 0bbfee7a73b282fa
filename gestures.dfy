/** The per-frame gesture predicates computed from a finger-state vector, and
    the index/middle pinch test (virtual_mouse.py, the "Gesture patterns" block
    and the click distance test). */
module Gestures {
  import opened Landmarks

  /** Pinch threshold in pixels between the index and middle fingertips. */
  const CLICK_DIST: int := 35

  /** Python's `sum(fingers)` on the five-entry vector. */
  function NumUp(f: seq<int>): int
    requires |f| == 5
  {
    f[0] + f[1] + f[2] + f[3] + f[4]
  }

  /** Thumb and pinky down, index, middle and ring up (exact match). */
  predicate ScrollPattern(f: seq<int>)
    requires |f| == 5
  {
    f[0] == 0 && f[1] == 1 && f[2] == 1 && f[3] == 1 && f[4] == 0
  }

  /** A fist: no finger up. */
  predicate HandClosed(f: seq<int>)
    requires |f| == 5
  {
    NumUp(f) == 0
  }

  /** An open hand: three or more fingers up. */
  predicate HandOpen(f: seq<int>)
    requires |f| == 5
  {
    NumUp(f) >= 3
  }

  /** `math.hypot(dx, dy) < CLICK_DIST`, decided on integers. */
  predicate Pinched(a: Point, b: Point) {
    var dx := b.x - a.x;
    var dy := b.y - a.y;
    dx * dx + dy * dy < CLICK_DIST * CLICK_DIST
  }

  /** A fist is exactly the all-down vector, the scroll pattern is exactly
      [0,1,1,1,0], and it is an open hand that is not closed. */
  lemma GestureShapes(f: seq<int>)
    requires IsFingerVector(f)
    ensures 0 <= NumUp(f) <= 5
    ensures HandClosed(f) <==> f == [0, 0, 0, 0, 0]
    ensures ScrollPattern(f) <==> f == [0, 1, 1, 1, 0]
    ensures ScrollPattern(f) ==> HandOpen(f) && !HandClosed(f)
  {
  }

  /** A closed hand is never an open hand. */
  lemma ClosedIsNotOpen(f: seq<int>)
    requires |f| == 5
    ensures HandClosed(f) ==> !HandOpen(f)
  {
  }

  /** For a nonnegative real, being below the click distance is the same as
      having a square below its square. */
  lemma BelowIffSquareBelow(d: real)
    requires d >= 0.0
    ensures d < CLICK_DIST as real <==> d * d < (CLICK_DIST * CLICK_DIST) as real
  {
    var c := CLICK_DIST as real;
    if d < c {
      assert d * d <= d * c;
      assert d * c < c * c;
    } else {
      assert d * d >= d * c;
      assert d * c >= c * c;
    }
  }

  /** The integer test agrees with the Euclidean distance: for the nonnegative
      real d whose square is dx*dx + dy*dy, the pinch holds iff d < CLICK_DIST. */
  lemma PinchedIffDistanceBelow(a: Point, b: Point, d: real)
    requires d >= 0.0
    requires d * d == ((b.x - a.x) * (b.x - a.x) + (b.y - a.y) * (b.y - a.y)) as real
    ensures Pinched(a, b) <==> d < CLICK_DIST as real
  {
    var n := (b.x - a.x) * (b.x - a.x) + (b.y - a.y) * (b.y - a.y);
    assert Pinched(a, b) <==> n < CLICK_DIST * CLICK_DIST;
    assert n < CLICK_DIST * CLICK_DIST <==> d * d < (CLICK_DIST * CLICK_DIST) as real;
    BelowIffSquareBelow(d);
  }
}
