/**
 * The gaze window of Eyetracking/FixationDetection.py: the 10-slot history of gaze
 * points and the fixation and saccade tests run over it.
 *
 * Both tests compare `sqrt(S)` with 0.7, where `S` is a sum of squared integer
 * distances. The square root is increasing on the non-negative reals, so the tests
 * are `S < 0.49` and `S > 0.49`; as `S` is a natural number these hold iff `S == 0`
 * and iff `S != 0`: exact integer predicates, with no real square root.
 */
module GazeWindow {

  /** A gaze coordinate in image pixels. */
  type Point = (int, int)

  /** `eye_tracking_history_size`. */
  const HistorySize: nat := 10

  /** `eye_tracking_threshold`. */
  const EyeTrackingThreshold: real := 0.7

  /** The y-flip against `image_shape[1]`; x is kept. */
  function FlipY(p: Point, height: int): (q: Point)
  {
    (p.0, height - p.1)
  }

  lemma FlipYInvolution(p: Point, height: int)
    ensures FlipY(p, height).0 == p.0 && FlipY(p, height).1 + p.1 == height
    ensures FlipY(FlipY(p, height), height) == p
  {
  }

  /** The last `n` elements of `s` (all of them when there are fewer). */
  function Recent(s: seq<Point>, n: nat): (r: seq<Point>)
    ensures |r| == if |s| <= n then |s| else n
  {
    if |s| <= n then s else s[|s| - n..]
  }

  /**
   * `gaze_history.append(p)` on `deque(maxlen=10)`: when full, the oldest point is
   * dropped. The result is always the ten most recent points in arrival order.
   */
  function Append(h: seq<Point>, p: Point): (r: seq<Point>)
    requires |h| <= HistorySize
    ensures 0 < |r| <= HistorySize && r[|r| - 1] == p
    ensures |h| < HistorySize ==> |r| == |h| + 1
    ensures |h| == HistorySize ==> |r| == HistorySize && r[..|r| - 1] == h[1..]
    ensures r == Recent(h + [p], HistorySize)
  {
    if |h| < HistorySize then h + [p] else h[1..] + [p]
  }

  /** Keeping the recent tail twice is the same as keeping it once over the whole. */
  lemma RecentAppend(s: seq<Point>, p: Point, n: nat)
    ensures Recent(Recent(s, n) + [p], n) == Recent(s + [p], n)
  {
  }

  /** Appending each point of `ps` in turn, starting from `h`. */
  function AppendAll(h: seq<Point>, ps: seq<Point>): (r: seq<Point>)
    requires |h| <= HistorySize
    ensures |r| <= HistorySize
    decreases |ps|
  {
    if ps == [] then h else AppendAll(Append(h, ps[0]), ps[1..])
  }

  /** However many points arrive, the history holds the ten most recent in order. */
  lemma {:induction false} AppendAllKeepsMostRecent(h: seq<Point>, ps: seq<Point>)
    requires |h| <= HistorySize
    ensures AppendAll(h, ps) == Recent(h + ps, HistorySize)
    decreases |ps|
  {
    if ps == [] {
      assert h + ps == h;
    } else {
      var h1 := Append(h, ps[0]);
      AppendAllKeepsMostRecent(h1, ps[1..]);
      RecentAppendMany(h + [ps[0]], ps[1..], HistorySize);
      assert h + [ps[0]] + ps[1..] == h + ps;
    }
  }

  /** Keeping the recent tail before appending more points changes nothing. */
  lemma RecentAppendMany(s: seq<Point>, t: seq<Point>, n: nat)
    ensures Recent(Recent(s, n) + t, n) == Recent(s + t, n)
  {
  }

  /** The squared distance between two points. */
  function SquaredDistance(p: Point, a: Point): (d: int)
    ensures d >= 0
    ensures d == 0 <==> p == a
  {
    var dx := p.0 - a.0;
    var dy := p.1 - a.1;
    SquareFacts(dx);
    SquareFacts(dy);
    dx * dx + dy * dy
  }

  lemma SquareFacts(d: int)
    ensures d * d >= 0
    ensures d * d == 0 <==> d == 0
  {
  }

  /**
   * `np.sum([(x - a.x)**2 + (y - a.y)**2 for x, y in h])`: zero exactly when every
   * point of the window equals the anchor.
   */
  function Displacement(h: seq<Point>, anchor: Point): (s: int)
    ensures s >= 0
    ensures s == 0 <==> forall i :: 0 <= i < |h| ==> h[i] == anchor
  {
    if h == [] then 0
    else
      var rest := Displacement(h[1..], anchor);
      assert forall i :: 1 <= i < |h| ==> h[i] == h[1..][i - 1];
      SquaredDistance(h[0], anchor) + rest
  }

  /**
   * The fixation test, `sqrt(displacement from the oldest point) < 0.7`: every
   * point of the window equals the oldest one.
   */
  function Fixation(h: seq<Point>): (fires: bool)
    requires |h| > 0
    ensures fires <==> (Displacement(h, h[0]) as real) < EyeTrackingThreshold * EyeTrackingThreshold
    ensures fires <==> forall i :: 0 <= i < |h| ==> h[i] == h[0]
  {
    Displacement(h, h[0]) == 0
  }

  /** `gaze_history[-1]`. */
  function Newest(h: seq<Point>): Point
    requires |h| > 0
  {
    h[|h| - 1]
  }

  /**
   * The saccade test, `sqrt(displacement from the newest point) > 0.7`: some point
   * of the window differs from the newest one.
   */
  function Saccade(h: seq<Point>): (fires: bool)
    requires |h| > 0
    ensures fires <==> (Displacement(h, Newest(h)) as real) > EyeTrackingThreshold * EyeTrackingThreshold
    ensures fires <==> exists i :: 0 <= i < |h| && h[i] != Newest(h)
  {
    Displacement(h, Newest(h)) != 0
  }

  /** Squaring is monotone on non-negative reals. */
  lemma MulMono(a: real, b: real)
    requires 0.0 <= a <= b
    ensures a * a <= b * b
  {
    assert a * a <= a * b;
    assert a * b <= b * b;
  }

  /**
   * For the square root `r` of a whole-number displacement `d`, comparing `r` with
   * 0.7 decides whether `d` is zero.
   */
  lemma {:induction false} RootAgainstThreshold(r: real, d: int)
    requires d >= 0 && r >= 0.0 && r * r == d as real
    ensures r < EyeTrackingThreshold <==> d == 0
    ensures r > EyeTrackingThreshold <==> d != 0
  {
    if r < EyeTrackingThreshold {
      MulMono(r, EyeTrackingThreshold);
    } else {
      MulMono(EyeTrackingThreshold, r);
    }
    if r <= EyeTrackingThreshold {
      MulMono(r, EyeTrackingThreshold);
    }
  }

  /** `sqrt(np.sum(...)) < 0.7` fires exactly when `Fixation` does. */
  lemma FixationByRoot(h: seq<Point>, r: real)
    requires |h| > 0 && r >= 0.0 && r * r == Displacement(h, h[0]) as real
    ensures r < EyeTrackingThreshold <==> Fixation(h)
  {
    RootAgainstThreshold(r, Displacement(h, h[0]));
  }

  /** `sqrt(np.sum(...)) > 0.7` fires exactly when `Saccade` does. */
  lemma SaccadeByRoot(h: seq<Point>, r: real)
    requires |h| > 0 && r >= 0.0 && r * r == Displacement(h, Newest(h)) as real
    ensures r > EyeTrackingThreshold <==> Saccade(h)
  {
    RootAgainstThreshold(r, Displacement(h, Newest(h)));
  }

  /** On a window, exactly one of fixation and saccade fires. */
  lemma FixationXorSaccade(h: seq<Point>)
    requires |h| > 0
    ensures Fixation(h) <==> !Saccade(h)
  {
  }
}
