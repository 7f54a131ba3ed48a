/** Plane geometry used by the stepper and the scenario generators: points
    of the 2-D world, axis-aligned intervals and rectangles, and distance
    tests. Every `np.linalg.norm(v) <= r` of the source is written as the
    square comparison `Within(v, r)`, which is equivalent for every real `r`
    (lemma `WithinIsNormTest`) and needs no square root. */
module Geometry {
  import opened Common

  datatype Point = Point(x: real, y: real)

  const ORIGIN := Point(0.0, 0.0)

  function Add(p: Point, q: Point): Point {
    Point(p.x + q.x, p.y + q.y)
  }

  function Sub(p: Point, q: Point): Point {
    Point(p.x - q.x, p.y - q.y)
  }

  function Scale(k: real, p: Point): Point {
    Point(k * p.x, k * p.y)
  }

  function SqNorm(v: Point): (r: real)
    ensures r >= 0.0
  {
    SquareNonNegative(v.x);
    SquareNonNegative(v.y);
    v.x * v.x + v.y * v.y
  }

  lemma SquareNonNegative(t: real)
    ensures t * t >= 0.0
  {
    if t < 0.0 {
      MulMonotone(t, 0.0, -t);
      assert t * (-t) <= 0.0;
    } else {
      MulMonotone(0.0, t, t);
    }
  }

  lemma MulPositive(a: real, b: real)
    requires a > 0.0 && b > 0.0
    ensures a * b > 0.0
  {
  }

  lemma MulMonotone(a: real, b: real, c: real)
    requires a <= b && c >= 0.0
    ensures a * c <= b * c
  {
    assert b * c - a * c == (b - a) * c;
  }

  function SqDist(p: Point, q: Point): real {
    SqNorm(Sub(p, q))
  }

  /** `np.linalg.norm(v) <= r`. */
  predicate Within(v: Point, r: real) {
    r >= 0.0 && SqNorm(v) <= r * r
  }

  /** `Within` is the Euclidean-norm test: for the norm `d` of `v`
      (the non-negative root of its squared norm), `Within(v, r)` holds
      exactly when `d <= r`. */
  lemma WithinIsNormTest(v: Point, r: real, d: real)
    requires d >= 0.0 && d * d == SqNorm(v)
    ensures Within(v, r) <==> d <= r
  {
    if r >= 0.0 {
      if d <= r {
        MulMonotone(d, r, d);
        MulMonotone(d, r, r);
      } else {
        MulPositive(d - r, d + r);
        assert d * d - r * r == (d - r) * (d + r);
      }
    }
  }

  /** A closed interval `(low, high)` of the source's constraint tuples. */
  datatype Interval = Interval(low: real, high: real)

  predicate InInterval(t: real, iv: Interval) {
    iv.low <= t <= iv.high
  }

  /** `low - eps <= t <= high + eps`: the interval widened by `eps` on both sides. */
  predicate InWidened(t: real, iv: Interval, eps: real) {
    iv.low - eps <= t <= iv.high + eps
  }

  /** A rectangle `((xlow, xhigh), (ylow, yhigh))`. */
  datatype Rect = Rect(xs: Interval, ys: Interval)

  predicate InRect(p: Point, r: Rect) {
    InInterval(p.x, r.xs) && InInterval(p.y, r.ys)
  }

  /** The corner `(xlow, ylow)` and the opposite corner `(xhigh, yhigh)`:
      the `low` and `high` arguments that `np_random.uniform(*zip(*rect))` receives. */
  function LowCorner(r: Rect): Point {
    Point(r.xs.low, r.ys.low)
  }

  function HighCorner(r: Rect): Point {
    Point(r.xs.high, r.ys.high)
  }

  /** The world square `[-1, 1] x [-1, 1]` from which candidate positions are drawn. */
  const WORLD := Rect(Interval(-1.0, 1.0), Interval(-1.0, 1.0))

  /** Two rectangles overlap when their closed intervals meet on both axes. */
  predicate Overlap(a: Rect, b: Rect) {
    a.xs.low <= b.xs.high && b.xs.low <= a.xs.high &&
    a.ys.low <= b.ys.high && b.ys.low <= a.ys.high
  }

  predicate Proper(r: Rect) {
    r.xs.low <= r.xs.high && r.ys.low <= r.ys.high
  }

  lemma OverlapIsSharedPoint(a: Rect, b: Rect)
    requires Proper(a) && Proper(b)
    ensures Overlap(a, b) <==> exists p :: InRect(p, a) && InRect(p, b)
  {
    if Overlap(a, b) {
      var p := Point(if a.xs.low <= b.xs.low then b.xs.low else a.xs.low,
                     if a.ys.low <= b.ys.low then b.ys.low else a.ys.low);
      assert InRect(p, a) && InRect(p, b);
    }
  }

  /** Position and velocity of one entity (`state.p_pos`, `state.p_vel`). */
  datatype State = State(pos: Point, vel: Point)

  const AT_REST := State(ORIGIN, ORIGIN)

  /** The observation of the older scenarios: `np.concatenate((p_pos, p_vel))`.
      It is four numbers and loses nothing of the state. */
  function KinematicObservation(s: State): (r: seq<real>)
    ensures |r| == 4
    ensures StateOfObservation(r) == Some(s)
  {
    [s.pos.x, s.pos.y, s.vel.x, s.vel.y]
  }

  /** Reads a state back from a four-number observation. */
  function StateOfObservation(o: seq<real>): (r: Option<State>)
    ensures r.Some? <==> |o| == 4
  {
    if |o| == 4 then Some(State(Point(o[0], o[1]), Point(o[2], o[3]))) else None
  }

  /** Every four-number vector is the observation of exactly one state. */
  lemma {:induction false} ObservationOfDecoded(o: seq<real>)
    requires |o| == 4
    ensures KinematicObservation(StateOfObservation(o).value) == o
  {
    var s := StateOfObservation(o).value;
    assert KinematicObservation(s) == [o[0], o[1], o[2], o[3]];
  }
}
