/** The procedural scenario generator of signal8/signal8.py: building the
    world of agents, goals and obstacles, choosing random start positions
    for them that keep clear of the problem instance's obstacle regions, and
    the ground agent's observation vector.

    The problem instance (`instance_constr`) is either a list of rectangles
    `((xlow, xhigh), (ylow, yhigh))` or, for the instance named 'corners', a
    list of triangles given by their vertices. The function that supplies it
    (`get_problem_instance`) is not part of this model, so an instance is a
    parameter of `World.ResetWorld`. Point-in-triangle tests
    (`matplotlib.path.Path.contains_points`) are the parameter `contains`. */
module Signal8Scenario {
  import opened Common
  import opened Geometry
  import opened RandomSource

  const LARGE_OBSTACLE_SIZE: real := 0.1
  const SMALL_OBSTACLE_SIZE: real := 0.01
  const MAX_AGENTS := 2
  const MAX_LARGE_OBSTACLES := 4

  datatype Instance =
    | Rectangles(rects: seq<Rect>)
    | Corners(triangles: seq<seq<Point>>)

  /** `len(world.instance_constr)`. */
  function ConstraintCount(inst: Instance): nat {
    match inst
    case Rectangles(rects) => |rects|
    case Corners(triangles) => |triangles|
  }

  /** Every triangle path has the two vertices its centroid needs. */
  predicate WellFormed(inst: Instance) {
    inst.Corners? ==> forall k :: 0 <= k < |inst.triangles| ==> |inst.triangles[k]| >= 2
  }

  /** `path.contains_points(point)` for the path with the given vertices. */
  type Containment = (seq<Point>, Point) -> bool

  /** The argument checks of `raw_env.__init__`: at most two agents and at
      most four large obstacles, each violation a `ValueError`. */
  function CheckLimits(numAgents: int, numLarge: int): (r: Option<PyError>)
    ensures r == None <==> numAgents <= MAX_AGENTS && numLarge <= MAX_LARGE_OBSTACLES
    ensures r.Some? ==> r.value == ValueError
  {
    if numAgents > MAX_AGENTS then Some(ValueError)
    else if numLarge > MAX_LARGE_OBSTACLES then Some(ValueError)
    else None
  }

  // ---------------------------------------------------------------------
  // Drawing candidate positions

  /** The `k`-th candidate `uniform(-1, +1, 2)` of a stream of unit draws. */
  function Candidate(draws: seq<real>, k: nat): (p: Point)
    requires 2 * k + 1 < |draws|
    ensures UnitDraws(draws) ==> InRect(p, WORLD)
  {
    PointFrom(Point(-1.0, -1.0), Point(1.0, 1.0), draws[2 * k], draws[2 * k + 1])
  }

  /** The index of the first candidate, from the `from`-th on, that satisfies
      `cond`; `None` when no remaining candidate does. */
  function FirstAcceptedFrom(draws: seq<real>, cond: Point -> bool, from: nat): (r: Option<nat>)
    ensures r.Some? ==>
              from <= r.value && 2 * r.value + 1 < |draws| &&
              cond(Candidate(draws, r.value)) &&
              forall k :: from <= k < r.value ==> !cond(Candidate(draws, k))
    ensures r.None? ==>
              forall k :: from <= k && 2 * k + 1 < |draws| ==> !cond(Candidate(draws, k))
    decreases |draws| - 2 * from
  {
    if 2 * from + 1 >= |draws| then None
    else if cond(Candidate(draws, from)) then Some(from)
    else FirstAcceptedFrom(draws, cond, from + 1)
  }

  function FirstAccepted(draws: seq<real>, cond: Point -> bool): Option<nat> {
    FirstAcceptedFrom(draws, cond, 0)
  }

  /** `_generate_position`: draw candidates until one satisfies `cond`.
      The result is the first satisfying candidate of the stream, and exactly
      the draws up to and including it are consumed. */
  method GeneratePosition(rng: Rng, cond: Point -> bool) returns (p: Option<Point>)
    requires rng.Valid()
    modifies rng
    ensures rng.Valid()
    ensures FirstAccepted(old(rng.draws), cond).None? ==> p == None
    ensures FirstAccepted(old(rng.draws), cond).Some? ==>
              var m := FirstAccepted(old(rng.draws), cond).value;
              p == Some(Candidate(old(rng.draws), m)) && rng.draws == old(rng.draws)[2 * m + 2..]
    ensures p.Some? ==> cond(p.value) && InRect(p.value, WORLD) && |rng.draws| < |old(rng.draws)|
  {
    ghost var d0 := rng.draws;
    ghost var m: nat := 0;
    while true
      invariant rng.Valid()
      invariant 2 * m <= |d0| && rng.draws == d0[2 * m..]
      invariant forall k :: 0 <= k < m ==> !cond(Candidate(d0, k))
      decreases |rng.draws|
    {
      var q := rng.UniformPoint(Point(-1.0, -1.0), Point(1.0, 1.0));
      if q.None? {
        return None;
      }
      assert q.value == Candidate(d0, m);
      if cond(q.value) {
        assert rng.draws == d0[2 * m + 2..];
        return q;
      }
      m := m + 1;
    }
  }

  // ---------------------------------------------------------------------
  // Placement conditions

  /** `_safe_position`: outside every constraint's x band and y band,
      each widened by `eps`. */
  predicate SafePosition(p: Point, eps: real, rects: seq<Rect>) {
    (forall k :: 0 <= k < |rects| ==> !InWidened(p.x, rects[k].xs, eps)) &&
    (forall k :: 0 <= k < |rects| ==> !InWidened(p.y, rects[k].ys, eps))
  }

  /** The sum of the points' x and y coordinates. */
  function SumX(ps: seq<Point>): real {
    if |ps| == 0 then 0.0 else SumX(ps[..|ps| - 1]) + ps[|ps| - 1].x
  }

  function SumY(ps: seq<Point>): real {
    if |ps| == 0 then 0.0 else SumY(ps[..|ps| - 1]) + ps[|ps| - 1].y
  }

  /** `np.mean(path.vertices[:-1], axis=0)`: the mean of every vertex but the last. */
  function Centroid(vs: seq<Point>): Point
    requires |vs| >= 2
  {
    var body := vs[..|vs| - 1];
    Point(SumX(body) / (|body| as real), SumY(body) / (|body| as real))
  }

  function Spread(p: Point, c: Point, eps: real): Point {
    Add(p, Scale(eps, Sub(p, c)))
  }

  function SpreadAll(ps: seq<Point>, c: Point, eps: real): (r: seq<Point>)
    ensures |r| == |ps|
    ensures forall i :: 0 <= i < |ps| ==> r[i] == Spread(ps[i], c, eps)
  {
    seq(|ps|, i requires 0 <= i < |ps| => Spread(ps[i], c, eps))
  }

  /** `vertices + eps * (vertices - centroid)`: every vertex moved away from
      the centroid, so that its offset from the centroid grows by `1 + eps`. */
  function Enlarge(vs: seq<Point>, eps: real): (r: seq<Point>)
    requires |vs| >= 2
    ensures |r| == |vs|
    ensures forall i :: 0 <= i < |vs| ==>
              Sub(r[i], Centroid(vs)) == Scale(1.0 + eps, Sub(vs[i], Centroid(vs)))
  {
    SpreadAll(vs, Centroid(vs), eps)
  }

  /** `_outside_triangle`: in none of the triangles enlarged by `eps`. */
  predicate OutsideTriangles(p: Point, triangles: seq<seq<Point>>, eps: real, contains: Containment)
    requires forall k :: 0 <= k < |triangles| ==> |triangles[k]| >= 2
  {
    forall k :: 0 <= k < |triangles| ==> !contains(Enlarge(triangles[k], eps), p)
  }

  /** The condition an agent's start and goal positions must meet. */
  predicate AgentCondition(p: Point, inst: Instance, eps: real, contains: Containment)
    requires WellFormed(inst)
  {
    match inst
    case Rectangles(rects) => SafePosition(p, eps, rects)
    case Corners(triangles) => OutsideTriangles(p, triangles, eps, contains)
  }

  /** `any(path.contains_points(point) for path in paths)`. */
  predicate InsideAny(p: Point, triangles: seq<seq<Point>>, contains: Containment) {
    exists k :: 0 <= k < |triangles| && contains(triangles[k], p)
  }

  /** The index of the first triangle, from the `from`-th on, containing `p`. */
  function FirstTriangleFrom(p: Point, triangles: seq<seq<Point>>, contains: Containment, from: nat): (r: Option<nat>)
    ensures r.Some? ==>
              from <= r.value < |triangles| && contains(triangles[r.value], p) &&
              forall k :: from <= k < r.value ==> !contains(triangles[k], p)
    ensures r.None? ==> forall k :: from <= k < |triangles| ==> !contains(triangles[k], p)
    decreases |triangles| - from
  {
    if from >= |triangles| then None
    else if contains(triangles[from], p) then Some(from)
    else FirstTriangleFrom(p, triangles, contains, from + 1)
  }

  /** `next((i for i, path in enumerate(paths) if path.contains_points(pos)), None)`. */
  function FirstTriangle(p: Point, triangles: seq<seq<Point>>, contains: Containment): Option<nat> {
    FirstTriangleFrom(p, triangles, contains, 0)
  }

  /** The first containing triangle exists exactly when some triangle holds the point. */
  lemma FirstTriangleExists(p: Point, triangles: seq<seq<Point>>, contains: Containment)
    ensures FirstTriangle(p, triangles, contains).Some? <==> InsideAny(p, triangles, contains)
  {
    if InsideAny(p, triangles, contains) {
      var k :| 0 <= k < |triangles| && contains(triangles[k], p);
      assert FirstTriangle(p, triangles, contains).Some?;
    }
  }

  /** `within_obstacle_constraints` of `_reset_small_obstacles`. */
  predicate WithinConstraints(p: Point, inst: Instance, eps: real, contains: Containment) {
    match inst
    case Corners(triangles) => InsideAny(p, triangles, contains)
    case Rectangles(rects) =>
      (exists k :: 0 <= k < |rects| && InWidened(p.x, rects[k].xs, eps)) ||
      (exists k :: 0 <= k < |rects| && InWidened(p.y, rects[k].ys, eps))
  }

  /** `safe_position` of `_reset_small_obstacles`. */
  predicate SmallSafe(p: Point, inst: Instance, eps: real, others: seq<Point>, contains: Containment) {
    !(WithinConstraints(p, inst, eps, contains) ||
      exists k :: 0 <= k < |others| && Within(Sub(p, others[k]), eps))
  }

  function Positions(s: seq<State>): (r: seq<Point>)
    ensures |r| == |s|
    ensures forall i :: 0 <= i < |s| ==> r[i] == s[i].pos
  {
    seq(|s|, i requires 0 <= i < |s| => s[i].pos)
  }

  // ---------------------------------------------------------------------
  // Properties of the placement conditions

  /** Enlarging a triangle scales it about its own centroid: the enlarged
      vertices have the same centroid as the original ones. */
  lemma {:induction false} EnlargeKeepsCentroid(vs: seq<Point>, eps: real)
    requires |vs| >= 2
    ensures Centroid(Enlarge(vs, eps)) == Centroid(vs)
  {
    EnlargedBodySums(vs, eps);
  }

  /** The vertices the centroid is taken over keep their coordinate sums. */
  lemma {:induction false} EnlargedBodySums(vs: seq<Point>, eps: real)
    requires |vs| >= 2
    ensures SumX(Enlarge(vs, eps)[..|vs| - 1]) == SumX(vs[..|vs| - 1])
    ensures SumY(Enlarge(vs, eps)[..|vs| - 1]) == SumY(vs[..|vs| - 1])
  {
    EnlargedBody(vs, eps);
    var c := Centroid(vs);
    var body := vs[..|vs| - 1];
    var k := |body| as real;
    SumSpreadX(body, c, eps);
    SumSpreadY(body, c, eps);
    DivideThenMultiply(SumX(body), k);
    DivideThenMultiply(SumY(body), k);
    ZeroOffset(eps, SumX(body), k * c.x);
    ZeroOffset(eps, SumY(body), k * c.y);
  }

  /** The enlarged vertices but the last are the spread of the original ones. */
  lemma EnlargedBody(vs: seq<Point>, eps: real)
    requires |vs| >= 2
    ensures Enlarge(vs, eps)[..|vs| - 1] == SpreadAll(vs[..|vs| - 1], Centroid(vs), eps)
  {
  }

  lemma ZeroOffset(e: real, s: real, t: real)
    requires s == t
    ensures s + e * (s - t) == s
  {
  }

  lemma DivideThenMultiply(s: real, k: real)
    requires k > 0.0
    ensures k * (s / k) == s
  {
  }

  /** One more point in a spread sum: with `n = m + 1`,
      `(s + e (s - m c)) + (x + e (x - c)) = (s + x) + e ((s + x) - n c)`. */
  lemma SpreadSumStep(e: real, s: real, m: real, x: real, c: real, n: real)
    requires n == m + 1.0
    ensures (s + e * (s - m * c)) + (x + e * (x - c)) == (s + x) + e * ((s + x) - n * c)
  {
    assert (s - m * c) + (x - c) == (s + x) - n * c;
    assert e * (s - m * c) + e * (x - c) == e * ((s - m * c) + (x - c));
  }

  lemma {:induction false} SumSpreadX(ps: seq<Point>, c: Point, eps: real)
    ensures SumX(SpreadAll(ps, c, eps)) == SumX(ps) + eps * (SumX(ps) - (|ps| as real) * c.x)
  {
    if |ps| > 0 {
      var n := |ps|;
      var init := ps[..n - 1];
      var sp := SpreadAll(ps, c, eps);
      SumSpreadX(init, c, eps);
      assert sp[..n - 1] == SpreadAll(init, c, eps);
      assert SumX(sp) == SumX(SpreadAll(init, c, eps)) + sp[n - 1].x;
      assert sp[n - 1].x == ps[n - 1].x + eps * (ps[n - 1].x - c.x);
      assert SumX(ps) == SumX(init) + ps[n - 1].x;
      SpreadSumStep(eps, SumX(init), (n - 1) as real, ps[n - 1].x, c.x, n as real);
    }
  }

  lemma {:induction false} SumSpreadY(ps: seq<Point>, c: Point, eps: real)
    ensures SumY(SpreadAll(ps, c, eps)) == SumY(ps) + eps * (SumY(ps) - (|ps| as real) * c.y)
  {
    if |ps| > 0 {
      var n := |ps|;
      var init := ps[..n - 1];
      var sp := SpreadAll(ps, c, eps);
      SumSpreadY(init, c, eps);
      assert sp[..n - 1] == SpreadAll(init, c, eps);
      assert SumY(sp) == SumY(SpreadAll(init, c, eps)) + sp[n - 1].y;
      assert sp[n - 1].y == ps[n - 1].y + eps * (ps[n - 1].y - c.y);
      assert SumY(ps) == SumY(init) + ps[n - 1].y;
      SpreadSumStep(eps, SumY(init), (n - 1) as real, ps[n - 1].y, c.y, n as real);
    }
  }

  /** A position accepted for an agent under a rectangle instance lies in
      no constraint rectangle, not even after widening it by `eps`. */
  lemma SafeOutsideRects(p: Point, eps: real, rects: seq<Rect>, k: nat)
    requires eps >= 0.0 && SafePosition(p, eps, rects) && k < |rects|
    ensures !InRect(p, rects[k])
    ensures !InRect(p, Rect(Interval(rects[k].xs.low - eps, rects[k].xs.high + eps),
                            Interval(rects[k].ys.low - eps, rects[k].ys.high + eps)))
  {
    assert !InWidened(p.x, rects[k].xs, eps);
  }

  /** A small obstacle's position keeps more than `eps` away from every
      listed position: `d` is the Euclidean distance to `others[k]`. */
  lemma SmallSafeKeepsDistance(p: Point, inst: Instance, eps: real, others: seq<Point>,
                               contains: Containment, k: nat, d: real)
    requires SmallSafe(p, inst, eps, others, contains)
    requires k < |others| && d >= 0.0 && d * d == SqNorm(Sub(p, others[k]))
    ensures d > eps
  {
    WithinIsNormTest(Sub(p, others[k]), eps, d);
  }

  /** For rectangle instances the small-obstacle test is the agent test
      widened by `eps`, together with the separation from the other entities. */
  lemma SmallSafeIsSafePosition(p: Point, rects: seq<Rect>, eps: real, others: seq<Point>, contains: Containment)
    ensures SmallSafe(p, Rectangles(rects), eps, others, contains) <==>
              SafePosition(p, eps, rects) &&
              forall k :: 0 <= k < |others| ==> !Within(Sub(p, others[k]), eps)
  {
  }

  /** A set of triangle indices below `n` has at most `n` members. */
  lemma {:induction false} BoundedSetSize(s: set<nat>, n: nat)
    requires forall t :: t in s ==> t < n
    ensures |s| <= n
    decreases n
  {
    if n == 0 {
      assert s == {};
    } else {
      BoundedSetSize(s - {n - 1}, n - 1);
    }
  }

  // ---------------------------------------------------------------------
  // Observation

  /** One observed relative position: itself when within `maxDist`, else the
      sentinel `(maxDist, maxDist)`. */
  function Slot(rel: Point, maxDist: real): Point {
    if Within(rel, maxDist) then rel else Point(maxDist, maxDist)
  }

  /** The sentinel never hides an entity in range: for a positive range a
      slot holds the sentinel exactly when the entity is out of range. */
  lemma SentinelMeansOutOfRange(rel: Point, maxDist: real)
    requires maxDist > 0.0
    ensures Slot(rel, maxDist) == Point(maxDist, maxDist) <==> !Within(rel, maxDist)
  {
    DiagonalOutOfRange(maxDist);
  }

  /** The sentinel point itself lies beyond the range: `2 d^2 > d^2`. */
  lemma DiagonalOutOfRange(d: real)
    requires d > 0.0
    ensures !Within(Point(d, d), d)
  {
    if Within(Point(d, d), d) {
      calc {
        d * d;
      <
        d * d + d * d;
      ==
        SqNorm(Point(d, d));
      <=
        d * d;
      }
    }
  }

  // ---------------------------------------------------------------------
  // What a completed reset establishes, on the world's sequences

  /** Agent `i`, its goal `goal_a` and its start marker `goal_b` after a
      completed reset: both references set, everything at rest, the start
      marker on the agent's own position, and both drawn positions in the
      world square and meeting the agent condition. */
  predicate AgentPlacedIn(agents: seq<State>, goals: seq<State>, goalA: seq<Option<nat>>,
                          goalB: seq<Option<nat>>, inst: Instance, eps: real,
                          contains: Containment, i: nat)
  {
    WellFormed(inst) &&
    i < |agents| && |goals| == 2 * |agents| && |goalA| == |agents| && |goalB| == |agents| &&
    goalA[i] == Some(i) && goalB[i] == Some(|goals| - 1 - i) &&
    agents[i].vel == ORIGIN && goals[i].vel == ORIGIN &&
    goals[|goals| - 1 - i] == agents[i] &&
    InRect(agents[i].pos, WORLD) && InRect(goals[i].pos, WORLD) &&
    AgentCondition(agents[i].pos, inst, eps, contains) &&
    AgentCondition(goals[i].pos, inst, eps, contains)
  }

  /** Agent `k` stays placed when its own entries are left alone. */
  lemma AgentPlacedKept(a0: seq<State>, g0: seq<State>, ga0: seq<Option<nat>>, gb0: seq<Option<nat>>,
                        a1: seq<State>, g1: seq<State>, ga1: seq<Option<nat>>, gb1: seq<Option<nat>>,
                        inst: Instance, eps: real, contains: Containment, k: nat)
    requires AgentPlacedIn(a0, g0, ga0, gb0, inst, eps, contains, k)
    requires |a1| == |a0| && |g1| == |g0| && |ga1| == |ga0| && |gb1| == |gb0|
    requires a1[k] == a0[k] && g1[k] == g0[k] && g1[|g0| - 1 - k] == g0[|g0| - 1 - k]
    requires ga1[k] == ga0[k] && gb1[k] == gb0[k]
    ensures AgentPlacedIn(a1, g1, ga1, gb1, inst, eps, contains, k)
  {
  }

  /** Under a rectangle instance obstacle `k` lies in rectangle `k % len`
      whenever that rectangle is proper. */
  predicate RectsPlacedIn(large: seq<State>, rects: seq<Rect>, upto: nat)
    requires upto <= |large|
  {
    |rects| > 0 &&
    forall k :: 0 <= k < upto ==>
      large[k].vel == ORIGIN &&
      (Proper(rects[k % |rects|]) ==> InRect(large[k].pos, rects[k % |rects|]))
  }

  /** Under 'corners' every obstacle lies in some triangle, and the first
      triangles holding two different obstacles differ. */
  predicate CornersPlacedIn(large: seq<State>, triangles: seq<seq<Point>>, contains: Containment, upto: nat)
    requires upto <= |large|
  {
    (forall k :: 0 <= k < upto ==>
       large[k].vel == ORIGIN && FirstTriangle(large[k].pos, triangles, contains).Some?) &&
    (forall k, l :: 0 <= k < l < upto ==>
       FirstTriangle(large[k].pos, triangles, contains) != FirstTriangle(large[l].pos, triangles, contains))
  }

  predicate LargePlacedIn(large: seq<State>, inst: Instance, contains: Containment) {
    match inst
    case Rectangles(rects) => RectsPlacedIn(large, rects, |large|)
    case Corners(triangles) =>
      |large| <= |triangles| && CornersPlacedIn(large, triangles, contains, |large|)
  }

  predicate SmallPlacedIn(small: seq<State>, inst: Instance, others: seq<Point>,
                          contains: Containment, upto: nat)
    requires upto <= |small|
  {
    forall k :: 0 <= k < upto ==>
      small[k].vel == ORIGIN && InRect(small[k].pos, WORLD) &&
      SmallSafe(small[k].pos, inst, SMALL_OBSTACLE_SIZE + LARGE_OBSTACLE_SIZE, others, contains)
  }

  /** One agent's start and goal: two successive draws meeting `cond`. */
  method DrawStartAndGoal(rng: Rng, cond: Point -> bool) returns (r: Option<(Point, Point)>)
    requires rng.Valid()
    modifies rng
    ensures rng.Valid()
    ensures r.Some? ==>
              cond(r.value.0) && InRect(r.value.0, WORLD) &&
              cond(r.value.1) && InRect(r.value.1, WORLD)
  {
    var start := GeneratePosition(rng, cond);
    if start.None? {
      return None;
    }
    var goal := GeneratePosition(rng, cond);
    if goal.None? {
      return None;
    }
    return Some((start.value, goal.value));
  }

  /** The loop of `_reset_agents_and_goals` on the world's sequences: agent
      `i` gets `goal_a = goals[i]` and `goal_b = goals[2n-1-i]`, all three at
      rest, a start and a goal position drawn under the agent condition, and
      `goal_b` placed on the start. */
  method PlaceAgents(rng: Rng, agents: seq<State>, goals: seq<State>,
                     goalA: seq<Option<nat>>, goalB: seq<Option<nat>>,
                     inst: Instance, eps: real, contains: Containment)
    returns (r: Outcome, ags: seq<State>, gls: seq<State>, ga: seq<Option<nat>>, gb: seq<Option<nat>>)
    requires rng.Valid() && WellFormed(inst)
    requires |goals| == 2 * |agents| && |goalA| == |agents| && |goalB| == |agents|
    requires forall k :: 0 <= k < |goalA| && goalA[k].Some? ==> goalA[k].value < |goals|
    requires forall k :: 0 <= k < |goalB| && goalB[k].Some? ==> goalB[k].value < |goals|
    modifies rng
    ensures rng.Valid()
    ensures |ags| == |agents| && |gls| == |goals| && |ga| == |agents| && |gb| == |agents|
    ensures forall k :: 0 <= k < |ga| && ga[k].Some? ==> ga[k].value < |gls|
    ensures forall k :: 0 <= k < |gb| && gb[k].Some? ==> gb[k].value < |gls|
    ensures r == Completed || r == StreamExhausted
    ensures r == Completed ==>
              forall k :: 0 <= k < |ags| ==> AgentPlacedIn(ags, gls, ga, gb, inst, eps, contains, k)
  {
    var cond := (p: Point) => WellFormed(inst) && AgentCondition(p, inst, eps, contains);
    var n := |agents|;
    ags, gls, ga, gb := agents, goals, goalA, goalB;
    var i := 0;
    while i < n
      invariant 0 <= i <= n
      invariant rng.Valid()
      invariant |ags| == n && |gls| == 2 * n && |ga| == n && |gb| == n
      invariant forall k :: 0 <= k < n && ga[k].Some? ==> ga[k].value < 2 * n
      invariant forall k :: 0 <= k < n && gb[k].Some? ==> gb[k].value < 2 * n
      invariant forall k :: 0 <= k < i ==> AgentPlacedIn(ags, gls, ga, gb, inst, eps, contains, k)
    {
      var j := 2 * n - 1 - i;
      var drawn := DrawStartAndGoal(rng, cond);
      if drawn.None? {
        return StreamExhausted, ags, gls, ga, gb;
      }
      var (start, goal) := drawn.value;
      ghost var ags0, gls0, ga0, gb0 := ags, gls, ga, gb;
      ga := ga[i := Some(i)];
      gb := gb[i := Some(j)];
      ags := ags[i := State(start, ORIGIN)];
      gls := gls[i := State(goal, ORIGIN)][j := State(start, ORIGIN)];
      assert AgentPlacedIn(ags, gls, ga, gb, inst, eps, contains, i);
      forall k | 0 <= k < i
        ensures AgentPlacedIn(ags, gls, ga, gb, inst, eps, contains, k)
      {
        AgentPlacedKept(ags0, gls0, ga0, gb0, ags, gls, ga, gb, inst, eps, contains, k);
      }
      i := i + 1;
    }
    return Completed, ags, gls, ga, gb;
  }

  /** The first `upto` large obstacles of a rectangle instance: at rest, each
      drawn from rectangle `k % len(rects)`. */
  method PlaceInRects(rng: Rng, large: seq<State>, rects: seq<Rect>) returns (r: Outcome, placed: seq<State>)
    requires rng.Valid() && |rects| > 0
    modifies rng
    ensures rng.Valid() && |placed| == |large|
    ensures r == Completed || r == StreamExhausted
    ensures r == Completed ==> RectsPlacedIn(placed, rects, |placed|)
  {
    placed := large;
    var i := 0;
    while i < |placed|
      invariant 0 <= i <= |placed| == |large|
      invariant rng.Valid()
      invariant RectsPlacedIn(placed, rects, i)
    {
      placed := placed[i := placed[i].(vel := ORIGIN)];
      var rect := rects[i % |rects|];
      ghost var d := rng.draws;
      var pos := rng.UniformPoint(LowCorner(rect), HighCorner(rect));
      if pos.None? {
        return StreamExhausted, placed;
      }
      if Proper(rect) {
        DrawInRect(rect, d[0], d[1]);
      }
      placed := placed[i := placed[i].(pos := pos.value)];
      i := i + 1;
    }
    return Completed, placed;
  }

  /** The inner loop of `_reset_large_obstacles` for 'corners': draw points
      inside some triangle until the first triangle holding one is free. */
  method DrawFreeCorner(rng: Rng, triangles: seq<seq<Point>>, contains: Containment,
                        occupied: set<nat>) returns (r: Option<(Point, nat)>)
    requires rng.Valid()
    modifies rng
    ensures rng.Valid()
    ensures r.Some? ==>
              r.value.1 !in occupied && r.value.1 < |triangles| &&
              FirstTriangle(r.value.0, triangles, contains) == Some(r.value.1)
  {
    var inside := (p: Point) => InsideAny(p, triangles, contains);
    while true
      invariant rng.Valid()
      decreases |rng.draws|
    {
      var pos := GeneratePosition(rng, inside);
      if pos.None? {
        return None;
      }
      FirstTriangleExists(pos.value, triangles, contains);
      var t := FirstTriangle(pos.value, triangles, contains).value;
      if t !in occupied {
        return Some((pos.value, t));
      }
    }
  }

  /** The large obstacles of a 'corners' instance, one per free triangle.
      Completing proves there were no more obstacles than triangles. */
  method PlaceInCorners(rng: Rng, large: seq<State>, triangles: seq<seq<Point>>, contains: Containment)
    returns (r: Outcome, placed: seq<State>)
    requires rng.Valid()
    modifies rng
    ensures rng.Valid() && |placed| == |large|
    ensures r == Completed || r == StreamExhausted
    ensures r == Completed ==>
              |placed| <= |triangles| && CornersPlacedIn(placed, triangles, contains, |placed|)
  {
    placed := large;
    var occupied: set<nat> := {};
    var i := 0;
    while i < |placed|
      invariant 0 <= i <= |placed| == |large|
      invariant rng.Valid()
      invariant |occupied| == i && forall t :: t in occupied ==> t < |triangles|
      invariant forall k :: 0 <= k < i ==>
                  FirstTriangle(placed[k].pos, triangles, contains).Some? &&
                  FirstTriangle(placed[k].pos, triangles, contains).value in occupied
      invariant CornersPlacedIn(placed, triangles, contains, i)
    {
      placed := placed[i := placed[i].(vel := ORIGIN)];
      var found := DrawFreeCorner(rng, triangles, contains, occupied);
      if found.None? {
        return StreamExhausted, placed;
      }
      var (pos, t) := found.value;
      placed := placed[i := placed[i].(pos := pos)];
      occupied := occupied + {t};
      i := i + 1;
    }
    BoundedSetSize(occupied, |triangles|);
    return Completed, placed;
  }

  class World {
    const agentSize: real
    /** `world.buffer_dist`: agent size plus large-obstacle size. */
    const bufferDist: real
    var agents: seq<State>
    /** Goals `0 .. n-1` are the agents' targets; goal `2n-1-i` is agent `i`'s start. */
    var goals: seq<State>
    /** `agent.goal_a` / `agent.goal_b` as indices into `goals`; `None` until
        the first reset assigns them. */
    var goalA: seq<Option<nat>>
    var goalB: seq<Option<nat>>
    var largeObstacles: seq<State>
    var smallObstacles: seq<State>
    /** `world.instance_constr`; `None` until the first reset. */
    var instance: Option<Instance>

    ghost predicate Valid()
      reads this
    {
      |agents| >= 1 && |goals| == 2 * |agents| &&
      |goalA| == |agents| && |goalB| == |agents| &&
      |largeObstacles| >= 1 &&
      bufferDist == agentSize + LARGE_OBSTACLE_SIZE &&
      (forall i :: 0 <= i < |goalA| && goalA[i].Some? ==> goalA[i].value < |goals|) &&
      (forall i :: 0 <= i < |goalB| && goalB[i].Some? ==> goalB[i].value < |goals|) &&
      (instance.Some? ==> WellFormed(instance.value))
    }

    /** `make_world` once its index at `world.agents[0]` and
        `world.large_obstacles[0]` succeeds. */
    constructor (numAgents: nat, numLarge: nat, numSmall: nat, agentSize: real)
      requires numAgents >= 1 && numLarge >= 1
      ensures Valid()
      ensures this.agentSize == agentSize && bufferDist == agentSize + LARGE_OBSTACLE_SIZE
      ensures agents == seq(numAgents, _ => AT_REST)
      ensures goals == seq(2 * numAgents, _ => AT_REST)
      ensures largeObstacles == seq(numLarge, _ => AT_REST)
      ensures smallObstacles == seq(numSmall, _ => AT_REST)
      ensures goalA == seq(numAgents, _ => None) && goalB == seq(numAgents, _ => None)
      ensures instance == None
    {
      this.agentSize := agentSize;
      bufferDist := agentSize + LARGE_OBSTACLE_SIZE;
      agents := seq(numAgents, _ => AT_REST);
      goals := seq(2 * numAgents, _ => AT_REST);
      largeObstacles := seq(numLarge, _ => AT_REST);
      smallObstacles := seq(numSmall, _ => AT_REST);
      goalA := seq(numAgents, _ => None);
      goalB := seq(numAgents, _ => None);
      instance := None;
    }

    ghost predicate AgentsAndGoalsPlaced(contains: Containment)
      reads this`agents, this`goals, this`goalA, this`goalB, this`instance
    {
      instance.Some? &&
      forall i :: 0 <= i < |agents| ==>
        AgentPlacedIn(agents, goals, goalA, goalB, instance.value, bufferDist, contains, i)
    }

    ghost predicate LargePlaced(contains: Containment)
      reads this`largeObstacles, this`instance
    {
      instance.Some? && LargePlacedIn(largeObstacles, instance.value, contains)
    }

    /** The positions small obstacles must keep away from. */
    function OtherPositions(): seq<Point>
      reads this`agents, this`goals, this`largeObstacles
    {
      Positions(agents) + Positions(goals) + Positions(largeObstacles)
    }

    ghost predicate SmallPlaced(contains: Containment)
      reads this`agents, this`goals, this`largeObstacles, this`smallObstacles, this`instance
    {
      instance.Some? &&
      SmallPlacedIn(smallObstacles, instance.value, OtherPositions(), contains, |smallObstacles|)
    }

    /** `_reset_agents_and_goals`. */
    method ResetAgentsAndGoals(rng: Rng, contains: Containment) returns (r: Outcome)
      requires Valid() && instance.Some? && rng.Valid()
      modifies this`agents, this`goals, this`goalA, this`goalB, rng
      ensures Valid() && rng.Valid()
      ensures |agents| == old(|agents|)
      ensures r == Completed || r == StreamExhausted
      ensures r == Completed ==> AgentsAndGoalsPlaced(contains)
    {
      r, agents, goals, goalA, goalB :=
        PlaceAgents(rng, agents, goals, goalA, goalB, instance.value, bufferDist, contains);
    }

    /** `_reset_large_obstacles`. `i % len(world.instance_constr)` is computed
        for every obstacle of either kind of instance, so an empty instance
        raises `ZeroDivisionError` right after the first obstacle is stopped. */
    method ResetLargeObstacles(rng: Rng, contains: Containment) returns (r: Outcome)
      requires Valid() && instance.Some? && rng.Valid()
      modifies this`largeObstacles, rng
      ensures Valid() && rng.Valid()
      ensures |largeObstacles| == old(|largeObstacles|)
      ensures r == Completed || r == StreamExhausted || r == Raised(ZeroDivisionError)
      ensures r.Raised? <==> ConstraintCount(instance.value) == 0
      ensures r == Completed ==> LargePlaced(contains)
    {
      var inst := instance.value;
      if ConstraintCount(inst) == 0 {
        largeObstacles := largeObstacles[0 := largeObstacles[0].(vel := ORIGIN)];
        return Raised(ZeroDivisionError);
      }
      var placed: seq<State>;
      match inst {
        case Rectangles(rects) =>
          r, placed := PlaceInRects(rng, largeObstacles, rects);
        case Corners(triangles) =>
          r, placed := PlaceInCorners(rng, largeObstacles, triangles, contains);
      }
      largeObstacles := placed;
    }

    /** `_reset_small_obstacles`: `world.small_obstacles[0]` raises
        `IndexError` when there are none. */
    method ResetSmallObstacles(rng: Rng, contains: Containment) returns (r: Outcome)
      requires Valid() && instance.Some? && rng.Valid()
      modifies this`smallObstacles, rng
      ensures Valid() && rng.Valid()
      ensures |smallObstacles| == old(|smallObstacles|)
      ensures r == Completed || r == StreamExhausted || r == Raised(IndexError)
      ensures r.Raised? <==> |smallObstacles| == 0
      ensures r == Completed ==> SmallPlaced(contains)
    {
      if |smallObstacles| == 0 {
        return Raised(IndexError);
      }
      var eps := SMALL_OBSTACLE_SIZE + LARGE_OBSTACLE_SIZE;
      var inst := instance.value;
      var others := OtherPositions();
      var cond := (p: Point) => SmallSafe(p, inst, eps, others, contains);
      var small := smallObstacles;
      var i := 0;
      while i < |small|
        invariant 0 <= i <= |small| == |smallObstacles|
        invariant smallObstacles == old(smallObstacles)
        invariant rng.Valid()
        invariant SmallPlacedIn(small, inst, others, contains, i)
      {
        small := small[i := small[i].(vel := ORIGIN)];
        var pos := GeneratePosition(rng, cond);
        if pos.None? {
          smallObstacles := small;
          return StreamExhausted;
        }
        small := small[i := small[i].(pos := pos.value)];
        i := i + 1;
      }
      smallObstacles := small;
      return Completed;
    }

    /** `reset_world`: install the problem instance, then place agents and
        goals, large obstacles and small obstacles, in that order. */
    method ResetWorld(rng: Rng, inst: Instance, contains: Containment) returns (r: Outcome)
      requires Valid() && rng.Valid() && WellFormed(inst)
      modifies this`instance, this`agents, this`goals, this`goalA, this`goalB,
               this`largeObstacles, this`smallObstacles, rng
      ensures Valid() && rng.Valid() && instance == Some(inst)
      ensures |agents| == old(|agents|) && |largeObstacles| == old(|largeObstacles|)
      ensures |smallObstacles| == old(|smallObstacles|)
      ensures r == Raised(ZeroDivisionError) ==> ConstraintCount(inst) == 0
      ensures r == Raised(IndexError) ==> |smallObstacles| == 0
      ensures r == Completed || r == StreamExhausted ||
              r == Raised(ZeroDivisionError) || r == Raised(IndexError)
      ensures r == Completed ==>
                ConstraintCount(inst) > 0 && |smallObstacles| > 0 &&
                AgentsAndGoalsPlaced(contains) && LargePlaced(contains) && SmallPlaced(contains)
    {
      instance := Some(inst);
      r := ResetAgentsAndGoals(rng, contains);
      if r != Completed {
        return;
      }
      r := ResetLargeObstacles(rng, contains);
      if r != Completed {
        return;
      }
      r := ResetSmallObstacles(rng, contains);
    }

    /** The goal the observation of agent `k` points to: `goal_b` once the
        agent has reached its goal, `goal_a` before. */
    function GoalOf(k: nat, reachedGoal: bool): Option<nat>
      reads this`goalA, this`goalB
      requires k < |goalA| && k < |goalB|
    {
      if reachedGoal then goalB[k] else goalA[k]
    }

    /** The layout of agent `k`'s observation: its position and velocity,
        one slot per small obstacle, and the slot of goal `g`. */
    ghost predicate ObservationOf(obs: seq<real>, k: nat, g: nat, maxDist: real)
      reads this`agents, this`goals, this`smallObstacles
      requires k < |agents| && g < |goals|
    {
      var me := agents[k];
      var m := |smallObstacles|;
      |obs| == 6 + 2 * m &&
      obs[0] == me.pos.x && obs[1] == me.pos.y && obs[2] == me.vel.x && obs[3] == me.vel.y &&
      (forall j :: 0 <= j < m ==>
         obs[4 + 2 * j] == Slot(Sub(smallObstacles[j].pos, me.pos), maxDist).x &&
         obs[5 + 2 * j] == Slot(Sub(smallObstacles[j].pos, me.pos), maxDist).y) &&
      obs[4 + 2 * m] == Slot(Sub(goals[g].pos, me.pos), maxDist).x &&
      obs[5 + 2 * m] == Slot(Sub(goals[g].pos, me.pos), maxDist).y
    }

    /** `observation` for agent `k`. Reading a goal never assigned raises
        `AttributeError`; with no small obstacles the inner `np.concatenate`
        of an empty list raises `ValueError`. */
    method Observation(k: nat, reachedGoal: bool, maxDist: real) returns (r: Result<seq<real>>)
      requires Valid() && k < |agents|
      ensures r.Ok? <==> GoalOf(k, reachedGoal).Some? && |smallObstacles| > 0
      ensures GoalOf(k, reachedGoal).None? ==> r == Err(AttributeError)
      ensures GoalOf(k, reachedGoal).Some? && |smallObstacles| == 0 ==> r == Err(ValueError)
      ensures r.Ok? ==> ObservationOf(r.value, k, GoalOf(k, reachedGoal).value, maxDist)
    {
      var me := agents[k];
      var m := |smallObstacles|;
      var slots: seq<real> := [];
      var i := 0;
      while i < m
        invariant 0 <= i <= m && |slots| == 2 * i
        invariant forall j :: 0 <= j < i ==>
                    slots[2 * j] == Slot(Sub(smallObstacles[j].pos, me.pos), maxDist).x &&
                    slots[2 * j + 1] == Slot(Sub(smallObstacles[j].pos, me.pos), maxDist).y
      {
        var s := Slot(Sub(smallObstacles[i].pos, me.pos), maxDist);
        slots := slots + [s.x, s.y];
        i := i + 1;
      }
      var goal := GoalOf(k, reachedGoal);
      if goal.None? {
        return Err(AttributeError);
      }
      var g := Slot(Sub(goals[goal.value].pos, me.pos), maxDist);
      if m == 0 {
        return Err(ValueError);
      }
      r := Ok([me.pos.x, me.pos.y, me.vel.x, me.vel.y] + slots + [g.x, g.y]);
    }
  }

  /** `make_world`: `world.agents[0]` and `world.large_obstacles[0]` raise
      `IndexError` when there are no agents or no large obstacles. */
  method MakeWorld(numAgents: int, numLarge: int, numSmall: int, agentSize: real) returns (r: Result<World>)
    ensures r.Err? <==> numAgents <= 0 || numLarge <= 0
    ensures r.Err? ==> r.error == IndexError
    ensures r.Ok? ==>
              fresh(r.value) && r.value.Valid() &&
              |r.value.agents| == numAgents && |r.value.largeObstacles| == numLarge &&
              |r.value.smallObstacles| == (if numSmall < 0 then 0 else numSmall) &&
              r.value.bufferDist == agentSize + LARGE_OBSTACLE_SIZE && r.value.instance == None
  {
    if numAgents <= 0 || numLarge <= 0 {
      return Err(IndexError);
    }
    var w := new World(numAgents, numLarge, if numSmall < 0 then 0 else numSmall, agentSize);
    return Ok(w);
  }

  /** `raw_env.__init__` up to its call of `make_world`. */
  method NewWorld(numAgents: int, numLarge: int, numSmall: int, agentSize: real) returns (r: Result<World>)
    ensures CheckLimits(numAgents, numLarge).Some? ==> r == Err(ValueError)
    ensures CheckLimits(numAgents, numLarge).None? && (numAgents <= 0 || numLarge <= 0) ==> r == Err(IndexError)
    ensures r.Ok? ==>
              fresh(r.value) && r.value.Valid() &&
              1 <= |r.value.agents| <= MAX_AGENTS && 1 <= |r.value.largeObstacles| <= MAX_LARGE_OBSTACLES
  {
    var limit := CheckLimits(numAgents, numLarge);
    if limit.Some? {
      return Err(limit.value);
    }
    r := MakeWorld(numAgents, numLarge, numSmall, agentSize);
  }
}
