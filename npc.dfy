/** The scripted lawn-mower obstacle of signal8/utils/npc.py: a three-state
    machine that drives to a farming scenario's destination, zigzags across
    the scenario's bounds, and heads back when it leaves them.
    `_move_towards_point` (a normalised direction vector) is kept symbolic as
    the action `Towards(from, target)`. */
module Npc {
  import opened Common
  import opened Geometry

  datatype Status = MovingToDestination | Zigzagging | MovingToStart

  datatype Dir = Left | Right

  /** What `get_scripted_action` returns: a fixed vector, or the unit vector
      from one point towards another. */
  datatype Action = Velocity(v: Point) | Towards(from: Point, target: Point)

  const STAY := Velocity(ORIGIN)

  /** One entry of `farming_scenarios`: destination, initial zigzag
      direction and bounds `[(xlow, xhigh), (ylow, yhigh)]`. */
  datatype Farm = Farm(destination: Point, direction: Dir, bounds: Rect)

  function FarmingScenario(k: int): (r: Option<Farm>)
    ensures r.Some? <==> 0 <= k <= 3
  {
    if k == 0 then Some(Farm(Point(-0.8, -0.8), Left, Rect(Interval(-1.0, -0.4), Interval(-1.0, 1.0))))
    else if k == 1 then Some(Farm(Point(0.75, 0.75), Left, Rect(Interval(-1.0, 1.0), Interval(0.4, 1.0))))
    else if k == 2 then Some(Farm(Point(-0.1875, -0.90), Right, Rect(Interval(-0.25, 0.25), Interval(-1.0, 1.0))))
    else if k == 3 then Some(Farm(Point(-0.75, -0.80), Left, Rect(Interval(-1.0, 1.0), Interval(-1.0, -0.4))))
    else None
  }

  /** numpy's default tolerances for `np.allclose`. */
  const RTOL: real := 0.00001
  const ATOL: real := 0.00000001

  function Abs(t: real): real {
    if t < 0.0 then -t else t
  }

  /** `np.allclose(a, b)`: `|a - b| <= atol + rtol * |b|` on each coordinate. */
  predicate AllClose(a: Point, b: Point) {
    Abs(a.x - b.x) <= ATOL + RTOL * Abs(b.x) &&
    Abs(a.y - b.y) <= ATOL + RTOL * Abs(b.y)
  }

  lemma AllCloseReflexive(p: Point)
    ensures AllClose(p, p)
  {
  }

  /** `_within_bounds`: the inclusive box test on both axes. */
  predicate WithinBounds(p: Point, bounds: Rect) {
    bounds.xs.low <= p.x <= bounds.xs.high && bounds.ys.low <= p.y <= bounds.ys.high
  }

  /** Every farming scenario's destination lies inside its own bounds. */
  lemma DestinationsInsideBounds(k: int)
    requires FarmingScenario(k).Some?
    ensures WithinBounds(FarmingScenario(k).value.destination, FarmingScenario(k).value.bounds)
  {
  }

  /** `_zigzag` for direction `dir` at abscissa `x`: the new direction and
      the returned vector. */
  function ZigzagStep(dir: Dir, x: real, bounds: Rect): (Dir, Point) {
    match dir
    case Right => if x < bounds.xs.high then (Right, Point(1.0, 0.0)) else (Left, Point(0.0, 1.0))
    case Left => if x > bounds.xs.low then (Left, Point(-1.0, 0.0)) else (Right, Point(0.0, 1.0))
  }

  /** A zigzag step either keeps its direction and moves one unit along it,
      or turns round and moves one unit up; it turns exactly when it is at
      or beyond the bound it was heading for. */
  lemma ZigzagTurnsOnlyAtBounds(dir: Dir, x: real, bounds: Rect)
    ensures var (d, v) := ZigzagStep(dir, x, bounds);
            (d == dir <==> v != Point(0.0, 1.0)) &&
            (d == dir ==> v == (if dir == Right then Point(1.0, 0.0) else Point(-1.0, 0.0))) &&
            (d != dir <==> if dir == Right then x >= bounds.xs.high else x <= bounds.xs.low)
  {
  }

  /** The state the machine is in between ticks. */
  datatype Mode = Mode(status: Status, direction: Option<Dir>)

  /** The invariant the tick keeps: zigzagging always has a direction. */
  predicate ModeValid(m: Mode) {
    m.status == Zigzagging ==> m.direction.Some?
  }

  /** One tick of `get_scripted_action` at `pos`, for farming scenario
      `farm`: the new mode and the action. `start` is the current position
      (line 17). */
  function Tick(m: Mode, pos: Point, farm: Farm): (r: (Mode, Action))
    requires ModeValid(m)
    ensures ModeValid(r.0)
  {
    var start := pos;
    match m.status
    case MovingToDestination =>
      if AllClose(pos, farm.destination) then (Mode(Zigzagging, Some(farm.direction)), STAY)
      else (m, Towards(pos, farm.destination))
    case Zigzagging =>
      if !WithinBounds(pos, farm.bounds) then (Mode(MovingToStart, m.direction), STAY)
      else
        var (d, v) := ZigzagStep(m.direction.value, pos.x, farm.bounds);
        (Mode(Zigzagging, Some(d)), Velocity(v))
    case MovingToStart =>
      if AllClose(pos, start) then (Mode(MovingToDestination, m.direction), STAY)
      else (m, Towards(pos, start))
  }

  /** Since `start` is the current position, the way back always ends at once:
      the next tick switches to `moving_to_destination` and stays put. */
  lemma ReturnIsImmediate(m: Mode, pos: Point, farm: Farm)
    requires ModeValid(m) && m.status == MovingToStart
    ensures Tick(m, pos, farm) == (Mode(MovingToDestination, m.direction), STAY)
  {
    AllCloseReflexive(pos);
  }

  /** Far from the destination the machine only steers towards it. */
  lemma HeadsForDestination(m: Mode, pos: Point, farm: Farm)
    requires ModeValid(m) && m.status == MovingToDestination && !AllClose(pos, farm.destination)
    ensures Tick(m, pos, farm) == (m, Towards(pos, farm.destination))
  {
  }

  /** Arriving exactly at the destination starts the mowing: the first tick
      switches to zigzagging with the scenario's direction and stays put, the
      second tick at the same place (inside the bounds) takes a zigzag step. */
  lemma {:induction false} ArrivalStartsMowing(m: Mode, farm: Farm, k: int)
    requires FarmingScenario(k) == Some(farm)
    requires ModeValid(m) && m.status == MovingToDestination
    ensures var (m1, a1) := Tick(m, farm.destination, farm);
            m1 == Mode(Zigzagging, Some(farm.direction)) && a1 == STAY &&
            Tick(m1, farm.destination, farm) ==
              (var (d, v) := ZigzagStep(farm.direction, farm.destination.x, farm.bounds);
               (Mode(Zigzagging, Some(d)), Velocity(v)))
  {
    AllCloseReflexive(farm.destination);
    DestinationsInsideBounds(k);
  }

  /** Leaving the bounds while zigzagging leads back to `moving_to_destination`
      in two ticks, standing still on both. */
  lemma {:induction false} LeavingBoundsRestarts(m: Mode, pos: Point, farm: Farm)
    requires ModeValid(m) && m.status == Zigzagging && !WithinBounds(pos, farm.bounds)
    ensures var (m1, a1) := Tick(m, pos, farm);
            a1 == STAY && m1.status == MovingToStart &&
            Tick(m1, pos, farm) == (Mode(MovingToDestination, m.direction), STAY)
  {
    var (m1, a1) := Tick(m, pos, farm);
    ReturnIsImmediate(m1, pos, farm);
  }

  class NPC {
    var direction: Option<Dir>
    var status: Status

    predicate Valid()
      reads this
    {
      ModeValid(Mode(status, direction))
    }

    /** A fresh NPC moves to its destination and has no direction yet. */
    constructor ()
      ensures Valid()
      ensures status == MovingToDestination && direction == None
    {
      direction := None;
      status := MovingToDestination;
    }

    /** `_zigzag`: moves along the current direction, turning round (and
        stepping up) at the x bounds. The status is left alone. */
    method Zigzag(x: real, bounds: Rect) returns (v: Point)
      requires direction.Some?
      modifies this`direction
      ensures (direction, v) == (var (d, w) := ZigzagStep(old(direction.value), x, bounds); (Some(d), w))
    {
      if direction == Some(Right) {
        if x < bounds.xs.high {
          return Point(1.0, 0.0);
        } else {
          direction := Some(Left);
          return Point(0.0, 1.0);
        }
      } else {
        if x > bounds.xs.low {
          return Point(-1.0, 0.0);
        } else {
          direction := Some(Right);
          return Point(0.0, 1.0);
        }
      }
    }

    /** `get_scripted_action` with the obstacle at `pos`. An unknown scenario
        number raises `KeyError` before anything changes. */
    method GetScriptedAction(pos: Point, scenarioNum: int) returns (r: Result<Action>)
      requires Valid()
      modifies this
      ensures Valid()
      ensures FarmingScenario(scenarioNum).None? ==>
                r == Err(KeyError) && status == old(status) && direction == old(direction)
      ensures FarmingScenario(scenarioNum).Some? ==>
                var (m, a) := Tick(Mode(old(status), old(direction)), pos, FarmingScenario(scenarioNum).value);
                r == Ok(a) && Mode(status, direction) == m
    {
      var farm := FarmingScenario(scenarioNum);
      if farm.None? {
        return Err(KeyError);
      }
      var action := STAY;
      var start := pos;
      var destination := farm.value.destination;
      var bounds := farm.value.bounds;
      if status == MovingToDestination {
        if AllClose(pos, destination) {
          status := Zigzagging;
          direction := Some(farm.value.direction);
        } else {
          action := Towards(pos, destination);
        }
      } else if status == Zigzagging {
        if !WithinBounds(pos, bounds) {
          status := MovingToStart;
        } else {
          var v := Zigzag(pos.x, bounds);
          action := Velocity(v);
        }
      } else {
        if AllClose(pos, start) {
          status := MovingToDestination;
        } else {
          action := Towards(pos, start);
        }
      }
      return Ok(action);
    }
  }
}
