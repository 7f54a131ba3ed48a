/** The oldest scenario, sig8/sig8.py: one agent, a goal landmark and four
    obstacle landmarks, each placed by one uniform draw from a box of the
    selected problem. The problem table it reads (`problem_scenarios`) lives
    in a module that is not part of this model, so it is a parameter here. */
module Sig8Scenario {
  import opened Common
  import opened Geometry
  import opened RandomSource

  const NUM_OBSTACLES := 4

  /** A landmark: its size, its `movable` flag (`None` where the scenario
      leaves the class default, which is not part of this model) and its state. */
  datatype Landmark = Landmark(size: real, movable: Option<bool>, state: State)

  /** A problem's `obs` entry: one box (a tuple) for every obstacle, or a
      list of boxes of which the first half of the obstacles use box 0 and
      the rest box 1. */
  datatype ObsConstr = SingleBox(box: Rect) | BoxList(boxes: seq<Rect>)

  datatype Problem = Problem(start: Rect, goal: Rect, obs: ObsConstr)

  /** The box obstacle `i` of `n` is drawn from; `None` where the source
      indexes past the end of the list. The test `i < n / 2` is Python's
      true division. */
  function ObstacleBox(c: ObsConstr, i: nat, n: nat): Option<Rect> {
    match c
    case SingleBox(b) => Some(b)
    case BoxList(bs) =>
      var k := if (i as real) < (n as real) / 2.0 then 0 else 1;
      if k < |bs| then Some(bs[k]) else None
  }

  /** The split by halves in integer terms: obstacle `i` uses box 0 exactly
      when `2 * i < n`, otherwise box 1. */
  lemma {:induction false} ObstacleBoxByHalves(bs: seq<Rect>, i: nat, n: nat)
    ensures ObstacleBox(BoxList(bs), i, n) ==
              if 2 * i < n then (if |bs| >= 1 then Some(bs[0]) else None)
              else (if |bs| >= 2 then Some(bs[1]) else None)
  {
    assert (i as real) < (n as real) / 2.0 <==> ((2 * i) as real) < (n as real);
  }

  /** Every one of the `n` obstacles has a box. */
  predicate BoxesCover(c: ObsConstr, n: nat) {
    forall i :: 0 <= i < n ==> ObstacleBox(c, i, n).Some?
  }

  /** The boxes cover the obstacles exactly when there is a single box, or
      the list is long enough for the last obstacle: two boxes once there
      are two obstacles or more. */
  lemma {:induction false} BoxesCoverExactly(c: ObsConstr, n: nat)
    ensures BoxesCover(c, n) <==>
              c.SingleBox? || n == 0 || (n == 1 && |c.boxes| >= 1) || |c.boxes| >= 2
  {
    if c.BoxList? && n > 0 {
      ObstacleBoxByHalves(c.boxes, n - 1, n);
      ObstacleBoxByHalves(c.boxes, 0, n);
      if (n == 1 && |c.boxes| >= 1) || |c.boxes| >= 2 {
        forall i | 0 <= i < n
          ensures ObstacleBox(c, i, n).Some?
        {
          ObstacleBoxByHalves(c.boxes, i, n);
        }
      }
    }
  }

  /** Obstacles `1 .. upto` of `ls` (landmark `k` is obstacle `k - 1`) are at
      rest and drawn from their boxes. */
  predicate ObstaclesPlaced(ls: seq<Landmark>, c: ObsConstr, upto: nat)
    requires 1 <= upto <= |ls|
  {
    forall k :: 1 <= k < upto ==>
      ls[k].state.vel == ORIGIN &&
      ObstacleBox(c, k - 1, |ls| - 1).Some? &&
      (Proper(ObstacleBox(c, k - 1, |ls| - 1).value) ==>
         InRect(ls[k].state.pos, ObstacleBox(c, k - 1, |ls| - 1).value))
  }

  /** Placing obstacle `k` in its box, leaving every other landmark alone,
      extends the placed prefix by one. */
  lemma ObstaclesPlacedStep(before: seq<Landmark>, after: seq<Landmark>, c: ObsConstr, k: nat)
    requires 1 <= k < |before| == |after|
    requires ObstaclesPlaced(before, c, k)
    requires forall j :: 0 <= j < |after| && j != k ==> after[j] == before[j]
    requires after[k].state.vel == ORIGIN && ObstacleBox(c, k - 1, |after| - 1).Some?
    requires Proper(ObstacleBox(c, k - 1, |after| - 1).value) ==>
               InRect(after[k].state.pos, ObstacleBox(c, k - 1, |after| - 1).value)
    ensures ObstaclesPlaced(after, c, k + 1)
  {
    forall j | 1 <= j < k + 1
      ensures after[j].state.vel == ORIGIN && ObstacleBox(c, j - 1, |after| - 1).Some? &&
              (Proper(ObstacleBox(c, j - 1, |after| - 1).value) ==>
                 InRect(after[j].state.pos, ObstacleBox(c, j - 1, |after| - 1).value))
    {
      if j < k {
        assert after[j] == before[j];
      }
    }
  }

  /** Sizes and `movable` flags are the same in both landmark lists. */
  predicate SameBodies(a: seq<Landmark>, b: seq<Landmark>) {
    |a| == |b| && forall k :: 0 <= k < |a| ==> a[k].size == b[k].size && a[k].movable == b[k].movable
  }

  /** The obstacle loop of `reset_world` over landmarks `1 ..`: each is set
      at rest and then drawn from its box, or the missing box raises
      `IndexError` (after that obstacle was set at rest). */
  method PlaceObstacles(rng: Rng, ls: seq<Landmark>, c: ObsConstr) returns (r: Outcome, placed: seq<Landmark>)
    requires rng.Valid() && |ls| >= 1
    modifies rng
    ensures rng.Valid() && SameBodies(placed, ls) && placed[0] == ls[0]
    ensures r == Completed || r == StreamExhausted || r == Raised(IndexError)
    ensures r == Completed ==> ObstaclesPlaced(placed, c, |placed|) && BoxesCover(c, |ls| - 1)
    ensures r == Raised(IndexError) ==> !BoxesCover(c, |ls| - 1)
    ensures r == StreamExhausted ==> |old(rng.draws)| < 2 * (|ls| - 1)
    ensures r == Completed ==>
              |old(rng.draws)| >= 2 * (|ls| - 1) && rng.draws == old(rng.draws)[2 * (|ls| - 1)..]
  {
    ghost var d0 := rng.draws;
    var n := |ls| - 1;
    placed := ls;
    var k := 1;
    while k < |placed|
      invariant 1 <= k <= |placed| == |ls|
      invariant rng.Valid() && SameBodies(placed, ls) && placed[0] == ls[0]
      invariant 2 * (k - 1) <= |d0| && rng.draws == d0[2 * (k - 1)..]
      invariant ObstaclesPlaced(placed, c, k)
    {
      ghost var before := placed;
      placed := placed[k := placed[k].(state := placed[k].state.(vel := ORIGIN))];
      var box := ObstacleBox(c, k - 1, n);
      if box.None? {
        return Raised(IndexError), placed;
      }
      var pos := rng.UniformIn(box.value);
      if pos.None? {
        return StreamExhausted, placed;
      }
      placed := placed[k := placed[k].(state := State(pos.value, ORIGIN))];
      assert forall j :: 0 <= j < |placed| && j != k ==> placed[j] == before[j];
      ObstaclesPlacedStep(before, placed, c, k);
      k := k + 1;
    }
    forall i | 0 <= i < n
      ensures ObstacleBox(c, i, n).Some?
    {
      var k := i + 1;
      assert placed[k].state.vel == ORIGIN && ObstacleBox(c, k - 1, |placed| - 1).Some?;
    }
    return Completed, placed;
  }

  class World {
    /** `world.agents`, a list of one agent. */
    var agents: seq<State>
    const agentSize: real
    /** `world.landmarks`: the goal, then the obstacles. */
    var landmarks: seq<Landmark>
    /** `agents[0].goal`, as an index into `landmarks`. */
    var agentGoal: Option<nat>
    var possibleProblems: set<string>
    var problemName: Option<string>
    /** `start_constr`, `goal_constr`, `obs_constr` together. */
    var problem: Option<Problem>

    predicate Valid()
      reads this
    {
      |agents| == 1 && |landmarks| == NUM_OBSTACLES + 1
    }

    /** `make_world`: one agent of size `agentRadius`; a goal of the same
        size and four obstacles of size `obsRadius`, none of them movable.
        `num_obstacles` in the metadata is `len(landmarks) - 1`. */
    constructor (agentRadius: real, obsRadius: real)
      ensures Valid() && |landmarks| - 1 == NUM_OBSTACLES
      ensures agents == [AT_REST] && agentSize == agentRadius
      ensures landmarks[0] == Landmark(agentRadius, Some(false), AT_REST)
      ensures forall k :: 1 <= k < |landmarks| ==> landmarks[k] == Landmark(obsRadius, Some(false), AT_REST)
      ensures agentGoal == None && problemName == None && problem == None && possibleProblems == {}
    {
      agents := [AT_REST];
      agentSize := agentRadius;
      landmarks := [Landmark(agentRadius, Some(false), AT_REST)] +
                   seq(NUM_OBSTACLES, _ => Landmark(obsRadius, Some(false), AT_REST));
      agentGoal := None;
      possibleProblems := {};
      problemName := None;
      problem := None;
    }

    /** `get_problem_scenario`: records the registered names and the name,
        then looks the name up; an unregistered name raises `KeyError` and
        leaves the previous constraints. */
    method GetProblemScenario(problems: map<string, Problem>, name: string) returns (r: Outcome)
      modifies this`possibleProblems, this`problemName, this`problem
      ensures possibleProblems == problems.Keys && problemName == Some(name)
      ensures name !in problems ==> r == Raised(KeyError) && problem == old(problem)
      ensures name in problems ==> r == Completed && problem == Some(problems[name])
    {
      possibleProblems := problems.Keys;
      problemName := Some(name);
      if name !in problems {
        return Raised(KeyError);
      }
      problem := Some(problems[name]);
      return Completed;
    }

    /** The placement `reset_world` promises for `p`: agent and goal at rest
        in the start and goal boxes, every obstacle at rest in its box. */
    predicate PlacedFor(p: Problem)
      requires Valid()
      reads this
    {
      agents[0].vel == ORIGIN && (Proper(p.start) ==> InRect(agents[0].pos, p.start)) &&
      landmarks[0].state.vel == ORIGIN && (Proper(p.goal) ==> InRect(landmarks[0].state.pos, p.goal)) &&
      ObstaclesPlaced(landmarks, p.obs, |landmarks|)
    }

    /** `reset_world`: makes landmark 0 the agent's goal, selects the
        problem, then draws the agent, the goal and the obstacles (two draws
        each, in that order). With a registered name and draws for all six
        entities it completes exactly when the boxes cover the obstacles. */
    method ResetWorld(rng: Rng, problems: map<string, Problem>, name: string) returns (r: Outcome)
      requires Valid() && rng.Valid()
      modifies this, rng
      ensures Valid() && rng.Valid() && agentGoal == Some(0)
      ensures SameBodies(landmarks, old(landmarks))
      ensures possibleProblems == problems.Keys && problemName == Some(name)
      ensures r == Raised(KeyError) <==> name !in problems
      ensures r == Completed ==> problem == Some(problems[name]) && PlacedFor(problems[name])
      ensures r == Raised(IndexError) ==> name in problems && !BoxesCover(problems[name].obs, NUM_OBSTACLES)
      ensures r == StreamExhausted ==> |old(rng.draws)| < 2 * (NUM_OBSTACLES + 2)
      ensures name in problems && |old(rng.draws)| >= 2 * (NUM_OBSTACLES + 2) ==>
                r == (if BoxesCover(problems[name].obs, NUM_OBSTACLES) then Completed else Raised(IndexError))
    {
      agentGoal := Some(0);
      r := GetProblemScenario(problems, name);
      if r != Completed {
        return;
      }
      var p := problems[name];
      agents := [agents[0].(vel := ORIGIN)];
      var start := rng.UniformIn(p.start);
      if start.None? {
        return StreamExhausted;
      }
      agents := [agents[0].(pos := start.value)];
      landmarks := landmarks[0 := landmarks[0].(state := landmarks[0].state.(vel := ORIGIN))];
      var goal := rng.UniformIn(p.goal);
      if goal.None? {
        return StreamExhausted;
      }
      landmarks := landmarks[0 := landmarks[0].(state := landmarks[0].state.(pos := goal.value))];
      r, landmarks := PlaceObstacles(rng, landmarks, p.obs);
    }
  }
}
