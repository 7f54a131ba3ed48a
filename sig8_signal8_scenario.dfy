/** The intermediate scenario, sig8/signal8.py: one agent, a goal landmark
    and `num_obstacles` obstacle landmarks, the later half of which may be
    dynamic adversaries. Every obstacle is drawn from the problem's
    static-adversary box. The `get_problem(name, has_dynamic_adversaries)`
    it calls lives in a module that is not part of this model, so it is a
    parameter here. */
module Sig8Signal8Scenario {
  import opened Common
  import opened Geometry
  import opened RandomSource
  import S = Sig8Scenario

  /** The default `problem_name` of `reset_world`. */
  const DEFAULT_PROBLEM_NAME := "v_cluster"

  /** The problem name `reset_world` works with: the one passed, or the default. */
  function NameOrDefault(problemName: Option<string>): (r: string)
    ensures problemName.Some? ==> r == problemName.value
    ensures problemName.None? ==> r == DEFAULT_PROBLEM_NAME
  {
    match problemName
    case Some(n) => n
    case None => DEFAULT_PROBLEM_NAME
  }

  /** What `get_problem` returns: the start, goal and static-adversary
      boxes, and the dynamic-adversary box when the problem has one. */
  datatype Problem = Problem(start: Rect, goal: Rect, staticAdversary: Rect, dynamicAdversary: Option<Rect>)

  /** `get_problem(name, has_dynamic_adversaries)`; `None` stands for the
      `KeyError` of an unknown name. */
  type ProblemLookup = (string, bool) -> Option<Problem>

  /** The `movable` flag `make_world` gives obstacle `i` of `n`: the
      dynamic-adversary flag from `n // 2` on, the class default before. */
  function MovableFlag(i: int, n: nat, hasDynamicAdversaries: bool): Option<bool> {
    if i >= n / 2 then Some(hasDynamicAdversaries) else None
  }

  /** The later half of the obstacles, and only it, carries the flag: with
      `n >= 2` the first obstacle keeps the default and the last one is set. */
  lemma {:induction false} MovableFlagIsLaterHalf(i: nat, n: nat, hasDynamicAdversaries: bool)
    requires i < n
    ensures MovableFlag(i, n, hasDynamicAdversaries).Some? <==> 2 * i >= n - n % 2
    ensures n >= 2 ==> MovableFlag(0, n, hasDynamicAdversaries) == None
    ensures MovableFlag(n - 1, n, hasDynamicAdversaries) == Some(hasDynamicAdversaries)
  {
    assert n == 2 * (n / 2) + n % 2;
  }

  class World {
    var agent: State
    const agentSize: real
    /** `world.landmarks`: the goal, then the obstacles. */
    var landmarks: seq<S.Landmark>
    /** The flag `World(has_dynamic_adversaries)` is built with. */
    const hasDynamicAdversaries: bool
    /** `agents.goal`, as an index into `landmarks`. */
    var agentGoal: Option<nat>
    var startConstr: Option<Rect>
    var goalConstr: Option<Rect>
    var staticConstr: Option<Rect>
    var dynamicConstr: Option<Rect>

    predicate Valid()
      reads this
    {
      |landmarks| >= 1
    }

    /** The landmarks of `make_world` for `numObstacles` obstacles: the goal
        with size `goalRadius`, not movable; every obstacle with size
        `obsRadius` and the flag of `MovableFlag`. */
    constructor (agentRadius: real, goalRadius: real, obsRadius: real, numObstacles: nat, hasDynamicAdversaries: bool)
      ensures Valid() && |landmarks| == numObstacles + 1
      ensures agent == AT_REST && agentSize == agentRadius
      ensures this.hasDynamicAdversaries == hasDynamicAdversaries
      ensures landmarks[0] == S.Landmark(goalRadius, Some(false), AT_REST)
      ensures forall i :: 0 <= i < numObstacles ==>
                landmarks[i + 1] == S.Landmark(obsRadius, MovableFlag(i, numObstacles, hasDynamicAdversaries), AT_REST)
      ensures agentGoal == None && startConstr == None && goalConstr == None
      ensures staticConstr == None && dynamicConstr == None
    {
      agent := AT_REST;
      agentSize := agentRadius;
      this.hasDynamicAdversaries := hasDynamicAdversaries;
      landmarks := [S.Landmark(goalRadius, Some(false), AT_REST)] +
                   seq(numObstacles, i => S.Landmark(obsRadius, MovableFlag(i, numObstacles, hasDynamicAdversaries), AT_REST));
      agentGoal := None;
      startConstr := None;
      goalConstr := None;
      staticConstr := None;
      dynamicConstr := None;
    }

    /** `get_problem_scenario`: an unknown name raises `KeyError` and changes
        nothing; otherwise the start, goal and static boxes are recorded, and
        the dynamic box too when the world has dynamic adversaries (a
        problem without one then raises `KeyError`). Without dynamic
        adversaries the dynamic box is never touched. */
    method GetProblemScenario(getProblem: ProblemLookup, name: string) returns (r: Outcome)
      modifies this`startConstr, this`goalConstr, this`staticConstr, this`dynamicConstr
      ensures var p := getProblem(name, hasDynamicAdversaries);
              if p.None? then
                r == Raised(KeyError) && startConstr == old(startConstr) && goalConstr == old(goalConstr) &&
                staticConstr == old(staticConstr) && dynamicConstr == old(dynamicConstr)
              else
                startConstr == Some(p.value.start) && goalConstr == Some(p.value.goal) &&
                staticConstr == Some(p.value.staticAdversary) &&
                if !hasDynamicAdversaries then r == Completed && dynamicConstr == old(dynamicConstr)
                else if p.value.dynamicAdversary.None? then r == Raised(KeyError) && dynamicConstr == old(dynamicConstr)
                else r == Completed && dynamicConstr == p.value.dynamicAdversary
    {
      var p := getProblem(name, hasDynamicAdversaries);
      if p.None? {
        return Raised(KeyError);
      }
      startConstr := Some(p.value.start);
      goalConstr := Some(p.value.goal);
      staticConstr := Some(p.value.staticAdversary);
      if hasDynamicAdversaries {
        if p.value.dynamicAdversary.None? {
          return Raised(KeyError);
        }
        dynamicConstr := p.value.dynamicAdversary;
      }
      return Completed;
    }

    /** Whether `getProblem` yields everything `get_problem_scenario` reads. */
    predicate LookupSucceeds(getProblem: ProblemLookup, name: string)
      reads this
    {
      var p := getProblem(name, hasDynamicAdversaries);
      p.Some? && (hasDynamicAdversaries ==> p.value.dynamicAdversary.Some?)
    }

    /** The placement `reset_world` promises for `p`: agent and goal at rest
        in the start and goal boxes, every obstacle at rest in the static
        box. */
    predicate PlacedFor(p: Problem)
      requires Valid()
      reads this
    {
      agent.vel == ORIGIN && (Proper(p.start) ==> InRect(agent.pos, p.start)) &&
      landmarks[0].state.vel == ORIGIN && (Proper(p.goal) ==> InRect(landmarks[0].state.pos, p.goal)) &&
      forall k :: 1 <= k < |landmarks| ==>
        landmarks[k].state.vel == ORIGIN &&
        (Proper(p.staticAdversary) ==> InRect(landmarks[k].state.pos, p.staticAdversary))
    }

    /** `reset_world`: makes landmark 0 the agent's goal, selects the problem
        (the default `problem_name` when none is passed), then draws the
        agent, the goal and every obstacle (two draws each, in that order).
        With a successful lookup and enough draws it always completes. */
    method ResetWorld(rng: Rng, getProblem: ProblemLookup, problemName: Option<string>) returns (r: Outcome)
      requires Valid() && rng.Valid()
      modifies this, rng
      ensures Valid() && rng.Valid() && agentGoal == Some(0)
      ensures S.SameBodies(landmarks, old(landmarks))
      ensures !hasDynamicAdversaries ==> dynamicConstr == old(dynamicConstr)
      ensures r == Completed || r == Raised(KeyError) || r == StreamExhausted
      ensures r == Raised(KeyError) <==> !LookupSucceeds(getProblem, NameOrDefault(problemName))
      ensures r == Completed ==> PlacedFor(getProblem(NameOrDefault(problemName), hasDynamicAdversaries).value)
      ensures r == StreamExhausted ==> |old(rng.draws)| < 2 * (|landmarks| + 1)
      ensures LookupSucceeds(getProblem, NameOrDefault(problemName)) && |old(rng.draws)| >= 2 * (|landmarks| + 1) ==> r == Completed
    {
      var name := NameOrDefault(problemName);
      agentGoal := Some(0);
      r := GetProblemScenario(getProblem, name);
      if r != Completed {
        return;
      }
      var p := getProblem(name, hasDynamicAdversaries).value;
      agent := agent.(vel := ORIGIN);
      var start := rng.UniformIn(p.start);
      if start.None? {
        return StreamExhausted;
      }
      agent := agent.(pos := start.value);
      landmarks := landmarks[0 := landmarks[0].(state := landmarks[0].state.(vel := ORIGIN))];
      var goal := rng.UniformIn(p.goal);
      if goal.None? {
        return StreamExhausted;
      }
      landmarks := landmarks[0 := landmarks[0].(state := landmarks[0].state.(pos := goal.value))];
      r, landmarks := S.PlaceObstacles(rng, landmarks, S.SingleBox(p.staticAdversary));
      assert S.ObstacleBox(S.SingleBox(p.staticAdversary), 0, |landmarks| - 1).Some?;
    }
  }

  /** `make_world`: builds the world, or raises `IndexError` at
      `landmarks[0]` when `num_obstacles + 1` landmarks is none at all. */
  method MakeWorld(agentRadius: real, goalRadius: real, obsRadius: real, numObstacles: int,
                   hasDynamicAdversaries: bool) returns (r: Result<World>)
    ensures numObstacles < 0 <==> r == Err(IndexError)
    ensures r.Ok? ==> fresh(r.value) && r.value.Valid() && |r.value.landmarks| == numObstacles + 1 &&
                      r.value.hasDynamicAdversaries == hasDynamicAdversaries
  {
    if numObstacles < 0 {
      return Err(IndexError);
    }
    var w := new World(agentRadius, goalRadius, obsRadius, numObstacles, hasDynamicAdversaries);
    return Ok(w);
  }
}
