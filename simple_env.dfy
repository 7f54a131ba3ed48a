/** The turn-based stepper of `SimpleEnv` (signal8/utils/simple_env.py):
    one agent's action per `step`, a cyclic selection index, a buffer of the
    round's actions, and, when the rotation wraps to the first agent, one
    world step followed by the episode-status evaluation.

    The physical world step and the scenario's `reset_world` are opaque to
    the stepper and are passed in as functions; the agent selector is the
    cyclic index `selection`. */
module SimpleEnv {
  import opened Common
  import opened Geometry

  /** `world.dim_p * 2 + 1` for the two-dimensional world. */
  const ACTION_DIM := 5
  /** The force scale applied to every decoded physical action. */
  const SENSITIVITY := 5.0

  // ---------------------------------------------------------------------
  // Actions and their decoding
  // ---------------------------------------------------------------------

  /** What a caller passes to `step`: an index of the Discrete space, or a
      vector of the Box space. */
  datatype Action = Discrete(index: int) | Continuous(v: seq<real>)

  /** One element of the `scenario_action` list built by `_execute_world_step`. */
  datatype ActionPart = IndexPart(k: int) | VectorPart(v: seq<real>)

  /** The discrete action table of `_set_action`: 1 and 2 push along x,
      3 and 4 along y, everything else is a no-op; then scaled by 5.0. */
  function DecodeDiscrete(k: int): (f: Point)
    ensures f.x == 0.0 || f.y == 0.0
    ensures f.x in {-5.0, 0.0, 5.0} && f.y in {-5.0, 0.0, 5.0}
    ensures f == ORIGIN <==> !(1 <= k <= 4)
  {
    var unit :=
      if k == 1 then Point(-1.0, 0.0)
      else if k == 2 then Point(1.0, 0.0)
      else if k == 3 then Point(0.0, -1.0)
      else if k == 4 then Point(0.0, 1.0)
      else ORIGIN;
    Scale(SENSITIVITY, unit)
  }

  /** The inverse of the discrete table on the five action indices. */
  function EncodeDiscrete(f: Point): (k: int)
    ensures 0 <= k < ACTION_DIM
  {
    if f == Point(-5.0, 0.0) then 1
    else if f == Point(5.0, 0.0) then 2
    else if f == Point(0.0, -5.0) then 3
    else if f == Point(0.0, 5.0) then 4
    else 0
  }

  lemma {:induction false} DiscreteRoundTrip(k: int)
    requires 0 <= k < ACTION_DIM
    ensures EncodeDiscrete(DecodeDiscrete(k)) == k
  {
  }

  /** The continuous decoding of `_set_action`: components 1 and 2 are the
      negative/positive push pair along x, 3 and 4 along y; component 0 is
      ignored. */
  function DecodeContinuous(v: seq<real>): (f: Point)
    requires |v| >= ACTION_DIM
    ensures (forall i :: 1 <= i < ACTION_DIM ==> 0.0 <= v[i] <= 1.0) ==>
              -5.0 <= f.x <= 5.0 && -5.0 <= f.y <= 5.0
    ensures v[1] == v[2] && v[3] == v[4] ==> f == ORIGIN
  {
    Scale(SENSITIVITY, Point(0.0 + (v[1] - v[2]), 0.0 + (v[3] - v[4])))
  }

  /** The one-element action list `_execute_world_step` builds for an agent
      (lines 157-166): the slice `action[0:5]` of a continuous action, or
      `action % 5` of a discrete one; nothing for an agent that is not
      movable. A slot still `None`, or an action of the other kind than the
      environment's, makes the slicing or the `%` raise. */
  function ScenarioAction(action: Option<Action>, movable: bool, continuous: bool): (r: Result<seq<ActionPart>>)
    ensures r.Ok? ==> |r.value| == (if movable then 1 else 0)
    ensures r.Err? <==> movable && (action.None? || action.value.Continuous? != continuous)
  {
    if !movable then Ok([])
    else match action
      case None => Err(TypeError)
      case Some(Discrete(k)) =>
        if continuous then Err(TypeError) else Ok([IndexPart(k % ACTION_DIM)])
      case Some(Continuous(v)) =>
        if continuous then Ok([VectorPart(v[..Min(|v|, ACTION_DIM)])]) else Err(TypeError)
  }

  /** `_set_action`: decodes the head of the action list of a movable
      agent into its force, drops that element, and asserts that the list
      is then empty. The result is `None` for an agent that is not movable
      (its `action` is not written). */
  function SetAction(action: seq<ActionPart>, movable: bool, continuous: bool): (r: Result<Option<Point>>)
    ensures r.Ok? ==> |action| == (if movable then 1 else 0) && (r.value.Some? <==> movable)
    ensures r == Err(AssertionError) ==> |action| != (if movable then 1 else 0)
  {
    if movable then
      if |action| == 0 then Err(IndexError)
      else
        var force :=
          if continuous then
            match action[0]
            case VectorPart(v) => if |v| < ACTION_DIM then Err(IndexError) else Ok(DecodeContinuous(v))
            case IndexPart(_) => Err(TypeError)
          else
            match action[0]
            case IndexPart(k) => Ok(DecodeDiscrete(k))
            case VectorPart(_) => Err(TypeError);
        if force.Err? then Err(force.error)
        else if |action[1..]| != 0 then Err(AssertionError)
        else Ok(Some(force.value))
    else if |action| != 0 then Err(AssertionError)
    else Ok(None)
  }

  /** The assertion `len(action) == 0` of `_set_action` never fails on the
      list `_execute_world_step` builds: that list holds exactly one element
      for a movable agent and none otherwise. */
  lemma {:induction false} SetActionAssertionHolds(action: Option<Action>, movable: bool, continuous: bool)
    requires ScenarioAction(action, movable, continuous).Ok?
    ensures SetAction(ScenarioAction(action, movable, continuous).value, movable, continuous) != Err(AssertionError)
  {
  }

  /** One agent's part of `_execute_world_step`: build its action list and decode it. */
  function DecodeAgent(action: Option<Action>, movable: bool, continuous: bool): (r: Result<Option<Point>>)
    ensures !movable ==> r == Ok(None)
    ensures r.Ok? ==> (r.value.Some? <==> movable)
    ensures r != Err(AssertionError)
    ensures movable && action.None? ==> r.Err?
  {
    var parts := ScenarioAction(action, movable, continuous);
    if parts.Err? then Err(parts.error) else SetAction(parts.value, movable, continuous)
  }

  /** A discrete action is first reduced modulo 5 (Python's `%`, never
      negative for the positive modulus), then decoded. */
  lemma {:induction false} DiscreteActionIsReduced(k: int)
    ensures 0 <= k % ACTION_DIM < ACTION_DIM
    ensures DecodeAgent(Some(Discrete(k)), true, false) == Ok(Some(DecodeDiscrete(k % ACTION_DIM)))
    ensures DecodeAgent(Some(Discrete(k)), true, false).value.value.x != 0.0 ==> k % ACTION_DIM in {1, 2}
  {
  }

  /** A continuous action is sliced to its first five components; with the
      Box space's components in [0, 1] every force component lies in [-5, 5]. */
  lemma {:induction false} ContinuousActionBounded(v: seq<real>)
    requires |v| >= ACTION_DIM
    requires forall i :: 0 <= i < |v| ==> 0.0 <= v[i] <= 1.0
    ensures DecodeAgent(Some(Continuous(v)), true, true).Ok?
    ensures var f := DecodeAgent(Some(Continuous(v)), true, true).value.value;
            -5.0 <= f.x <= 5.0 && -5.0 <= f.y <= 5.0
  {
    var s := v[..Min(|v|, ACTION_DIM)];
    assert |s| == ACTION_DIM;
    assert forall i :: 1 <= i < ACTION_DIM ==> 0.0 <= s[i] <= 1.0;
  }

  /** The forces of a whole round, agent by agent in index order; the first
      agent whose action cannot be decoded makes the whole round raise. */
  function DecodeRound(actions: seq<Option<Action>>, movable: seq<bool>, continuous: bool): (r: Result<seq<Option<Point>>>)
    requires |actions| == |movable|
    ensures r.Ok? ==> |r.value| == |actions| &&
                      forall i :: 0 <= i < |actions| ==> DecodeAgent(actions[i], movable[i], continuous) == Ok(r.value[i])
    ensures r.Err? ==> exists i :: 0 <= i < |actions| && DecodeAgent(actions[i], movable[i], continuous).Err?
    ensures (forall i :: 0 <= i < |actions| ==> DecodeAgent(actions[i], movable[i], continuous).Ok?) ==> r.Ok?
    decreases |actions|
  {
    if |actions| == 0 then Ok([])
    else
      var k := |actions| - 1;
      var front := DecodeRound(actions[..k], movable[..k], continuous);
      if front.Err? then Err(front.error)
      else
        var last := DecodeAgent(actions[k], movable[k], continuous);
        if last.Err? then Err(last.error) else Ok(front.value + [last.value])
  }

  /** An error in a prefix of the round is the error of the whole round. */
  lemma {:induction false} DecodeRoundErrorPersists(actions: seq<Option<Action>>, movable: seq<bool>, continuous: bool, i: nat)
    requires |actions| == |movable| && i <= |actions|
    requires DecodeRound(actions[..i], movable[..i], continuous).Err?
    ensures DecodeRound(actions, movable, continuous) == DecodeRound(actions[..i], movable[..i], continuous)
    decreases |actions| - i
  {
    if i < |actions| {
      var j := i + 1;
      assert actions[..j][..i] == actions[..i];
      assert movable[..j][..i] == movable[..i];
      DecodeRoundErrorPersists(actions, movable, continuous, j);
    } else {
      assert actions[..i] == actions && movable[..i] == movable;
    }
  }

  // ---------------------------------------------------------------------
  // Episode status
  // ---------------------------------------------------------------------

  /** Position and radius of an entity. */
  datatype Body = Body(pos: Point, size: real)
  /** An agent as `_episode_status` sees it: itself, its goal, and whether it is movable. */
  datatype AgentView = AgentView(body: Body, goal: Body, movable: bool)
  datatype ObstacleView = ObstacleView(body: Body, movable: bool)
  /** The part of the world the stepper reads. */
  datatype WorldState = WorldState(agents: seq<AgentView>, obstacles: seq<ObstacleView>)

  function MovableFlags(w: WorldState): (r: seq<bool>)
    ensures |r| == |w.agents|
    ensures forall i :: 0 <= i < |r| ==> r[i] == w.agents[i].movable
  {
    seq(|w.agents|, i requires 0 <= i < |w.agents| => w.agents[i].movable)
  }

  /** The obstacles whose `movable` flag is `flag`, in their original order
      (the two list comprehensions at lines 216-217). */
  function WithMovable(obs: seq<ObstacleView>, flag: bool): (r: seq<ObstacleView>)
    ensures |r| <= |obs|
    ensures forall o :: o in r <==> o in obs && o.movable == flag
    decreases |obs|
  {
    if |obs| == 0 then []
    else (if obs[0].movable == flag then [obs[0]] else []) + WithMovable(obs[1..], flag)
  }

  /** The filter keeps the order of the list: filtering a list extended by
      one obstacle extends the filtered list by that obstacle, or by nothing. */
  lemma {:induction false} WithMovableAppend(obs: seq<ObstacleView>, o: ObstacleView, flag: bool)
    ensures WithMovable(obs + [o], flag) == WithMovable(obs, flag) + (if o.movable == flag then [o] else [])
    decreases |obs|
  {
    if |obs| == 0 {
      assert obs + [o] == [o];
      assert [o][1..] == [];
    } else {
      assert (obs + [o])[0] == obs[0];
      assert (obs + [o])[1..] == obs[1..] + [o];
      WithMovableAppend(obs[1..], o, flag);
    }
  }

  /** Every obstacle is either static or dynamic, and each is kept once:
      the two filtered lists together are exactly as long as the list. */
  lemma {:induction false} WithMovablePartition(obs: seq<ObstacleView>)
    ensures |WithMovable(obs, true)| + |WithMovable(obs, false)| == |obs|
    decreases |obs|
  {
    if |obs| > 0 {
      WithMovablePartition(obs[1..]);
    }
  }

  /** The smallest squared distance from `p` to an obstacle of the list. */
  function MinSqDist(p: Point, obs: seq<ObstacleView>): real
    requires |obs| > 0
    decreases |obs|
  {
    var d := SqDist(p, obs[0].body.pos);
    if |obs| == 1 then d
    else
      var rest := MinSqDist(p, obs[1..]);
      if d <= rest then d else rest
  }

  /** `min(norm(p - o) for o in obs) <= r`: some obstacle lies within `r`. */
  lemma {:induction false} MinSqDistBelow(p: Point, obs: seq<ObstacleView>, t: real)
    requires |obs| > 0
    ensures MinSqDist(p, obs) <= t <==> exists j :: 0 <= j < |obs| && SqDist(p, obs[j].body.pos) <= t
    decreases |obs|
  {
    if |obs| > 1 {
      MinSqDistBelow(p, obs[1..], t);
      if exists j :: 0 <= j < |obs| && SqDist(p, obs[j].body.pos) <= t {
        var j :| 0 <= j < |obs| && SqDist(p, obs[j].body.pos) <= t;
        if j > 0 {
          assert obs[1..][j - 1] == obs[j];
        }
      }
      if MinSqDist(p, obs[1..]) <= t {
        var j :| 0 <= j < |obs[1..]| && SqDist(p, obs[1..][j].body.pos) <= t;
        assert obs[j + 1] == obs[1..][j];
      }
    }
  }

  /** `static_obs_dist[i] <= min_static_obs_dist[i]` for the pairs `zip`
      forms (lines 220-226): agent `i` and the i-th static obstacle's
      radius, the nearest distance over all static obstacles. */
  function CrossedStatic(agents: seq<AgentView>, stat: seq<ObstacleView>): (r: seq<bool>)
    ensures |r| == Min(|agents|, |stat|)
  {
    seq(Min(|agents|, |stat|), i requires 0 <= i < Min(|agents|, |stat|) =>
      var r := agents[i].body.size + stat[i].body.size;
      r >= 0.0 && MinSqDist(agents[i].body.pos, stat) <= r * r)
  }

  /** Lines 232-233 as written: the list of radius sums is compared with
      itself, so every entry is `d <= d`. */
  function CrossedDynamic(agents: seq<AgentView>, dyn: seq<ObstacleView>): (r: seq<bool>)
    ensures |r| == Min(|agents|, |dyn|)
  {
    var minDist := seq(Min(|agents|, |dyn|), i requires 0 <= i < Min(|agents|, |dyn|) =>
      agents[i].body.size + dyn[i].body.size);
    seq(|minDist|, i requires 0 <= i < |minDist| => minDist[i] <= minDist[i])
  }

  /** `[...] or dynamic_obs` at line 236: Python's `or` returns the list of
      goal tests when it is non-empty, and the dynamic obstacles otherwise. */
  datatype Termination = PerAgent(flags: seq<bool>) | DynamicObstacleList(obstacles: seq<ObstacleView>)

  datatype EpisodeFlags = EpisodeFlags(termination: Termination, truncation: seq<bool>)

  /** `_episode_status` as written. `min()` over an empty obstacle list
      raises ValueError as soon as there is an agent (lines 220 and 229). */
  function EpisodeStatus(w: WorldState): (r: Result<EpisodeFlags>)
    ensures r.Err? <==> |w.agents| > 0 &&
                        (|WithMovable(w.obstacles, false)| == 0 || |WithMovable(w.obstacles, true)| == 0)
    ensures r.Err? ==> r.error == ValueError
  {
    var dyn := WithMovable(w.obstacles, true);
    var stat := WithMovable(w.obstacles, false);
    if |w.agents| > 0 && (|stat| == 0 || |dyn| == 0) then Err(ValueError)
    else
      var goalHit := seq(|w.agents|, i requires 0 <= i < |w.agents| =>
        Within(Sub(w.agents[i].body.pos, w.agents[i].goal.pos), w.agents[i].body.size + w.agents[i].goal.size));
      var crossedStatic := CrossedStatic(w.agents, stat);
      var crossedDynamic := CrossedDynamic(w.agents, dyn);
      var truncation := seq(Min(|crossedStatic|, |crossedDynamic|), i requires 0 <= i < Min(|crossedStatic|, |crossedDynamic|) =>
        crossedStatic[i] || crossedDynamic[i]);
      var termination := if |goalHit| > 0 then PerAgent(goalHit) else DynamicObstacleList(dyn);
      Ok(EpisodeFlags(termination, truncation))
  }

  /** With at least one agent the `or dynamic_obs` has no effect: termination
      holds for agent `i` exactly when its distance to its goal is at most
      the sum of the two radii. */
  lemma {:induction false} TerminationIsGoalReached(w: WorldState)
    requires |w.agents| > 0 && EpisodeStatus(w).Ok?
    ensures EpisodeStatus(w).value.termination.PerAgent?
    ensures var flags := EpisodeStatus(w).value.termination.flags;
            |flags| == |w.agents| &&
            forall i :: 0 <= i < |w.agents| ==>
              (flags[i] <==> Within(Sub(w.agents[i].body.pos, w.agents[i].goal.pos),
                                    w.agents[i].body.size + w.agents[i].goal.size))
  {
  }

  /** Because line 233 compares a list with itself, every truncation entry
      is true, and there are only as many entries as the shortest of the
      agents, the static obstacles and the dynamic obstacles. */
  lemma {:induction false} TruncationAlwaysTrue(w: WorldState)
    requires EpisodeStatus(w).Ok?
    ensures var t := EpisodeStatus(w).value.truncation;
            |t| == Min(|w.agents|, Min(|WithMovable(w.obstacles, false)|, |WithMovable(w.obstacles, true)|)) &&
            forall i :: 0 <= i < |t| ==> t[i]
  {
    var dyn := WithMovable(w.obstacles, true);
    var stat := WithMovable(w.obstacles, false);
    var cd := CrossedDynamic(w.agents, dyn);
    assert forall i :: 0 <= i < |cd| ==> cd[i];
  }

  /** The static check pairs agent `i` with the radius of the i-th static
      obstacle only, while the distance is the nearest over all of them. */
  lemma {:induction false} StaticCheckPairsByIndex(agents: seq<AgentView>, stat: seq<ObstacleView>, i: nat)
    requires i < |agents| && i < |stat|
    ensures CrossedStatic(agents, stat)[i] <==>
              exists j :: 0 <= j < |stat| &&
                Within(Sub(agents[i].body.pos, stat[j].body.pos), agents[i].body.size + stat[i].body.size)
  {
    var p := agents[i].body.pos;
    var r := agents[i].body.size + stat[i].body.size;
    var t := r * r;
    assert CrossedStatic(agents, stat)[i] == (r >= 0.0 && MinSqDist(p, stat) <= t);
    MinSqDistBelow(p, stat, t);
    assert forall j :: 0 <= j < |stat| ==> (Within(Sub(p, stat[j].body.pos), r) <==> r >= 0.0 && SqDist(p, stat[j].body.pos) <= t);
  }

  // ---------------------------------------------------------------------
  // Flag lookup: the source as written, and the corrected lookup
  // ---------------------------------------------------------------------

  /** The flag tables as the source holds them: `reset` builds dictionaries
      keyed by agent name (lines 145-146), and lines 257-258 replace them
      with the plain lists `_episode_status` returns. */
  datatype FlagTable = ByName(entries: map<string, bool>) | ByPosition(list: seq<bool>)

  /** `self.terminations[self.agent_selection]` as written: a dictionary
      lookup by name, or indexing a list with a string, which raises. */
  function LookupAsWritten(table: FlagTable, name: string): (r: Result<bool>)
    ensures table.ByPosition? ==> r == Err(TypeError)
    ensures table.ByName? ==> (r.Ok? <==> name in table.entries)
    ensures table.ByName? && name in table.entries ==> r == Ok(table.entries[name])
    ensures table.ByName? && name !in table.entries ==> r == Err(KeyError)
  {
    match table
    case ByName(entries) => if name in entries then Ok(entries[name]) else Err(KeyError)
    case ByPosition(_) => Err(TypeError)
  }

  /** After `reset`, looking up any agent finds `False`; after the first
      completed round the same lookup raises TypeError, so the first step of
      the second round can never run. */
  lemma {:induction false} SecondRoundLookupRaises(names: set<string>, name: string, flags: seq<bool>)
    requires name in names
    ensures LookupAsWritten(ByName(map a | a in names :: false), name) == Ok(false)
    ensures LookupAsWritten(ByPosition(flags), name) == Err(TypeError)
  {
  }

  /** The corrected lookup the model uses: `terminations[idx] or
      truncations[idx]` on the positional lists, with Python's short-circuit
      `or` and IndexError past the end of a list. */
  function DeadFlag(terms: seq<bool>, truncs: seq<bool>, idx: nat): (r: Result<bool>)
    ensures idx < |terms| && idx < |truncs| ==> r == Ok(terms[idx] || truncs[idx])
    ensures idx < |terms| && terms[idx] ==> r == Ok(true)
    ensures r.Err? <==> idx >= |terms| || (!terms[idx] && idx >= |truncs|)
    ensures r.Err? ==> r.error == IndexError
  {
    if idx >= |terms| then Err(IndexError)
    else if terms[idx] then Ok(true)
    else if idx >= |truncs| then Err(IndexError)
    else Ok(truncs[idx])
  }

  // ---------------------------------------------------------------------
  // The turn order
  // ---------------------------------------------------------------------

  /** One live step of the turn order: the selection moves to the next agent
      cyclically, and a round is counted when it wraps to the first. */
  function Tick(selection: nat, steps: nat, n: nat): (r: (nat, nat))
    requires selection < n
    ensures r.0 < n
    ensures r.0 == 0 <==> selection == n - 1
    ensures r.1 == if r.0 == 0 then steps + 1 else steps
  {
    var next := (selection + 1) % n;
    (next, if next == 0 then steps + 1 else steps)
  }

  /** `k` live steps in a row. */
  function Ticks(selection: nat, steps: nat, n: nat, k: nat): (r: (nat, nat))
    requires selection < n
    ensures r.0 < n
    decreases k
  {
    if k == 0 then (selection, steps)
    else
      var t := Tick(selection, steps, n);
      Ticks(t.0, t.1, n, k - 1)
  }

  lemma {:induction false} TicksCompose(selection: nat, steps: nat, n: nat, a: nat, b: nat)
    requires selection < n
    ensures var m := Ticks(selection, steps, n, a);
            Ticks(selection, steps, n, a + b) == Ticks(m.0, m.1, n, b)
    decreases a
  {
    if a > 0 {
      var t := Tick(selection, steps, n);
      TicksCompose(t.0, t.1, n, a - 1, b);
      assert a + b - 1 == (a - 1) + b;
    }
  }

  /** From agent `j`, the remaining `n - j` steps of a round bring the
      selection back to the first agent and count exactly one round. */
  lemma {:induction false} RestOfRound(j: nat, steps: nat, n: nat)
    requires j < n
    ensures Ticks(j, steps, n, n - j) == (0, steps + 1)
    decreases n - j
  {
    var t := Tick(j, steps, n);
    if j == n - 1 {
      assert Ticks(t.0, t.1, n, 0) == (0, steps + 1);
    } else {
      assert t == (j + 1, steps);
      RestOfRound(j + 1, steps, n);
      assert n - j - 1 == n - (j + 1);
    }
  }

  /** From the state `reset` leaves (first agent selected, no rounds), `k`
      full rounds of live steps leave the first agent selected and
      `steps == k`. */
  lemma {:induction false} RoundsFromReset(n: nat, k: nat)
    requires n >= 1
    ensures Ticks(0, 0, n, k * n) == (0, k)
  {
    if k > 0 {
      RoundsFromReset(n, k - 1);
      assert k * n == (k - 1) * n + n;
      TicksCompose(0, 0, n, (k - 1) * n, n);
      RestOfRound(0, k - 1, n);
    }
  }

  /** The key `reset` reads from its options: `'problem_name'`, or
      `'v_cluster'` when no options are given (line 139). */
  function ResetProblemName(options: Option<map<string, string>>): (r: Result<string>)
    ensures options.None? ==> r == Ok("v_cluster")
    ensures options.Some? ==> (r.Ok? <==> "problem_name" in options.value)
    ensures options.Some? && r.Ok? ==> r.value == options.value["problem_name"]
    ensures r.Err? ==> r.error == KeyError
  {
    match options
    case None => Ok("v_cluster")
    case Some(m) => if "problem_name" in m then Ok(m["problem_name"]) else Err(KeyError)
  }

  /** Options keyed `'problem_instance'` instead of `'problem_name'` make
      `reset` raise KeyError. */
  lemma OtherOptionKeyRaises(name: string)
    ensures ResetProblemName(Some(map["problem_instance" := name])) == Err(KeyError)
  {
  }

  /** The world step keeps the set of agents. */
  ghost predicate KeepsAgents(physics: (WorldState, seq<Option<Point>>) -> WorldState) {
    forall w: WorldState, f: seq<Option<Point>> :: |physics(w, f).agents| == |w.agents|
  }

  // ---------------------------------------------------------------------
  // The environment
  // ---------------------------------------------------------------------

  class Env {
    /** The number of agents (`possible_agents`). */
    const n: nat
    const continuous: bool
    var world: WorldState
    /** The index of `agent_selection`. */
    var selection: nat
    /** `current_actions`: the action buffered for each agent this round. */
    var currentActions: array<Option<Action>>
    var steps: nat
    /** Per-agent termination and truncation flags, by agent index. */
    var terminations: seq<bool>
    var truncations: seq<bool>
    var rewards: seq<real>
    var cumulativeRewards: seq<real>

    ghost predicate Valid()
      reads this
    {
      n >= 1 && selection < n && currentActions.Length == n && |world.agents| == n
    }

    /** The fields `__init__` sets (lines 57-108); the flag tables do not
        exist until the first `reset`, so they start empty. */
    constructor (world: WorldState, continuous: bool)
      requires |world.agents| >= 1
      ensures Valid() && fresh(currentActions)
      ensures this.n == |world.agents| && this.continuous == continuous && this.world == world
      ensures steps == 0 && selection == 0
      ensures currentActions[..] == seq(n, _ => None)
      ensures terminations == [] && truncations == [] && rewards == [] && cumulativeRewards == []
    {
      n := |world.agents|;
      this.continuous := continuous;
      this.world := world;
      selection := 0;
      steps := 0;
      currentActions := new Option<Action>[|world.agents|](_ => None);
      terminations, truncations := [], [];
      rewards, cumulativeRewards := [], [];
    }

    /** `reset` (lines 133-152). Scripted obstacles are assumed stopped
        already. `resetWorld` stands for `scenario.reset_world`: the outcome
        it ends with and the world it leaves, which a scenario that raises
        has already changed in part. An exception from it propagates before
        any flag is touched. */
    method Reset(options: Option<map<string, string>>, resetWorld: string -> (Outcome, WorldState)) returns (r: Outcome)
      requires Valid()
      requires forall name :: |resetWorld(name).1.agents| == n
      modifies this
      ensures Valid()
      ensures var name := ResetProblemName(options);
              name.Err? ==>
                r == Raised(KeyError) && world == old(world)
      ensures var name := ResetProblemName(options);
              name.Ok? ==> world == resetWorld(name.value).1
      ensures var name := ResetProblemName(options);
              name.Err? || resetWorld(name.value).0 != Completed ==>
                r == (if name.Err? then Raised(KeyError) else resetWorld(name.value).0) &&
                selection == old(selection) &&
                steps == old(steps) && currentActions == old(currentActions) &&
                terminations == old(terminations) && truncations == old(truncations) &&
                rewards == old(rewards) && cumulativeRewards == old(cumulativeRewards)
      ensures var name := ResetProblemName(options);
              name.Ok? && resetWorld(name.value).0 == Completed ==>
                r == Completed &&
                rewards == seq(n, _ => 0.0) && cumulativeRewards == seq(n, _ => 0.0) &&
                terminations == seq(n, _ => false) && truncations == seq(n, _ => false) &&
                selection == 0 && steps == 0 &&
                fresh(currentActions) && currentActions[..] == seq(n, _ => None)
    {
      var name := ResetProblemName(options);
      if name.Err? {
        return Raised(name.error);
      }
      var (outcome, w) := resetWorld(name.value);
      world := w;
      if outcome != Completed {
        return outcome;
      }
      rewards := seq(n, _ => 0.0);
      cumulativeRewards := seq(n, _ => 0.0);
      terminations := seq(n, _ => false);
      truncations := seq(n, _ => false);
      selection := 0;
      steps := 0;
      currentActions := new Option<Action>[n](_ => None);
      r := Completed;
    }

    /** `_execute_world_step` (lines 154-185): decode every agent's buffered
        action in index order, run the world step, and set every reward to
        the scenario's reward, 0. */
    method ExecuteWorldStep(physics: (WorldState, seq<Option<Point>>) -> WorldState) returns (r: Outcome)
      requires Valid()
      modifies this`world, this`rewards
      ensures var decoded := DecodeRound(old(currentActions[..]), MovableFlags(old(world)), continuous);
              if decoded.Err? then
                r == Raised(decoded.error) && world == old(world) && rewards == old(rewards)
              else
                r == Completed && world == physics(old(world), decoded.value) &&
                rewards == seq(n, _ => 0.0)
    {
      var movable := MovableFlags(world);
      var forces: seq<Option<Point>> := [];
      var i := 0;
      while i < n
        invariant 0 <= i <= n
        invariant DecodeRound(currentActions[..i], movable[..i], continuous) == Ok(forces)
      {
        var agent := DecodeAgent(currentActions[i], movable[i], continuous);
        assert currentActions[..i + 1][..i] == currentActions[..i];
        assert movable[..i + 1][..i] == movable[..i];
        if agent.Err? {
          DecodeRoundErrorPersists(currentActions[..], movable, continuous, i + 1);
          assert currentActions[..] == currentActions[..n] && movable == movable[..n];
          return Raised(agent.error);
        }
        forces := forces + [agent.value];
        i := i + 1;
      }
      assert currentActions[..] == currentActions[..n] && movable == movable[..n];
      world := physics(world, forces);
      rewards := seq(n, _ => 0.0);
      r := Completed;
    }

    /** The end of a round in `step` (lines 251-258): the world steps with
        the buffered actions, then the flags become the episode status. An
        exception leaves what was already changed. */
    method CompleteRound(physics: (WorldState, seq<Option<Point>>) -> WorldState) returns (r: Outcome)
      requires Valid()
      requires KeepsAgents(physics)
      modifies this`world, this`rewards, this`terminations, this`truncations
      ensures Valid()
      ensures var decoded := DecodeRound(currentActions[..], MovableFlags(old(world)), continuous);
              if decoded.Err? then
                r == Raised(decoded.error) && world == old(world) && rewards == old(rewards) &&
                terminations == old(terminations) && truncations == old(truncations)
              else
                world == physics(old(world), decoded.value) && rewards == seq(n, _ => 0.0) &&
                var status := EpisodeStatus(world);
                if status.Err? then
                  r == Raised(status.error) &&
                  terminations == old(terminations) && truncations == old(truncations)
                else
                  r == Completed &&
                  PerAgent(terminations) == status.value.termination &&
                  truncations == status.value.truncation
    {
      r := ExecuteWorldStep(physics);
      if r.Raised? {
        return;
      }
      var status := EpisodeStatus(world);
      if status.Err? {
        return Raised(status.error);
      }
      TerminationIsGoalReached(world);
      terminations := status.value.termination.flags;
      truncations := status.value.truncation;
    }

    /** `step` (lines 240-258). A step of a terminated or truncated agent
        changes nothing here (`_was_dead_step` is not modelled). A live step
        stores the action in the selected agent's slot and moves the
        selection on; when it wraps to the first agent, a round is counted
        and the round is completed as `CompleteRound` states. */
    method Step(action: Action, physics: (WorldState, seq<Option<Point>>) -> WorldState) returns (r: Outcome)
      requires Valid()
      requires KeepsAgents(physics)
      modifies this, currentActions
      ensures Valid() && currentActions == old(currentActions)
      ensures cumulativeRewards == old(cumulativeRewards)
      ensures var dead := DeadFlag(old(terminations), old(truncations), old(selection));
              dead != Ok(false) ==>
                r == (if dead.Err? then Raised(dead.error) else Completed) &&
                selection == old(selection) && steps == old(steps) &&
                currentActions[..] == old(currentActions[..]) && world == old(world) &&
                terminations == old(terminations) && truncations == old(truncations) &&
                rewards == old(rewards)
      ensures DeadFlag(old(terminations), old(truncations), old(selection)) == Ok(false) ==>
                (selection, steps) == Tick(old(selection), old(steps), n) &&
                currentActions[..] == old(currentActions[..])[old(selection) := Some(action)]
      ensures DeadFlag(old(terminations), old(truncations), old(selection)) == Ok(false) && selection != 0 ==>
                r == Completed && world == old(world) && rewards == old(rewards) &&
                terminations == old(terminations) && truncations == old(truncations)
      ensures DeadFlag(old(terminations), old(truncations), old(selection)) == Ok(false) && selection == 0 ==>
                var decoded := DecodeRound(currentActions[..], MovableFlags(old(world)), continuous);
                if decoded.Err? then
                  r == Raised(decoded.error) && world == old(world) && rewards == old(rewards) &&
                  terminations == old(terminations) && truncations == old(truncations)
                else
                  world == physics(old(world), decoded.value) && rewards == seq(n, _ => 0.0) &&
                  var status := EpisodeStatus(world);
                  if status.Err? then
                    r == Raised(status.error) &&
                    terminations == old(terminations) && truncations == old(truncations)
                  else
                    r == Completed &&
                    PerAgent(terminations) == status.value.termination &&
                    truncations == status.value.truncation
    {
      var dead := DeadFlag(terminations, truncations, selection);
      if dead.Err? {
        return Raised(dead.error);
      }
      if dead.value {
        return Completed;
      }
      var current := selection;
      var next := (current + 1) % n;
      selection := next;
      currentActions[current] := Some(action);
      r := Completed;
      if next == 0 {
        steps := steps + 1;
        r := CompleteRound(physics);
      }
    }
  }
}
