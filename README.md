# Signal8 / conav_suite in Dafny

This project models the core of the conav_suite environments. They are PettingZoo-style multi-agent
navigation environments, and Dafny proves properties of the model. It covers these parts:

- **The turn-based stepper** `SimpleEnv` (`simple_env.dfy`, class `SimpleEnv.Env`).
  - Each `step` stores one agent's action and moves a cyclic agent selection on.
  - When the agent selection wraps to the first agent, the stepper decodes every buffered action into a force, runs one world step and recomputes the episode flags.
  - The world step and the scenario's `reset_world` are opaque and are passed in as functions.
- **The Signal8 scenario** (`signal8_scenario.dfy`, class `Signal8Scenario.World`).
  - `make_world` builds agents, goals, large and small obstacles.
  - `reset_world` rejection-samples start positions that keep clear of the problem instance's regions. These are rectangles, or triangles for 'corners'.
  - The ground agent's observation: its own kinematics, then one slot per small obstacle and one for its goal. A slot holds the relative position, or a sentinel when the entity is beyond the observation range.
- **The scripted lawn-mower obstacle** `NPC` (`npc.dfy`). It is a three-state machine that drives to a farm's destination, zigzags across the farm's bounds and turns back when it leaves them.
- **The two older box-sampling scenarios.**
  - sig8 (`sig8_scenario.dfy`) has one agent, a goal and four obstacles. The obstacles are split between two boxes by index.
  - The intermediate signal8 (`sig8_signal8_scenario.dfy`) has `num_obstacles` obstacles drawn from one static box. The later half of them are flagged movable when the world has dynamic adversaries.
- **The problem table** of `signal8/utils/problems.py` (`problems.dfy`).

Shared modules:

- `Common` holds `Option`, `Result`, the Python exception kinds, and `Outcome` (completed, raised, or out of draws).
- `Geometry` holds points, intervals, rectangles and squared-distance tests.
- `RandomSource` holds the random generator.

How the model treats randomness and exceptions:

- **The random generator.** It is a class over a finite stream of unit draws in `[0, 1)` supplied by the caller. numpy's `uniform(low, high)` is `low + (high - low) * u`. A rejection loop that would go on drawing forever stops with `StreamExhausted` when the stream runs out. That is the only way the model's loops end where the source's would not.
- **Exceptions.** Every exception the modelled code raises is an `Err`/`Raised` value, never a precondition. This covers:
  - `KeyError` for unknown problem names, option keys and farm numbers;
  - `IndexError` for empty entity lists;
  - `ZeroDivisionError` for an empty instance;
  - `ValueError` for `min()` or `np.concatenate` of an empty list and for the agent limits;
  - `TypeError` and `AttributeError`.
- **Distances.** `np.linalg.norm(v) <= r` is written as the squared test `Within(v, r)`. `Geometry.WithinIsNormTest` proves the two equivalent.

Two behaviours of the stepper are modelled as written:

- `_episode_status` compares the list of dynamic radius sums with itself (`simple_env.py:233`). So every truncation entry is true (`SimpleEnv.TruncationAlwaysTrue`).
- The static check pairs agent `i` with the radius of the i-th static obstacle (`SimpleEnv.StaticCheckPairsByIndex`).

The step lookup after the first round (`simple_env.py:257-258`) is a finding below. The stepper uses the corrected, positional lookup.

## Model

| member | source | states |
|---|---|---|
| Geometry.WithinIsNormTest | signal8/signal8.py:185 | for the Euclidean norm `d` of `v`, `Within(v, r)` holds exactly when `d <= r` |
| Geometry.OverlapIsSharedPoint | signal8/utils/problems.py:4-21 | two proper rectangles overlap exactly when some point lies in both |
| Geometry.KinematicObservation | sig8/sig8.py:85-86 | the observation (the same in sig8/signal8.py:95-96) is four numbers from which the agent's position and velocity are recovered unchanged |
| Geometry.ObservationOfDecoded | sig8/sig8.py:85-86 | every four-number vector is the observation of the state decoded from it (the encoding is a bijection) |
| RandomSource.DrawInRect | signal8/signal8.py:166 | a draw `uniform(*zip(*rect))` from unit draws lands inside a proper rectangle |
| RandomSource.Rng.UniformPoint | signal8/signal8.py:93 | a 2-D draw consumes exactly two unit draws and interpolates each coordinate between its bounds |
| RandomSource.Rng.UniformIn | sig8/sig8.py:63 | a draw from a box consumes two unit draws and lands in the box when the box is proper |
| SimpleEnv.DecodeDiscrete | signal8/utils/simple_env.py:197-207 | indices 1 to 4 push with force 5 along exactly one axis; every other index is the zero force |
| SimpleEnv.DiscreteRoundTrip | signal8/utils/simple_env.py:197-207 | the discrete table is injective on the five action indices (re-encoding recovers the index) |
| SimpleEnv.DecodeContinuous | signal8/utils/simple_env.py:192-195 | with Box-space components in [0, 1] each force component lies in [-5, 5]; a balanced push pair gives no force |
| SimpleEnv.ScenarioAction | signal8/utils/simple_env.py:156-166 | the action list is one element for a movable agent and empty otherwise; it fails exactly for a movable agent whose slot is unset or of the other action kind |
| SimpleEnv.SetAction | signal8/utils/simple_env.py:188-210 | a decoded list had exactly one element for a movable agent and none otherwise, and a force is produced exactly for movable agents; an assertion failure means the list had the wrong length |
| SimpleEnv.SetActionAssertionHolds | signal8/utils/simple_env.py:156-167 | the `assert len(action) == 0` of `_set_action` never fails on the list `_execute_world_step` builds |
| SimpleEnv.DecodeAgent | signal8/utils/simple_env.py:156-167 | one agent's action list built and decoded: no force and no error for an agent that is not movable, a force exactly for a movable one, never the assertion failure, and an error for a movable agent without an action |
| SimpleEnv.DiscreteActionIsReduced | signal8/utils/simple_env.py:165 | a discrete action is reduced to `k % 5` in 0..4 before decoding, and an x force comes only from indices 1 and 2 |
| SimpleEnv.ContinuousActionBounded | signal8/utils/simple_env.py:162 | a continuous action in [0, 1] of length at least 5 always decodes, to a force within [-5, 5] on both axes |
| SimpleEnv.DecodeRound | signal8/utils/simple_env.py:156-167 | the round decodes exactly when every agent decodes, and then agent `i`'s force is its own decoding; a failing round has a failing agent |
| SimpleEnv.DecodeRoundErrorPersists | signal8/utils/simple_env.py:156-167 | an error in the first agents is the error of the whole round: later agents are never reached |
| SimpleEnv.WithMovable | signal8/utils/simple_env.py:216-217 | the selected obstacles are exactly the obstacles with the requested `movable` flag |
| SimpleEnv.WithMovableAppend | signal8/utils/simple_env.py:216-217 | the comprehension keeps list order and multiplicity: extending the list by one obstacle extends the selection by that obstacle exactly when its flag matches |
| SimpleEnv.WithMovablePartition | signal8/utils/simple_env.py:216-217 | the dynamic and the static selections together are exactly as long as the obstacle list |
| SimpleEnv.MinSqDistBelow | signal8/utils/simple_env.py:220-221 | the minimum distance to a non-empty obstacle list is at most `t` exactly when some obstacle is within `t` |
| SimpleEnv.CrossedStatic | signal8/utils/simple_env.py:224-226 | `zip` truncates the static check to the shorter of the agents and the static obstacles |
| SimpleEnv.CrossedDynamic | signal8/utils/simple_env.py:232-233 | `zip` truncates the dynamic check to the shorter of the agents and the dynamic obstacles |
| SimpleEnv.EpisodeStatus | signal8/utils/simple_env.py:215-238 | `_episode_status` raises ValueError exactly when there is an agent and no static or no dynamic obstacle |
| SimpleEnv.TerminationIsGoalReached | signal8/utils/simple_env.py:219-236 | with at least one agent, termination of agent `i` holds exactly when its distance to its goal is at most the sum of the two radii |
| SimpleEnv.TruncationAlwaysTrue | signal8/utils/simple_env.py:232-235 | every truncation entry is true, and there are as many as the fewest of agents, static and dynamic obstacles |
| SimpleEnv.StaticCheckPairsByIndex | signal8/utils/simple_env.py:220-226 | agent `i` crosses the static threshold exactly when some static obstacle is within agent `i`'s radius plus the i-th static obstacle's radius |
| SimpleEnv.LookupAsWritten | signal8/utils/simple_env.py:242-243 | looking up a known name in a name-keyed table gives its flag, an unknown name raises KeyError; indexing a positional list by name raises TypeError |
| SimpleEnv.SecondRoundLookupRaises | signal8/utils/simple_env.py:257-258 | right after `reset` every agent's lookup gives False; once the flags are replaced by lists, the lookup raises TypeError |
| SimpleEnv.DeadFlag | signal8/utils/simple_env.py:241-244 | the corrected lookup is `terminations[i] or truncations[i]`, short-circuiting, with IndexError exactly past the end of the list it reads |
| SimpleEnv.Tick | signal8/utils/simple_env.py:248-254 | the next selection stays in range, wraps to the first agent exactly from the last, and a round is counted exactly on the wrap |
| SimpleEnv.Ticks | signal8/utils/simple_env.py:248-254 | any number of live steps keeps the selection in range |
| SimpleEnv.TicksCompose | signal8/utils/simple_env.py:248-254 | `a + b` live steps are `a` steps followed by `b` steps |
| SimpleEnv.RestOfRound | signal8/utils/simple_env.py:249-254 | from agent `j`, the remaining `n - j` live steps return to the first agent and count exactly one round |
| SimpleEnv.RoundsFromReset | signal8/utils/simple_env.py:149-150 | from the reset state, `k * n` live steps leave the first agent selected and `steps == k` |
| SimpleEnv.ResetProblemName | signal8/utils/simple_env.py:139 | the problem name is `options['problem_name']`, `'v_cluster'` without options, and KeyError for options lacking the key |
| SimpleEnv.OtherOptionKeyRaises | signal8/utils/simple_env.py:139 | options keyed `'problem_instance'` make `reset` raise KeyError |
| SimpleEnv.Env.constructor | signal8/utils/simple_env.py:57-108 | a new environment has no rounds and an all-`None` action buffer; selection 0 stands for `agent_selection`, which `__init__` does not set yet (see the `SimpleEnv.Env.Step` line under Left out) |
| SimpleEnv.Env.Reset | signal8/utils/simple_env.py:133-152 | a missing option key raises KeyError and changes nothing; otherwise the world is what `reset_world` leaves; an exception from `reset_world` propagates with every other field unchanged; a completed reset zeroes every reward, clears every flag, selects the first agent, zeroes the rounds and empties the buffer |
| SimpleEnv.Env.ExecuteWorldStep | signal8/utils/simple_env.py:154-185 | the world steps with the decoded round and every reward becomes 0; an undecodable round raises and leaves world and rewards |
| SimpleEnv.Env.CompleteRound | signal8/utils/simple_env.py:251-258 | the round's buffered actions step the world; then the flags become the episode status, or an exception leaves the flags as they were |
| SimpleEnv.Env.Step | signal8/utils/simple_env.py:240-258 | a dead agent's step changes nothing; a live step buffers the action and advances the selection; on the wrap the world steps and the flags become the episode status |
| Signal8Scenario.CheckLimits | signal8/signal8.py:23-27 | the environment accepts at most two agents and four large obstacles and raises ValueError otherwise |
| Signal8Scenario.Candidate | signal8/signal8.py:93 | every candidate `uniform(-1, +1, 2)` lies in the world square |
| Signal8Scenario.FirstAcceptedFrom | signal8/signal8.py:91-96 | the index found is the first candidate meeting the condition: it does, and none before it does |
| Signal8Scenario.GeneratePosition | signal8/signal8.py:91-96 | `_generate_position` returns the first candidate meeting the condition, which lies in the world square, and consumes exactly the draws up to it |
| Signal8Scenario.Enlarge | signal8/signal8.py:107-108 | enlarging moves each vertex away from the centroid so that its offset grows by the factor `1 + eps` |
| Signal8Scenario.EnlargeKeepsCentroid | signal8/signal8.py:106-109 | the enlarged triangle has the same centroid: it is a scaling about the centroid |
| Signal8Scenario.FirstTriangleFrom | signal8/signal8.py:160 | the index found is the first triangle containing the point |
| Signal8Scenario.FirstTriangleExists | signal8/signal8.py:148-160 | a containing triangle is found exactly when the point is inside some triangle, so `next(...)` of an accepted point is never None |
| Signal8Scenario.SafePosition | signal8/signal8.py:99-101 | definition: outside every constraint's x band and every constraint's y band, each widened by `eps` |
| Signal8Scenario.OutsideTriangles | signal8/signal8.py:104-110 | definition: in none of the triangles enlarged about their centroid by `eps` |
| Signal8Scenario.SmallSafe | signal8/signal8.py:178-187 | definition: not within the constraints (inside some triangle, or inside some widened x or y band) and not within `eps` of any agent, goal or large obstacle |
| Signal8Scenario.SafeOutsideRects | signal8/signal8.py:99-101 | a position accepted for an agent lies in no constraint rectangle, even widened by `eps` |
| Signal8Scenario.SmallSafeKeepsDistance | signal8/signal8.py:185-187 | an accepted small-obstacle position is more than `eps` away from every agent, goal and large obstacle |
| Signal8Scenario.SmallSafeIsSafePosition | signal8/signal8.py:178-187 | for rectangle instances the small-obstacle test is the agent test with its own `eps` plus the separation from the other entities |
| Signal8Scenario.SentinelMeansOutOfRange | signal8/signal8.py:232-243 | for a positive range a slot holds the sentinel exactly when the entity is out of range |
| Signal8Scenario.DrawStartAndGoal | signal8/signal8.py:142-143 | the start and goal drawn for an agent both meet the agent condition and lie in the world square |
| Signal8Scenario.PlaceAgents | signal8/signal8.py:120-144 | every agent gets goal `i` and return marker `2n-1-i`, all at rest; the marker sits on the start; start and goal meet the agent condition |
| Signal8Scenario.PlaceInRects | signal8/signal8.py:152-166 | every large obstacle is at rest and, when rectangle `i % len(instance)` is proper, inside it |
| Signal8Scenario.DrawFreeCorner | signal8/signal8.py:158-164 | the position drawn lies in a triangle whose first containing index is not occupied yet |
| Signal8Scenario.PlaceInCorners | signal8/signal8.py:151-164 | every large obstacle is at rest in its own triangle, no two sharing their first triangle, and completing implies no more obstacles than triangles |
| Signal8Scenario.World.constructor | signal8/signal8.py:42-82 | the world holds `n` agents, `2n` goals, the large and small obstacles, and buffer distance = agent size + 0.1 |
| Signal8Scenario.World.ResetAgentsAndGoals | signal8/signal8.py:113-144 | after `_reset_agents_and_goals` every agent is placed as `PlaceAgents` states |
| Signal8Scenario.World.ResetLargeObstacles | signal8/signal8.py:147-166 | raises ZeroDivisionError exactly for an empty instance; otherwise places every large obstacle per instance kind |
| Signal8Scenario.World.ResetSmallObstacles | signal8/signal8.py:169-191 | raises IndexError exactly without small obstacles; otherwise every small obstacle is at rest, in the world and keeps clear of constraints and other entities |
| Signal8Scenario.World.ResetWorld | signal8/signal8.py:193-201 | installs the instance; a completed reset leaves agents, goals, large and small obstacles all placed, and the only errors are the two above |
| Signal8Scenario.World.Observation | signal8/signal8.py:208-245 | the observation is position, velocity, one slot per small obstacle and the goal slot (`goal_b` once the goal is reached); AttributeError for an unassigned goal and ValueError without small obstacles |
| Signal8Scenario.MakeWorld | signal8/signal8.py:42-82 | `make_world` raises IndexError exactly without agents or without large obstacles |
| Signal8Scenario.NewWorld | signal8/signal8.py:15-30 | a world built through `raw_env` has 1 to 2 agents and 1 to 4 large obstacles; over-limit counts raise ValueError first |
| Npc.FarmingScenario | signal8/utils/npc.py:7-20 | farm numbers 0 to 3 are registered and every other number raises KeyError |
| Npc.AllClose | signal8/utils/npc.py:24 | definition: numpy's `allclose` with its default tolerances, `abs(a - b) <= 1e-8 + 1e-5 * abs(b)` on each coordinate |
| Npc.WithinBounds | signal8/utils/npc.py:47-49 | definition: the inclusive box test on both axes |
| Npc.ZigzagStep | signal8/utils/npc.py:52-63 | definition: heading right below the upper x bound (left above the lower one) go one unit that way; otherwise turn round and go one unit up |
| Npc.AllCloseReflexive | signal8/utils/npc.py:35 | every point is `allclose` to itself |
| Npc.DestinationsInsideBounds | signal8/utils/npc.py:8-11 | every farm's destination lies inside the farm's own bounds (inclusive test) |
| Npc.ZigzagTurnsOnlyAtBounds | signal8/utils/npc.py:52-63 | a zigzag step keeps its direction and moves one unit along it, or turns round and steps up exactly at or past the bound it was heading for |
| Npc.Tick | signal8/utils/npc.py:15-40 | a tick keeps the invariant that a zigzagging NPC has a direction, so `_zigzag` always returns an action |
| Npc.ReturnIsImmediate | signal8/utils/npc.py:34-38 | since `start` is the current position, `moving_to_start` always switches to `moving_to_destination` at once and stays put |
| Npc.HeadsForDestination | signal8/utils/npc.py:23-28 | away from the destination the NPC only steers towards it |
| Npc.ArrivalStartsMowing | signal8/utils/npc.py:23-33 | at the destination the NPC starts zigzagging in the farm's direction and, the destination being inside the bounds, takes a zigzag step next |
| Npc.LeavingBoundsRestarts | signal8/utils/npc.py:29-38 | leaving the bounds while zigzagging returns to `moving_to_destination` within two ticks, standing still |
| Npc.NPC.constructor | signal8/utils/npc.py:4-6 | a new NPC moves to its destination and has no direction |
| Npc.NPC.Zigzag | signal8/utils/npc.py:52-63 | `_zigzag` moves along the current direction and turns round at the x bounds |
| Npc.NPC.GetScriptedAction | signal8/utils/npc.py:15-40 | an unknown farm raises KeyError and changes nothing; otherwise the action and new state are one tick, keeping the direction invariant |
| Sig8Scenario.ObstacleBox | sig8/sig8.py:68-79 | definition: the single box for every obstacle, or box 0 while `i < n / 2` (true division) and box 1 after, `None` past the end of the list |
| Sig8Scenario.ObstacleBoxByHalves | sig8/sig8.py:73-79 | with a box list, obstacle `i` of `n` uses box 0 exactly when `2i < n` and box 1 otherwise |
| Sig8Scenario.BoxesCoverExactly | sig8/sig8.py:68-79 | every obstacle has a box exactly when there is a single box, or enough boxes in the list (two once there are two obstacles) |
| Sig8Scenario.PlaceObstacles | sig8/sig8.py:68-79 | every obstacle is at rest in its box; a missing box raises IndexError exactly when the boxes do not cover; exactly two draws per obstacle |
| Sig8Scenario.World.constructor | sig8/sig8.py:29-50 | one agent and five landmarks: the goal of size `agent_radius` and four obstacles of size `obs_radius`, none movable; `num_obstacles == 4` |
| Sig8Scenario.World.GetProblemScenario | sig8/sig8.py:88-94 | records the registered names and the name; the problem is the table entry, or KeyError for an unregistered name |
| Sig8Scenario.World.ResetWorld | sig8/sig8.py:52-79 | the goal is landmark 0; agent, goal and obstacles are at rest in their boxes; KeyError exactly for an unknown name; with enough draws it completes exactly when the boxes cover the obstacles |
| Sig8Signal8Scenario.MovableFlag | sig8/signal8.py:62-67 | definition: obstacle `i` gets `has_dynamic_adversaries` from `num_obstacles // 2` on and keeps the class default before |
| Sig8Signal8Scenario.NameOrDefault | sig8/signal8.py:71 | the name passed, or `'v_cluster'` when `reset_world` gets none |
| Sig8Signal8Scenario.MovableFlagIsLaterHalf | sig8/signal8.py:62-67 | only obstacles from `num_obstacles // 2` on get the dynamic-adversary flag; the last one always does and, with two or more, the first does not |
| Sig8Signal8Scenario.World.constructor | sig8/signal8.py:47-69 | `num_obstacles + 1` landmarks: the goal of size `goal_radius`, not movable, then obstacles of size `obs_radius` flagged by index |
| Sig8Signal8Scenario.World.GetProblemScenario | sig8/signal8.py:98-105 | records start, goal and static boxes; the dynamic box is read and set only with dynamic adversaries; unknown names raise KeyError |
| Sig8Signal8Scenario.World.ResetWorld | sig8/signal8.py:71-89 | the goal is landmark 0; agent, goal and every obstacle are at rest in the start, goal and static boxes; the dynamic box is untouched without dynamic adversaries; the problem is looked up under the name passed or `'v_cluster'`; a successful lookup with enough draws always completes |
| Sig8Signal8Scenario.MakeWorld | sig8/signal8.py:47-69 | a negative `num_obstacles` leaves no landmark 0 and raises IndexError; otherwise `num_obstacles + 1` landmarks |
| Problems.TABLE | signal8/utils/problems.py:2-29 | definition: the two `disaster_response` entries, in insertion order, with their start, goal, static and dynamic boxes |
| Problems.Lookup | signal8/utils/problems.py:34-36 | a name is found exactly when some entry carries it, and then the entry found carries it |
| Problems.GetProblemList | signal8/utils/problems.py:31-32 | the names in table order, `disaster_response_0` then `disaster_response_1`, each once |
| Problems.GetProblem | signal8/utils/problems.py:34-36 | a registered name gives its own table entry; every other name raises KeyError |
| Problems.TableWellFormed | signal8/utils/problems.py:2-22 | every region has `low < high` inside [-1, 1]; three static and one dynamic box; start and goal boxes meet no static box |
| Problems.GetProblemWellFormed | signal8/utils/problems.py:3-22 | every problem `get_problem` returns is well formed, and no point of its start or goal box lies in a static box |

## Left out

- Rendering, windowing and pygame (`simple_env.py:43-55`, `263-323`) are user interface.
- The Gymnasium/PettingZoo layer is not modelled:
  - the `make_env` wrappers;
  - the action and observation spaces;
  - `observe` and `state`;
  - `seed` and `EzPickle`;
  - colours, names, and the `collide`/`silent` flags.
- `_was_dead_step` is not modelled: a dead agent's step changes nothing here.
- `local_ratio` reward blending is left out. Rewards are the scenarios' constant 0.
- The physical world step (`world.step()`) is a parameter of `SimpleEnv.Env.Step`. The scenario's `reset_world` is a parameter of `SimpleEnv.Env.Reset`: it gives the outcome the scenario ends with and the world it leaves. The core `World`, `Agent`, `Goal`, `Obstacle` and `Landmark` classes are not part of this model.
- Scripted-obstacle threads, `obstacle_lock` and `stop_scripted_obstacles` are concurrency. They are not modelled.
- `SimpleEnv.__init__` is modelled only for the fields it sets. Its call `reset_world(world, np_random)` (`simple_env.py:63`) passes two arguments where `signal8/signal8.py:193` takes three, which would raise TypeError. That path is not modelled.
- SimpleEnv.Env.Step: a step before the first reset raises IndexError in the model. There the source raises AttributeError, because the flag dictionaries do not yet exist.
- matplotlib's `Path.contains_points` is a parameter `contains`.
- numpy's random distribution is not modelled, only where a draw lands. The stream of draws is supplied by the caller.
- `get_problem_instance` (imported at `signal8/signal8.py:9`) is not defined in `signal8/utils/problems.py`, so the instance is a parameter of `Signal8Scenario.World.ResetWorld`. The instance name is not kept: a `Corners` instance stands for the name 'corners'.
- The problem tables read by `sig8/sig8.py` (`problem_scenarios`) and by `sig8/signal8.py` (`get_problem(name, has_dynamic_adversaries)`) are not part of this model. They are parameters. Their signatures and keys differ from `signal8/utils/problems.py`.
- Signal8Scenario.PlaceAgents: draws an agent's start and goal before setting that agent's velocities and goal references. The final state is the same unless the stream of draws runs out.
- Signal8Scenario.World.ResetAgentsAndGoals: states which condition the drawn positions meet, but not which draws produced them. `GeneratePosition` states that for each single draw.
- Entities start at the origin at rest. The core classes, which give the initial positions, are not part of this model.
- Goal sizes, and the `observed_agents` list that `observation` builds but never returns (`signal8/signal8.py:216-230`), are left out.
- `world.possible_problem_scenarios` of `sig8/sig8.py` is kept as the set of registered names, without their order.
- Landmarks whose `movable` flag the scenario leaves at the class default carry `None`.
- NPC `_move_towards_point` is kept symbolic as `Towards(from, target)`, without the normalisation.
- `np.allclose` uses numpy's default tolerances over exact reals.
- Floating-point rounding is not modelled: all coordinates are reals.
- `conav_suite/test/test_env.py` is a driver that asserts nothing. Its options key `'problem_instance'` is covered by `SimpleEnv.OtherOptionKeyRaises`.

## Findings

| source | as written | input that shows it | evidently intended | confidence | as-written member | corrected member |
|---|---|---|---|---|---|---|
| signal8/utils/simple_env.py:257 | after the first completed round `terminations` and `truncations` become the lists returned by `_episode_status`, but the next `step` still indexes them with the agent's name | any environment after `n` live steps: the next `step` evaluates `self.terminations['agent_0']` on a list and raises TypeError | the per-agent flags looked up per agent (by index, or stored back by name) | high (not executed) | SimpleEnv.SecondRoundLookupRaises | SimpleEnv.DeadFlag |
