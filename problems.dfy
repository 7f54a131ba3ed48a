/** The problem table of signal8/utils/problems.py: an ordered dictionary
    from problem names to the start box, the goal box, three static obstacle
    boxes and one dynamic obstacle box, with its two lookups. */
module Problems {
  import opened Common
  import opened Geometry

  datatype Problem = Problem(start: Rect, goal: Rect, staticObs: seq<Rect>, dynamicObs: seq<Rect>)

  /** `((xlow, xhigh), (ylow, yhigh))`. */
  function Box(xlow: real, xhigh: real, ylow: real, yhigh: real): Rect {
    Rect(Interval(xlow, xhigh), Interval(ylow, yhigh))
  }

  /** The dictionary `problems`, in insertion order. */
  const TABLE: seq<(string, Problem)> := [
    ("disaster_response_0", Problem(
       Box(-0.05, 0.05, -1.0, -0.90),
       Box(-0.85, -0.75, 0.90, 1.0),
       [Box(-1.0, -0.3, 0.30, 0.50), Box(0.15, 0.40, 0.60, 1.0), Box(-0.85, -0.75, 0.05, 0.15)],
       [Box(0.95, 1.0, 0.95, 1.0)])),
    ("disaster_response_1", Problem(
       Box(-0.05, 0.05, -1.0, -0.90),
       Box(0.80, 1.0, -0.10, 0.10),
       [Box(-0.25, 0.0, -0.3, 0.65), Box(0.25, 0.45, 0.5, 1.0), Box(0.75, 0.85, -0.75, -0.30)],
       [Box(-0.6, -0.45, 0.95, 1.0)]))
  ]

  function Keys(t: seq<(string, Problem)>): (r: seq<string>)
    ensures |r| == |t| && forall i :: 0 <= i < |t| ==> r[i] == t[i].0
  {
    if t == [] then [] else [t[0].0] + Keys(t[1..])
  }

  /** The entry of the first pair in `t` named `name`. */
  function Lookup(t: seq<(string, Problem)>, name: string): (r: Option<Problem>)
    ensures r.None? <==> forall i :: 0 <= i < |t| ==> t[i].0 != name
    ensures r.Some? ==> exists i :: 0 <= i < |t| && t[i] == (name, r.value)
  {
    if t == [] then None
    else if t[0].0 == name then Some(t[0].1)
    else
      var r := Lookup(t[1..], name);
      assert forall i :: 0 < i < |t| ==> t[i] == t[1..][i - 1];
      r
  }

  /** `get_problem_list`: the names in the table's order, each once. */
  function GetProblemList(): (r: seq<string>)
    ensures r == ["disaster_response_0", "disaster_response_1"]
    ensures forall i, j :: 0 <= i < j < |r| ==> r[i] != r[j]
  {
    Keys(TABLE)
  }

  /** `get_problem`: the entry of a registered name, `KeyError` otherwise. */
  function GetProblem(name: string): (r: Result<Problem>)
    ensures r.Err? <==> name !in GetProblemList()
    ensures r.Err? ==> r.error == KeyError
    ensures r.Ok? ==> exists i :: 0 <= i < |TABLE| && TABLE[i] == (name, r.value)
  {
    match Lookup(TABLE, name)
    case None => Err(KeyError)
    case Some(p) => Ok(p)
  }

  /** A region with `low < high` on both axes, inside `[-1, 1] x [-1, 1]`. */
  predicate RegionInWorld(r: Rect) {
    -1.0 <= r.xs.low < r.xs.high <= 1.0 && -1.0 <= r.ys.low < r.ys.high <= 1.0
  }

  /** Every region of `p` lies in the world; there are three static boxes
      and one dynamic box; neither the start nor the goal box meets a static
      box. */
  predicate WellFormedProblem(p: Problem) {
    RegionInWorld(p.start) && RegionInWorld(p.goal) &&
    |p.staticObs| == 3 && |p.dynamicObs| == 1 &&
    (forall k :: 0 <= k < |p.staticObs| ==> RegionInWorld(p.staticObs[k])) &&
    (forall k :: 0 <= k < |p.dynamicObs| ==> RegionInWorld(p.dynamicObs[k])) &&
    (forall k :: 0 <= k < |p.staticObs| ==> !Overlap(p.start, p.staticObs[k]) && !Overlap(p.goal, p.staticObs[k]))
  }

  lemma {:induction false} TableWellFormed()
    ensures forall i :: 0 <= i < |TABLE| ==> WellFormedProblem(TABLE[i].1)
  {
    assert WellFormedProblem(TABLE[0].1);
    assert WellFormedProblem(TABLE[1].1);
  }

  /** Whatever `get_problem` returns is a well-formed problem: its start and
      goal can be sampled inside the world and away from the static boxes. */
  lemma {:induction false} GetProblemWellFormed(name: string)
    requires GetProblem(name).Ok?
    ensures WellFormedProblem(GetProblem(name).value)
    ensures forall q :: InRect(q, GetProblem(name).value.start) || InRect(q, GetProblem(name).value.goal) ==>
              forall k :: 0 <= k < 3 ==> !InRect(q, GetProblem(name).value.staticObs[k])
  {
    var p := GetProblem(name).value;
    TableWellFormed();
    forall q | InRect(q, p.start) || InRect(q, p.goal)
      ensures forall k :: 0 <= k < 3 ==> !InRect(q, p.staticObs[k])
    {
      forall k | 0 <= k < 3
        ensures !InRect(q, p.staticObs[k])
      {
        OverlapIsSharedPoint(p.start, p.staticObs[k]);
        OverlapIsSharedPoint(p.goal, p.staticObs[k]);
      }
    }
  }
}
