/** The random-number generator (`np_random`) the scenario generators draw
    from, modelled as a finite stream of unit draws in `[0, 1)` supplied by
    the caller. numpy's `uniform(low, high)` turns one unit draw `u` into
    `low + (high - low) * u`; a 2-D draw takes two unit draws, x first.
    The distribution itself is not modelled: only where a draw lands. */
module RandomSource {
  import opened Common
  import opened Geometry

  predicate UnitDraws(u: seq<real>) {
    forall i :: 0 <= i < |u| ==> 0.0 <= u[i] < 1.0
  }

  /** `uniform(low, high)` for one unit draw `u`. A draw for a proper
      interval lies in it; for a non-empty interval it stays below `high`. */
  function Lerp(low: real, high: real, u: real): (r: real)
    ensures low <= high && 0.0 <= u < 1.0 ==> low <= r <= high
    ensures low < high && 0.0 <= u < 1.0 ==> r < high
  {
    var width := high - low;
    if low <= high && 0.0 <= u < 1.0 then
      UnitScale(width, u);
      low + width * u
    else
      low + width * u
  }

  lemma UnitScale(w: real, u: real)
    requires w >= 0.0 && 0.0 <= u < 1.0
    ensures 0.0 <= w * u <= w
    ensures w > 0.0 ==> w * u < w
  {
    MulMonotone(0.0, u, w);
    assert 0.0 * w == 0.0;
    assert u * w == w * u;
    if w > 0.0 {
      MulPositive(1.0 - u, w);
      assert w - w * u == (1.0 - u) * w;
    } else {
      assert w == 0.0;
    }
  }

  /** `uniform(low=lo, high=hi, size=2)` for the unit draws `ux`, `uy`. */
  function PointFrom(lo: Point, hi: Point, ux: real, uy: real): Point {
    Point(Lerp(lo.x, hi.x, ux), Lerp(lo.y, hi.y, uy))
  }

  /** A draw `uniform(*zip(*r))` lands in the rectangle `r`. */
  lemma {:induction false} DrawInRect(r: Rect, ux: real, uy: real)
    requires Proper(r)
    requires 0.0 <= ux < 1.0 && 0.0 <= uy < 1.0
    ensures InRect(PointFrom(LowCorner(r), HighCorner(r), ux, uy), r)
  {
  }

  class Rng {
    /** The unit draws not consumed yet. */
    var draws: seq<real>

    ghost predicate Valid()
      reads this
    {
      UnitDraws(draws)
    }

    constructor (draws: seq<real>)
      requires UnitDraws(draws)
      ensures Valid() && this.draws == draws
    {
      this.draws := draws;
    }

    /** `uniform(lo, hi, 2)`: consumes two unit draws; `None` when fewer
        than two are left (the model's stand-in for an endless generator). */
    method UniformPoint(lo: Point, hi: Point) returns (p: Option<Point>)
      requires Valid()
      modifies this
      ensures Valid()
      ensures |old(draws)| < 2 ==> p == None && draws == old(draws)
      ensures |old(draws)| >= 2 ==>
                p == Some(PointFrom(lo, hi, old(draws)[0], old(draws)[1])) &&
                draws == old(draws)[2..]
    {
      if |draws| < 2 {
        return None;
      }
      p := Some(PointFrom(lo, hi, draws[0], draws[1]));
      draws := draws[2..];
    }

    /** `uniform(*zip(*r))` for a rectangle `r`: two draws, landing in `r`
        whenever `r` is a proper rectangle. */
    method UniformIn(r: Rect) returns (p: Option<Point>)
      requires Valid()
      modifies this
      ensures Valid()
      ensures |old(draws)| < 2 ==> p == None && draws == old(draws)
      ensures |old(draws)| >= 2 ==>
                p == Some(PointFrom(LowCorner(r), HighCorner(r), old(draws)[0], old(draws)[1])) &&
                draws == old(draws)[2..]
      ensures p.Some? && Proper(r) ==> InRect(p.value, r)
    {
      ghost var d := draws;
      p := UniformPoint(LowCorner(r), HighCorner(r));
      if p.Some? && Proper(r) {
        DrawInRect(r, d[0], d[1]);
      }
    }
  }
}
