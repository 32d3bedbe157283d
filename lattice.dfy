/** The grid snapping of the setup loop of components/InteractiveScene.tsx:
    `Math.round`, snapping a coordinate to a multiple of a cell size, and the
    loop that fills the projects-scene lattice buffer from the base vertex
    positions. */
module Lattice {
  import opened Smoothing

  /** `Math.round`: the nearest integer, halves rounded up. */
  function Round(v: real): (r: int)
    ensures v - 0.5 < r as real <= v + 0.5
  {
    (v + 0.5).Floor
  }

  /** No integer is closer to `v` than its rounding. */
  lemma RoundIsNearest(v: real, k: int)
    ensures Abs(Round(v) as real - v) <= Abs(k as real - v)
  {
    var r := Round(v);
    if k > r {
      assert k as real >= r as real + 1.0;
    } else if k < r {
      assert k as real <= r as real - 1.0;
    }
  }

  /** Rounding an integer gives it back. */
  lemma RoundOfInteger(k: int)
    ensures Round(k as real) == k
  {
  }

  /** `v` is a whole multiple of `step`. */
  predicate OnGrid(v: real, step: real)
    requires step > 0.0
  {
    (v / step).Floor as real == v / step
  }

  /** `Math.round(v / step) * step`: the grid point nearest to `v`. */
  function Snap(v: real, step: real): real
    requires step > 0.0
  {
    Round(v / step) as real * step
  }

  /** A whole multiple of the step divides back to that whole number. */
  lemma MultipleDivides(k: int, step: real)
    requires step > 0.0
    ensures (k as real * step) / step == k as real
  {
  }

  /** The quotient by the step, multiplied back, is the original value. */
  lemma DivideMultiply(v: real, step: real)
    requires step > 0.0
    ensures (v / step) * step == v
  {
  }

  /** A snapped value is on the grid. */
  lemma SnapOnGrid(v: real, step: real)
    requires step > 0.0
    ensures OnGrid(Snap(v, step), step)
  {
    var k := Round(v / step);
    MultipleDivides(k, step);
    assert Snap(v, step) / step == k as real;
    assert (k as real).Floor == k;
  }

  /** Scaling a rounding error of at most one half by the step. */
  lemma HalfStepError(e: real, step: real)
    requires step > 0.0 && -0.5 < e <= 0.5
    ensures Abs(e * step) <= step / 2.0
  {
    MulMono(step, e, 0.5);
    MulMono(step, -0.5, e);
    assert step * e == e * step;
  }

  /** A snapped value is at most half a step from the input. */
  lemma SnapIsNear(v: real, step: real)
    requires step > 0.0
    ensures Abs(Snap(v, step) - v) <= step / 2.0
  {
    var q := v / step;
    var k := Round(q);
    DivideMultiply(v, step);
    var e := k as real - q;
    assert Snap(v, step) - v == e * step by {
      assert Snap(v, step) == k as real * step;
      assert k as real * step - q * step == (k as real - q) * step;
    }
    HalfStepError(e, step);
  }

  /** Snapping leaves a value already on the grid unchanged. */
  lemma SnapFixesGridPoints(v: real, step: real)
    requires step > 0.0 && OnGrid(v, step)
    ensures Snap(v, step) == v
  {
    var q := v / step;
    RoundOfInteger(q.Floor);
    assert Round(q) as real == q;
    DivideMultiply(v, step);
  }

  /** Snapping lands on the grid, at most half a step from the input, and
      leaves a value already on the grid unchanged. */
  lemma SnapIsNearestGridPoint(v: real, step: real)
    requires step > 0.0
    ensures OnGrid(Snap(v, step), step)
    ensures Abs(Snap(v, step) - v) <= step / 2.0
    ensures OnGrid(v, step) ==> Snap(v, step) == v
  {
    SnapOnGrid(v, step);
    SnapIsNear(v, step);
    if OnGrid(v, step) {
      SnapFixesGridPoints(v, step);
    }
  }

  /** The cell sizes of the lattice: 0.85 vertically, 0.9 across. */
  function GridStep(k: nat): (r: real)
    ensures r > 0.0
  {
    if k % 3 == 1 then 0.85 else 0.9
  }

  /** The coordinate entry `k` is snapped from: the base coordinate scaled by
      1.25 across, unscaled vertically. */
  function Stretched(base: seq<real>, k: nat): real
    requires k < |base|
  {
    if k % 3 == 1 then base[k] else base[k] * 1.25
  }

  /** Entry `k` of the lattice buffer: `x` and `z` are `1.25` times the base
      coordinate snapped to 0.9, `y` is the base coordinate snapped to 0.85. */
  function LatticeEntry(base: seq<real>, k: nat): real
    requires k < |base|
  {
    Snap(Stretched(base, k), GridStep(k))
  }

  /** Every lattice coordinate is a whole multiple of its cell size and the
      nearest one to the stretched base coordinate. */
  lemma LatticeOnGrid(base: seq<real>, k: nat)
    requires k < |base|
    ensures OnGrid(LatticeEntry(base, k), GridStep(k))
    ensures Abs(LatticeEntry(base, k) - Stretched(base, k)) <= GridStep(k) / 2.0
  {
    SnapIsNearestGridPoint(Stretched(base, k), GridStep(k));
  }

  /** The setup loop's lattice part: fills a fresh buffer, three entries per
      vertex, with the snapped base coordinates. */
  method BuildLattice(base: seq<real>, vertexCount: nat) returns (lattice: array<real>)
    requires |base| == 3 * vertexCount
    ensures fresh(lattice)
    ensures lattice.Length == |base|
    ensures forall k :: 0 <= k < lattice.Length ==> lattice[k] == LatticeEntry(base, k)
  {
    lattice := new real[|base|];
    var i := 0;
    while i < vertexCount
      invariant 0 <= i <= vertexCount
      invariant forall k :: 0 <= k < 3 * i ==> lattice[k] == LatticeEntry(base, k)
    {
      var index := i * 3;
      lattice[index] := Snap(base[index] * 1.25, 0.9);
      lattice[index + 1] := Snap(base[index + 1], 0.85);
      lattice[index + 2] := Snap(base[index + 2] * 1.25, 0.9);
      i := i + 1;
    }
  }
}
