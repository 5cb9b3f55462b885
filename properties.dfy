/** What one step does to single cells: every cell moves by its reference
    rate times `dt`; cells off the edges follow the five-point stencil; a
    uniform field moves only on its edges; a 1 x 1 grid does not move. */
module StepProperties {
  import opened Matrix
  import opened Diffusion
  import opened StepCells

  /** Each cell of the new grid is the old value plus `dt` times the
      no-flux five-point operator plus the edge offset of the padding. */
  lemma StepCell(c: Mat, g: Globals, dt: real, i: nat, j: nat)
    requires Steppable(c, g) && i < g.meshSize && j < g.meshSize
    ensures Step(c, g, dt)[i][j] == c[i][j] + ReferenceRate(c, g, i, j) * dt
  {
    var r := RateOfChange(c, g);
    assert r[i][j] == RateAt(c, g, i, j);
    RateAtSplit(c, g, i, j);
    StepEntries(c, g, dt);
    UpdateOfEqual(c[i][j], r[i][j], ReferenceRate(c, g, i, j), dt);
  }

  /** Off the edge rows and columns, the rate of a cell is the weighted
      sum of its differences towards its four neighbours: the `-1` offsets
      of the two fluxes on either side cancel. */
  lemma InteriorRate(c: Mat, g: Globals, i: nat, j: nat)
    requires Steppable(c, g) && 0 < i < g.meshSize - 1 && 0 < j < g.meshSize - 1
    ensures RateAt(c, g, i, j)
      == YWeight(g) * ((c[i - 1][j] - c[i][j]) + (c[i + 1][j] - c[i][j]))
         + XWeight(g) * ((c[i][j - 1] - c[i][j]) + (c[i][j + 1] - c[i][j]))
  {
    RateAtSplit(c, g, i, j);
    NoOffset(g, i, j);
  }

  /** The edge offset vanishes off the edges. */
  lemma NoOffset(g: Globals, i: nat, j: nat)
    requires g.dx != 0.0 && g.latThickness != 0.0
    requires 0 < i < g.meshSize - 1 && 0 < j < g.meshSize - 1
    ensures EdgeOffset(g, i, j) == 0.0
  {
    assert EdgeSign(g.meshSize, i) == 0.0 && EdgeSign(g.meshSize, j) == 0.0;
  }

  /** With `dx == latThickness == h`, a cell off the edges takes the
      explicit five-point update `C + dt*(diffCoeff/h/h) * (sum of the four
      neighbours - 4*C)`, `diffCoeff/h/h` being YWeight. */
  lemma InteriorFivePoint(c: Mat, g: Globals, dt: real, i: nat, j: nat)
    requires Steppable(c, g) && 0 < i < g.meshSize - 1 && 0 < j < g.meshSize - 1
    requires g.dx == g.latThickness
    ensures Step(c, g, dt)[i][j]
      == c[i][j] + dt * YWeight(g) * (c[i + 1][j] + c[i - 1][j] + c[i][j + 1] + c[i][j - 1] - 4.0 * c[i][j])
  {
    InteriorStep(c, g, dt, i, j);
    FivePointArith(YWeight(g), dt, c[i][j], c[i - 1][j], c[i + 1][j], c[i][j - 1], c[i][j + 1], YWeight(g), XWeight(g));
  }

  /** InteriorRate, times `dt`, added to the old value. */
  lemma InteriorStep(c: Mat, g: Globals, dt: real, i: nat, j: nat)
    requires Steppable(c, g) && 0 < i < g.meshSize - 1 && 0 < j < g.meshSize - 1
    ensures Step(c, g, dt)[i][j]
      == c[i][j] + (YWeight(g) * ((c[i - 1][j] - c[i][j]) + (c[i + 1][j] - c[i][j]))
                    + XWeight(g) * ((c[i][j - 1] - c[i][j]) + (c[i][j + 1] - c[i][j]))) * dt
  {
    StepEntries(c, g, dt);
    InteriorRate(c, g, i, j);
  }

  /** The arithmetic of InteriorFivePoint: the same weight `w` on both
      axes, times `dt`. */
  lemma FivePointArith(w: real, dt: real, mid: real, up: real, down: real, left: real, right: real,
                       wy: real, wx: real)
    requires wy == w && wx == w
    ensures mid + (wy * ((up - mid) + (down - mid)) + wx * ((left - mid) + (right - mid))) * dt
         == mid + dt * w * (down + up + right + left - 4.0 * mid)
  {
    var s := down + up + right + left - 4.0 * mid;
    assert wy * ((up - mid) + (down - mid)) + wx * ((left - mid) + (right - mid)) == w * s;
  }

  /** For a uniform field on a grid of at least 2 x 2, only the edges move:
      by `-2*YWeight*dt` on row 0, `+2*YWeight*dt` on the last row,
      `-XWeight*dt` on column 0 and `+XWeight*dt` on the last column, the
      two added up on a corner. */
  lemma UniformCell(c: Mat, g: Globals, dt: real, v: real, i: nat, j: nat)
    requires Steppable(c, g) && g.meshSize >= 2 && i < g.meshSize && j < g.meshSize
    requires forall a, b :: 0 <= a < g.meshSize && 0 <= b < g.meshSize ==> c[a][b] == v
    ensures var n := g.meshSize;
      Step(c, g, dt)[i][j]
      == v + ((if i == 0 then -2.0 * YWeight(g) else if i == n - 1 then 2.0 * YWeight(g) else 0.0)
              + (if j == 0 then -XWeight(g) else if j == n - 1 then XWeight(g) else 0.0)) * dt
  {
    StepCell(c, g, dt, i, j);
    UniformReference(c, g, v, i, j);
  }

  /** The reference rate of a uniform field is the edge offset alone,
      spelled out edge by edge. */
  lemma UniformReference(c: Mat, g: Globals, v: real, i: nat, j: nat)
    requires Steppable(c, g) && g.meshSize >= 2 && i < g.meshSize && j < g.meshSize
    requires forall a, b :: 0 <= a < g.meshSize && 0 <= b < g.meshSize ==> c[a][b] == v
    ensures var n := g.meshSize;
      ReferenceRate(c, g, i, j)
      == (if i == 0 then -2.0 * YWeight(g) else if i == n - 1 then 2.0 * YWeight(g) else 0.0)
         + (if j == 0 then -XWeight(g) else if j == n - 1 then XWeight(g) else 0.0)
  {
    var n := g.meshSize;
    assert NoFluxLaplacian(c, g, i, j) == 0.0 by {
      assert Toward(c, n, i, j, i - 1, j) == 0.0 && Toward(c, n, i, j, i + 1, j) == 0.0;
      assert Toward(c, n, i, j, i, j - 1) == 0.0 && Toward(c, n, i, j, i, j + 1) == 0.0;
    }
  }

  /** On a 1 x 1 grid a step changes nothing: both padded Y rows carry the
      same sentinel, both padded X columns are 0, and there is nothing in
      between. */
  lemma SingleCellUnchanged(c: Mat, g: Globals, dt: real)
    requires Steppable(c, g) && g.meshSize == 1
    ensures Step(c, g, dt) == c
  {
    var s := Step(c, g, dt);
    StepCell(c, g, dt, 0, 0);
    assert ReferenceRate(c, g, 0, 0) == 0.0 by {
      assert EdgeSign(1, 0) == 0.0;
    }
    SameEntries(s, c, 1, 1);
  }

  /** With the script's values (`meshSize` 20, `diffCoeff` 10, both
      spacings 10) and `dt` 0.1, a cell off the edges moves by a hundredth
      of its five-point sum. */
  lemma ScriptInteriorCell(c: Mat, i: nat, j: nat)
    requires Steppable(c, ModuleGlobals()) && 0 < i < 19 && 0 < j < 19
    ensures Step(c, ModuleGlobals(), 0.1)[i][j]
      == c[i][j] + 0.01 * (c[i + 1][j] + c[i - 1][j] + c[i][j + 1] + c[i][j - 1] - 4.0 * c[i][j])
  {
    InteriorFivePoint(c, ModuleGlobals(), 0.1, i, j);
  }

  /** With the script's values, a uniform field gains 0.02 on its last row
      and 0.01 on its last column, loses as much on row 0 and column 0, and
      stays put elsewhere. */
  lemma ScriptUniformCell(c: Mat, v: real, i: nat, j: nat)
    requires Steppable(c, ModuleGlobals()) && i < 20 && j < 20
    requires forall a, b :: 0 <= a < 20 && 0 <= b < 20 ==> c[a][b] == v
    ensures Step(c, ModuleGlobals(), 0.1)[i][j]
      == v + (if i == 0 then -0.02 else if i == 19 then 0.02 else 0.0)
           + (if j == 0 then -0.01 else if j == 19 then 0.01 else 0.0)
  {
    var g := ModuleGlobals();
    UniformCell(c, g, 0.1, v, i, j);
    assert YWeight(g) == 0.1 && XWeight(g) == 0.1;
  }
}
