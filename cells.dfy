/** What the padded flux matrices hold, and what one step does to each
    cell. The reference for the latter is the textbook five-point diffusion
    operator with sealed (no-flux) edges; the padding adds to it a constant
    rate on the edge rows and columns only. */
module StepCells {
  import opened Matrix
  import opened Diffusion

  /** Rows 0 and meshSize of the padded Y flux hold the padding 1 scaled to
      `-diffCoeff/latThickness`; row i in between holds the flux of the
      difference between grid rows i and i-1, offset by -1 and scaled the
      same way. */
  lemma YFluxPaddedCells(c: Mat, g: Globals)
    requires Steppable(c, g)
    ensures var p, n, d, h := YFluxPadded(c, g), g.meshSize, g.diffCoeff, g.latThickness;
      && (forall j :: 0 <= j < n ==> p[0][j] == -d / h && p[n][j] == -d / h)
      && (forall i, j :: 1 <= i < n && 0 <= j < n ==>
            p[i][j] == -d * ((c[i][j] - c[i - 1][j]) - 1.0) / h)
  {
  }

  /** Columns 0 and meshSize of the padded X flux stay 0; column j in
      between holds the flux of the difference between grid columns j and
      j-1, offset by -1 and scaled like the Y flux. */
  lemma XFluxPaddedCells(c: Mat, g: Globals)
    requires Steppable(c, g)
    ensures var q, n, d, h := XFluxPadded(c, g), g.meshSize, g.diffCoeff, g.latThickness;
      && (forall i :: 0 <= i < n ==> q[i][0] == 0.0 && q[i][n] == 0.0)
      && (forall i, j :: 0 <= i < n && 1 <= j < n ==>
            q[i][j] == -d * ((c[i][j] - c[i][j - 1]) - 1.0) / h)
  {
  }

  /** `c[i2][j2] - c[i][j]` when (i2, j2) lies on the grid, and 0 when it
      lies outside: nothing flows across a sealed edge. */
  function Toward(c: Mat, n: nat, i: nat, j: nat, i2: int, j2: int): real
    requires Shape(c, n, n) && i < n && j < n
  {
    if 0 <= i2 < n && 0 <= j2 < n then c[i2][j2] - c[i][j] else 0.0
  }

  /** `diffCoeff/h²`, the weight of a vertical neighbour (`h` is `latThickness`). */
  function YWeight(g: Globals): real
    requires g.latThickness != 0.0
  {
    g.diffCoeff / g.latThickness / g.latThickness
  }

  /** `diffCoeff/(h·dx)`, the weight of a horizontal neighbour: the X flux
      is divided by `latThickness` and its difference by `dx`. */
  function XWeight(g: Globals): real
    requires g.latThickness != 0.0 && g.dx != 0.0
  {
    g.diffCoeff / g.latThickness / g.dx
  }

  /** The no-flux five-point operator: YWeight times the net difference
      towards the neighbours above and below, plus XWeight times the net
      difference towards the neighbours left and right. */
  function NoFluxLaplacian(c: Mat, g: Globals, i: nat, j: nat): real
    requires Steppable(c, g) && i < g.meshSize && j < g.meshSize
  {
    var n := g.meshSize;
    YWeight(g) * (Toward(c, n, i, j, i - 1, j) + Toward(c, n, i, j, i + 1, j))
    + XWeight(g) * (Toward(c, n, i, j, i, j - 1) + Toward(c, n, i, j, i, j + 1))
  }

  /** +1 on the last of `n` lines, -1 on the first, 0 elsewhere (0 on both
      counts when there is a single line). */
  function EdgeSign(n: nat, k: nat): real {
    (if k == n - 1 then 1.0 else 0.0) - (if k == 0 then 1.0 else 0.0)
  }

  /** The rate the padding adds on the edges: `-2·YWeight` on row 0,
      `+2·YWeight` on the last row, `-XWeight` on column 0 and `+XWeight` on the
      last column, summed where two of these meet. */
  function EdgeOffset(g: Globals, i: nat, j: nat): real
    requires g.dx != 0.0 && g.latThickness != 0.0
  {
    YWeight(g) * (2.0 * EdgeSign(g.meshSize, i)) + XWeight(g) * EdgeSign(g.meshSize, j)
  }

  /** The textbook rate of one cell: the no-flux five-point operator plus
      the edge offset of the padding. */
  function ReferenceRate(c: Mat, g: Globals, i: nat, j: nat): real
    requires Steppable(c, g) && i < g.meshSize && j < g.meshSize
  {
    NoFluxLaplacian(c, g, i, j) + EdgeOffset(g, i, j)
  }

  /** The difference a Y padded-flux row stands for: grid row i minus row
      i-1 in between, and 2 on the padding rows 0 and n (whose entry 1 is
      what `2 - 1` gives). */
  function YDiff(c: Mat, n: nat, i: nat, j: nat): real
    requires Shape(c, n, n) && i <= n && j < n
  {
    if i == 0 || i == n then 2.0 else c[i][j] - c[i - 1][j]
  }

  /** The difference an X padded-flux column stands for: grid column j
      minus column j-1 in between, and 1 on the zero columns 0 and n. */
  function XDiff(c: Mat, n: nat, i: nat, j: nat): real
    requires Shape(c, n, n) && i < n && j <= n
  {
    if j == 0 || j == n then 1.0 else c[i][j] - c[i][j - 1]
  }

  /** A padded Y flux entry is the Flux of its difference minus 1. */
  lemma YFluxEntryAt(c: Mat, g: Globals, i: nat, j: nat)
    requires Steppable(c, g) && i <= g.meshSize && j < g.meshSize
    ensures YFluxEntry(c, g, i, j) == Flux(g, YDiff(c, g.meshSize, i, j) - 1.0)
  {
  }

  /** A padded X flux entry is the Flux of its difference minus 1. */
  lemma XFluxEntryAt(c: Mat, g: Globals, i: nat, j: nat)
    requires Steppable(c, g) && i < g.meshSize && j <= g.meshSize
    ensures XFluxEntry(c, g, i, j) == Flux(g, XDiff(c, g.meshSize, i, j) - 1.0)
  {
  }

  /** The Y divergence of two scaled fluxes of differences offset by -1. */
  lemma YDivergenceArith(g: Globals, top: real, bottom: real, fTop: real, fBottom: real)
    requires g.latThickness != 0.0
    requires fTop == Flux(g, top - 1.0) && fBottom == Flux(g, bottom - 1.0)
    ensures (-1.0 * (fBottom - fTop)) / g.latThickness == YWeight(g) * (bottom - top)
  {
    var d, h := g.diffCoeff, g.latThickness;
    var k := d / h;
    assert fBottom == -k * (bottom - 1.0);
    assert fTop == -k * (top - 1.0);
    assert fBottom - fTop == -k * (bottom - top);
  }

  /** The X counterpart, divided by `dx` instead, and subtracted. */
  lemma XDivergenceArith(g: Globals, left: real, right: real, fLeft: real, fRight: real)
    requires g.latThickness != 0.0 && g.dx != 0.0
    requires fLeft == Flux(g, left - 1.0) && fRight == Flux(g, right - 1.0)
    ensures -((fRight - fLeft) / g.dx) == XWeight(g) * (right - left)
  {
    var d, h := g.diffCoeff, g.latThickness;
    var k := d / h;
    assert fRight == -k * (right - 1.0);
    assert fLeft == -k * (left - 1.0);
    assert fRight - fLeft == -k * (right - left);
  }

  /** The Y part of `dC` at one cell. */
  lemma YDivergenceAt(c: Mat, g: Globals, i: nat, j: nat)
    requires Steppable(c, g) && i < g.meshSize && j < g.meshSize
    ensures var n := g.meshSize;
      (-1.0 * (YFluxPadded(c, g)[i + 1][j] - YFluxPadded(c, g)[i][j])) / g.latThickness
      == YWeight(g) * (YDiff(c, n, i + 1, j) - YDiff(c, n, i, j))
  {
    var n := g.meshSize;
    YFluxEntryAt(c, g, i, j);
    YFluxEntryAt(c, g, i + 1, j);
    YDivergenceArith(g, YDiff(c, n, i, j), YDiff(c, n, i + 1, j), YFluxPadded(c, g)[i][j], YFluxPadded(c, g)[i + 1][j]);
  }

  /** The X part of `dC` at one cell. */
  lemma XDivergenceAt(c: Mat, g: Globals, i: nat, j: nat)
    requires Steppable(c, g) && i < g.meshSize && j < g.meshSize
    ensures var n := g.meshSize;
      -((XFluxPadded(c, g)[i][j + 1] - XFluxPadded(c, g)[i][j]) / g.dx)
      == XWeight(g) * (XDiff(c, n, i, j + 1) - XDiff(c, n, i, j))
  {
    var n := g.meshSize;
    XFluxEntryAt(c, g, i, j);
    XFluxEntryAt(c, g, i, j + 1);
    XDivergenceArith(g, XDiff(c, n, i, j), XDiff(c, n, i, j + 1), XFluxPadded(c, g)[i][j], XFluxPadded(c, g)[i][j + 1]);
  }

  /** The rate of change of one cell, by axis. */
  lemma RateAtByAxis(c: Mat, g: Globals, i: nat, j: nat)
    requires Steppable(c, g) && i < g.meshSize && j < g.meshSize
    ensures var n := g.meshSize;
      RateAt(c, g, i, j)
      == YWeight(g) * (YDiff(c, n, i + 1, j) - YDiff(c, n, i, j))
         + XWeight(g) * (XDiff(c, n, i, j + 1) - XDiff(c, n, i, j))
  {
    YDivergenceAt(c, g, i, j);
    XDivergenceAt(c, g, i, j);
  }

  /** Along Y, the padded differences below and above a cell give its net
      difference towards its vertical neighbours, plus 2 on the last row
      and minus 2 on the first. */
  lemma YDiffSpread(c: Mat, n: nat, i: nat, j: nat)
    requires Shape(c, n, n) && i < n && j < n
    ensures YDiff(c, n, i + 1, j) - YDiff(c, n, i, j)
         == Toward(c, n, i, j, i - 1, j) + Toward(c, n, i, j, i + 1, j) + 2.0 * EdgeSign(n, i)
  {
  }

  /** Along X, the same with 1 in place of 2. */
  lemma XDiffSpread(c: Mat, n: nat, i: nat, j: nat)
    requires Shape(c, n, n) && i < n && j < n
    ensures XDiff(c, n, i, j + 1) - XDiff(c, n, i, j)
         == Toward(c, n, i, j, i, j - 1) + Toward(c, n, i, j, i, j + 1) + EdgeSign(n, j)
  {
  }

  /** Equals scaled by the same factor stay equal. A hint for the verifier:
      calling it keeps the caller's proof cheap. */
  lemma ScaleEqual(k: real, x: real, y: real)
    requires x == y
    ensures k * x == k * y
  {
  }

  /** A rate given by axis, as RateAtByAxis states it, regrouped into the
      no-flux five-point operator plus the edge offset. */
  lemma RegroupByAxis(c: Mat, g: Globals, i: nat, j: nat, r: real)
    requires Steppable(c, g) && i < g.meshSize && j < g.meshSize
    requires var n := g.meshSize;
      r == YWeight(g) * (YDiff(c, n, i + 1, j) - YDiff(c, n, i, j))
           + XWeight(g) * (XDiff(c, n, i, j + 1) - XDiff(c, n, i, j))
    ensures r == ReferenceRate(c, g, i, j)
  {
    var n := g.meshSize;
    YDiffSpread(c, n, i, j);
    XDiffSpread(c, n, i, j);
    ScaleEqual(YWeight(g), YDiff(c, n, i + 1, j) - YDiff(c, n, i, j),
      Toward(c, n, i, j, i - 1, j) + Toward(c, n, i, j, i + 1, j) + 2.0 * EdgeSign(n, i));
    ScaleEqual(XWeight(g), XDiff(c, n, i, j + 1) - XDiff(c, n, i, j),
      Toward(c, n, i, j, i, j - 1) + Toward(c, n, i, j, i, j + 1) + EdgeSign(n, j));
  }

  /** The rate of change of every cell is the no-flux five-point operator
      plus the edge offset of the padding. */
  lemma RateAtSplit(c: Mat, g: Globals, i: nat, j: nat)
    requires Steppable(c, g) && i < g.meshSize && j < g.meshSize
    ensures RateAt(c, g, i, j) == ReferenceRate(c, g, i, j)
  {
    RateAtByAxis(c, g, i, j);
    RegroupByAxis(c, g, i, j, RateAt(c, g, i, j));
  }
}
