/** One explicit finite-difference step of 2-D diffusion, as `calcDiffusion`
    computes it: padded fluxes along Y (rows) and X (columns), their
    divergences, and the update `array + dC*dt`. Values are exact reals. */
module Diffusion {
  import opened Matrix

  /** The module-level values `calcDiffusion` reads: the mesh size, the
      diffusion coefficient, and the two spacings it divides by
      (`latThickness` for the fluxes and the Y divergence, `dx` for the X
      divergence). The instance's own `diffCoeff` is never read. */
  datatype Globals = Globals(meshSize: nat, diffCoeff: real, dx: real, latThickness: real)

  const PosLim: real := 100.0
  const NegLim: real := -100.0

  /** The script's values: a 20 x 20 mesh over -100..100, so both spacings
      are 200 / 20 = 10, and a diffusion coefficient of 10. */
  function ModuleGlobals(): (g: Globals)
    ensures g.meshSize == 20 && g.diffCoeff == 10.0
    ensures g.dx == g.latThickness == 10.0
  {
    Globals(20, 10.0, (PosLim - NegLim) / 20.0, (PosLim - NegLim) / 20.0)
  }

  /** A grid the step applies to: square, of the global mesh size, with
      non-zero spacings (a zero spacing yields non-finite floats instead). */
  predicate Steppable(c: Mat, g: Globals) {
    Shape(c, g.meshSize, g.meshSize) && g.dx != 0.0 && g.latThickness != 0.0
  }

  /** A padded entry `v` once scaled: `-1*diffCoeff*v/latThickness`. */
  function Flux(g: Globals, v: real): real
    requires g.latThickness != 0.0
  {
    (-1.0 * g.diffCoeff * v) / g.latThickness
  }

  /** Entry (i, j) of `YfluxWP` before scaling (lines 54-57): the padding
      1 on rows 0 and meshSize, and in between the difference of grid rows
      i and i-1 minus 1. */
  function YPadded(c: Mat, n: nat, i: nat, j: nat): real
    requires Shape(c, n, n) && i <= n && j < n
  {
    if i == 0 || i == n then 1.0 else (c[i][j] - c[i - 1][j]) - 1.0
  }

  /** Entry (i, j) of `YfluxWP` as line 61 reads it: YPadded, scaled by
      Flux (lines 58-59). */
  function YFluxEntry(c: Mat, g: Globals, i: nat, j: nat): real
    requires Steppable(c, g) && i <= g.meshSize && j < g.meshSize
  {
    Flux(g, YPadded(c, g.meshSize, i, j))
  }

  /** `YfluxWP`, a `(meshSize+1) x meshSize` matrix. */
  function YFluxPadded(c: Mat, g: Globals): (p: Mat)
    requires Steppable(c, g)
    ensures Shape(p, g.meshSize + 1, g.meshSize)
    ensures forall i, j {:trigger p[i][j]} :: 0 <= i <= g.meshSize && 0 <= j < g.meshSize ==> p[i][j] == YFluxEntry(c, g, i, j)
  {
    var n := g.meshSize;
    seq(n + 1, i requires 0 <= i <= n => seq(n, j requires 0 <= j < n => YFluxEntry(c, g, i, j)))
  }

  /** Entry (i, j) of `XfluxWP` before scaling (lines 66-69): the 0 it was
      created with on columns 0 and meshSize (the increment that would pad
      them, line 67, is applied to `YfluxWP`), and in between the
      difference of grid columns j and j-1 minus 1. */
  function XPadded(c: Mat, n: nat, i: nat, j: nat): real
    requires Shape(c, n, n) && i < n && j <= n
  {
    if j == 0 || j == n then 0.0 else (c[i][j] - c[i][j - 1]) - 1.0
  }

  /** Entry (i, j) of `XfluxWP` as line 73 reads it: XPadded, scaled by
      Flux (lines 70-71). */
  function XFluxEntry(c: Mat, g: Globals, i: nat, j: nat): real
    requires Steppable(c, g) && i < g.meshSize && j <= g.meshSize
  {
    Flux(g, XPadded(c, g.meshSize, i, j))
  }

  /** `XfluxWP`, a `meshSize x (meshSize+1)` matrix. */
  function XFluxPadded(c: Mat, g: Globals): (q: Mat)
    requires Steppable(c, g)
    ensures Shape(q, g.meshSize, g.meshSize + 1)
    ensures forall i, j {:trigger q[i][j]} :: 0 <= i < g.meshSize && 0 <= j <= g.meshSize ==> q[i][j] == XFluxEntry(c, g, i, j)
  {
    var n := g.meshSize;
    seq(n, i requires 0 <= i < n => seq(n + 1, j requires 0 <= j <= n => XFluxEntry(c, g, i, j)))
  }

  /** Entry (i, j) of `dC`: minus the difference of the padded Y fluxes
      below and above the cell over `latThickness` (line 61), minus the
      difference of the padded X fluxes right and left of it over `dx`
      (line 73). */
  function RateAt(c: Mat, g: Globals, i: nat, j: nat): real
    requires Steppable(c, g) && i < g.meshSize && j < g.meshSize
  {
    (-1.0 * (YFluxPadded(c, g)[i + 1][j] - YFluxPadded(c, g)[i][j])) / g.latThickness
    - (XFluxPadded(c, g)[i][j + 1] - XFluxPadded(c, g)[i][j]) / g.dx
  }

  /** `dC`, a `meshSize x meshSize` matrix. */
  function RateOfChange(c: Mat, g: Globals): (r: Mat)
    requires Steppable(c, g)
    ensures Shape(r, g.meshSize, g.meshSize)
    ensures forall i, j {:trigger r[i][j]} :: 0 <= i < g.meshSize && 0 <= j < g.meshSize ==> r[i][j] == RateAt(c, g, i, j)
  {
    var n := g.meshSize;
    seq(n, i requires 0 <= i < n => seq(n, j requires 0 <= j < n => RateAt(c, g, i, j)))
  }

  /** `array + dC*dt` (line 74). */
  function Step(c: Mat, g: Globals, dt: real): (r: Mat)
    requires Steppable(c, g)
    ensures Shape(r, g.meshSize, g.meshSize)
  {
    var n := g.meshSize;
    seq(n, i requires 0 <= i < n => seq(n, j requires 0 <= j < n => c[i][j] + RateOfChange(c, g)[i][j] * dt))
  }

  /** The entries of Step, for the proofs that need them. */
  lemma StepEntries(c: Mat, g: Globals, dt: real)
    requires Steppable(c, g)
    ensures forall i, j {:trigger Step(c, g, dt)[i][j]} :: 0 <= i < g.meshSize && 0 <= j < g.meshSize ==>
      Step(c, g, dt)[i][j] == c[i][j] + RateOfChange(c, g)[i][j] * dt
  {
  }

  /** A grid holding `c[i][j] + RateAt(c, g, i, j) * dt` in every cell is
      Step's grid. */
  lemma StepFromRates(c: Mat, g: Globals, dt: real, r: Mat)
    requires Steppable(c, g) && Shape(r, g.meshSize, g.meshSize)
    requires forall i, j {:trigger r[i][j]} :: 0 <= i < g.meshSize && 0 <= j < g.meshSize ==>
      r[i][j] == c[i][j] + RateAt(c, g, i, j) * dt
    ensures r == Step(c, g, dt)
  {
    StepEntries(c, g, dt);
    SameEntries(r, Step(c, g, dt), g.meshSize, g.meshSize);
  }

  /** Equal rates give equal updates. A hint for the verifier:
      calling it keeps the caller's proof cheap. */
  lemma UpdateOfEqual(v: real, e1: real, e2: real, dt: real)
    requires e1 == e2
    ensures v + e1 * dt == v + e2 * dt
  {
  }

  /** `steps` applications of Step, one after the other. */
  function Iterate(c: Mat, g: Globals, dt: real, steps: nat): (r: Mat)
    requires Steppable(c, g)
    ensures Steppable(r, g)
    decreases steps
  {
    if steps == 0 then c else Step(Iterate(c, g, dt, steps - 1), g, dt)
  }
}
