# On-lattice diffusion step, modelled in Dafny

This project models the `Lattice` class of a small 2-D diffusion simulation
(`CONCENTRATION_GRADIENT.py`). It holds a `meshSize x meshSize` grid of
concentrations. `calcDiffusion` advances the grid by one explicit
finite-difference step in four stages:
- differences between adjacent rows, written into a padded Y flux matrix of
  size `(meshSize+1) x meshSize` whose two edge rows hold the value 1;
- the same along columns, into a padded X flux matrix of size
  `meshSize x (meshSize+1)`;
- each padded matrix is scaled by `-diffCoeff/latThickness`, and the two
  divergences are taken;
- the grid is updated as `array + dC*dt`.

Values are exact reals. The module-level `meshSize`, `diffCoeff`, `dx` and
`latThickness` that the step reads are a `Globals` parameter, and
`ModuleGlobals()` holds the script's values.

Modules:
- `Matrix` (matrix.dfy): grids as `seq<seq<real>>`, their sums, and how
  entry-wise updates change them.
- `Diffusion` (diffusion.dfy): the step as pure functions.
  - `YPadded`/`XPadded`: the padded matrices before scaling.
  - `YFluxPadded`/`XFluxPadded`: the scaled padded fluxes.
  - `RateOfChange`: `dC`.
  - `Step`: one step. `Iterate`: a number of steps.
- `StepCells` (cells.dfy): what the padded fluxes hold, and the rate of
  each cell split into two parts. The first is a textbook five-point
  operator with sealed (no-flux) edges. The second is a constant edge offset
  that the padding adds.
- `StepProperties` (properties.dfy): single-cell consequences. These are
  the five-point stencil in the interior, a uniform field moving only on its
  edges, a 1 x 1 grid that stays put, and the script's numbers.
- `Conservation` (conservation.dfy): the grid total is unchanged by a step
  and by any number of steps.
- `Simulation` (lattice.dfy): the imperative side.
  - The padded flux arrays are built in place, as NumPy does: zeros, `+= 1`,
    slice assignment, scaling.
  - The divergences are computed into `dC` and the new grid is built.
  - The `Lattice` class has a `grid` field (`self.array`) that
    `CalcDiffusion` replaces with `Step` of the old one.

Three consequences of the code worth knowing:
- Conservation: in exact arithmetic a step keeps the grid total
  (`Conservation.TotalPreserved`).
  - The two padded Y rows carry the same value, so what the padding adds on
    row 0 it removes on the last row.
  - Line 67 increments `YfluxWP` after its last use rather than `XfluxWP`, so
    both padded X columns stay 0.
  - Only floating-point rounding can make the Python total drift.
- Boundary: the edge offsets differ by axis because of line 67. On a uniform
  field, rows move by `±2·diffCoeff·dt/h²` and columns by
  `±diffCoeff·dt/(h·dx)` (`StepProperties.UniformCell`).
- Update: line 74 rebinds `self.array` to a new array rather than updating it
  in place. The model assigns a new value to the `grid` field.

## Model

| member | source | states |
|---|---|---|
| Diffusion.ModuleGlobals | CONCENTRATION_GRADIENT.py:19-25 | the script's values: a 20 x 20 mesh, `diffCoeff` 10, and both spacings `(100 - -100)/20 = 10` |
| Diffusion.YFluxPadded | CONCENTRATION_GRADIENT.py:52-59 | the padded Y flux is `(meshSize+1) x meshSize`, each entry the scaled padded value of its row |
| Diffusion.XFluxPadded | CONCENTRATION_GRADIENT.py:64-71 | the padded X flux is `meshSize x (meshSize+1)`, each entry the scaled padded value of its column |
| Diffusion.RateOfChange | CONCENTRATION_GRADIENT.py:61-73 | `dC` is `meshSize x meshSize`; each entry is the Y divergence over `latThickness` minus the X divergence over `dx` |
| Diffusion.Step | CONCENTRATION_GRADIENT.py:74 | a step maps a `meshSize x meshSize` grid to one of the same shape |
| Diffusion.StepFromRates | CONCENTRATION_GRADIENT.py:74 | a grid holding the old value plus `dt` times the rate in every cell is exactly Step's grid |
| Diffusion.Iterate | CONCENTRATION_GRADIENT.py:96-101 | any number of steps keeps the shape |
| StepCells.YFluxPaddedCells | CONCENTRATION_GRADIENT.py:52-59 | rows 0 and `meshSize` of the padded Y flux are `-diffCoeff/latThickness`; row i in between is `-diffCoeff*((C[i][j]-C[i-1][j]) - 1)/latThickness` |
| StepCells.XFluxPaddedCells | CONCENTRATION_GRADIENT.py:64-71 | columns 0 and `meshSize` of the padded X flux are 0 (line 67 increments the Y matrix); column j in between is `-diffCoeff*((C[i][j]-C[i][j-1]) - 1)/latThickness` |
| StepCells.YDivergenceAt | CONCENTRATION_GRADIENT.py:52-61 | the Y part of `dC` at a cell is `diffCoeff/h²` times the difference of the two padded row differences around it |
| StepCells.XDivergenceAt | CONCENTRATION_GRADIENT.py:64-73 | the X part of `dC` at a cell is `diffCoeff/(h·dx)` times the difference of the two padded column differences around it |
| StepCells.RateAtByAxis | CONCENTRATION_GRADIENT.py:52-73 | the rate of a cell is the sum of its Y and X parts |
| StepCells.RegroupByAxis | CONCENTRATION_GRADIENT.py:52-73 | the two axis parts regroup into the no-flux five-point operator plus the edge offset |
| StepCells.RateAtSplit | CONCENTRATION_GRADIENT.py:50-74 | every cell's rate is the no-flux five-point operator plus the edge offset of the padding (`∓2·diffCoeff/h²` on the first/last row, `∓diffCoeff/(h·dx)` on the first/last column) |
| StepProperties.StepCell | CONCENTRATION_GRADIENT.py:50-74 | each new cell is the old one plus `dt` times that reference rate |
| StepProperties.InteriorRate | CONCENTRATION_GRADIENT.py:52-73 | off the edges, the `-1` offsets cancel and the rate is the weighted differences towards the four neighbours |
| StepProperties.InteriorFivePoint | CONCENTRATION_GRADIENT.py:52-74 | with `dx == latThickness == h` (lines 22 and 25), a cell off the edges becomes `C + dt·diffCoeff/h²·(C[i+1][j]+C[i-1][j]+C[i][j+1]+C[i][j-1]-4C[i][j])` |
| StepProperties.UniformCell | CONCENTRATION_GRADIENT.py:54-74 | on a uniform field with `meshSize >= 2`, interior cells stay put; row 0 moves by `-2·diffCoeff·dt/h²` and the last row by `+2·diffCoeff·dt/h²`; column 0 moves by `-diffCoeff·dt/(h·dx)` and the last column by `+diffCoeff·dt/(h·dx)`; a corner cell adds its two shifts |
| StepProperties.SingleCellUnchanged | CONCENTRATION_GRADIENT.py:52-73 | a step on a 1 x 1 grid leaves it unchanged |
| StepProperties.ScriptInteriorCell | CONCENTRATION_GRADIENT.py:21-74 | with the script's values and `dt = 0.1`, an interior cell moves by `0.01` times its five-point sum |
| StepProperties.ScriptUniformCell | CONCENTRATION_GRADIENT.py:21-74 | with the script's values, a uniform field moves by `∓0.02` on the first/last row and `∓0.01` on the first/last column |
| Conservation.RowOfRates | CONCENTRATION_GRADIENT.py:61-73 | a row of `dC` sums to the Y divergence of the two padded row sums minus the X flux difference between the two ends of the row |
| Conservation.ColumnOfRates | CONCENTRATION_GRADIENT.py:61 | the row sums of the Y divergence telescope to the difference between the first and the last padded row sum |
| Conservation.RateRowSum | CONCENTRATION_GRADIENT.py:61-73 | the X part of a row of `dC` sums to 0, because both padded X columns are 0 |
| Conservation.PaddingRowsEqual | CONCENTRATION_GRADIENT.py:54-59 | the first and last padded Y rows are equal |
| Conservation.RateTotalZero | CONCENTRATION_GRADIENT.py:55-73 | `dC` sums to 0 over the grid |
| Conservation.TotalPreserved | CONCENTRATION_GRADIENT.py:50-74 | one step leaves the total concentration unchanged, whatever `dt` is |
| Conservation.IterateConserves | CONCENTRATION_GRADIENT.py:96-101 | any number of steps leaves the total unchanged |
| Matrix.TotalOfUpdates | CONCENTRATION_GRADIENT.py:74 | the entry-wise update `a + r*k` totals `Total(a) + Total(r)*k` |
| Matrix.SameEntries | CONCENTRATION_GRADIENT.py:74 | two grids of one shape with equal entries are equal |
| Simulation.Zeros | CONCENTRATION_GRADIENT.py:54-66 | `np.zeros` gives a fresh array of the shape asked for, every entry 0 |
| Simulation.ApplyToAll | CONCENTRATION_GRADIENT.py:55-71 | a whole-array `+= v`, `k*a` or `a/d` changes every entry by that operation and nothing else |
| Simulation.PadRows | CONCENTRATION_GRADIENT.py:52-57 | from zeros, `+= 1` then the slice assignment of `Yflux - 1` leave every entry at its unscaled padded Y value |
| Simulation.PadColumns | CONCENTRATION_GRADIENT.py:64-69 | from zeros, the slice assignment of `Xflux - 1` leaves every entry at its unscaled padded X value (0 on the edge columns) |
| Simulation.ScaleFlux | CONCENTRATION_GRADIENT.py:58-71 | scaling by `-1*diffCoeff` and dividing by `latThickness` turns every entry into its flux |
| Simulation.YDivergence | CONCENTRATION_GRADIENT.py:61 | `dC` is a fresh `meshSize x meshSize` array holding the Y divergence of the padded Y flux |
| Simulation.SubtractXDivergence | CONCENTRATION_GRADIENT.py:73 | every entry of `dC` loses the X divergence of the padded X flux |
| Simulation.RateArray | CONCENTRATION_GRADIENT.py:52-73 | the arrays built as the code builds them give a fresh `dC` equal to `RateOfChange` entry by entry, including the dead `YfluxWP += 1` of line 67 |
| Simulation.Updated | CONCENTRATION_GRADIENT.py:74 | `array + dC*dt` is a new `meshSize x meshSize` grid with that value in every cell |
| Simulation.UpdatedIsStep | CONCENTRATION_GRADIENT.py:74 | the grid so built is Step's grid |
| Simulation.Lattice.constructor | CONCENTRATION_GRADIENT.py:35-39 | the lattice keeps its size and `diffCoeff`, has `dt == 0.1`, and a grid of shape `meshSize x meshSize` |
| Simulation.Lattice.SetGradient | CONCENTRATION_GRADIENT.py:41-42 | the grid becomes the given sample, of the lattice's shape |
| Simulation.Lattice.CalcDiffusion | CONCENTRATION_GRADIENT.py:50-74 | the grid becomes `Step` of the old grid with the module-level values and the instance's `dt`, and keeps its shape |
| Simulation.Lattice.RunUntil | CONCENTRATION_GRADIENT.py:96-101 | running `calcDiffusion` while `currT < end` ends at `currT == max(start, end)`, with the grid iterated that many times and its total unchanged |

## Left out

- Rendering and export are I/O and presentation and are not modelled: `showLattice`, titles, labels, colour bar, `savefig`, `plt.show` and the list of image files.
- `printBackingArray` is console output and is not modelled.
- Simulation.Lattice.SetGradient: `np.random.rand` is randomness. The sample is a parameter, required to be of the lattice's shape with entries in [0, 1).
- Simulation.Lattice.constructor: `np.empty` leaves unspecified contents. They are a parameter. A negative size makes `np.empty` raise `ValueError`; the `nat` type of `meshSize` excludes that case, so the error path is not modelled. Size 0 is accepted by both the code and the model.
- Simulation.Lattice.CalcDiffusion: requires the lattice's `meshSize` to equal the global one, because lines 52/57 (and 64/69) raise on any other shape. It also requires non-zero spacings; with a zero spacing the floats become infinite or NaN.
- Simulation.Lattice.RunUntil: models one driver loop. The script runs three of them in sequence (until 10, 50 and 300), which is `RunUntil` called three times. The commented-out 1000-step block is not modelled.
- Floating point: values are exact reals, so rounding, overflow, NaN and infinity are not modelled. The total is preserved exactly here, and only up to rounding in the Python.
- Lines 58-59, 70-71, 73 and 74 rebind names to new NumPy arrays. The model updates the flux arrays and `dC` in place and assigns a new value to `grid`. No other reference to these arrays exists, so the values are the same.
- The instance's `diffCoeff` is stored but never read by the step. The step uses the module-level value, as the code does.
