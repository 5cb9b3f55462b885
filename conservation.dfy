/** What one step does to the total amount on the grid. In exact
    arithmetic `calcDiffusion` conserves it: the two padding rows of the Y
    flux carry the same value, so whatever the padding pushes in at the top
    it pulls out at the bottom, and the X padding columns are zero. */
module Conservation {
  import opened Matrix
  import opened Diffusion

  /** The first `n` entries of a row of `dC`, where each entry is the Y
      divergence between a row `top` and the row `bottom` below it, minus
      the X divergence along one padded row `x`, sum to the Y divergence of
      the two partial row sums minus the X flux at the two ends of
      `x[..n + 1]`. */
  lemma {:induction false} RowOfRates(r: seq<real>, top: seq<real>, bottom: seq<real>, x: seq<real>, h: real, dx: real, n: nat)
    requires h != 0.0 && dx != 0.0
    requires |top| == |r| && |bottom| == |r| && |x| == |r| + 1 && n <= |r|
    requires forall j :: 0 <= j < |r| ==> r[j] == (-1.0 * (bottom[j] - top[j])) / h - (x[j + 1] - x[j]) / dx
    ensures SumTo(r, n) == (-1.0 * (SumTo(bottom, n) - SumTo(top, n))) / h - (x[n] - x[0]) / dx
  {
    if n > 0 {
      var m := n - 1;
      RowOfRates(r, top, bottom, x, h, dx, m);
      var yPrefix, yLast := -1.0 * (SumTo(bottom, m) - SumTo(top, m)), -1.0 * (bottom[m] - top[m]);
      AddQuotients(yPrefix, yLast, h);
      QuotientOfEqual(yPrefix + yLast, -1.0 * (SumTo(bottom, n) - SumTo(top, n)), h);
      AddQuotients(x[m] - x[0], x[n] - x[m], dx);
      QuotientOfEqual(x[m] - x[0] + (x[n] - x[m]), x[n] - x[0], dx);
    }
  }

  /** The first `n` row sums of `dC`, each the Y divergence of two
      consecutive row sums `s` of the padded Y flux, add up to the
      divergence between `s[0]` and `s[n]`. */
  lemma {:induction false} ColumnOfRates(rs: seq<real>, s: seq<real>, h: real, n: nat)
    requires h != 0.0
    requires |s| == |rs| + 1 && n <= |rs|
    requires forall i :: 0 <= i < |rs| ==> rs[i] == (-1.0 * (s[i + 1] - s[i])) / h
    ensures SumTo(rs, n) == (-1.0 * (s[n] - s[0])) / h
  {
    if n > 0 {
      var m := n - 1;
      ColumnOfRates(rs, s, h, m);
      AddQuotients(-1.0 * (s[m] - s[0]), -1.0 * (s[n] - s[m]), h);
      QuotientOfEqual(-1.0 * (s[m] - s[0]) + -1.0 * (s[n] - s[m]), -1.0 * (s[n] - s[0]), h);
    }
  }

  /** Row i of `dC` sums to the Y divergence of the sums of padded rows i
      and i+1: the X part cancels because both X padding columns are 0. */
  lemma RateRowSum(c: Mat, g: Globals, i: nat)
    requires Steppable(c, g) && i < g.meshSize
    ensures var p := YFluxPadded(c, g);
      Sum(RateOfChange(c, g)[i]) == (-1.0 * (Sum(p[i + 1]) - Sum(p[i]))) / g.latThickness
  {
    var n, p, q := g.meshSize, YFluxPadded(c, g), XFluxPadded(c, g);
    RowOfRates(RateOfChange(c, g)[i], p[i], p[i + 1], q[i], g.latThickness, g.dx, n);
    assert q[i][n] == q[i][0];
    VanishingQuotient(q[i][n], q[i][0], g.dx);
  }

  /** `(x - y)/d` is 0 when `x == y`. A hint for the verifier:
      calling it keeps the caller's proof cheap. */
  lemma VanishingQuotient(x: real, y: real, d: real)
    requires d != 0.0 && x == y
    ensures (x - y) / d == 0.0
  {
  }

  /** The first and the last row of the padded Y flux are equal: both
      hold the padding value 1, scaled. */
  lemma PaddingRowsEqual(c: Mat, g: Globals)
    requires Steppable(c, g)
    ensures YFluxPadded(c, g)[0] == YFluxPadded(c, g)[g.meshSize]
  {
    var n, p := g.meshSize, YFluxPadded(c, g);
    assert forall j :: 0 <= j < n ==> p[0][j] == p[n][j];
  }

  /** Row i of `dC` sums to the Y divergence of the padded row sums, for
      every i at once. */
  lemma RateRowSums(c: Mat, g: Globals)
    requires Steppable(c, g)
    ensures var s := RowSums(YFluxPadded(c, g));
      forall i :: 0 <= i < g.meshSize ==> RowSums(RateOfChange(c, g))[i] == (-1.0 * (s[i + 1] - s[i])) / g.latThickness
  {
    forall i | 0 <= i < g.meshSize
      ensures RowSums(RateOfChange(c, g))[i] == (-1.0 * (RowSums(YFluxPadded(c, g))[i + 1] - RowSums(YFluxPadded(c, g))[i])) / g.latThickness
    {
      RateRowSum(c, g, i);
    }
  }

  /** `dC` sums to 0 over the grid. */
  lemma RateTotalZero(c: Mat, g: Globals)
    requires Steppable(c, g)
    ensures Total(RateOfChange(c, g)) == 0.0
  {
    var s := RowSums(YFluxPadded(c, g));
    RateRowSums(c, g);
    ColumnOfRates(RowSums(RateOfChange(c, g)), s, g.latThickness, g.meshSize);
    PaddingRowsEqual(c, g);
    VanishingQuotient(s[g.meshSize], s[0], g.latThickness);
  }

  /** One step leaves the total amount unchanged, whatever `dt` is. */
  lemma TotalPreserved(c: Mat, g: Globals, dt: real)
    requires Steppable(c, g)
    ensures Total(Step(c, g, dt)) == Total(c)
  {
    StepEntries(c, g, dt);
    TotalOfUpdates(Step(c, g, dt), c, RateOfChange(c, g), g.meshSize, g.meshSize, dt);
    RateTotalZero(c, g);
  }

  /** Any number of steps leaves the total unchanged. */
  lemma {:induction false} IterateConserves(c: Mat, g: Globals, dt: real, steps: nat)
    requires Steppable(c, g)
    ensures Total(Iterate(c, g, dt, steps)) == Total(c)
    decreases steps
  {
    if steps > 0 {
      IterateConserves(c, g, dt, steps - 1);
      TotalPreserved(Iterate(c, g, dt, steps - 1), g, dt);
    }
  }
}
