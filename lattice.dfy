/** The `Lattice` object and the array work `calcDiffusion` does: fresh
    padded flux arrays, whole-array increments, slice assignments, scaling
    and division, the two divergences, and the update of the grid. */
module Simulation {
  import opened Matrix
  import opened Diffusion
  import opened Conservation

  /** An element-wise operation NumPy applies to a whole array:
      `a += v`, `k*a` and `a/d`. */
  datatype Op = Add(v: real) | Times(k: real) | Over(d: real)

  function Apply(op: Op, x: real): real
    requires op.Over? ==> op.d != 0.0
  {
    match op
    case Add(v) => x + v
    case Times(k) => k * x
    case Over(d) => x / d
  }

  /** `np.zeros(shape=(rows, cols))` */
  method Zeros(rows: nat, cols: nat) returns (a: array2<real>)
    ensures fresh(a) && a.Length0 == rows && a.Length1 == cols
    ensures forall i, j :: 0 <= i < rows && 0 <= j < cols ==> a[i, j] == 0.0
  {
    a := new real[rows, cols]((i, j) => 0.0);
  }

  /** Applies `op` to every entry of `a`, in place. */
  method ApplyToAll(a: array2<real>, op: Op)
    requires op.Over? ==> op.d != 0.0
    modifies a
    ensures forall i, j :: 0 <= i < a.Length0 && 0 <= j < a.Length1 ==> a[i, j] == Apply(op, old(a[i, j]))
  {
    var i := 0;
    while i < a.Length0
      invariant 0 <= i <= a.Length0
      invariant forall r, k :: 0 <= r < i && 0 <= k < a.Length1 ==> a[r, k] == Apply(op, old(a[r, k]))
      invariant forall r, k :: i <= r < a.Length0 && 0 <= k < a.Length1 ==> a[r, k] == old(a[r, k])
    {
      var j := 0;
      while j < a.Length1
        invariant 0 <= j <= a.Length1
        invariant forall r, k :: 0 <= r < i && 0 <= k < a.Length1 ==> a[r, k] == Apply(op, old(a[r, k]))
        invariant forall k :: 0 <= k < j ==> a[i, k] == Apply(op, old(a[i, k]))
        invariant forall k :: j <= k < a.Length1 ==> a[i, k] == old(a[i, k])
        invariant forall r, k :: i < r < a.Length0 && 0 <= k < a.Length1 ==> a[r, k] == old(a[r, k])
      {
        a[i, j] := Apply(op, a[i, j]);
        j := j + 1;
      }
      i := i + 1;
    }
  }

  /** Lines 55-57 on the zeros of line 54: `YfluxWP += 1`, then
      `YfluxWP[1:meshSize,:] = Yflux - 1` with `Yflux = array[1:,:] -
      array[:meshSize-1,:]` (line 52). */
  method PadRows(p: array2<real>, c: Mat, n: nat)
    requires Shape(c, n, n) && p.Length0 == n + 1 && p.Length1 == n
    requires forall i, j :: 0 <= i <= n && 0 <= j < n ==> p[i, j] == 0.0
    modifies p
    ensures forall i, j :: 0 <= i <= n && 0 <= j < n ==> p[i, j] == YPadded(c, n, i, j)
  {
    ApplyToAll(p, Add(1.0));
    var i := 1;
    while i < n
      invariant 1 <= i <= n || n == 0
      invariant forall r, k :: 0 <= r <= n && 0 <= k < n ==> p[r, k] == if 0 < r < i then YPadded(c, n, r, k) else 1.0
    {
      var j := 0;
      while j < n
        invariant 0 <= j <= n
        invariant forall r, k :: 0 <= r <= n && 0 <= k < n ==>
          p[r, k] == if 0 < r < i || (r == i && k < j) then YPadded(c, n, r, k) else 1.0
      {
        p[i, j] := (c[i][j] - c[i - 1][j]) - 1.0;
        j := j + 1;
      }
      i := i + 1;
    }
  }

  /** Line 69 on the zeros of line 66: `XfluxWP[:,1:meshSize] = Xflux - 1`
      with `Xflux = array[:,1:] - array[:,:meshSize-1]` (line 64). */
  method PadColumns(q: array2<real>, c: Mat, n: nat)
    requires Shape(c, n, n) && q.Length0 == n && q.Length1 == n + 1
    requires forall i, j :: 0 <= i < n && 0 <= j <= n ==> q[i, j] == 0.0
    modifies q
    ensures forall i, j :: 0 <= i < n && 0 <= j <= n ==> q[i, j] == XPadded(c, n, i, j)
  {
    var i := 0;
    while i < n
      invariant 0 <= i <= n
      invariant forall r, k :: 0 <= r < n && 0 <= k <= n ==> q[r, k] == if r < i then XPadded(c, n, r, k) else 0.0
    {
      var j := 1;
      while j < n
        invariant 1 <= j <= n
        invariant forall r, k :: 0 <= r < n && 0 <= k <= n ==>
          q[r, k] == if r < i || (r == i && 0 < k < j) then XPadded(c, n, r, k) else 0.0
      {
        q[i, j] := (c[i][j] - c[i][j - 1]) - 1.0;
        j := j + 1;
      }
      i := i + 1;
    }
  }

  /** `-1*diffCoeff*` then `/latThickness` (lines 58-59 and 70-71): every
      entry becomes its Flux. */
  method ScaleFlux(a: array2<real>, g: Globals)
    requires g.latThickness != 0.0
    modifies a
    ensures forall i, j :: 0 <= i < a.Length0 && 0 <= j < a.Length1 ==> a[i, j] == Flux(g, old(a[i, j]))
  {
    ApplyToAll(a, Times(-1.0 * g.diffCoeff));
    ApplyToAll(a, Over(g.latThickness));
  }

  /** `dC = -1*(YfluxWP[1:,:] - YfluxWP[:meshSize,:])/latThickness` (line
      61), for a `p` holding the padded matrix `y`. */
  method YDivergence(p: array2<real>, n: nat, h: real, ghost y: Mat) returns (dc: array2<real>)
    requires h != 0.0 && p.Length0 == n + 1 && p.Length1 == n && Shape(y, n + 1, n)
    requires forall i, j :: 0 <= i <= n && 0 <= j < n ==> p[i, j] == y[i][j]
    ensures fresh(dc) && dc.Length0 == n && dc.Length1 == n
    ensures forall i, j :: 0 <= i < n && 0 <= j < n ==> dc[i, j] == (-1.0 * (y[i + 1][j] - y[i][j])) / h
  {
    dc := new real[n, n];
    var i := 0;
    while i < n
      invariant 0 <= i <= n
      invariant forall r, k :: 0 <= r < i && 0 <= k < n ==> dc[r, k] == (-1.0 * (y[r + 1][k] - y[r][k])) / h
    {
      var j := 0;
      while j < n
        invariant 0 <= j <= n
        invariant forall r, k :: 0 <= r < i && 0 <= k < n ==> dc[r, k] == (-1.0 * (y[r + 1][k] - y[r][k])) / h
        invariant forall k :: 0 <= k < j ==> dc[i, k] == (-1.0 * (y[i + 1][k] - y[i][k])) / h
      {
        dc[i, j] := (-1.0 * (p[i + 1, j] - p[i, j])) / h;
        j := j + 1;
      }
      i := i + 1;
    }
  }

  /** `dC = dC - (XfluxWP[:,1:] - XfluxWP[:,:meshSize])/dx` (line 73), for
      a `q` holding the padded matrix `x`. */
  method SubtractXDivergence(dc: array2<real>, q: array2<real>, n: nat, dx: real, ghost x: Mat)
    requires dx != 0.0 && dc != q
    requires dc.Length0 == n && dc.Length1 == n && q.Length0 == n && q.Length1 == n + 1 && Shape(x, n, n + 1)
    requires forall i, j :: 0 <= i < n && 0 <= j <= n ==> q[i, j] == x[i][j]
    modifies dc
    ensures forall i, j :: 0 <= i < n && 0 <= j < n ==> dc[i, j] == old(dc[i, j]) - (x[i][j + 1] - x[i][j]) / dx
  {
    var i := 0;
    while i < n
      invariant 0 <= i <= n
      invariant forall r, k :: 0 <= r < i && 0 <= k < n ==> dc[r, k] == old(dc[r, k]) - (x[r][k + 1] - x[r][k]) / dx
      invariant forall r, k :: i <= r < n && 0 <= k < n ==> dc[r, k] == old(dc[r, k])
    {
      SubtractRowDivergence(dc, q, i, n, dx, x);
      i := i + 1;
    }
  }

  /** Row `i` of SubtractXDivergence. */
  method SubtractRowDivergence(dc: array2<real>, q: array2<real>, i: nat, n: nat, dx: real, ghost x: Mat)
    requires dx != 0.0 && dc != q && i < n
    requires dc.Length0 == n && dc.Length1 == n && q.Length0 == n && q.Length1 == n + 1 && Shape(x, n, n + 1)
    requires forall j :: 0 <= j <= n ==> q[i, j] == x[i][j]
    modifies dc
    ensures forall j :: 0 <= j < n ==> dc[i, j] == old(dc[i, j]) - (x[i][j + 1] - x[i][j]) / dx
    ensures forall r, k :: 0 <= r < n && r != i && 0 <= k < n ==> dc[r, k] == old(dc[r, k])
  {
    var j := 0;
    while j < n
      invariant 0 <= j <= n
      invariant forall k :: 0 <= k < j ==> dc[i, k] == old(dc[i, k]) - (x[i][k + 1] - x[i][k]) / dx
      invariant forall k :: j <= k < n ==> dc[i, k] == old(dc[i, k])
      invariant forall r, k :: 0 <= r < n && r != i && 0 <= k < n ==> dc[r, k] == old(dc[r, k])
    {
      dc[i, j] := dc[i, j] - (q[i, j + 1] - q[i, j]) / dx;
      j := j + 1;
    }
  }

  /** Lines 52-73 of `calcDiffusion`: the padded fluxes, built in place in
      their own arrays, and their divergences, giving `dC`. Line 67 adds 1 to
      the Y padded flux after its last use. */
  method RateArray(c: Mat, g: Globals) returns (dC: array2<real>)
    requires Steppable(c, g)
    ensures fresh(dC) && dC.Length0 == g.meshSize && dC.Length1 == g.meshSize
    ensures forall i, j :: 0 <= i < g.meshSize && 0 <= j < g.meshSize ==> dC[i, j] == RateAt(c, g, i, j)
  {
    var n := g.meshSize;
    ghost var y, x := YFluxPadded(c, g), XFluxPadded(c, g);
    var yFluxWP := Zeros(n + 1, n);
    PadRows(yFluxWP, c, n);
    ScaleFlux(yFluxWP, g);
    dC := YDivergence(yFluxWP, n, g.latThickness, y);
    var xFluxWP := Zeros(n, n + 1);
    ApplyToAll(yFluxWP, Add(1.0));
    PadColumns(xFluxWP, c, n);
    ScaleFlux(xFluxWP, g);
    SubtractXDivergence(dC, xFluxWP, n, g.dx, x);
  }

  /** `array + dC*dt` (line 74), a new grid. */
  method Updated(c: Mat, dc: array2<real>, n: nat, dt: real) returns (r: Mat)
    requires Shape(c, n, n) && dc.Length0 == n && dc.Length1 == n
    ensures Shape(r, n, n)
    ensures forall i, j {:trigger r[i][j]} :: 0 <= i < n && 0 <= j < n ==> r[i][j] == c[i][j] + dc[i, j] * dt
  {
    r := [];
    var i := 0;
    while i < n
      invariant 0 <= i <= n && Shape(r, i, n)
      invariant forall a, b {:trigger r[a][b]} :: 0 <= a < i && 0 <= b < n ==> r[a][b] == c[a][b] + dc[a, b] * dt
    {
      var row := [];
      var j := 0;
      while j < n
        invariant 0 <= j <= n && |row| == j
        invariant forall b {:trigger row[b]} :: 0 <= b < j ==> row[b] == c[i][b] + dc[i, b] * dt
      {
        row := row + [c[i][j] + dc[i, j] * dt];
        j := j + 1;
      }
      r := r + [row];
      i := i + 1;
    }
  }

  /** Adding `dt` times the rates RateArray computed to every cell gives
      Step's grid. */
  lemma UpdatedIsStep(c: Mat, g: Globals, dt: real, dC: array2<real>, next: Mat)
    requires Steppable(c, g) && dC.Length0 == g.meshSize && dC.Length1 == g.meshSize
    requires forall i, j :: 0 <= i < g.meshSize && 0 <= j < g.meshSize ==> dC[i, j] == RateAt(c, g, i, j)
    requires Shape(next, g.meshSize, g.meshSize)
    requires forall i, j {:trigger next[i][j]} :: 0 <= i < g.meshSize && 0 <= j < g.meshSize ==>
      next[i][j] == c[i][j] + dC[i, j] * dt
    ensures next == Step(c, g, dt)
  {
    forall i, j | 0 <= i < g.meshSize && 0 <= j < g.meshSize
      ensures next[i][j] == c[i][j] + RateAt(c, g, i, j) * dt
    {
      UpdateOfEqual(c[i][j], dC[i, j], RateAt(c, g, i, j), dt);
    }
    StepFromRates(c, g, dt, next);
  }

  /** A grid of concentrations that diffuses one explicit step at a time. */
  class Lattice {
    /** The size the backing grid was created with. */
    const meshSize: nat
    /** `self.array`, the backing array, replaced by every step. */
    var grid: Mat
    /** Stored, but never read by the step, which uses the global value. */
    const diffCoeff: real
    /** The time step. */
    const dt: real

    /** The backing grid is `meshSize x meshSize`. */
    predicate Valid()
      reads this
    {
      Shape(grid, meshSize, meshSize)
    }

    /** `Lattice(meshSize, diffCoeff)`: `np.empty` leaves whatever
        `contents` the memory held. */
    constructor(meshSize: nat, diffCoeff: real, contents: Mat)
      requires Shape(contents, meshSize, meshSize)
      ensures this.meshSize == meshSize && this.diffCoeff == diffCoeff && dt == 0.1
      ensures grid == contents && Valid()
    {
      this.meshSize := meshSize;
      this.grid := contents;
      this.diffCoeff := diffCoeff;
      this.dt := 0.1;
    }

    /** `setGradient`: the backing grid becomes a fresh sample of
        `np.random.rand`, entries in [0, 1). */
    method SetGradient(sample: Mat)
      requires Shape(sample, meshSize, meshSize)
      requires forall i, j :: 0 <= i < meshSize && 0 <= j < meshSize ==> 0.0 <= sample[i][j] < 1.0
      modifies this
      ensures grid == sample && Valid()
    {
      grid := sample;
    }

    /** `calcDiffusion`: one step with the module-level values `g`. */
    method CalcDiffusion(g: Globals)
      requires Valid() && g.meshSize == meshSize && g.dx != 0.0 && g.latThickness != 0.0
      modifies this
      ensures grid == Step(old(grid), g, dt) && Valid()
    {
      var n, c := g.meshSize, grid;
      var dC := RateArray(c, g);
      var next := Updated(c, dC, n, dt);
      UpdatedIsStep(c, g, dt, dC, next);
      grid := next;
    }

    /** The script's driver loops (`while currT < end: calcDiffusion();
        currT += 1`, lines 96-101 with rendering left out): from `start`,
        one step per time unit until `end`, returning the final `currT`. */
    method RunUntil(g: Globals, start: int, end: int) returns (t: int)
      requires Valid() && g.meshSize == meshSize && g.dx != 0.0 && g.latThickness != 0.0
      modifies this
      ensures t == (if start < end then end else start) && Valid()
      ensures grid == Iterate(old(grid), g, dt, t - start)
      ensures Total(grid) == Total(old(grid))
    {
      t := start;
      while t < end
        invariant start <= t && (start < end ==> t <= end) && (start >= end ==> t == start)
        invariant grid == Iterate(old(grid), g, dt, t - start) && Valid()
        decreases end - t
      {
        CalcDiffusion(g);
        t := t + 1;
      }
      IterateConserves(old(grid), g, dt, t - start);
    }
  }
}
