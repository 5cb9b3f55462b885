/** Matrices of reals stored row by row, and sums over rows and grids. */
module Matrix {

  type Mat = seq<seq<real>>

  /** `m.shape == (rows, cols)` */
  predicate Shape(m: Mat, rows: int, cols: int) {
    |m| == rows && forall i :: 0 <= i < |m| ==> |m[i]| == cols
  }

  /** Two grids of one shape with the same entries are equal. */
  lemma SameEntries(a: Mat, b: Mat, rows: nat, cols: nat)
    requires Shape(a, rows, cols) && Shape(b, rows, cols)
    requires forall i, j {:trigger a[i][j]} :: 0 <= i < rows && 0 <= j < cols ==> a[i][j] == b[i][j]
    ensures a == b
  {
    forall i | 0 <= i < rows
      ensures a[i] == b[i]
    {
      assert forall j :: 0 <= j < cols ==> a[i][j] == b[i][j];
    }
  }

  /** The sum of the first `n` entries of `s`. */
  function SumTo(s: seq<real>, n: nat): real
    requires n <= |s|
  {
    if n == 0 then 0.0 else SumTo(s, n - 1) + s[n - 1]
  }

  /** The sum of the entries of `s`. */
  function Sum(s: seq<real>): real {
    SumTo(s, |s|)
  }

  /** The sums of the rows of `m`. */
  function RowSums(m: Mat): (r: seq<real>)
    ensures |r| == |m|
    ensures forall i :: 0 <= i < |m| ==> r[i] == Sum(m[i])
  {
    seq(|m|, i requires 0 <= i < |m| => Sum(m[i]))
  }

  /** The sum of every entry of `m`. */
  function Total(m: Mat): real {
    Sum(RowSums(m))
  }

  /** Entry-wise `a + r*k` sums to `a`'s sum plus `r`'s times `k`. */
  lemma {:induction false} SumOfUpdates(s: seq<real>, a: seq<real>, r: seq<real>, k: real, n: nat)
    requires n <= |s| == |a| == |r|
    requires forall i :: 0 <= i < |s| ==> s[i] == a[i] + r[i] * k
    ensures SumTo(s, n) == SumTo(a, n) + SumTo(r, n) * k
  {
    if n > 0 {
      SumOfUpdates(s, a, r, k, n - 1);
      AddProducts(SumTo(r, n - 1), r[n - 1], k);
    }
  }

  /** `x*k + y*k == (x + y)*k` */
  lemma AddProducts(x: real, y: real, k: real)
    ensures x * k + y * k == (x + y) * k
  {
  }

  /** `x/d + y/d == (x + y)/d` */
  lemma AddQuotients(x: real, y: real, d: real)
    requires d != 0.0
    ensures x / d + y / d == (x + y) / d
  {
  }

  /** Equal numerators give equal quotients. A hint for the verifier:
      calling it keeps the caller's proof cheap. */
  lemma QuotientOfEqual(x: real, y: real, d: real)
    requires d != 0.0 && x == y
    ensures x / d == y / d
  {
  }

  /** Entry-wise `a + r*k` over a grid has row sums `a`'s plus `r`'s times `k`. */
  lemma RowSumsOfUpdates(s: Mat, a: Mat, r: Mat, rows: nat, cols: nat, k: real)
    requires Shape(s, rows, cols) && Shape(a, rows, cols) && Shape(r, rows, cols)
    requires forall i, j {:trigger s[i][j]} :: 0 <= i < rows && 0 <= j < cols ==> s[i][j] == a[i][j] + r[i][j] * k
    ensures forall i :: 0 <= i < rows ==> RowSums(s)[i] == RowSums(a)[i] + RowSums(r)[i] * k
  {
    forall i | 0 <= i < rows
      ensures RowSums(s)[i] == RowSums(a)[i] + RowSums(r)[i] * k
    {
      SumOfUpdates(s[i], a[i], r[i], k, cols);
    }
  }

  /** Entry-wise `a + r*k` over a grid totals `Total(a) + Total(r)*k`. */
  lemma TotalOfUpdates(s: Mat, a: Mat, r: Mat, rows: nat, cols: nat, k: real)
    requires Shape(s, rows, cols) && Shape(a, rows, cols) && Shape(r, rows, cols)
    requires forall i, j {:trigger s[i][j]} :: 0 <= i < rows && 0 <= j < cols ==> s[i][j] == a[i][j] + r[i][j] * k
    ensures Total(s) == Total(a) + Total(r) * k
  {
    RowSumsOfUpdates(s, a, r, rows, cols, k);
    SumOfUpdates(RowSums(s), RowSums(a), RowSums(r), k, rows);
  }
}
