/** Vectors and matrices of money amounts, as the NumPy code handles them:
    a vector is a sequence of reals, a matrix a sequence of equally long rows.
    Sum, row sums and column sums, and the few facts about them that the
    clearing and settlement proofs need. */
module Vectors {

  type Vector = seq<real>
  type Matrix = seq<seq<real>>

  /** `m` has `rows` rows of `cols` entries each. */
  predicate IsMatrix(m: Matrix, rows: nat, cols: nat) {
    |m| == rows && forall i :: 0 <= i < rows ==> |m[i]| == cols
  }

  /** `max(a, b)`, `numpy.maximum` on one entry. */
  function Max(a: real, b: real): real {
    if a < b then b else a
  }

  /** `min(a, b)`, `numpy.minimum` on one entry. */
  function Min(a: real, b: real): real {
    if a < b then a else b
  }

  /** `numpy.sum` of a vector. */
  function Sum(v: Vector): real {
    if |v| == 0 then 0.0 else Sum(v[..|v| - 1]) + v[|v| - 1]
  }

  function Zeros(n: nat): (z: Vector)
    ensures |z| == n && forall i :: 0 <= i < n ==> z[i] == 0.0
  {
    seq(n, _ => 0.0)
  }

  function ZeroMatrix(rows: nat, cols: nat): (z: Matrix)
    ensures IsMatrix(z, rows, cols)
    ensures forall i, j :: 0 <= i < rows && 0 <= j < cols ==> z[i][j] == 0.0
  {
    seq(rows, _ => Zeros(cols))
  }

  /** `numpy.sum(m, axis=1)`. */
  function RowSums(m: Matrix): (r: Vector)
    ensures |r| == |m|
  {
    seq(|m|, i requires 0 <= i < |m| => Sum(m[i]))
  }

  /** Column `j` of `m`. */
  function Column(m: Matrix, j: nat): (c: Vector)
    requires forall i :: 0 <= i < |m| ==> j < |m[i]|
    ensures |c| == |m|
  {
    seq(|m|, i requires 0 <= i < |m| => m[i][j])
  }

  /** `numpy.sum(m, axis=0)`. */
  function ColSums(m: Matrix, cols: nat): (r: Vector)
    requires IsMatrix(m, |m|, cols)
    ensures |r| == cols
  {
    seq(cols, j requires 0 <= j < cols => Sum(Column(m, j)))
  }

  /** Entry-wise sum of two matrices of the same shape (`+=` on arrays). */
  function AddMatrix(a: Matrix, b: Matrix, rows: nat, cols: nat): (c: Matrix)
    requires IsMatrix(a, rows, cols) && IsMatrix(b, rows, cols)
    ensures IsMatrix(c, rows, cols)
    ensures forall i, j :: 0 <= i < rows && 0 <= j < cols ==> c[i][j] == a[i][j] + b[i][j]
  {
    seq(rows, i requires 0 <= i < rows => seq(cols, j requires 0 <= j < cols => a[i][j] + b[i][j]))
  }

  lemma {:induction false} SumZeros(v: Vector)
    requires forall i :: 0 <= i < |v| ==> v[i] == 0.0
    ensures Sum(v) == 0.0
  {
    if |v| > 0 {
      SumZeros(v[..|v| - 1]);
    }
  }

  lemma {:induction false} SumConcat(a: Vector, b: Vector)
    ensures Sum(a + b) == Sum(a) + Sum(b)
  {
    if |b| > 0 {
      assert (a + b)[..|a + b| - 1] == a + b[..|b| - 1];
      SumConcat(a, b[..|b| - 1]);
    } else {
      assert a + b == a;
    }
  }

  /** Summing is additive in the entries. */
  lemma {:induction false} SumAdd(a: Vector, b: Vector, c: Vector)
    requires |a| == |b| == |c|
    requires forall i :: 0 <= i < |c| ==> c[i] == a[i] + b[i]
    ensures Sum(c) == Sum(a) + Sum(b)
  {
    if |c| > 0 {
      var n := |c| - 1;
      SumAdd(a[..n], b[..n], c[..n]);
    }
  }

  /** Summing commutes with scaling every entry by `k`. */
  lemma {:induction false} SumScale(k: real, a: Vector, c: Vector)
    requires |a| == |c|
    requires forall i :: 0 <= i < |c| ==> c[i] == k * a[i]
    ensures Sum(c) == k * Sum(a)
  {
    if |c| > 0 {
      var n := |c| - 1;
      SumScale(k, a[..n], c[..n]);
    }
  }

  /** Summing is monotone in the entries. */
  lemma {:induction false} SumLe(a: Vector, b: Vector)
    requires |a| == |b|
    requires forall i :: 0 <= i < |a| ==> a[i] <= b[i]
    ensures Sum(a) <= Sum(b)
  {
    if |a| > 0 {
      var n := |a| - 1;
      SumLe(a[..n], b[..n]);
    }
  }

  lemma SumNonNegative(a: Vector)
    requires forall i :: 0 <= i < |a| ==> a[i] >= 0.0
    ensures Sum(a) >= 0.0
  {
    SumLe(Zeros(|a|), a);
    SumZeros(Zeros(|a|));
  }

  /** Overwriting one entry changes the sum by the difference. */
  lemma {:induction false} SumUpdate(v: Vector, k: nat, x: real)
    requires k < |v|
    ensures Sum(v[k := x]) == Sum(v) - v[k] + x
  {
    var n := |v| - 1;
    if k < n {
      assert v[k := x][..n] == v[..n][k := x];
      SumUpdate(v[..n], k, x);
    } else {
      assert v[k := x][..n] == v[..n];
    }
  }

  /** A sum with a single possibly non-zero entry is that entry. */
  lemma SumSingle(v: Vector, k: nat)
    requires k < |v|
    requires forall i :: 0 <= i < |v| && i != k ==> v[i] == 0.0
    ensures Sum(v) == v[k]
  {
    SumZeros(v[k := 0.0]);
    SumUpdate(v[k := 0.0], k, v[k]);
    assert v[k := 0.0][k := v[k]] == v;
  }

  /** The total of all entries does not depend on summing rows or columns first. */
  lemma {:induction false} SumExchange(m: Matrix, cols: nat)
    requires IsMatrix(m, |m|, cols)
    ensures Sum(RowSums(m)) == Sum(ColSums(m, cols))
  {
    if |m| == 0 {
      SumZeros(ColSums(m, cols));
    } else {
      var n := |m| - 1;
      var top := m[..n];
      SumExchange(top, cols);
      assert RowSums(m)[..n] == RowSums(top);
      forall j | 0 <= j < cols
        ensures ColSums(m, cols)[j] == ColSums(top, cols)[j] + m[n][j]
      {
        assert Column(m, j)[..n] == Column(top, j);
      }
      SumAdd(ColSums(top, cols), m[n], ColSums(m, cols));
    }
  }

  /** Two matrices of one shape with equal entries are equal. */
  lemma MatrixExtensional(a: Matrix, b: Matrix, rows: nat, cols: nat)
    requires IsMatrix(a, rows, cols) && IsMatrix(b, rows, cols)
    requires forall i, j :: 0 <= i < rows && 0 <= j < cols ==> a[i][j] == b[i][j]
    ensures a == b
  {
    forall i | 0 <= i < rows ensures a[i] == b[i] {
      assert forall j :: 0 <= j < cols ==> a[i][j] == b[i][j];
    }
  }

  predicate Increasing(s: seq<int>) {
    forall a, b :: 0 <= a < b < |s| ==> s[a] < s[b]
  }

  /** `numpy.where(mask)[0]`: the indices where `mask` holds, ascending. */
  function Where(mask: seq<bool>): (r: seq<int>)
    ensures Increasing(r)
    ensures forall k :: 0 <= k < |r| ==> 0 <= r[k] < |mask|
    ensures forall i :: i in r <==> 0 <= i < |mask| && mask[i]
  {
    if |mask| == 0 then []
    else Where(mask[..|mask| - 1]) + (if mask[|mask| - 1] then [|mask| - 1] else [])
  }
}
