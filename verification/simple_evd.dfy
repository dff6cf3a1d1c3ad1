/** The eigen-decomposition wrapper (`SimpleEVD`), 64-bit path only.

    The eigenvalue algorithm itself is foreign: it is a parameter of the
    constructor that, given the matrix, either reports failure (None) or
    yields the eigenvalue at every index. What is modelled is the wrapper's
    own logic: failing fast on a failed decomposition, collecting the
    eigenvalues in index order, and the arg-max / arg-min scans over their
    squared magnitudes. */
module Simple {
  import opened Wrappers
  import Extremes

  /** A complex number; eigenvalues of a real matrix may be complex. */
  datatype Complex = Complex(re: real, im: real)

  /** `getMagnitude2`: the squared magnitude, exact (no rounding). */
  function Magnitude2(c: Complex): real
  {
    c.re * c.re + c.im * c.im
  }

  /** A dense matrix: its shape and its row-major entries. The wrapper reads
      only the column count; `numRows` and `data` are inert here, handed to
      the algorithm untouched, and `|data| == numRows * numCols` is not
      enforced. */
  datatype Matrix = Matrix(numRows: nat, numCols: nat, data: seq<real>)

  /** The foreign eigenvalue algorithm: None when `decompose` returns false,
      otherwise the eigenvalue at each index. */
  type Algorithm = Matrix -> Option<nat -> Complex>

  /** The underlying decomposition object: the size it was created for,
      whether eigenvectors are wanted, the algorithm it runs, and the outcome
      of its last `decompose` (None before a successful one). */
  datatype EigenDecomposition = EigenDecomposition(
    size: nat,
    needVectors: bool,
    algorithm: Algorithm,
    result: Option<nat -> Complex>)

  datatype Error = EigenvalueDecompositionFailed

  /** The wrapper: the matrix it was built from and its decomposition. */
  datatype SimpleEVD = SimpleEVD(mat: Matrix, eig: EigenDecomposition)

  /** What every constructed wrapper satisfies: the decomposition was made
      for the matrix's column count, and it has successfully decomposed the
      wrapper's own matrix. */
  ghost predicate Valid(evd: SimpleEVD)
  {
    && evd.eig.size == evd.mat.numCols
    && evd.eig.result == evd.eig.algorithm(evd.mat)
    && evd.eig.result.Some?
  }

  /** The constructor: a decomposition sized by the column count, with
      eigenvectors, and an exception if it fails. */
  function New(mat: Matrix, algorithm: Algorithm): (r: Result<SimpleEVD, Error>)
    ensures r.Failure? <==> algorithm(mat).None?
    ensures r.Success? ==> Valid(r.value) && r.value.mat == mat && r.value.eig.needVectors
                           && r.value.eig.algorithm == algorithm
  {
    // `DecompositionFactory_D64.eig(numCols, true)`, then `decompose(mat)`
    var eig := EigenDecomposition(mat.numCols, true, algorithm, algorithm(mat));
    if eig.result.None? then Failure(EigenvalueDecompositionFailed)
    else Success(SimpleEVD(mat, eig))
  }

  /** `getNumberOfEigenvalues`: the matrix's dimension. */
  function GetNumberOfEigenvalues(evd: SimpleEVD): (n: nat)
    requires Valid(evd)
    ensures n == evd.mat.numCols
  {
    evd.eig.size
  }

  /** `getEigenvalue(index)`, for an index in range: the eigenvalue the
      decomposition's algorithm computed for the wrapper's own matrix. */
  function GetEigenvalue(evd: SimpleEVD, index: nat): (c: Complex)
    requires Valid(evd)
    requires index < GetNumberOfEigenvalues(evd)
    ensures c == evd.eig.algorithm(evd.mat).value(index)
  {
    evd.eig.result.value(index)
  }

  /** The squared magnitudes of the eigenvalues, in index order. */
  ghost function Magnitudes(evd: SimpleEVD): (s: seq<real>)
    requires Valid(evd)
  {
    seq(GetNumberOfEigenvalues(evd), i requires 0 <= i < GetNumberOfEigenvalues(evd) =>
      Magnitude2(GetEigenvalue(evd, i)))
  }

  /** A wrapper built from a successful decomposition reports the
      algorithm's eigenvalues, one per column of the matrix. */
  lemma NewReportsAlgorithm(mat: Matrix, algorithm: Algorithm, i: nat)
    requires New(mat, algorithm).Success?
    requires i < mat.numCols
    ensures GetNumberOfEigenvalues(New(mat, algorithm).value) == mat.numCols
    ensures GetEigenvalue(New(mat, algorithm).value, i) == algorithm(mat).value(i)
  {
  }

  /** `getEigenvalues`: every eigenvalue, in index order. */
  method GetEigenvalues(evd: SimpleEVD) returns (ret: seq<Complex>)
    requires Valid(evd)
    ensures |ret| == GetNumberOfEigenvalues(evd)
    ensures forall i :: 0 <= i < |ret| ==> ret[i] == GetEigenvalue(evd, i)
  {
    ret := [];
    var i := 0;
    while i < GetNumberOfEigenvalues(evd)
      invariant i <= GetNumberOfEigenvalues(evd)
      invariant |ret| == i
      invariant forall j :: 0 <= j < i ==> ret[j] == GetEigenvalue(evd, j)
    {
      ret := ret + [GetEigenvalue(evd, i)];
      i := i + 1;
    }
  }

  /** `getIndexMax`: the first index of largest squared magnitude. */
  method GetIndexMax(evd: SimpleEVD) returns (indexMax: nat)
    requires Valid(evd)
    requires GetNumberOfEigenvalues(evd) >= 1
    ensures indexMax < GetNumberOfEigenvalues(evd)
    ensures forall j :: 0 <= j < GetNumberOfEigenvalues(evd) ==>
              Magnitude2(GetEigenvalue(evd, j)) <= Magnitude2(GetEigenvalue(evd, indexMax))
    ensures forall j :: 0 <= j < indexMax ==>
              Magnitude2(GetEigenvalue(evd, j)) < Magnitude2(GetEigenvalue(evd, indexMax))
    ensures indexMax == Extremes.ArgMax(Magnitudes(evd))
  {
    indexMax := 0;
    var max := Magnitude2(GetEigenvalue(evd, 0));
    var n := GetNumberOfEigenvalues(evd);
    var i := 1;
    while i < n
      invariant 1 <= i <= n
      invariant indexMax < i
      invariant max == Magnitude2(GetEigenvalue(evd, indexMax))
      invariant forall j :: 0 <= j < i ==> Magnitude2(GetEigenvalue(evd, j)) <= max
      invariant forall j :: 0 <= j < indexMax ==> Magnitude2(GetEigenvalue(evd, j)) < max
    {
      var m := Magnitude2(GetEigenvalue(evd, i));
      if m > max {
        max := m;
        indexMax := i;
      }
      i := i + 1;
    }
    Extremes.FirstMaxUnique(Magnitudes(evd), indexMax, Extremes.ArgMax(Magnitudes(evd)));
  }

  /** `getIndexMin`: the first index of smallest squared magnitude. */
  method GetIndexMin(evd: SimpleEVD) returns (indexMin: nat)
    requires Valid(evd)
    requires GetNumberOfEigenvalues(evd) >= 1
    ensures indexMin < GetNumberOfEigenvalues(evd)
    ensures forall j :: 0 <= j < GetNumberOfEigenvalues(evd) ==>
              Magnitude2(GetEigenvalue(evd, indexMin)) <= Magnitude2(GetEigenvalue(evd, j))
    ensures forall j :: 0 <= j < indexMin ==>
              Magnitude2(GetEigenvalue(evd, indexMin)) < Magnitude2(GetEigenvalue(evd, j))
    ensures indexMin == Extremes.ArgMin(Magnitudes(evd))
  {
    indexMin := 0;
    var min := Magnitude2(GetEigenvalue(evd, 0));
    var n := GetNumberOfEigenvalues(evd);
    var i := 1;
    while i < n
      invariant 1 <= i <= n
      invariant indexMin < i
      invariant min == Magnitude2(GetEigenvalue(evd, indexMin))
      invariant forall j :: 0 <= j < i ==> min <= Magnitude2(GetEigenvalue(evd, j))
      invariant forall j :: 0 <= j < indexMin ==> min < Magnitude2(GetEigenvalue(evd, j))
    {
      var m := Magnitude2(GetEigenvalue(evd, i));
      if m < min {
        min := m;
        indexMin := i;
      }
      i := i + 1;
    }
    Extremes.FirstMinUnique(Magnitudes(evd), indexMin, Extremes.ArgMin(Magnitudes(evd)));
  }
}
