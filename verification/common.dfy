/**
 * Failure-compatible wrappers, the fault taxonomy of the readers, and the
 * one rule every enrichment stage follows: a stage runs inside a try/catch,
 * and what happens to an exception depends on `ShouldAbortOnError`.
 */
module Common {

  datatype Option<+T> = None | Some(value: T)

  /** The result of an operation that may throw; `Err` carries what was thrown. */
  datatype Result<+T, +E> = Ok(value: T) | Err(error: E) {

    predicate IsFailure() {
      Err?
    }

    function PropagateFailure<U>(): Result<U, E>
      requires Err?
    {
      Err(error)
    }

    function Extract(): T
      requires Ok?
    {
      value
    }
  }

  /** What a reader or an external library can throw. */
  datatype Fault =
    | CountMismatch(totalShapes: int, totalRecords: int)
    | WrongExtension(fileName: string)
    | WrongPlatform
    | ColumnNotFound(column: string)
    | InvalidCast
    | NullReference
    | IndexOutOfRange
    | EngineFault(code: nat)

  /** The enrichment stages that sit inside their own try/catch. */
  datatype StageName =
    | Bookkeeping
    | ReadShape
    | Geography
    | GeographyGeoJson
    | Geometry
    | GeometryGeoJson
    | Soundex
    | SoundexDM
    | LineEndPoints
    | AddressRanges
    | EvenOdd
    | Projection
    | Area
    | Centroid
    | ImportTime

  /** An exception re-raised by a stage's catch block, tagged with the stage. */
  datatype StageError = StageError(stage: StageName, fault: Fault)

  /** The error that escapes `NextFeature`: the stage error, re-wrapped with the record index. */
  datatype ReaderError = ReaderError(recordIndex: int, cause: StageError)

  /**
   * How far a stage got: `reached` is the value of the stage's variables at
   * the moment it finished or threw, and `fault` is what it threw, if anything.
   */
  datatype Attempt<+T> = Attempt(reached: T, fault: Option<Fault>)

  /**
   * The catch block of a stage. Under the abort policy a fault escapes as a
   * stage error; under the tolerant policy it is swallowed and the stage keeps
   * whatever it had reached.
   */
  function Settle<T>(abortOnError: bool, stage: StageName, a: Attempt<T>): (r: Result<T, StageError>)
    ensures r.Err? <==> abortOnError && a.fault.Some?
    ensures r.Err? ==> r.error == StageError(stage, a.fault.value)
    ensures r.Ok? ==> r.value == a.reached
  {
    if abortOnError && a.fault.Some? then Err(StageError(stage, a.fault.value)) else Ok(a.reached)
  }

  /** A stage that cannot fail. */
  function Done<T>(v: T): Attempt<T>
  {
    Attempt(v, None)
  }

  // ---- positions in a row or a schema table -----------------------------------

  /** `full` holds `x` from position `start` on. */
  predicate SliceAt<T(==)>(full: seq<T>, start: nat, x: seq<T>) {
    start + |x| <= |full| && full[start..start + |x|] == x
  }

  /** Element `i` of a slice placed at `n` is element `q` of the whole, and the prefix that ends at it. */
  lemma SliceIndex<T>(full: seq<T>, n: nat, x: seq<T>, i: nat, q: nat)
    requires SliceAt(full, n, x) && i < |x| && q == n + i
    ensures q < |full| && full[q] == x[i] && full[..n] + x[..i] == full[..q]
  {
    assert full[..n + i] == full[..n] + full[n..n + |x|][..i];
  }

  /** A slice of a placed slice is placed at the summed position `p`. */
  lemma SliceWithin<T>(full: seq<T>, n: nat, x: seq<T>, k: nat, y: seq<T>, p: nat)
    requires SliceAt(full, n, x) && SliceAt(x, k, y) && p == n + k
    ensures SliceAt(full, p, y)
  {
    forall i | 0 <= i < |y| ensures full[n + k + i] == y[i] {
      assert full[n..n + |x|][k + i] == x[k + i];
      assert x[k..k + |y|][i] == x[k + i];
    }
    assert full[n + k..n + k + |y|] == y;
  }

  /** The tail of `full` from `n` is `whole`: a prefix `x` of `whole` sits at `n`, a slice `y` at `k` of it sits at `p`. */
  lemma TailSlices<T>(full: seq<T>, n: nat, whole: seq<T>, x: seq<T>, k: nat, y: seq<T>, p: nat)
    requires n <= |full| && full[n..] == whole
    requires |x| <= |whole| && whole[..|x|] == x
    requires k + |y| <= |whole| && whole[k..k + |y|] == y && p == n + k
    ensures SliceAt(full, n, x) && SliceAt(full, p, y)
  {
    assert full[n..n + |x|] == whole[..|x|];
    assert full[p..p + |y|] == whole[k..k + |y|];
  }

  /** A placed concatenation: its two halves, one after the other. */
  lemma SliceParts<T>(full: seq<T>, n: nat, x: seq<T>, y: seq<T>)
    requires SliceAt(full, n, x + y)
    ensures SliceAt(full, n, x) && SliceAt(full, n + |x|, y)
  {
    assert full[n..n + |x|] == full[n..n + |x + y|][..|x|];
    assert full[n + |x|..n + |x| + |y|] == full[n..n + |x + y|][|x|..];
  }

  /** A row built as `pre + (x + y)`: `x` at `m`, past `pre`, and `y` at `q`, past `x`, to the end. */
  lemma SlicesOfComposed<T>(row: seq<T>, pre: seq<T>, x: seq<T>, y: seq<T>, m: nat, q: nat)
    requires row == pre + (x + y) && m == |pre| && q == m + |x|
    ensures row[..m] == pre && SliceAt(row, m, x) && SliceAt(row, q, y) && q + |y| == |row|
  {
    SlicesOfAppend(pre, x + y);
    SliceParts(row, m, x, y);
  }

  /** A row built as `pre + (a + b + x)`: each part at the running sum of the lengths before it, `x` running to the end. */
  lemma SlicesOfThree<T>(row: seq<T>, pre: seq<T>, a: seq<T>, b: seq<T>, x: seq<T>, m: nat, p: nat, q: nat)
    requires row == pre + (a + b + x) && m == |pre| && p == m + |a| && q == p + |b|
    ensures row[..m] == pre && SliceAt(row, m, a)
    ensures SliceAt(row, p, b)
    ensures SliceAt(row, q, x) && q + |x| == |row|
  {
    SlicesOfComposed(row, pre, a + b, x, m, q);
    SliceParts(row, m, a, b);
  }

  /**
   * A row built as `pre + (a + b + x + d)`: each part at the running sum of
   * the lengths before it, `d` running to the end.
   */
  lemma SlicesOfFour<T>(row: seq<T>, pre: seq<T>, a: seq<T>, b: seq<T>, x: seq<T>, d: seq<T>, m: nat, p: nat, q: nat, r: nat)
    requires row == pre + (a + b + x + d) && m == |pre| && p == m + |a| && q == p + |b| && r == q + |x|
    ensures row[..m] == pre && SliceAt(row, m, a)
    ensures SliceAt(row, p, b)
    ensures row[..q] == pre + a + b && SliceAt(row, q, x)
    ensures SliceAt(row, r, d) && r + |d| == |row|
  {
    SlicesOfComposed(row, pre, a + b + x, d, m, r);
    SliceParts(row, m, a + b, x);
    SliceParts(row, m, a, b);
    assert row == (pre + a + b) + (x + d);
  }

  /** Both halves of a concatenation, in place. */
  lemma SlicesOfAppend<T>(x: seq<T>, y: seq<T>)
    ensures SliceAt(x + y, 0, x) && SliceAt(x + y, |x|, y)
  {
    assert (x + y)[..|x|] == x;
    assert (x + y)[|x|..|x| + |y|] == y;
  }
}
