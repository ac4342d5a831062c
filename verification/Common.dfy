// Result types shared by the services, and sums over table rows.
module Common {

  datatype Option<+T> = None | Some(value: T)

  // The HTTP exceptions the services throw, by class.
  datatype Failure = BadRequest | NotFound | Conflict

  datatype Result<+T> = Ok(value: T) | Err(error: Failure)

  // The newest row a WHERE clause selects; where a unique index covers the clause, the only one.
  function FindBy<T>(rows: seq<T>, p: T -> bool): (found: Option<nat>)
    ensures found.Some? ==> found.value < |rows| && p(rows[found.value])
    ensures found.Some? ==> forall k :: found.value < k < |rows| ==> !p(rows[k])
    ensures found.None? ==> forall k :: 0 <= k < |rows| ==> !p(rows[k])
  {
    if rows == [] then None
    else if p(rows[|rows| - 1]) then Some(|rows| - 1) else FindBy(rows[..|rows| - 1], p)
  }

  // SELECT SUM(f(row)) over a table. Rows are only ever appended or replaced,
  // so the sum recurses from the end.
  function SumBy<T>(rows: seq<T>, f: T -> real): real {
    if rows == [] then 0.0 else SumBy(rows[..|rows| - 1], f) + f(rows[|rows| - 1])
  }

  lemma SumAppend<T>(rows: seq<T>, row: T, f: T -> real)
    ensures SumBy(rows + [row], f) == SumBy(rows, f) + f(row)
  {
    assert (rows + [row])[..|rows|] == rows;
  }

  lemma {:induction false} SumUpdate<T>(rows: seq<T>, i: nat, row: T, f: T -> real)
    requires i < |rows|
    ensures SumBy(rows[i := row], f) == SumBy(rows, f) - f(rows[i]) + f(row)
  {
    var last := |rows| - 1;
    if i == last {
      assert rows[i := row][..last] == rows[..last];
    } else {
      SumUpdate(rows[..last], i, row, f);
      assert rows[i := row][..last] == rows[..last][i := row];
    }
  }

  lemma {:induction false} SumConcat<T>(xs: seq<T>, ys: seq<T>, f: T -> real)
    ensures SumBy(xs + ys, f) == SumBy(xs, f) + SumBy(ys, f)
  {
    if ys == [] {
      assert xs + ys == xs;
    } else {
      var last := |ys| - 1;
      SumConcat(xs, ys[..last], f);
      assert (xs + ys)[..|xs| + last] == xs + ys[..last];
    }
  }

  lemma {:induction false} SumAgrees<T>(rows: seq<T>, f: T -> real, g: T -> real)
    requires forall k :: 0 <= k < |rows| ==> f(rows[k]) == g(rows[k])
    ensures SumBy(rows, f) == SumBy(rows, g)
  {
    if rows != [] { SumAgrees(rows[..|rows| - 1], f, g); }
  }

  lemma {:induction false} SumZero<T>(rows: seq<T>, f: T -> real)
    requires forall k :: 0 <= k < |rows| ==> f(rows[k]) == 0.0
    ensures SumBy(rows, f) == 0.0
  {
    if rows != [] { SumZero(rows[..|rows| - 1], f); }
  }

  lemma {:induction false} SumAtLeast<T>(rows: seq<T>, i: nat, f: T -> real)
    requires i < |rows|
    requires forall k :: 0 <= k < |rows| ==> f(rows[k]) >= 0.0
    ensures SumBy(rows, f) >= f(rows[i])
  {
    var last := |rows| - 1;
    SumNonNegative(rows[..last], f);
    if i < last { SumAtLeast(rows[..last], i, f); }
  }

  lemma {:induction false} SumNonNegative<T>(rows: seq<T>, f: T -> real)
    requires forall k :: 0 <= k < |rows| ==> f(rows[k]) >= 0.0
    ensures SumBy(rows, f) >= 0.0
  {
    if rows != [] { SumNonNegative(rows[..|rows| - 1], f); }
  }
}
