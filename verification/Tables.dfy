/** Distinct rows and sums over the rows of a table, the COUNT and SUM queries of both stores. */
module Tables {

  predicate Distinct<T(==)>(s: seq<T>) {
    forall i, j :: 0 <= i < j < |s| ==> s[i] != s[j]
  }

  function Sum<T>(rows: seq<T>, weight: T -> nat): nat {
    if rows == [] then 0 else Sum(rows[..|rows| - 1], weight) + weight(rows[|rows| - 1])
  }

  lemma SumAppend<T>(rows: seq<T>, r: T, w: T -> nat)
    ensures Sum(rows + [r], w) == Sum(rows, w) + w(r)
  {
    assert (rows + [r])[..|rows|] == rows;
  }

  lemma {:induction false} SumUpdate<T>(rows: seq<T>, i: nat, r: T, w: T -> nat)
    requires i < |rows|
    ensures Sum(rows[i := r], w) == Sum(rows, w) - w(rows[i]) + w(r)
  {
    var n := |rows| - 1;
    if i < n {
      SumUpdate(rows[..n], i, r, w);
      assert rows[i := r][..n] == rows[..n][i := r];
    } else {
      assert rows[i := r][..n] == rows[..n];
    }
  }

  lemma {:induction false} SumPositive<T>(rows: seq<T>, i: nat, w: T -> nat)
    requires i < |rows|
    ensures w(rows[i]) <= Sum(rows, w)
  {
    if i < |rows| - 1 { SumPositive(rows[..|rows| - 1], i, w); }
  }

  lemma {:induction false} SumZero<T>(rows: seq<T>, w: T -> nat)
    requires forall i :: 0 <= i < |rows| ==> w(rows[i]) == 0
    ensures Sum(rows, w) == 0
  {
    if rows != [] { SumZero(rows[..|rows| - 1], w); }
  }
}
