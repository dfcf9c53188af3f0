/** SQL tables as sequences of rows in insertion order.
  * Rows of the ledger are only ever inserted, so a later table extends an earlier one. */
module Tables {
  import opened Wrappers

  /** The row `SELECT ... WHERE cond` followed by `fetchone()` returns. */
  function First<T>(rows: seq<T>, cond: T -> bool): (r: Option<T>)
    ensures r.Some? ==> r.value in rows && cond(r.value)
    ensures r.None? ==> forall x | x in rows :: !cond(x)
  {
    if rows == [] then None
    else if cond(rows[0]) then Some(rows[0])
    else First(rows[1..], cond)
  }

  /** A row that was found stays the row that is found, whatever is inserted later. */
  lemma {:induction false} FirstAppend<T>(rows: seq<T>, more: seq<T>, cond: T -> bool)
    ensures First(rows + more, cond)
         == if First(rows, cond).Some? then First(rows, cond) else First(more, cond)
  {
    if rows == [] {
      assert rows + more == more;
    } else {
      assert (rows + more)[1..] == rows[1..] + more;
      FirstAppend(rows[1..], more, cond);
    }
  }

  /** The UNIQUE constraint on a column. */
  ghost predicate Unique<T, K>(rows: seq<T>, column: T -> K) {
    forall i, j | 0 <= i < j < |rows| :: column(rows[i]) != column(rows[j])
  }

  lemma UniqueAppend<T, K>(rows: seq<T>, row: T, column: T -> K)
    requires Unique(rows, column)
    requires forall x | x in rows :: column(x) != column(row)
    ensures Unique(rows + [row], column)
  {
  }

  /** With a UNIQUE column, two rows that agree on it are the same row. */
  lemma UniqueRow<T, K>(rows: seq<T>, column: T -> K, x: T, y: T)
    requires Unique(rows, column)
    requires x in rows && y in rows && column(x) == column(y)
    ensures x == y
  {
  }
}
