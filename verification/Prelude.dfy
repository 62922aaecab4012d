/** Small vocabulary shared by every component: optional values, results of a transaction, and
    the order-preserving selection of rows from an append-only table. */
module Prelude {

  datatype Option<+T> = None | Some(value: T)

  datatype Result<+T> = Ok(value: T) | Err(error: string)

  /** The rows of `rows` that satisfy `p`, in table order. */
  function Select<T>(rows: seq<T>, p: T -> bool): (kept: seq<T>)
    ensures |kept| <= |rows|
  {
    if rows == [] then []
    else
      var last := rows[|rows| - 1];
      Select(rows[..|rows| - 1], p) + if p(last) then [last] else []
  }

  lemma SelectSnoc<T>(rows: seq<T>, row: T, p: T -> bool)
    ensures Select(rows + [row], p) == Select(rows, p) + if p(row) then [row] else []
  {
    assert (rows + [row])[..|rows|] == rows;
  }

  lemma {:induction false} SelectAppend<T>(rows: seq<T>, more: seq<T>, p: T -> bool)
    ensures Select(rows + more, p) == Select(rows, p) + Select(more, p)
  {
    if more == [] {
      assert rows + more == rows;
    } else {
      var n := |more| - 1;
      assert rows + more == (rows + more[..n]) + [more[n]];
      SelectSnoc(rows + more[..n], more[n], p);
      SelectAppend(rows, more[..n], p);
    }
  }

  lemma {:induction false} SelectSound<T>(rows: seq<T>, p: T -> bool)
    ensures forall row :: row in Select(rows, p) <==> row in rows && p(row)
  {
    if rows != [] {
      SelectSound(rows[..|rows| - 1], p);
      assert rows == rows[..|rows| - 1] + [rows[|rows| - 1]];
    }
  }

  lemma {:induction false} SelectNone<T>(rows: seq<T>, p: T -> bool)
    requires forall row :: row in rows ==> !p(row)
    ensures Select(rows, p) == []
  {
    if rows != [] {
      assert rows[|rows| - 1] in rows;
      SelectNone(rows[..|rows| - 1], p);
    }
  }

  function Elements<T(==)>(rows: seq<T>): set<T> {
    set row | row in rows
  }

  lemma ElementsSnoc<T>(rows: seq<T>)
    ensures rows == [] ==> Elements(rows) == {}
    ensures rows != [] ==> Elements(rows) == Elements(rows[..|rows| - 1]) + {rows[|rows| - 1]}
  {
    if rows != [] {
      assert rows == rows[..|rows| - 1] + [rows[|rows| - 1]];
    }
  }

  /** Cardinalities of finite sets grow by at most one when one element may be added. */
  lemma CardinalityGrowth<T>(small: set<T>, big: set<T>, extra: T)
    requires big <= small + {extra}
    ensures |big| <= |small| + 1
  {
    CardinalityMonotone(big, small + {extra});
  }

  lemma CardinalityMonotone<T>(small: set<T>, big: set<T>)
    requires small <= big
    ensures |small| <= |big|
  {
    assert big == small + (big - small);
  }
}
