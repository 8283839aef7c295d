/** Dataset rows after the date column has been parsed, and the filter that
    drops every row whose date did not parse. A date is a whole timestamp;
    a cell that could not be parsed is `None`. */
module Rows {
  import opened Wrappers

  type Timestamp = int

  /** One dataset row: its parsed date, if any, and the line's cells as
      read, carried along unchanged for display. */
  datatype Row = Row(date: Option<Timestamp>, cells: seq<string>)

  predicate AllDated(rows: seq<Row>)
  {
    forall i :: 0 <= i < |rows| ==> rows[i].date.Some?
  }

  /** Number of rows whose date did not parse. */
  function NullCount(rows: seq<Row>): (n: nat)
    ensures n <= |rows|
  {
    if |rows| == 0 then 0
    else (if rows[0].date.None? then 1 else 0) + NullCount(rows[1..])
  }

  /** `a` is `b` with some elements removed and the rest in their order. */
  predicate IsSubsequence<T(==)>(a: seq<T>, b: seq<T>)
    decreases |b|
  {
    if |a| == 0 then true
    else if |b| == 0 then false
    else if a[0] == b[0] then IsSubsequence(a[1..], b[1..])
    else IsSubsequence(a, b[1..])
  }

  /** Drops every row whose date did not parse. */
  function DropNullDates(rows: seq<Row>): (kept: seq<Row>)
    ensures AllDated(kept)
    ensures |kept| == |rows| - NullCount(rows)
    ensures IsSubsequence(kept, rows)
    ensures forall r :: r in kept <==> r in rows && r.date.Some?
  {
    if |rows| == 0 then []
    else if rows[0].date.None? then DropNullDates(rows[1..])
    else
      var rest := DropNullDates(rows[1..]);
      assert ([rows[0]] + rest)[1..] == rest;
      [rows[0]] + rest
  }

  /** A subsequence made only of dated rows has at most as many rows as
      there are dated rows. */
  lemma {:induction false} DatedSubsequenceBound(s: seq<Row>, rows: seq<Row>)
    requires AllDated(s) && IsSubsequence(s, rows)
    ensures |s| <= |rows| - NullCount(rows)
    decreases |rows|
  {
    if |s| != 0 {
      if s[0] == rows[0] {
        DatedSubsequenceBound(s[1..], rows[1..]);
      } else {
        DatedSubsequenceBound(s, rows[1..]);
      }
    }
  }

  /** The filter's result is the only order-preserving selection of the
      dated rows that keeps all of them: any subsequence of dated rows with
      as many rows as there are dated rows is exactly the filter's output. */
  lemma {:induction false} DropNullDatesUnique(s: seq<Row>, rows: seq<Row>)
    requires AllDated(s) && IsSubsequence(s, rows)
    requires |s| == |rows| - NullCount(rows)
    ensures s == DropNullDates(rows)
    decreases |rows|
  {
    if |rows| == 0 {
    } else if rows[0].date.None? {
      if |s| != 0 {
        assert s[0] != rows[0];
      }
      DropNullDatesUnique(s, rows[1..]);
    } else {
      assert |s| != 0;
      if s[0] != rows[0] {
        DatedSubsequenceBound(s, rows[1..]);
        assert false;
      }
      assert AllDated(s[1..]);
      DropNullDatesUnique(s[1..], rows[1..]);
    }
  }
}
