/** The "historical records" table: the dated rows sorted by date, newest
    first, cut to the first twenty. */
module Recent {
  import opened Rows

  /** Number of rows the table shows. */
  const ViewSize: nat := 20

  /** Newest first: no row is dated after a row before it. */
  predicate SortedDesc(s: seq<Row>)
    requires AllDated(s)
  {
    forall i, j :: 0 <= i < j < |s| ==> s[j].date.value <= s[i].date.value
  }

  /** Places a dated row into a newest-first sequence. */
  function Insert(r: Row, s: seq<Row>): (t: seq<Row>)
    requires r.date.Some? && AllDated(s) && SortedDesc(s)
    ensures AllDated(t) && SortedDesc(t)
    ensures multiset(t) == multiset(s) + multiset{r}
    ensures |t| == |s| + 1 && (t[0] == r || (|s| > 0 && t[0] == s[0]))
    decreases |s|
  {
    if |s| == 0 then [r]
    else if s[0].date.value <= r.date.value then [r] + s
    else
      var rest := Insert(r, s[1..]);
      assert s == [s[0]] + s[1..];
      assert rest[0].date.value <= s[0].date.value;
      [s[0]] + rest
  }

  /** Sorts dated rows newest first. */
  function SortByDateDesc(rows: seq<Row>): (s: seq<Row>)
    requires AllDated(rows)
    ensures AllDated(s) && SortedDesc(s)
    ensures multiset(s) == multiset(rows)
    decreases |rows|
  {
    if |rows| == 0 then []
    else
      assert rows == [rows[0]] + rows[1..];
      Insert(rows[0], SortByDateDesc(rows[1..]))
  }

  /** In a newest-first sequence, the first `n` rows are newest first and
      nothing after them is newer than any of them. */
  lemma PrefixIsNewest(s: seq<Row>, n: nat)
    requires AllDated(s) && SortedDesc(s) && n <= |s|
    ensures AllDated(s[..n]) && SortedDesc(s[..n])
    ensures multiset(s[..n]) <= multiset(s)
    ensures forall i :: 0 <= i < n ==>
              forall y :: y in multiset(s) - multiset(s[..n]) ==> y.date.Some? && y.date.value <= s[i].date.value
  {
    assert s == s[..n] + s[n..];
    assert multiset(s) - multiset(s[..n]) == multiset(s[n..]);
    forall i | 0 <= i < n
      ensures forall y :: y in multiset(s[n..]) ==> y.date.Some? && y.date.value <= s[i].date.value
    {
      forall y | y in multiset(s[n..])
        ensures y.date.Some? && y.date.value <= s[i].date.value
      {
        TailNotNewer(s, n, i, y);
      }
    }
  }

  /** A row after position `n` of a newest-first sequence is not newer than
      the row at `i < n`. */
  lemma TailNotNewer(s: seq<Row>, n: nat, i: nat, y: Row)
    requires AllDated(s) && SortedDesc(s) && i < n <= |s|
    requires y in multiset(s[n..])
    ensures y.date.Some? && y.date.value <= s[i].date.value
  {
    assert y in s[n..];
    var k :| 0 <= k < |s[n..]| && s[n..][k] == y;
    assert s[n + k] == y;
  }

  /** The table: at most twenty rows, newest first, taken from the dataset,
      and no row left out is newer than a row shown. */
  function RecentRecords(rows: seq<Row>): (v: seq<Row>)
    requires AllDated(rows)
    ensures |v| == if |rows| < ViewSize then |rows| else ViewSize
    ensures AllDated(v) && SortedDesc(v)
    ensures multiset(v) <= multiset(rows)
    ensures forall i :: 0 <= i < |v| ==>
              forall y :: y in multiset(rows) - multiset(v) ==> y.date.Some? && y.date.value <= v[i].date.value
  {
    var s := SortByDateDesc(rows);
    var n := if |s| < ViewSize then |s| else ViewSize;
    PrefixIsNewest(s, n);
    s[..n]
  }
}
