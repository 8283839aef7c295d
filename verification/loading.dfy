/** The dashboard run as one pipeline: load the dataset, detect and parse
    its date column, drop undated rows, check the model file, then classify
    the prediction, read the AQI column, and build the table and the
    forecast. File existence, the
    CSV contents, the model's prediction and today's date are inputs. */
module Loading {
  import opened Wrappers
  import Columns
  import opened Rows
  import Recent
  import Severity
  import Forecasting

  /** The reasons a run stops. */
  datatype LoadError =
    | DatasetMissing      // the dataset file does not exist
    | NoDateColumn        // no column has an accepted date name
    | DateColumnClash     // date parsing was handed two columns labelled "date"
    | ModelMissing        // the model file does not exist
    | NoAqiColumn         // the history chart asked for a column "AQI" that is absent

  /** One CSV line: its cells as read and, for every cell, what date parsing
      with coercion makes of it (`None` for a cell that is not a date). */
  datatype CsvRow = CsvRow(cells: seq<string>, dates: seq<Option<Timestamp>>)

  /** The dataset as read: its column labels, in file order, and its lines.
      The labels are those after reading, when repeated header names have
      already been made distinct (a second `X` becomes `X.1`); two equal
      labels therefore do not arise from a CSV file. */
  datatype Table = Table(columns: seq<string>, rows: seq<CsvRow>)

  /** The parsed date of column `c` of a line; a missing trailing cell reads
      as not-a-date. */
  function Cell(row: CsvRow, c: nat): Option<Timestamp>
  {
    if c < |row.dates| then row.dates[c] else None
  }

  /** Every line with column `c` taken as its date. */
  function ParseColumn(rows: seq<CsvRow>, c: nat): (parsed: seq<Row>)
    ensures |parsed| == |rows|
    ensures forall k :: 0 <= k < |rows| ==> parsed[k].date == Cell(rows[k], c) && parsed[k].cells == rows[k].cells
  {
    seq(|rows|, k requires 0 <= k < |rows| => Row(Cell(rows[k], c), rows[k].cells))
  }

  /** The column labels after renaming the detected label to "date": every
      column carrying that label is renamed. */
  function RenameToDate(columns: seq<string>, c: nat): (labels: seq<string>)
    requires c < |columns|
    ensures |labels| == |columns| && labels[c] == "date"
    ensures forall k :: 0 <= k < |columns| ==>
              (labels[k] == "date" <==> columns[k] == columns[c] || columns[k] == "date")
    ensures forall k :: 0 <= k < |columns| && columns[k] != columns[c] ==> labels[k] == columns[k]
  {
    seq(|columns|, k requires 0 <= k < |columns| => if columns[k] == columns[c] then "date" else columns[k])
  }

  /** Number of positions of `labels` equal to `name`. */
  function Occurrences(labels: seq<string>, name: string): nat
  {
    if |labels| == 0 then 0
    else (if labels[0] == name then 1 else 0) + Occurrences(labels[1..], name)
  }

  /** Selecting "date" after the rename, as the dashboard does it: a single
      match is the detected column; two or more give a multi-column frame,
      which date parsing rejects with an uncaught error. */
  function DateColumnAsWritten(columns: seq<string>, c: nat): (r: Result<nat, LoadError>)
    requires c < |columns|
    ensures r.Ok? ==> r.value == c
    ensures r.Err? ==> r.error == DateColumnClash
  {
    if Occurrences(RenameToDate(columns, c), "date") == 1 then Ok(c) else Err(DateColumnClash)
  }

  /** A label that occurs at `c` and somewhere else occurs at least twice. */
  lemma {:induction false} TwoOccurrences(labels: seq<string>, name: string, i: nat, j: nat)
    requires i < j < |labels| && labels[i] == name && labels[j] == name
    ensures Occurrences(labels, name) >= 2
    decreases |labels|
  {
    if i == 0 {
      OneOccurrence(labels[1..], name, j - 1);
    } else {
      TwoOccurrences(labels[1..], name, i - 1, j - 1);
    }
  }

  /** A label that occurs somewhere occurs at least once. */
  lemma {:induction false} OneOccurrence(labels: seq<string>, name: string, i: nat)
    requires i < |labels| && labels[i] == name
    ensures Occurrences(labels, name) >= 1
    decreases |labels|
  {
    if i != 0 {
      OneOccurrence(labels[1..], name, i - 1);
    }
  }

  /** As written, a detected column "Date" followed by a column spelled
      exactly "date" stops the run, although a date column was found. */
  lemma ClashCounterexample()
    ensures Columns.FirstDateColumn(["Date", "date"]) == Some(0)
    ensures DateColumnAsWritten(["Date", "date"], 0) == Err(DateColumnClash)
  {
    TwoOccurrences(RenameToDate(["Date", "date"], 0), "date", 0, 1);
  }

  /** Loads the dataset: detect the first date column, parse it, drop the
      rows whose date did not parse. The detected column itself is parsed,
      so a second column labelled "date" cannot interfere. */
  function LoadDataset(table: Table): (r: Result<seq<Row>, LoadError>)
    ensures r.Err? <==> forall j :: 0 <= j < |table.columns| ==> !Columns.IsDateName(table.columns[j])
    ensures r.Err? ==> r.error == NoDateColumn
    ensures r.Ok? ==> exists c :: (Columns.FirstDateColumn(table.columns) == Some(c)
                                 && AllDated(r.value)
                                 && IsSubsequence(r.value, ParseColumn(table.rows, c))
                                 && |r.value| == |table.rows| - NullCount(ParseColumn(table.rows, c)))
  {
    match Columns.FirstDateColumn(table.columns)
    case None => Err(NoDateColumn)
    case Some(c) => Ok(DropNullDates(ParseColumn(table.rows, c)))
  }

  /** Another column than `c` carries the label of `c` or the label "date". */
  predicate ClashesAt(columns: seq<string>, c: nat)
    requires c < |columns|
  {
    exists k :: 0 <= k < |columns| && k != c && (columns[k] == columns[c] || columns[k] == "date")
  }

  /** The dashboard's own selection fails exactly when another column carries
      the detected label or the label "date"; otherwise it parses the column
      the corrected loader parses. */
  lemma AsWrittenAgreesWhenUnambiguous(columns: seq<string>, c: nat)
    requires c < |columns|
    ensures DateColumnAsWritten(columns, c).Err? <==> ClashesAt(columns, c)
  {
    var labels := RenameToDate(columns, c);
    if k :| 0 <= k < |columns| && k != c && (columns[k] == columns[c] || columns[k] == "date") {
      if k < c { TwoOccurrences(labels, "date", k, c); } else { TwoOccurrences(labels, "date", c, k); }
    } else {
      assert forall k :: 0 <= k < |labels| && k != c ==> labels[k] != "date";
      ExactlyOnce(labels, "date", c);
    }
  }

  /** A label found at `c` and nowhere else occurs once. */
  lemma {:induction false} ExactlyOnce(labels: seq<string>, name: string, c: nat)
    requires c < |labels| && labels[c] == name
    requires forall k :: 0 <= k < |labels| && k != c ==> labels[k] != name
    ensures Occurrences(labels, name) == 1
    decreases |labels|
  {
    if c == 0 {
      NoOccurrence(labels[1..], name);
    } else {
      ExactlyOnce(labels[1..], name, c - 1);
    }
  }

  /** A label found nowhere does not occur. */
  lemma {:induction false} NoOccurrence(labels: seq<string>, name: string)
    requires forall k :: 0 <= k < |labels| ==> labels[k] != name
    ensures Occurrences(labels, name) == 0
    decreases |labels|
  {
    if |labels| != 0 {
      NoOccurrence(labels[1..], name);
    }
  }

  predicate HasDateColumn(columns: seq<string>)
  {
    Columns.FirstDateColumn(columns).Some?
  }

  /** The dashboard's own rename-and-select step stops the run on these
      labels: another column carries the detected label or the label "date". */
  predicate Clashes(columns: seq<string>)
  {
    match Columns.FirstDateColumn(columns)
    case None => false
    case Some(c) => ClashesAt(columns, c)
  }

  /** The load stage with the corrected date loading: dataset file, then date
      column, then model file; the first failing check stops the run. On
      success the rows are those the dataset loader yields. */
  function Load(datasetExists: bool, table: Table, modelExists: bool): (r: Result<seq<Row>, LoadError>)
    ensures !datasetExists ==> r == Err(DatasetMissing)
    ensures r == Err(NoDateColumn) <==> datasetExists && !HasDateColumn(table.columns)
    ensures r == Err(ModelMissing) <==> datasetExists && HasDateColumn(table.columns) && !modelExists
    ensures r.Ok? <==> datasetExists && HasDateColumn(table.columns) && modelExists
    ensures r.Ok? ==> AllDated(r.value) && LoadDataset(table) == Ok(r.value)
  {
    if !datasetExists then Err(DatasetMissing)
    else match LoadDataset(table)
      case Err(e) => Err(e)
      case Ok(rows) => if !modelExists then Err(ModelMissing) else Ok(rows)
  }

  /** The load stage as the dashboard writes it: the rename-and-select step
      adds a stop between the date-column check and the model check. It
      agrees with the corrected load stage except on clashing labels. */
  function LoadAsWritten(datasetExists: bool, table: Table, modelExists: bool): (r: Result<seq<Row>, LoadError>)
    ensures !datasetExists ==> r == Err(DatasetMissing)
    ensures r == Err(NoDateColumn) <==> datasetExists && !HasDateColumn(table.columns)
    ensures r == Err(DateColumnClash) <==> datasetExists && Clashes(table.columns)
    ensures r == Err(ModelMissing) <==>
              datasetExists && HasDateColumn(table.columns) && !Clashes(table.columns) && !modelExists
    ensures r.Ok? <==> datasetExists && HasDateColumn(table.columns) && !Clashes(table.columns) && modelExists
    ensures !Clashes(table.columns) ==> r == Load(datasetExists, table, modelExists)
  {
    if !datasetExists then Err(DatasetMissing)
    else match Columns.FirstDateColumn(table.columns)
      case None => Err(NoDateColumn)
      case Some(c) =>
        AsWrittenAgreesWhenUnambiguous(table.columns, c);
        match DateColumnAsWritten(table.columns, c)
        case Err(e) => Err(e)
        case Ok(d) =>
          if !modelExists then Err(ModelMissing) else Ok(DropNullDates(ParseColumn(table.rows, d)))
  }

  /** Some column is labelled exactly "AQI". */
  predicate HasAqiColumn(labels: seq<string>)
  {
    "AQI" in labels
  }

  /** The history chart's lookup of the column "AQI", made on the labels
      after the date column was renamed. The rename never touches "AQI",
      which is no date name, so the lookup succeeds exactly when the dataset
      as read has that column. */
  function AqiColumnAfterRename(columns: seq<string>, c: nat): (found: bool)
    requires c < |columns| && Columns.IsDateName(columns[c])
    ensures found <==> HasAqiColumn(columns)
  {
    var labels := RenameToDate(columns, c);
    assert columns[c] != "AQI";
    assert forall k :: 0 <= k < |columns| ==> (labels[k] == "AQI" <==> columns[k] == "AQI");
    HasAqiColumn(labels)
  }

  /** What one run shows: the alert band, the recent-records table and the
      forecast. */
  datatype View = View(band: Severity.Band, recent: seq<Row>, forecast: seq<Forecasting.Point>)

  /** One dashboard run. `prediction` is the model's rounded output for the
      entered readings and `today` is the current day. */
  function Run(datasetExists: bool, table: Table, modelExists: bool, prediction: real, today: int): (r: Result<View, LoadError>)
    ensures !datasetExists ==> r == Err(DatasetMissing)
    ensures Load(datasetExists, table, modelExists).Err? ==> r == Err(Load(datasetExists, table, modelExists).error)
    ensures r == Err(NoAqiColumn) <==>
              Load(datasetExists, table, modelExists).Ok? && !HasAqiColumn(table.columns)
    ensures r.Ok? <==> datasetExists && HasDateColumn(table.columns) && modelExists && HasAqiColumn(table.columns)
    ensures r.Ok? ==> Severity.InBand(prediction, r.value.band)
    ensures r.Ok? ==>
              var rows := Load(datasetExists, table, modelExists).value;
              && |r.value.recent| == (if |rows| < Recent.ViewSize then |rows| else Recent.ViewSize)
              && multiset(r.value.recent) <= multiset(rows)
              && AllDated(r.value.recent) && Recent.SortedDesc(r.value.recent)
              && forall i :: 0 <= i < |r.value.recent| ==>
                   forall y :: y in multiset(rows) - multiset(r.value.recent) ==>
                     y.date.Some? && y.date.value <= r.value.recent[i].date.value
    ensures r.Ok? ==> |r.value.forecast| == Forecasting.Horizon
    ensures r.Ok? ==> forall k :: 0 <= k < Forecasting.Horizon ==> r.value.forecast[k].day == today + k + 1
    ensures r.Ok? ==> forall k :: 0 <= k < Forecasting.Horizon ==>
              r.value.forecast[k].value == prediction + (k + 1) as real * Forecasting.Step
  {
    match Load(datasetExists, table, modelExists)
    case Err(e) => Err(e)
    case Ok(rows) =>
      var c := Columns.FirstDateColumn(table.columns).value;
      if !AqiColumnAfterRename(table.columns, c) then Err(NoAqiColumn)
      else Ok(View(Severity.Classify(prediction), Recent.RecentRecords(rows), Forecasting.Forecast(today, prediction)))
  }
}
