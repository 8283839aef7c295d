# Smart City AQI dashboard — decision rules in Dafny

The dashboard (`app.py`) loads a CSV of historical pollutant readings and a
fitted regressor. It turns the regressor's AQI prediction into an alert band
and shows the 20 most recent records and a naive 7-day forecast. This project
models the small decision rules inside that script as pure Dafny functions
over sequences and reals, and proves their properties:

- `Severity`: the alert chain `<= 1.5` GOOD, `<= 2.5` FAIR, `<= 3.5` MODERATE,
  `<= 4.5` POOR, else VERY POOR. It is modelled as a top-down first-match
  lookup, and the proofs cover totality, uniqueness, inclusive edges and
  monotonicity.
- `Forecasting`: the loop over day offsets 1..7 with value
  `prediction + i * 0.2`. Dates are whole day offsets from `today`.
- `Columns`: detection of the date column. This is the first column whose
  ASCII-lower-cased name is `date`, `datetime` or `timestamp`.
- `Rows`: dataset rows whose date parsed or did not (`Option`), and the filter
  that drops the undated ones.
- `Recent`: the records table, sorted newest first and cut to 20 rows.
- `Loading`: the run as one pipeline. The checks run in order: dataset file,
  date column, model file. After them come classification, the read of the
  `AQI` column, the table and the forecast.
- `Wrappers`: the `Option` and `Result` types used above.

The external effects of a run become parameters:

- whether each of the two files exists;
- the CSV contents, as column labels plus, for every line, its cells and
  what coercing date parsing yields for each;
- the model's rounded prediction;
- today's day number.

## Model

| member | source | states |
|---|---|---|
| Severity.FirstAtLeast | app.py:85-94 | the branch taken is the first edge the prediction does not exceed; every earlier edge is strictly below it; past the last edge the `else` branch is taken |
| Severity.Classify | app.py:85-94 | every real prediction lies in the range of the band it gets, and in no other band's range (total, exactly one band) |
| Severity.EdgesInclusive | app.py:85-94 | 1.5 is GOOD, 2.5 FAIR, 3.5 MODERATE, 4.5 POOR; anything above 4.5 is VERY POOR |
| Severity.Monotone | app.py:85-94 | a higher prediction never yields a better band |
| Severity.FirstAtLeastIsCountBelow | app.py:85-94 | on ascending edges, the first-match branch index equals the number of edges strictly below the prediction |
| Severity.RankCountsEdgesBelow | app.py:85-94 | a band's position in GOOD < ... < VERY POOR counts how many of the four thresholds the prediction exceeds |
| Forecasting.Forecast | app.py:119-124 | seven points; the first is tomorrow at prediction + 0.2; each next point is one day and 0.2 later |
| Forecasting.ForecastLoop | app.py:119-124 | the loop's two parallel lists, dates and values, are exactly the forecast table |
| Forecasting.DaysIncrease | app.py:122-123 | forecast days strictly increase from tomorrow to a week from today |
| Forecasting.ForecastValues | app.py:124 | the values are P+0.2, P+0.4, ..., P+1.4 in day order |
| Forecasting.ValuesIncrease | app.py:124 | values strictly increase and stay within (P, P+1.4] |
| Forecasting.BandsNonDecreasing | app.py:85-124 | the band of the forecast values never improves from one day to a later one |
| Columns.LowerChar | app.py:34 | ASCII lower-casing leaves no upper-case letter, changes nothing else, and shifts letters A-Z to a-z |
| Columns.Lower | app.py:34 | the lower-cased name has the same length, and each character is that character lower-cased |
| Columns.LowerIsIffSameIgnoringCase | app.py:34 | a name lower-cases to an all-lower-case word exactly when the two agree up to case |
| Columns.IsDateName | app.py:34 | a name qualifies exactly when it spells `date`, `datetime` or `timestamp` up to upper/lower case |
| Columns.LowerIdempotent | app.py:34 | lower-casing a name twice is the same as once |
| Columns.LowerHasNoUpper | app.py:34 | a lower-cased name has no upper-case ASCII letter |
| Columns.FirstDateColumn | app.py:32-36 | the found column has an accepted name and no earlier column has one; nothing is found exactly when no column qualifies |
| Columns.DetectionIgnoresCase | app.py:33-34 | lower-casing every column name first selects the same column |
| Columns.MixedCaseQualifies | app.py:34 | `Date`, `DATETIME` and `TimeStamp` are accepted |
| Columns.LongerNamesDoNotQualify | app.py:34 | names that only contain an accepted name (`dates`, `date_time`) are not accepted |
| Columns.FirstMatchWins | app.py:32-40 | in `id, Timestamp, date` the second column is chosen; `id, when` has none |
| Rows.DropNullDates | app.py:43-44 | the kept rows all have a date, come from the input in their original order (a subsequence), number N - M for M undated rows, and are exactly the input's dated rows |
| Rows.DatedSubsequenceBound | app.py:44 | an order-preserving selection of dated rows has at most N - M rows |
| Rows.DropNullDatesUnique | app.py:44 | any order-preserving selection of dated rows with N - M rows is the filter's output |
| Recent.SortByDateDesc | app.py:112 | the result is newest first and a permutation of the rows |
| Recent.RecentRecords | app.py:112 | min(20, N) rows, newest first, drawn from the dataset; no row left out is newer than any row shown |
| Loading.LoadDataset | app.py:31-44 | the load fails with "no date column" exactly when no column qualifies; otherwise it parses the first qualifying column and keeps that column's dated rows as a subsequence with N - M rows |
| Loading.ParseColumn | app.py:43 | parsing the date column keeps every line, in order: line k's date is the coerced parse of its cell in that column (not-a-date when the cell is missing) and its cells are unchanged |
| Loading.RenameToDate | app.py:42 | the rename keeps the number of columns; afterwards a column is labelled `date` exactly when it carried the detected label or already was `date`; other labels are unchanged |
| Loading.DateColumnAsWritten | app.py:42-43 | selecting `date` after the rename either yields the detected column or stops the run with the clash error |
| Loading.ClashCounterexample | app.py:31-43 | for columns `Date, date`, a date column is detected, yet the selection by label after the rename stops the run |
| Loading.AsWrittenAgreesWhenUnambiguous | app.py:42-43 | the rename-then-select-by-label step fails exactly when another column carries the detected label or the label `date` |
| Loading.AqiColumnAfterRename | app.py:102 | the lookup of `AQI` on the renamed labels succeeds exactly when the dataset as read has a column labelled `AQI`; the rename cannot hide or create it |
| Loading.Load | app.py:25-51 | with the corrected date loading: a missing dataset stops the run whatever else holds; "no date column" is reported only for an existing dataset; "model missing" only when the dataset loaded and a date column was found; success exactly when all three checks pass, and then the rows are the dataset loader's dated rows |
| Loading.LoadAsWritten | app.py:25-51 | the source's order of stops: dataset missing, then no date column, then the rename clash, then model missing; success exactly when none applies, and then the same rows as the corrected load stage |
| Loading.Run | app.py:25-124 | a missing dataset stops the run before prediction or forecast are used; every load-stage error is passed on; a missing `AQI` column stops a run that loaded; otherwise the run shows the prediction's band, a newest-first table of min(20, N) of the loaded rows with no left-out row newer than a shown one, and a 7-day forecast whose day k is today + k with value P + 0.2k |

## Findings

| source | as written | input that shows it | evidently intended | confidence | as-written member | corrected member |
|---|---|---|---|---|---|---|
| app.py:42-43 | the detected column is renamed to `date` by label, then `df["date"]` is parsed | columns `Date, date`: `Date` is detected, the rename leaves two columns labelled `date`, and date parsing of a two-column frame raises an uncaught error | parse the detected column | medium (relies on pandas rejecting a frame with duplicate labels); not executed | Loading.ClashCounterexample | Loading.LoadDataset |

`Loading.DateColumnAsWritten` models the rename-and-select step as written,
and `Loading.LoadAsWritten` is the load stage built on it.
`Loading.LoadDataset` parses the detected column directly. `Loading.Load`
and `Loading.Run` use `LoadDataset`. The corrected pipeline never reports
`DateColumnClash`.

Column labels are those after reading. pandas makes repeated header names
distinct (a second `X` becomes `X.1`), so the clash only arises from a
column spelled exactly `date` beside a detected `Date`, `DATE`, `datetime`
and the like.

## Left out

- `train_modal.py`: it only calls library routines (train/test split, random-forest fit, metrics, model persistence) and has no logic of its own.
- The regressor's `predict` call and `round(..., 2)` (app.py:77): the prediction is an arbitrary real input, already rounded.
- Forecasting.Forecast: values are exact reals, `prediction + i/5`; the binary floating-point error of `i * 0.2` is not modelled.
- Reading the CSV and `pd.to_datetime` parsing (app.py:29, 43): the parse outcome of every cell is given as an `Option` timestamp. A line shorter than the header reads as not-a-date in the missing cells.
- Columns.Lower: lower-cases ASCII letters only, not the full Unicode mapping of `str.lower`.
- Recent.SortByDateDesc: the model uses a stable insertion sort. pandas' default sort promises no order among rows with equal dates, so the contract says nothing about tie order.
- `datetime.today()` and the file-existence checks: they are parameters (`today` as a day number, two booleans). The source calls `datetime.today()` afresh in each of the seven iterations and keeps the time of day; the model reads one whole day for all seven points.
- Loading.Load: uses the corrected date loading, so it does not stop on a clashing `date` label as app.py:42-43 does; Loading.LoadAsWritten states that stop and proves both agree otherwise. Neither models the stop when the CSV cannot be read at all (app.py:29: an empty file, or a line with more cells than the header); such a file is taken as already read into labels and lines.
- Loading.Run: built on the corrected load stage, for the same reason. On a missing `AQI` column the source has already shown the prediction and its band when it stops; the model returns only the error.
- Streamlit rendering, the widgets and their input ranges (app.py:19-20, 58-69, 79-80), and the three matplotlib charts (app.py:101-106, 126-150): presentation only. The one piece of data logic in them, the read of the `AQI` column at app.py:102, is modelled in Loading.Run.
- The values of the dataset's other columns: rows carry their cells as read, since the dashboard only displays them.
- The feature frame built from the four inputs (app.py:74-75): it only feeds the opaque regressor.
