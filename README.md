# Energy Forecast dashboard — data-shaping core in Dafny

This project models the in-memory part of the Energy Forecast dashboard.
That part takes the price-forecast rows delivered by the backend and shapes
them for display. A fetch delivers either the rows of one CSV file (an array
of `CsvData`: `date` as `YYYYMMDD`, `time` as `HHMM`, `price_fcst`) or, for
"All Files", a dictionary from file name to that file's rows. The model
covers five pieces:

- **The page's state** (`Page.Dashboard`). It holds the fetched data, the
  data on display, the chosen date range and the chosen file, and it is
  updated as the page's `useState` hooks are.
- **The date filter** (`Page.FilterDataByDateRange`). It keeps the rows
  whose date lies in the range, comparing dates as strings. It works on a
  single file's array, or entry by entry on the dictionary.
- **The table** (`Spreadsheet`). A dictionary is flattened into one list,
  and every row is tagged with the file it came from. A "Source" column is
  then put in front of the page's columns.
- **The chart's data** (`LineChart`). It has one series per file, and it
  takes its x-axis labels from the first file.
- **The summary figures** (`Statistics`). These are NOBS, MAPE, RMSE, PEAK,
  AVERAGE and ENERGY over the rows of the selected files.

Supporting modules:

- `Records` models the payload and the dictionary as an ordered list of
  entries with distinct keys, which is how a JavaScript object with string
  keys enumerates.
- `TimeLabels` models the two ways times are turned into labels.
- `Seqs` holds filter, map and sum over sequences.
- `Strings` holds lexicographic order and `padStart`.

Prices are exact reals. The date-formatting library is a function parameter.

The code has no step that pivots the rows into one row per `(date, time)`
with a column per file. The table lists the flattened rows, one row per file
and time, with a `source` column. Where the average is zero the code divides
by zero, and the model marks that MAPE as absent (`None`).

## Model

| member | source | states |
|---|---|---|
| Statistics.CalculateStatistics | frontend/components/statistics.ts:19-50 | NOBS is the number of rows whose source is selected; with none selected every figure is zero |
| Statistics.Summarize | frontend/components/statistics.ts:33-40 | NOBS is the number of prices; ENERGY is their sum and AVERAGE times NOBS equals it; MAPE is undefined exactly when the average is zero; PEAK is one of the prices and no price exceeds it; an empty list gives the all-zero result |
| Statistics.Mean | frontend/components/statistics.ts:36 | the mean times the count gives back the total; a non-negative total has a non-negative mean; the mean is zero iff the total is |
| Statistics.Selected | frontend/components/statistics.ts:20 | the rows kept by `selectedFiles.includes(row.source)` (`IsSelectedBy`) are no more than the input, all come from a selected file, and keep their input order |
| Statistics.SelectedMembers | frontend/components/statistics.ts:20 | a row is selected iff it is in the input and its source is one of the selected files |
| Statistics.PeakIsSelectedMaximum | frontend/components/statistics.ts:20-39 | NOBS is zero iff no input row comes from a selected file; PEAK bounds every selected row's price and, when NOBS > 0, equals the price of some selected row |
| Statistics.EnergyIsSumOfSelectedPrices | frontend/components/statistics.ts:20-40 | ENERGY is the sum over all input rows of the price where the source is selected and zero elsewhere |
| Statistics.UnselectedRowsIgnored | frontend/components/statistics.ts:20 | inserting rows of unselected files anywhere in the input changes no figure |
| Statistics.SummarizePermutation | frontend/components/statistics.ts:35-40 | the figures depend only on the multiset of prices |
| Statistics.PermutationInvariant | frontend/components/statistics.ts:19-40 | reordering the input rows changes no figure |
| Statistics.DeviationSum | frontend/components/statistics.ts:36 | the deviations of prices from a constant sum to the total minus count times the constant |
| Statistics.DeviationsSumToZero | frontend/components/statistics.ts:36 | the deviations of the prices from AVERAGE sum to zero |
| Statistics.MapeNonNegative | frontend/components/statistics.ts:37 | with a positive average MAPE is defined and non-negative |
| Statistics.NoSpreadIffConstant | frontend/components/statistics.ts:38 | the squared RMSE is non-negative, and zero exactly when every price equals the average |
| Statistics.ConstantPricesHaveZeroMape | frontend/components/statistics.ts:37 | when every price equals the average, MAPE (if defined) is zero |
| Statistics.TwoFileExample | frontend/components/statistics.ts:19-50 | three rows from two files, selecting one file: NOBS 2, AVERAGE 45.75, PEAK 46.0, ENERGY 91.5; the other file's row is ignored |
| Seqs.Max | frontend/components/statistics.ts:39 | `Math.max(...prices)` on a non-empty list is one of the prices and no price exceeds it |
| Records.Lookup | frontend/app/page.tsx:21 | a key has rows iff it is one of the dictionary's keys, and then they are the rows of its entry |
| Records.Assign | frontend/app/page.tsx:74 | after `filtered[key] = rows` the key holds `rows`, every other key is unchanged, an existing key keeps its place and a new key goes last |
| Strings.LexLeFirstDifference | frontend/app/page.tsx:70 | `LexLe`, JavaScript's `<=` on strings, holds iff the first string is a prefix of the second or has the smaller character where they first differ |
| Strings.LexLeReflexive | frontend/app/page.tsx:70 | every string is `<=` itself |
| Strings.LexLeTransitive | frontend/app/page.tsx:70 | `a <= b` and `b <= c` give `a <= c` |
| Strings.LexLeTotal | frontend/app/page.tsx:74 | any two strings are ordered one way or the other |
| Strings.LexLeAntisymmetric | frontend/app/page.tsx:74 | `a <= b` and `b <= a` only for equal strings |
| Strings.PadStart | frontend/app/page.tsx:85 | the result has length max(target, length of s), ends with s and is filled in front with the fill character |
| TimeLabels.Padded | frontend/app/page.tsx:85 | the zero-padded time has length at least four and is all digits iff the time is |
| TimeLabels.FormatTime | frontend/app/page.tsx:84-86 | a time of at most four digits becomes the padded time with a colon inserted after two characters; any other time is only padded; the table's own copy at frontend/components/Spreadsheet.tsx:55 is the same function |
| TimeLabels.FormatTimeShortDigits | frontend/app/page.tsx:85 | a time of at most four digits is formatted as `HH:MM`: five characters, a colon at index 2, two digits either side, removing the colon gives the padded time |
| TimeLabels.ChartTime | frontend/components/LineChart.tsx:27 | the chart's time label always has a colon at index 2, and removing it gives the padded time |
| TimeLabels.ChartTimeAgreesIff | frontend/components/LineChart.tsx:36 | the chart's and the table's time labels agree iff the time has at most four characters, all digits |
| Spreadsheet.Tag | frontend/components/Spreadsheet.tsx:28 | `{ ...item, source: key }` has source `key`, and dropping the source (`Untag`) gives back the item |
| Spreadsheet.FlattenEntries | frontend/components/Spreadsheet.tsx:27-29 | the flattened list has as many rows as all entries together |
| Spreadsheet.FlattenedSources | frontend/components/Spreadsheet.tsx:28 | every flattened row is tagged with one of the dictionary's keys |
| Spreadsheet.Flatten | frontend/components/Spreadsheet.tsx:23-31 | a file's rows are passed on unchanged; a dictionary becomes a tagged list of all its rows |
| Spreadsheet.FlattenAt | frontend/components/Spreadsheet.tsx:27-28 | row j of entry k sits right after all rows of earlier entries, tagged with entry k's key and otherwise unchanged |
| Spreadsheet.UntagSource | frontend/components/Spreadsheet.tsx:28 | picking the rows tagged with a key and dropping the tag gives exactly that key's rows in the dictionary |
| Spreadsheet.AllColumns | frontend/components/Spreadsheet.tsx:33-44 | a dictionary gets the "Source" column in front of the given columns; a file gets the given columns |
| Spreadsheet.ColumnsMatchRows | frontend/components/Spreadsheet.tsx:33-44 | with columns over CSV fields, every shown column names a field the rows have, and "Source" is shown iff the rows are tagged |
| LineChart.PointLabel | frontend/components/LineChart.tsx:27 | a point's label is the formatted date, a space, then the chart's time label, and nothing else; line 36 uses the same template |
| LineChart.SourceDataset | frontend/components/LineChart.tsx:39-44 | a file's series is labelled with the key followed by " Price Forecast" and has one value per row, that row's price |
| LineChart.BuildChart | frontend/components/LineChart.tsx:24-47 | a file gives one "Price Forecast" series and one label per row; a dictionary gives one series per entry in entry order and the first file's labels; only an empty dictionary has no chart |
| LineChart.SeriesFitLabels | frontend/components/LineChart.tsx:36-41 | a series has one value per label iff its file has as many rows as the first file |
| LineChart.LabelsEndInChartTime | frontend/components/LineChart.tsx:27 | each label is the formatted date, a space and the chart's time label, with the colon three characters after the date |
| Page.InRange | frontend/app/page.tsx:70 | only a range whose start is not after its end holds any date, and a one-day range holds exactly that day |
| Page.FilterRows | frontend/app/page.tsx:70 | a row is kept iff it is in the input and its date is in range; no more rows than the input |
| Page.FilteredPayload | frontend/app/page.tsx:68-78 | the result has the input's shape; for a file, a row is kept iff it is in range; for a dictionary, the keys stay the same |
| Page.FilterDataByDateRange | frontend/app/page.tsx:68-78 | the result is the payload with every row list restricted to the dates in the range |
| Page.FilterDictByDateRange | frontend/app/page.tsx:72-76 | the `forEach` loop builds a dictionary with the same keys in the same order, each holding its rows restricted to the range |
| Page.FilteredEntries | frontend/app/page.tsx:73-75 | every entry keeps its key and its position and holds the rows of the range |
| Page.FilteredDict | frontend/app/page.tsx:72-76 | filtering keeps the dictionary's keys |
| Page.FilterRowsExactly | frontend/app/page.tsx:70 | a row is kept, as often as it occurs, iff its date is within the range; the kept rows are in input order |
| Page.FilteredLookup | frontend/app/page.tsx:72-76 | the filtered dictionary has the same keys, and each key's rows are its original rows filtered |
| Page.FilterIdempotent | frontend/app/page.tsx:68-78 | applying the same range twice is the same as once |
| Page.InvertedRangeKeepsNothing | frontend/app/page.tsx:70-74 | a range whose start lies after its end keeps no row |
| Page.FlattenFiltered | frontend/app/page.tsx:109 | filtering the dictionary and then flattening it for the table is flattening and then filtering the tagged rows |
| Page.ChartSeriesAreTableRows | frontend/app/page.tsx:109-117 | the chart's series for a file is the prices of the table's rows tagged with that file, in order |
| Page.SingleFileStatisticsMatchChart | frontend/components/statistics.ts:19-40 | the figures of one file over the table's rows are the figures of that file's chart series |
| Page.PageTableColumns | frontend/app/page.tsx:88-103 | the page's three columns all name fields of the table's rows, and "Source" is shown exactly for the "all files" dictionary |
| Page.Dashboard.constructor | frontend/app/page.tsx:25-29 | the page starts with an empty dictionary as data and on display, no range and "all" files |
| Page.Dashboard.SelectFile | frontend/app/page.tsx:137 | the chosen file is recorded |
| Page.Dashboard.Loaded | frontend/app/page.tsx:43-44 | a fetched payload becomes both the data and the data on display; with no range chosen the display shows the chosen range |
| Page.Dashboard.HandleDateChange | frontend/app/page.tsx:50-66 | a chosen range is stored and the display becomes the data filtered to it; a cleared range is stored as none and the display becomes all the data; either way the display shows the chosen range |

## Left out

- Prices are exact reals. `parseFloat`, NaN for text that is not a number, and IEEE-754 rounding are not modelled.
- Statistics.CalculateStatistics: the figures are not rounded to two decimals by `toFixed(2)`. The empty selection's `"0.00"` strings are modelled as zeros.
- Statistics.Summarize: RMSE is kept squared (`meanSquaredDeviation`), because reals have no square root here. Statistics.NoSpreadIffConstant states its property on that square.
- Statistics.Summarize: where the average is zero, JavaScript yields NaN or Infinity for MAPE; the model gives `None`.
- Statistics.Summarize: `Math.max(...prices)` fails on very long argument lists in JavaScript; the model has no such limit.
- Dates are formatted by a `formatDate` parameter standing for dayjs. `Page.Dashboard.HandleDateChange` receives the range already formatted as `YYYYMMDD` strings.
- Strings are sequences of characters. JavaScript counts and compares UTF-16 code units: string order, `padStart(4, '0')` and `slice(0, 2)` in `Strings.PadStart`, `TimeLabels.Padded` and `TimeLabels.InsertColon` differ from the source only for characters outside the Basic Multilingual Plane.
- JavaScript lists integer-like object keys first, in numeric order. The dictionary keeps its keys in insertion order.
- The chart's random line colours (`Math.random`), `fill: false`, the chart options and all rendering (JSX, react-table, chart.js, antd) are not modelled.
- LineChart.BuildChart: an empty dictionary makes the source throw a TypeError; the model returns `None`.
- Fetching (`fetch`, `useEffect`, the URLs) is not modelled. A successful fetch is the `Page.Dashboard.Loaded` method. Only a thrown error (a network failure, or a body that is not JSON) is logged and leaves the state unchanged.
- Page.Dashboard.Loaded: accepts only well-formed payloads. An HTTP error response (`{ error: … }` from the backend with status 404 or 500) does not make `fetch` throw. Its body is stored as both `data` and `filteredData`, and the page then treats it as a dictionary whose value is a string, on which the filter, the table and the chart throw a TypeError. `Payload` cannot represent that state.
- The backend (`backend/app.js`) and the sign-in page (`frontend/app/auth/page.tsx`) are not part of this model.
- No page or component calls `calculateStatistics`. `Statistics.CalculateStatistics` is modelled on its own, over rows tagged with their source as the table lists them.
