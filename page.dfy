/**
  The dashboard page: its state (the fetched data, the data on display, the
  chosen date range and file), the date-range filter it applies to either
  shape of data, and what the table and the chart then show of it.
 */
module Page {
  import opened Wrappers
  import opened Records
  import opened Strings
  import Seqs
  import Spreadsheet
  import LineChart
  import Statistics

  /**
    `date >= start && date <= end`, with JavaScript's ordering of strings. Only
    a range whose start is not after its end holds any date, and a one-day
    range holds exactly that day.
   */
  predicate InRange(start: string, end: string, date: string)
    ensures InRange(start, end, date) ==> LexLe(start, end)
    ensures start == end ==> (InRange(start, end, date) <==> date == start)
  {
    LexLeReflexive(date);
    if LexLe(start, date) && LexLe(date, end) then
      LexLeTransitive(start, date, end);
      if start == end then LexLeAntisymmetric(start, date); true else true
    else
      false
  }

  function InRangeOf(start: string, end: string): Record -> bool
  {
    (row: Record) => InRange(start, end, row.date)
  }

  /** `rows.filter(row => row.date >= start && row.date <= end)`. */
  function FilterRows(rows: seq<Record>, start: string, end: string): (r: seq<Record>)
    ensures |r| <= |rows|
    ensures forall row :: row in r <==> row in rows && InRange(start, end, row.date)
  {
    Seqs.FilterMembers(InRangeOf(start, end), rows);
    Seqs.Filter(InRangeOf(start, end), rows)
  }

  /** Every entry with its rows filtered, keys and entry order kept. */
  function FilteredEntries(entries: seq<Entry>, start: string, end: string): (r: seq<Entry>)
    ensures |r| == |entries|
    ensures forall i :: 0 <= i < |r| ==> r[i] == Entry(entries[i].key, FilterRows(entries[i].rows, start, end))
  {
    if entries == [] then []
    else [Entry(entries[0].key, FilterRows(entries[0].rows, start, end))] + FilteredEntries(entries[1..], start, end)
  }

  function FilteredDict(d: Dict, start: string, end: string): (r: Dict)
    ensures Keys(r) == Keys(d)
  {
    var r := FilteredEntries(d, start, end);
    assert DistinctKeys(r);
    r
  }

  /** What `filterDataByDateRange(data, start, end)` returns. */
  function FilteredPayload(data: Payload, start: string, end: string): (r: Payload)
    ensures r.Rows? <==> data.Rows?
    ensures data.Rows? ==> forall row :: row in r.rows <==> row in data.rows && InRange(start, end, row.date)
    ensures data.BySource? ==> Keys(r.dict) == Keys(data.dict)
  {
    match data
    case Rows(rows) => Rows(FilterRows(rows, start, end))
    case BySource(d) => BySource(FilteredDict(d, start, end))
  }

  /**
    `filterDataByDateRange`: a file's rows are filtered in one expression, a
    dictionary key by key.
   */
  method FilterDataByDateRange(data: Payload, start: string, end: string) returns (r: Payload)
    ensures r == FilteredPayload(data, start, end)
  {
    match data
    case Rows(rows) =>
      r := Rows(FilterRows(rows, start, end));
    case BySource(d) =>
      var filtered := FilterDictByDateRange(d, start, end);
      r := BySource(filtered);
  }

  /**
    The dictionary branch of `filterDataByDateRange`: a fresh object is
    filled by assigning each key its filtered rows, in entry order.
   */
  method FilterDictByDateRange(d: Dict, start: string, end: string) returns (filtered: Dict)
    ensures filtered == FilteredDict(d, start, end)
  {
    filtered := [];
    for i := 0 to |d|
      invariant filtered == FilteredEntries(d[..i], start, end)
    {
      FilledUpTo(filtered, d, i, start, end);
      filtered := Assign(filtered, d[i].key, FilterRows(d[i].rows, start, end));
    }
    assert d[..|d|] == d;
  }

  /** Assigning the next key of `d` to the first `i` filtered entries adds entry number `i`. */
  lemma FilledUpTo(filtered: Dict, d: Dict, i: nat, start: string, end: string)
    requires i < |d| && filtered == FilteredEntries(d[..i], start, end)
    ensures Assign(filtered, d[i].key, FilterRows(d[i].rows, start, end)) == FilteredEntries(d[..i + 1], start, end)
  {
    NextKeyIsNew(filtered, d, i);
    var entry := Entry(d[i].key, FilterRows(d[i].rows, start, end));
    AssignNewKey(filtered, entry.key, entry.rows);
    assert filtered + [entry] == FilteredEntries(d[..i + 1], start, end);
  }

  /** Entries that repeat the first `i` keys of `d` lack its key number `i`. */
  lemma NextKeyIsNew(entries: seq<Entry>, d: Dict, i: nat)
    requires i < |d| && |entries| == i
    requires forall j :: 0 <= j < i ==> entries[j].key == d[j].key
    ensures d[i].key !in Keys(entries)
  {
    forall j | 0 <= j < i
      ensures Keys(entries)[j] != d[i].key
    {
      assert Keys(entries)[j] == d[j].key;
    }
  }

  /**
    A file's filtered rows are exactly its rows in range: each as often as
    the file holds it, nothing else, and in the file's order.
   */
  lemma FilterRowsExactly(rows: seq<Record>, start: string, end: string)
    ensures forall row :: multiset(FilterRows(rows, start, end))[row]
                            == if InRange(start, end, row.date) then multiset(rows)[row] else 0
    ensures Seqs.IsSubsequence(FilterRows(rows, start, end), rows)
    ensures |FilterRows(rows, start, end)| <= |rows|
  {
    Seqs.FilterKeepsExactly(InRangeOf(start, end), rows);
  }

  /** For a dictionary, each key keeps its place and gets its own rows filtered. */
  lemma FilteredLookup(d: Dict, start: string, end: string)
    ensures Keys(FilteredDict(d, start, end)) == Keys(d)
    ensures forall key :: Spreadsheet.RowsOf(FilteredDict(d, start, end), key)
                            == FilterRows(Spreadsheet.RowsOf(d, key), start, end)
  {
    var r := FilteredDict(d, start, end);
    forall key
      ensures Spreadsheet.RowsOf(r, key) == FilterRows(Spreadsheet.RowsOf(d, key), start, end)
    {
      if key in Keys(d) {
        var i := IndexOf(d, key);
        assert r[i].key == key;
      } else {
        assert Seqs.Filter(InRangeOf(start, end), []) == [];
      }
    }
  }

  /** Filtering what was already filtered with the same range changes nothing. */
  lemma FilterIdempotent(data: Payload, start: string, end: string)
    ensures FilteredPayload(FilteredPayload(data, start, end), start, end) == FilteredPayload(data, start, end)
  {
    match data
    case Rows(rows) =>
      Seqs.FilterIdempotent(InRangeOf(start, end), rows);
    case BySource(d) =>
      var once := FilteredDict(d, start, end);
      var twice := FilteredDict(once, start, end);
      forall i | 0 <= i < |d|
        ensures twice[i] == once[i]
      {
        Seqs.FilterIdempotent(InRangeOf(start, end), d[i].rows);
      }
  }

  /** No file holds any row. */
  predicate NoRows(data: Payload)
  {
    match data
    case Rows(rows) => rows == []
    case BySource(d) => forall i :: 0 <= i < |d| ==> d[i].rows == []
  }

  /** A range whose start comes after its end keeps no row, whichever the shape of the data. */
  lemma InvertedRangeKeepsNothing(data: Payload, start: string, end: string)
    requires !LexLe(start, end)
    ensures NoRows(FilteredPayload(data, start, end))
  {
    forall rows: seq<Record>
      ensures FilterRows(rows, start, end) == []
    {
      Seqs.FilterNone(InRangeOf(start, end), rows);
    }
  }

  /** The range test on a row the table has tagged with its source. */
  function TaggedInRangeOf(start: string, end: string): SourcedRecord -> bool
  {
    (row: SourcedRecord) => InRange(start, end, row.date)
  }

  /**
    Filtering and flattening commute: the table of a filtered dictionary
    lists exactly the in-range rows of the unfiltered table, in its order.
   */
  lemma {:induction false} FlattenFiltered(entries: seq<Entry>, start: string, end: string)
    ensures Spreadsheet.FlattenEntries(FilteredEntries(entries, start, end))
         == Seqs.Filter(TaggedInRangeOf(start, end), Spreadsheet.FlattenEntries(entries))
  {
    if entries != [] {
      var key := entries[0].key;
      var rows := entries[0].rows;
      var filtered := FilteredEntries(entries, start, end);
      assert filtered[1..] == FilteredEntries(entries[1..], start, end);
      FlattenFiltered(entries[1..], start, end);
      Seqs.FilterMap(TaggedInRangeOf(start, end), Spreadsheet.Tag(key), InRangeOf(start, end), rows);
      Seqs.FilterConcat(TaggedInRangeOf(start, end), Seqs.Map(Spreadsheet.Tag(key), rows),
                        Spreadsheet.FlattenEntries(entries[1..]));
    }
  }

  /**
    For the dictionary of all files, the chart's series of file `i` holds the
    prices of exactly the table rows tagged with that file, in table order.
   */
  lemma ChartSeriesAreTableRows(d: Dict, formatDate: string -> string, i: nat)
    requires i < |d|
    ensures BuildChartSeries(d, formatDate, i)
         == Seqs.Map(Statistics.Price, Seqs.Filter(Spreadsheet.HasSource(d[i].key), Spreadsheet.FlattenEntries(d)))
  {
    var key := d[i].key;
    var tagged := Seqs.Filter(Spreadsheet.HasSource(key), Spreadsheet.FlattenEntries(d));
    Spreadsheet.UntagSource(d, key);
    assert Spreadsheet.RowsOf(d, key) == d[i].rows;
    PricesOfUntagged(tagged, d[i].rows);
    assert BuildChartSeries(d, formatDate, i) == LineChart.SourceDataset(d[i]).data;
  }

  /** Tagged rows that untag to `rows` carry the prices of `rows`, in order. */
  lemma PricesOfUntagged(tagged: seq<SourcedRecord>, rows: seq<Record>)
    requires Seqs.Map(Spreadsheet.Untag, tagged) == rows
    ensures |Seqs.Map(Statistics.Price, tagged)| == |rows|
    ensures forall j :: 0 <= j < |rows| ==> Seqs.Map(Statistics.Price, tagged)[j] == rows[j].priceFcst
  {
    forall j | 0 <= j < |rows|
      ensures Statistics.Price(tagged[j]) == rows[j].priceFcst
    {
      assert Spreadsheet.Untag(tagged[j]) == rows[j];
    }
  }

  /**
    The statistics of the table rows with file `i` as the only selected file
    are the statistics of that file's chart series.
   */
  lemma SingleFileStatisticsMatchChart(d: Dict, formatDate: string -> string, i: nat)
    requires i < |d|
    ensures Statistics.CalculateStatistics(Spreadsheet.FlattenEntries(d), [d[i].key])
         == Statistics.Summarize(BuildChartSeries(d, formatDate, i))
  {
    var rows := Spreadsheet.FlattenEntries(d);
    Seqs.FilterAgree(Statistics.IsSelectedBy([d[i].key]), Spreadsheet.HasSource(d[i].key), rows);
    ChartSeriesAreTableRows(d, formatDate, i);
  }

  /** The values of series `i` of the chart of a dictionary. */
  function BuildChartSeries(d: Dict, formatDate: string -> string, i: nat): seq<real>
    requires i < |d|
  {
    LineChart.BuildChart(BySource(d), formatDate).value.datasets[i].data
  }

  /** The columns the page hands to the table. */
  const PageColumns := [
    Spreadsheet.Column("Date", "date"),
    Spreadsheet.Column("Time", "time"),
    Spreadsheet.Column("Price Forecast", "price_fcst")
  ]

  /**
    The page's columns name fields of `CsvData`, so every column the table
    shows names a field of its rows, and "Source" is shown exactly for the
    "all files" dictionary.
   */
  lemma PageTableColumns(data: Payload)
    ensures forall c :: c in Spreadsheet.AllColumns(data, PageColumns) ==> c.accessor in Spreadsheet.Fields(Spreadsheet.Flatten(data))
    ensures Spreadsheet.SourceColumn in Spreadsheet.AllColumns(data, PageColumns) <==> data.BySource?
  {
    Spreadsheet.ColumnsMatchRows(data, PageColumns);
  }

  /** The page's state, `useState` by `useState`. */
  class Dashboard {
    var data: Payload
    var filteredData: Payload
    var startDate: Option<string>
    var endDate: Option<string>
    var selectedFile: string

    /**
      The data on display is the fetched data restricted to the chosen range,
      or all of it when no range is chosen; the two ends are set together.
     */
    predicate ShowsSelectedRange()
      reads this
    {
      (startDate.Some? <==> endDate.Some?)
      && filteredData == (if startDate.Some? then FilteredPayload(data, startDate.value, endDate.value) else data)
    }

    /** The initial state: an empty object on display, no range, every file. */
    constructor ()
      ensures data == BySource([]) && filteredData == BySource([])
      ensures startDate == None && endDate == None && selectedFile == "all"
      ensures ShowsSelectedRange()
    {
      data := BySource([]);
      filteredData := BySource([]);
      startDate := None;
      endDate := None;
      selectedFile := "all";
    }

    /** The file selector's `onChange`: records the choice; the fetch it triggers arrives as `Loaded`. */
    method SelectFile(file: string)
      modifies this`selectedFile
      ensures selectedFile == file
    {
      selectedFile := file;
    }

    /**
      A fetch has delivered `json`: it becomes both the data and the data on
      display. The chosen range is left as it was and not applied.
     */
    method Loaded(json: Payload)
      modifies this`data, this`filteredData
      ensures data == json && filteredData == json
      ensures startDate.None? && endDate.None? ==> ShowsSelectedRange()
    {
      data := json;
      filteredData := json;
    }

    /**
      `handleDateChange`: a chosen range is recorded and applied to the
      fetched data; a cleared range puts all the fetched data back on display.
     */
    method HandleDateChange(dates: Option<(string, string)>)
      modifies this`startDate, this`endDate, this`filteredData
      ensures dates.Some? ==> startDate == Some(dates.value.0) && endDate == Some(dates.value.1)
                              && filteredData == FilteredPayload(data, dates.value.0, dates.value.1)
      ensures dates.None? ==> startDate == None && endDate == None && filteredData == data
      ensures ShowsSelectedRange()
    {
      match dates
      case Some((start, end)) =>
        startDate := Some(start);
        endDate := Some(end);
        var filtered := FilterDataByDateRange(data, start, end);
        filteredData := filtered;
      case None =>
        startDate := None;
        endDate := None;
        filteredData := data;
    }
  }
}
