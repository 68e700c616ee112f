/**
  The data behind the price chart. A single file gives one series named
  "Price Forecast". The "all files" dictionary gives one series per file, in
  entry order, named after the file; the points' labels are taken from the
  first file only. Dates are formatted by a function given from outside (the
  date library), times by the chart's own slicing.
 */
module LineChart {
  import opened Wrappers
  import opened Records
  import Seqs
  import TimeLabels

  /** One chart.js series: its legend text (`label`) and its values. */
  datatype Dataset = Dataset(legend: string, data: seq<real>)

  /** What the chart is given: the x-axis labels and the series. */
  datatype ChartData = ChartData(labels: seq<string>, datasets: seq<Dataset>)

  const ForecastLabel := "Price Forecast"

  /** `parseFloat(d.price_fcst)`, with the price already a real. */
  function PriceOf(row: Record): real
  {
    row.priceFcst
  }

  /** A point's label: the formatted date, a space, then the chart's time label. */
  function PointLabel(formatDate: string -> string): (f: Record -> string)
    ensures forall row :: (
      |f(row)| == |formatDate(row.date)| + 1 + |TimeLabels.ChartTime(row.time)|
      && f(row)[..|formatDate(row.date)| + 1] == formatDate(row.date) + " "
      && f(row)[|formatDate(row.date)| + 1..] == TimeLabels.ChartTime(row.time))
  {
    (row: Record) => formatDate(row.date) + " " + TimeLabels.ChartTime(row.time)
  }

  /** The series of one file: labelled `${key} Price Forecast`, one value per row. */
  function SourceDataset(e: Entry): (s: Dataset)
    ensures s.legend == e.key + " Price Forecast"
    ensures |s.data| == |e.rows| && forall j :: 0 <= j < |e.rows| ==> s.data[j] == e.rows[j].priceFcst
  {
    Dataset(e.key + " " + ForecastLabel, Seqs.Map(PriceOf, e.rows))
  }

  /**
    `chartData`. A dictionary without entries has no first file to take
    labels from, and the source fails there (`Object.values(data)[0]` is
    undefined); that case is `None`.
   */
  function BuildChart(data: Payload, formatDate: string -> string): (r: Option<ChartData>)
    ensures r.None? <==> data == BySource([])
    ensures data.Rows? ==> (
      r.Some? && |r.value.datasets| == 1
      && r.value.datasets[0].legend == ForecastLabel
      && |r.value.labels| == |data.rows| == |r.value.datasets[0].data|
      && (forall j :: 0 <= j < |data.rows| ==>
            r.value.labels[j] == PointLabel(formatDate)(data.rows[j])
            && r.value.datasets[0].data[j] == data.rows[j].priceFcst))
    ensures data.BySource? && r.Some? ==> (
      |r.value.datasets| == |data.dict|
      && forall i :: 0 <= i < |data.dict| ==> r.value.datasets[i] == SourceDataset(data.dict[i]))
    ensures data.BySource? && r.Some? ==> (
      |r.value.labels| == |data.dict[0].rows|
      && forall j :: 0 <= j < |data.dict[0].rows| ==> r.value.labels[j] == PointLabel(formatDate)(data.dict[0].rows[j]))
  {
    match data
    case Rows(rows) =>
      Some(ChartData(Seqs.Map(PointLabel(formatDate), rows), [Dataset(ForecastLabel, Seqs.Map(PriceOf, rows))]))
    case BySource(d) =>
      if d == [] then None
      else Some(ChartData(Seqs.Map(PointLabel(formatDate), d[0].rows), Seqs.Map(SourceDataset, d)))
  }

  /**
    Every series of a dictionary's chart has one value per label exactly
    when its file has as many rows as the first file.
   */
  lemma SeriesFitLabels(d: Dict, formatDate: string -> string, i: nat)
    requires d != [] && i < |d|
    ensures |BuildChart(BySource(d), formatDate).value.labels| == |BuildChart(BySource(d), formatDate).value.datasets[i].data|
        <==> |d[i].rows| == |d[0].rows|
  {
  }

  /** Every point label carries the chart's time label, whose colon sits at index 2. */
  lemma LabelsEndInChartTime(data: Payload, formatDate: string -> string, j: nat)
    requires data.Rows? && j < |data.rows|
    ensures var text := BuildChart(data, formatDate).value.labels[j];
            var date := formatDate(data.rows[j].date);
            text[..|date| + 1] == date + " " && text[|date| + 1..] == TimeLabels.ChartTime(data.rows[j].time)
            && text[|date| + 3] == ':'
  {
    var date := formatDate(data.rows[j].date);
    var text := BuildChart(data, formatDate).value.labels[j];
    assert text == date + " " + TimeLabels.ChartTime(data.rows[j].time);
  }
}
