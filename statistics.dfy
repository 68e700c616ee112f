/**
  The summary figures the dashboard computes over the rows of a chosen set of
  files: the number of observations, the total ("energy"), the mean, the peak,
  and two spreads around the mean (MAPE and the mean squared deviation whose
  square root is RMSE). All arithmetic is over exact reals.
 */
module Statistics {
  import opened Wrappers
  import opened Records
  import Seqs

  /**
    `StatisticsResult` before rounding: MAPE is absent where the source divides
    by a zero average (JavaScript then yields NaN or Infinity), and RMSE is kept
    as its square, the mean squared deviation from the average.
   */
  datatype StatisticsResult = StatisticsResult(
    nobs: nat,
    mape: Option<real>,
    meanSquaredDeviation: real,
    peak: real,
    average: real,
    energy: real)

  /** The result for an empty selection: no observations and every figure zero. */
  const NoObservations := StatisticsResult(0, Some(0.0), 0.0, 0.0, 0.0, 0.0)

  /** `selectedFiles.includes(row.source)`. */
  function IsSelectedBy(selectedFiles: seq<string>): SourcedRecord -> bool
  {
    (row: SourcedRecord) => row.source in selectedFiles
  }

  /** The rows whose source is one of the selected files, in input order. */
  function Selected(data: seq<SourcedRecord>, selectedFiles: seq<string>): (r: seq<SourcedRecord>)
    ensures |r| <= |data|
    ensures forall i :: 0 <= i < |r| ==> r[i].source in selectedFiles
    ensures Seqs.IsSubsequence(r, data)
  {
    Seqs.FilterKeepsExactly(IsSelectedBy(selectedFiles), data);
    Seqs.Filter(IsSelectedBy(selectedFiles), data)
  }

  /** `parseFloat(row.price_fcst)`, with the price already a real. */
  function Price(row: SourcedRecord): real
  {
    row.priceFcst
  }

  function Prices(rows: seq<SourcedRecord>): seq<real>
  {
    Seqs.Map(Price, rows)
  }

  function Abs(x: real): real
  {
    if x < 0.0 then -x else x
  }

  /** `total / n`: the value that, counted `n` times, makes up `total`. */
  function Mean(total: real, n: nat): (m: real)
    requires n > 0
    ensures m * (n as real) == total
    ensures total >= 0.0 ==> m >= 0.0
    ensures m == 0.0 <==> total == 0.0
  {
    total / n as real
  }

  /** The MAPE term of one price: its absolute deviation from the average, relative to the average. */
  function RelativeDeviation(average: real): real -> real
    requires average != 0.0
  {
    (price: real) => Abs(price - average) / average
  }

  function Product(a: real, b: real): real
  {
    a * b
  }

  /** `x ** 2`. */
  function Square(x: real): real
  {
    Product(x, x)
  }

  /** The RMSE term of one price: its squared deviation from the average. */
  function SquaredDeviation(average: real): real -> real
  {
    (price: real) => Square(price - average)
  }

  /** How far one price lies above the average. */
  function Deviation(average: real): real -> real
  {
    (price: real) => price - average
  }

  /** The figures `calculateStatistics` computes over the prices of the selected rows. */
  function Summarize(prices: seq<real>): (r: StatisticsResult)
    ensures r.nobs == |prices|
    ensures prices == [] ==> r == NoObservations
    ensures prices != [] ==> r.energy == Seqs.Sum(prices) && r.average * (r.nobs as real) == r.energy
    ensures prices != [] ==> (r.mape.None? <==> r.average == 0.0)
    ensures prices != [] ==> r.peak in prices
    ensures forall i :: 0 <= i < |prices| ==> prices[i] <= r.peak
  {
    if |prices| == 0 then
      NoObservations
    else
      var n := |prices|;
      var average := Mean(Seqs.Sum(prices), n);
      var mape := if average == 0.0 then None
                  else Some(Mean(Seqs.SumOf(RelativeDeviation(average), prices), n) * 100.0);
      var meanSquaredDeviation := Mean(Seqs.SumOf(SquaredDeviation(average), prices), n);
      var peak := Seqs.Max(prices);
      var energy := Seqs.Sum(prices);
      StatisticsResult(n, mape, meanSquaredDeviation, peak, average, energy)
  }

  /** `calculateStatistics(data, selectedFiles)` before the figures are rounded to two decimals. */
  function CalculateStatistics(data: seq<SourcedRecord>, selectedFiles: seq<string>): (r: StatisticsResult)
    ensures r.nobs == |Selected(data, selectedFiles)|
    ensures r.nobs == 0 ==> r == NoObservations
  {
    Summarize(Prices(Selected(data, selectedFiles)))
  }

  /** A row of the input is among the selected rows exactly when its source is selected. */
  lemma SelectedMembers(data: seq<SourcedRecord>, selectedFiles: seq<string>)
    ensures forall row :: row in Selected(data, selectedFiles) <==> row in data && row.source in selectedFiles
  {
    Seqs.FilterMembers(IsSelectedBy(selectedFiles), data);
  }

  /**
    Stated over the raw input: nothing is counted exactly when no row's source
    is selected, and otherwise the peak is the price of some selected row and
    no selected row's price exceeds it.
   */
  lemma PeakIsSelectedMaximum(data: seq<SourcedRecord>, selectedFiles: seq<string>)
    ensures var r := CalculateStatistics(data, selectedFiles);
      && (r.nobs == 0 <==> forall i :: 0 <= i < |data| ==> data[i].source !in selectedFiles)
      && (forall i :: 0 <= i < |data| && data[i].source in selectedFiles ==> data[i].priceFcst <= r.peak)
      && (r.nobs > 0 ==>
            exists i :: 0 <= i < |data| && data[i].source in selectedFiles && data[i].priceFcst == r.peak)
  {
    SelectedMembers(data, selectedFiles);
    PeakBoundsSelected(data, selectedFiles);
    if CalculateStatistics(data, selectedFiles).nobs > 0 {
      PeakIsSelected(data, selectedFiles);
    } else {
      NothingSelected(data, selectedFiles);
    }
  }

  /** No selected row's price exceeds PEAK. */
  lemma PeakBoundsSelected(data: seq<SourcedRecord>, selectedFiles: seq<string>)
    ensures forall i :: 0 <= i < |data| && data[i].source in selectedFiles
              ==> data[i].priceFcst <= CalculateStatistics(data, selectedFiles).peak
  {
    var r := CalculateStatistics(data, selectedFiles);
    var filtered := Selected(data, selectedFiles);
    var prices := Prices(filtered);
    SelectedMembers(data, selectedFiles);
    forall i | 0 <= i < |data| && data[i].source in selectedFiles
      ensures data[i].priceFcst <= r.peak
    {
      var j :| 0 <= j < |filtered| && filtered[j] == data[i];
      assert prices[j] == data[i].priceFcst;
    }
  }

  /** With something selected, PEAK is the price of a selected row. */
  lemma PeakIsSelected(data: seq<SourcedRecord>, selectedFiles: seq<string>)
    requires CalculateStatistics(data, selectedFiles).nobs > 0
    ensures exists i :: 0 <= i < |data| && data[i].source in selectedFiles
              && data[i].priceFcst == CalculateStatistics(data, selectedFiles).peak
  {
    var r := CalculateStatistics(data, selectedFiles);
    var filtered := Selected(data, selectedFiles);
    var prices := Prices(filtered);
    SelectedMembers(data, selectedFiles);
    var j :| 0 <= j < |prices| && prices[j] == r.peak;
    assert filtered[j] in data;
    var i :| 0 <= i < |data| && data[i] == filtered[j];
    assert data[i].source in selectedFiles && data[i].priceFcst == r.peak;
  }

  /** Without observations, no input row comes from a selected file. */
  lemma NothingSelected(data: seq<SourcedRecord>, selectedFiles: seq<string>)
    requires CalculateStatistics(data, selectedFiles).nobs == 0
    ensures forall i :: 0 <= i < |data| ==> data[i].source !in selectedFiles
  {
    var filtered := Selected(data, selectedFiles);
    SelectedMembers(data, selectedFiles);
    forall i | 0 <= i < |data|
      ensures data[i].source !in selectedFiles
    {
      assert data[i] !in filtered;
    }
  }

  /**
    ENERGY is the sum, over every input row, of its price when its source is
    selected and zero otherwise.
   */
  lemma EnergyIsSumOfSelectedPrices(data: seq<SourcedRecord>, selectedFiles: seq<string>)
    ensures CalculateStatistics(data, selectedFiles).energy
         == Seqs.SumOf(Seqs.Masked(IsSelectedBy(selectedFiles), Price), data)
  {
    var filtered := Selected(data, selectedFiles);
    Seqs.SumMap(Price, filtered);
    Seqs.SumOfFilter(IsSelectedBy(selectedFiles), Price, data);
    if filtered == [] {
      assert Seqs.SumOf(Price, filtered) == 0.0;
    }
  }

  /** Rows from files outside the selection, wherever they sit in the input, change no figure. */
  lemma UnselectedRowsIgnored(before: seq<SourcedRecord>, extra: seq<SourcedRecord>,
                              after: seq<SourcedRecord>, selectedFiles: seq<string>)
    requires forall i :: 0 <= i < |extra| ==> extra[i].source !in selectedFiles
    ensures CalculateStatistics(before + extra + after, selectedFiles)
         == CalculateStatistics(before + after, selectedFiles)
  {
    var p := IsSelectedBy(selectedFiles);
    Seqs.FilterConcat(p, before + extra, after);
    Seqs.FilterConcat(p, before, extra);
    Seqs.FilterNone(p, extra);
    Seqs.FilterConcat(p, before, after);
    assert Selected(before + extra + after, selectedFiles) == Selected(before + after, selectedFiles);
  }

  /** The figures depend on the multiset of prices only, not on their order. */
  lemma SummarizePermutation(s: seq<real>, t: seq<real>)
    requires multiset(s) == multiset(t)
    ensures Summarize(s) == Summarize(t)
  {
    assert |s| == |multiset(s)| == |multiset(t)| == |t|;
    if s != [] {
      Seqs.SumPermutation(s, t);
      var average := Mean(Seqs.Sum(s), |s|);
      if average != 0.0 {
        Seqs.SumOfPermutation(RelativeDeviation(average), s, t);
      }
      Seqs.SumOfPermutation(SquaredDeviation(average), s, t);
      Seqs.MaxPermutation(s, t);
    }
  }

  /** Reordering the input rows changes no figure. */
  lemma PermutationInvariant(a: seq<SourcedRecord>, b: seq<SourcedRecord>, selectedFiles: seq<string>)
    requires multiset(a) == multiset(b)
    ensures CalculateStatistics(a, selectedFiles) == CalculateStatistics(b, selectedFiles)
  {
    var fa, fb := Selected(a, selectedFiles), Selected(b, selectedFiles);
    Seqs.FilterPermutation(IsSelectedBy(selectedFiles), a, b);
    Seqs.MapPermutation(Price, fa, fb);
    SummarizePermutation(Prices(fa), Prices(fb));
  }

  /** `s` minus `c` for each of its elements sums to the sum of `s` minus `|s|` times `c`. */
  lemma {:induction false} DeviationSum(s: seq<real>, c: real)
    ensures Seqs.SumOf(Deviation(c), s) == Seqs.Sum(s) - |s| as real * c
  {
    if s != [] {
      DeviationSum(s[1..], c);
    }
  }

  /** The deviations of the prices from AVERAGE cancel out. */
  lemma DeviationsSumToZero(prices: seq<real>)
    requires prices != []
    ensures Seqs.SumOf(Deviation(Summarize(prices).average), prices) == 0.0
  {
    DeviationSum(prices, Summarize(prices).average);
  }

  /** With a positive average, MAPE is defined and not negative. */
  lemma MapeNonNegative(prices: seq<real>)
    requires prices != [] && Summarize(prices).average > 0.0
    ensures Summarize(prices).mape.Some? && Summarize(prices).mape.value >= 0.0
  {
    var r := Summarize(prices);
    var f := RelativeDeviation(r.average);
    forall i | 0 <= i < |prices|
      ensures f(prices[i]) >= 0.0
    {
      NonNegativeRatio(Abs(prices[i] - r.average), r.average);
    }
    Seqs.SumOfNonNegative(f, prices);
  }

  lemma NonNegativeRatio(x: real, y: real)
    requires x >= 0.0 && y > 0.0
    ensures x / y >= 0.0
  {
  }

  /** A product of two numbers of the same sign, neither zero, is positive. */
  lemma ProductPositive(a: real, b: real)
    requires (a > 0.0 && b > 0.0) || (a < 0.0 && b < 0.0)
    ensures Product(a, b) > 0.0
  {
    if a < 0.0 {
      assert a * b == (-a) * (-b);
    }
  }

  /** A square is never negative, and it is zero only for zero. */
  lemma SquareSign(x: real)
    ensures Square(x) >= 0.0
    ensures Square(x) == 0.0 <==> x == 0.0
  {
    if x != 0.0 {
      ProductPositive(x, x);
    }
  }

  /**
    The squared spread (RMSE squared) is never negative, and it is zero exactly
    when every price equals the average.
   */
  lemma NoSpreadIffConstant(prices: seq<real>)
    requires prices != []
    ensures Summarize(prices).meanSquaredDeviation >= 0.0
    ensures Summarize(prices).meanSquaredDeviation == 0.0
        <==> forall i :: 0 <= i < |prices| ==> prices[i] == Summarize(prices).average
  {
    var average := Summarize(prices).average;
    SquaredDeviationTerms(prices, average);
    Seqs.SumOfNonNegative(SquaredDeviation(average), prices);
  }

  lemma SquaredDeviationTerms(prices: seq<real>, average: real)
    ensures forall i :: 0 <= i < |prices| ==> SquaredDeviation(average)(prices[i]) >= 0.0
    ensures forall i :: 0 <= i < |prices| ==> (SquaredDeviation(average)(prices[i]) == 0.0 <==> prices[i] == average)
  {
    forall i | 0 <= i < |prices|
      ensures SquaredDeviation(average)(prices[i]) >= 0.0
      ensures SquaredDeviation(average)(prices[i]) == 0.0 <==> prices[i] == average
    {
      SquareSign(prices[i] - average);
    }
  }

  /** When every price equals the average, MAPE is zero wherever it is defined. */
  lemma ConstantPricesHaveZeroMape(prices: seq<real>)
    requires prices != []
    requires forall i :: 0 <= i < |prices| ==> prices[i] == Summarize(prices).average
    ensures Summarize(prices).mape.Some? ==> Summarize(prices).mape == Some(0.0)
  {
    var r := Summarize(prices);
    if r.average != 0.0 {
      var f := RelativeDeviation(r.average);
      forall i | 0 <= i < |prices|
        ensures f(prices[i]) == 0.0
      {
        assert Abs(prices[i] - r.average) == 0.0;
      }
      Seqs.SumOfNonNegative(f, prices);
    }
  }

  /** Two files sharing a time slot, with the statistics of one of them. */
  lemma TwoFileExample()
    ensures var data := [SourcedRecord("20240101", "1300", 45.5, "t1"),
                         SourcedRecord("20240101", "1300", 47.0, "t2"),
                         SourcedRecord("20240101", "1400", 46.0, "t1")];
            var r := CalculateStatistics(data, ["t1"]);
            r.nobs == 2 && r.average == 45.75 && r.peak == 46.0 && r.energy == 91.5
  {
    var data := [SourcedRecord("20240101", "1300", 45.5, "t1"),
                 SourcedRecord("20240101", "1300", 47.0, "t2"),
                 SourcedRecord("20240101", "1400", 46.0, "t1")];
    assert data[1..][1..] == [data[2]];
    assert Selected(data, ["t1"]) == [data[0], data[2]];
    assert Prices([data[0], data[2]]) == [45.5, 46.0];
    assert Seqs.Sum([45.5, 46.0]) == 91.5;
  }
}
