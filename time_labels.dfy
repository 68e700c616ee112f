/**
  The two ways the dashboard turns an `HHMM` time into a label. The table
  (page and spreadsheet alike) zero-pads the time and inserts a colon only
  when a regular expression sees exactly four digits; the chart zero-pads
  the time and always inserts a colon after the first two characters.
 */
module TimeLabels {
  import opened Strings

  /** `time.padStart(4, '0')`. */
  function Padded(time: string): (p: string)
    ensures |p| == if |time| < 4 then 4 else |time|
    ensures AllDigits(p) <==> AllDigits(time)
  {
    PadStartDigits(time, 4);
    PadStart(time, 4, '0')
  }

  /** Whether `/^(\d{2})(\d{2})$/` matches `s`: exactly four ASCII digits. */
  predicate IsFourDigits(s: string)
  {
    |s| == 4 && AllDigits(s)
  }

  /** Puts a colon after the first two characters. */
  function InsertColon(p: string): (r: string)
    requires |p| >= 2
    ensures |r| == |p| + 1 && r[2] == ':'
    ensures r[..2] + r[3..] == p
  {
    p[..2] + ":" + p[2..]
  }

  /**
    `formatTime`: the padded time, with `$1:$2` substituted when the whole of
    it is two digits followed by two digits, and unchanged otherwise.
   */
  function FormatTime(time: string): (r: string)
    ensures !(|time| <= 4 && AllDigits(time)) ==> r == Padded(time)
    ensures |time| <= 4 && AllDigits(time) ==> r == InsertColon(Padded(time))
  {
    var p := Padded(time);
    if IsFourDigits(p) then InsertColon(p) else p
  }

  /**
    The chart's time label: `padStart(4, '0').slice(0, 2) + ':' +
    padStart(4, '0').slice(2)`. The colon is always there, and taking it
    out gives back the padded time.
   */
  function ChartTime(time: string): (r: string)
    ensures |r| == |Padded(time)| + 1
    ensures r[2] == ':'
    ensures r[..2] + r[3..] == Padded(time)
  {
    InsertColon(Padded(time))
  }

  /** A time of at most four digits becomes `HH:MM`: five characters, a colon at index 2, digits around it. */
  lemma FormatTimeShortDigits(time: string)
    requires |time| <= 4 && AllDigits(time)
    ensures |FormatTime(time)| == 5 && FormatTime(time)[2] == ':'
    ensures FormatTime(time)[..2] + FormatTime(time)[3..] == Padded(time)
    ensures AllDigits(FormatTime(time)[..2]) && AllDigits(FormatTime(time)[3..])
  {
    var r := FormatTime(time);
    assert IsFourDigits(Padded(time));
    assert forall i :: 0 <= i < 2 ==> r[..2][i] == Padded(time)[i];
    assert forall i :: 0 <= i < 2 ==> r[3..][i] == Padded(time)[2 + i];
  }

  /** The table's and the chart's time labels agree exactly on the times of at most four digits. */
  lemma ChartTimeAgreesIff(time: string)
    ensures FormatTime(time) == ChartTime(time) <==> |time| <= 4 && AllDigits(time)
  {
    if !(|time| <= 4 && AllDigits(time)) {
      assert |FormatTime(time)| != |ChartTime(time)|;
    }
  }
}
