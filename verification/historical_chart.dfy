/** The history chart's data handling (app/components/HistoricalChart.tsx):
    the points it plots, the CSV it exports, and its four summary figures.

    `toISOString` and date-fns `format` are inputs: `iso` maps a timestamp to
    its ISO text and `format` maps a timestamp and a pattern to display text. */
module HistoricalChart {
  import opened JsMath
  import opened Seqs
  import opened Text
  import opened Types
  import HistoricalData

  /** A plotted point: the history point with its time rendered as text. */
  datatype ChartPoint = ChartPoint(time: string, latency: int, min: int, max: int, avg: int)

  /** The date-fns pattern of the time axis: 'HH:mm' for '1h', 'MMM dd HH:mm' otherwise. */
  function TimePattern(timeRange: string): string {
    if timeRange == "1h" then "HH:mm" else "MMM dd HH:mm"
  }

  /** `formattedData`: one plotted point per history point, in order, with the
      same four figures and the time formatted with the range's pattern. */
  function FormattedData(data: seq<HistoricalPoint>, timeRange: string, format: (int, string) -> string): (r: seq<ChartPoint>)
    ensures |r| == |data|
  {
    seq(|data|, i requires 0 <= i < |data| =>
      ChartPoint(format(data[i].timestamp, TimePattern(timeRange)), data[i].latency, data[i].min, data[i].max, data[i].avg))
  }

  /** Formatting only rewrites the time: every figure of every point is kept. */
  lemma FormattedDataKeepsFigures(data: seq<HistoricalPoint>, timeRange: string, format: (int, string) -> string)
    ensures var r := FormattedData(data, timeRange, format);
      && |r| == |data|
      && forall i :: 0 <= i < |r| ==>
           && r[i].latency == data[i].latency && r[i].min == data[i].min
           && r[i].max == data[i].max && r[i].avg == data[i].avg
           && r[i].time == format(data[i].timestamp, if timeRange == "1h" then "HH:mm" else "MMM dd HH:mm")
  {
    var r := FormattedData(data, timeRange, format);
    forall i | 0 <= i < |r|
      ensures r[i] == ChartPoint(format(data[i].timestamp, TimePattern(timeRange)), data[i].latency, data[i].min, data[i].max, data[i].avg)
    {
    }
  }

  const HEADER: seq<string> := ["Timestamp", "Latency", "Min", "Max", "Average"]

  /** The CSV fields of one point: ISO time, latency, min, max, average. */
  function CsvFields(p: HistoricalPoint, iso: int -> string): seq<string> {
    [iso(p.timestamp), IntToString(p.latency), IntToString(p.min), IntToString(p.max), IntToString(p.avg)]
  }

  /** The rows of the export: the header, then one row per point in order. */
  function CsvRows(data: seq<HistoricalPoint>, iso: int -> string): (rows: seq<seq<string>>)
    ensures |rows| == |data| + 1 && rows[0] == HEADER
  {
    [HEADER] + seq(|data|, i requires 0 <= i < |data| => CsvFields(data[i], iso))
  }

  /** The lines of the export: every row joined with ','. */
  function CsvLines(data: seq<HistoricalPoint>, iso: int -> string): (lines: seq<string>)
    ensures |lines| == |data| + 1
  {
    var rows := CsvRows(data, iso);
    seq(|rows|, i requires 0 <= i < |rows| => Join(rows[i], ','))
  }

  /** The text `handleExport` downloads: the lines joined with '\n'. */
  function ExportCsv(data: seq<HistoricalPoint>, iso: int -> string): string {
    Join(CsvLines(data, iso), '\n')
  }

  /** Line 0 is the header joined with ',', line i > 0 the fields of point i - 1. */
  lemma LineAt(data: seq<HistoricalPoint>, iso: int -> string, i: nat)
    requires i <= |data|
    ensures CsvLines(data, iso)[i] == Join(if i == 0 then HEADER else CsvFields(data[i - 1], iso), ',')
  {
  }

  /** The header line. */
  lemma HeaderLine()
    ensures Join(HEADER, ',') == "Timestamp,Latency,Min,Max,Average"
  {
  }

  /** The ISO texts of the points hold neither separator. */
  predicate IsoSafe(data: seq<HistoricalPoint>, iso: int -> string) {
    forall i :: 0 <= i < |data| ==> ',' !in iso(data[i].timestamp) && '\n' !in iso(data[i].timestamp)
  }

  /** A CSV data row read back: the ISO text and the four whole numbers. */
  datatype CsvRecord = CsvRecord(timestamp: string, latency: int, min: int, max: int, avg: int)

  /** Reads one data line: five ','-separated fields, the last four whole numbers. */
  function ParseRow(line: string): Option<CsvRecord> {
    var f := Split(line, ',');
    if |f| != 5 then None
    else
      match (ParseInt(f[1]), ParseInt(f[2]), ParseInt(f[3]), ParseInt(f[4]))
      case (Some(latency), Some(min), Some(max), Some(avg)) => Some(CsvRecord(f[0], latency, min, max, avg))
      case _ => None
  }

  /** Reads every data line, failing if one of them fails. */
  function ParseRows(lines: seq<string>): Option<seq<CsvRecord>> {
    if lines == [] then Some([])
    else
      match (ParseRow(lines[0]), ParseRows(lines[1..]))
      case (Some(r), Some(rest)) => Some([r] + rest)
      case _ => None
  }

  /** Reads an export: the header line, then the data lines. */
  function ParseCsv(csv: string): Option<seq<CsvRecord>> {
    var lines := Split(csv, '\n');
    if lines[0] != Join(HEADER, ',') then None else ParseRows(lines[1..])
  }

  /** What reading an export back should give for each point. */
  function Expected(data: seq<HistoricalPoint>, iso: int -> string): seq<CsvRecord> {
    seq(|data|, i requires 0 <= i < |data| =>
      CsvRecord(iso(data[i].timestamp), data[i].latency, data[i].min, data[i].max, data[i].avg))
  }

  /** The text of a whole number holds neither separator. */
  lemma IntTextSafe(n: int)
    ensures ',' !in IntToString(n) && '\n' !in IntToString(n)
  {
  }

  /** A data row splits back into its five fields and parses to its point. */
  lemma RowRoundTrip(p: HistoricalPoint, iso: int -> string)
    requires ',' !in iso(p.timestamp)
    ensures ParseRow(Join(CsvFields(p, iso), ',')) == Some(CsvRecord(iso(p.timestamp), p.latency, p.min, p.max, p.avg))
  {
    var f := CsvFields(p, iso);
    IntTextSafe(p.latency);
    IntTextSafe(p.min);
    IntTextSafe(p.max);
    IntTextSafe(p.avg);
    SplitJoin(f, ',');
    ParseIntToString(p.latency);
    ParseIntToString(p.min);
    ParseIntToString(p.max);
    ParseIntToString(p.avg);
  }

  /** No line of the export holds a '\n'. */
  lemma LinesWithoutNewline(data: seq<HistoricalPoint>, iso: int -> string)
    requires IsoSafe(data, iso)
    ensures var lines := CsvLines(data, iso); forall i :: 0 <= i < |lines| ==> '\n' !in lines[i]
  {
    var lines := CsvLines(data, iso);
    forall i | 0 <= i < |lines| ensures '\n' !in lines[i] {
      LineAt(data, iso, i);
      if i == 0 {
        JoinAvoids(HEADER, ',', '\n');
      } else {
        FieldsWithoutNewline(data[i - 1], iso);
        JoinAvoids(CsvFields(data[i - 1], iso), ',', '\n');
      }
    }
  }

  /** No field of a data row holds a '\n' when its ISO text does not. */
  lemma FieldsWithoutNewline(p: HistoricalPoint, iso: int -> string)
    requires '\n' !in iso(p.timestamp)
    ensures var f := CsvFields(p, iso); forall k :: 0 <= k < |f| ==> '\n' !in f[k]
  {
    IntTextSafe(p.latency);
    IntTextSafe(p.min);
    IntTextSafe(p.max);
    IntTextSafe(p.avg);
  }

  /** The export splits into its lines: the header line and one line per point. */
  lemma ExportLines(data: seq<HistoricalPoint>, iso: int -> string)
    requires IsoSafe(data, iso)
    ensures Split(ExportCsv(data, iso), '\n') == CsvLines(data, iso)
    ensures |Split(ExportCsv(data, iso), '\n')| == |data| + 1
    ensures Split(ExportCsv(data, iso), '\n')[0] == "Timestamp,Latency,Min,Max,Average"
  {
    LinesWithoutNewline(data, iso);
    SplitJoin(CsvLines(data, iso), '\n');
    LineAt(data, iso, 0);
    HeaderLine();
  }

  /** Data lines from index `k` on parse back to the points from `k - 1` on. */
  lemma {:induction false} DataLinesRoundTrip(data: seq<HistoricalPoint>, iso: int -> string, k: nat)
    requires IsoSafe(data, iso) && 1 <= k <= |data| + 1
    ensures ParseRows(CsvLines(data, iso)[k..]) == Some(Expected(data, iso)[k - 1..])
    decreases |data| + 1 - k
  {
    var lines := CsvLines(data, iso);
    if k <= |data| {
      DataLinesRoundTrip(data, iso, k + 1);
      var p := data[k - 1];
      LineAt(data, iso, k);
      RowRoundTrip(p, iso);
      assert lines[k..][1..] == lines[k + 1..];
      assert Expected(data, iso)[k - 1..] == [Expected(data, iso)[k - 1]] + Expected(data, iso)[k..];
    }
  }

  /** Reading an export back recovers every point's ISO time and four figures, in order. */
  lemma CsvRoundTrip(data: seq<HistoricalPoint>, iso: int -> string)
    requires IsoSafe(data, iso)
    ensures ParseCsv(ExportCsv(data, iso)) == Some(Expected(data, iso))
  {
    ExportLines(data, iso);
    DataLinesRoundTrip(data, iso, 1);
  }

  /** The export does not end with a newline: its last character is the last
      digit of the last figure (of 'Average' for an empty history). */
  lemma NoTrailingNewline(data: seq<HistoricalPoint>, iso: int -> string)
    ensures var csv := ExportCsv(data, iso); |csv| >= 1 && csv[|csv| - 1] != '\n'
  {
    var lines := CsvLines(data, iso);
    var n := |data|;
    LineAt(data, iso, n);
    var last := if n == 0 then HEADER else CsvFields(data[n - 1], iso);
    assert |last| == 5 && |last[4]| >= 1 && Last(last[4]) != '\n';
    JoinLastChar(last, ',');
    JoinLastChar(lines, '\n');
  }

  function Avgs(points: seq<ChartPoint>): seq<int> {
    seq(|points|, i requires 0 <= i < |points| => points[i].avg)
  }

  function Mins(points: seq<ChartPoint>): seq<int> {
    seq(|points|, i requires 0 <= i < |points| => points[i].min)
  }

  function Maxs(points: seq<ChartPoint>): seq<int> {
    seq(|points|, i requires 0 <= i < |points| => points[i].max)
  }

  /** 'Average': the rounded mean of the points' averages (NaN with no points). */
  function SummaryAverage(points: seq<ChartPoint>): Number {
    if |points| == 0 then NaN else Finite(Round(Mean(Avgs(points))))
  }

  /** 'Current': the latest point's latency, or 0 with no points. */
  function SummaryCurrent(points: seq<ChartPoint>): int {
    if |points| == 0 then 0 else points[|points| - 1].latency
  }

  /** 'Minimum': `Math.min` of the points' minima. */
  function SummaryMinimum(points: seq<ChartPoint>): Number {
    MinSpread(Mins(points))
  }

  /** 'Maximum': `Math.max` of the points' maxima. */
  function SummaryMaximum(points: seq<ChartPoint>): Number {
    MaxSpread(Maxs(points))
  }

  /** What the empty chart shows: NaN, 0, Infinity and -Infinity. */
  lemma EmptySummary()
    ensures SummaryAverage([]) == NaN && SummaryCurrent([]) == 0
    ensures SummaryMinimum([]) == Infinity && SummaryMaximum([]) == NegInfinity
  {
  }

  /** The relations every generated point satisfies. */
  predicate Coherent(p: ChartPoint) {
    p.min == p.avg - 10 && p.avg <= p.latency && p.max == p.latency + 20
  }

  /** For points with those relations the summary is finite and ordered:
      'Minimum' is at least 10 below 'Average', which is at least 20 below
      'Maximum'; 'Current' lies between 'Minimum' and 'Maximum'. */
  lemma SummaryOrdered(points: seq<ChartPoint>)
    requires |points| > 0
    requires forall i :: 0 <= i < |points| ==> Coherent(points[i])
    ensures SummaryAverage(points).Finite? && SummaryMinimum(points).Finite? && SummaryMaximum(points).Finite?
    ensures SummaryMinimum(points).value + 10 <= SummaryAverage(points).value <= SummaryMaximum(points).value - 20
    ensures SummaryMinimum(points).value < SummaryCurrent(points) < SummaryMaximum(points).value
  {
    var lo, hi := MinSpread(Mins(points)).value, MaxSpread(Maxs(points)).value;
    var avgs := Avgs(points);
    forall i | 0 <= i < |avgs| ensures lo + 10 <= avgs[i] <= hi - 20 {
      assert lo <= Mins(points)[i] && Maxs(points)[i] <= hi;
    }
    MeanWithin(avgs, lo + 10, hi - 20);
    RoundMonotone((lo + 10) as real, Mean(avgs));
    RoundMonotone(Mean(avgs), (hi - 20) as real);
    RoundWhole(lo + 10);
    RoundWhole(hi - 20);
    var n := |points| - 1;
    assert Mins(points)[n] in Mins(points) && Maxs(points)[n] in Maxs(points);
  }

  /** The chart of a generated history shows 'Minimum' + 10 <= 'Average' <=
      'Maximum' - 20. */
  lemma GeneratedSummaryOrdered(timeRange: string, now: int, draw: nat -> real, format: (int, string) -> string)
    requires forall k: nat :: IsUnit(draw(k))
    ensures var points := FormattedData(HistoricalData.HistoricalSeries(timeRange, now, draw), timeRange, format);
      && SummaryAverage(points).Finite? && SummaryMinimum(points).Finite? && SummaryMaximum(points).Finite?
      && SummaryMinimum(points).value + 10 <= SummaryAverage(points).value <= SummaryMaximum(points).value - 20
  {
    var data := HistoricalData.HistoricalSeries(timeRange, now, draw);
    var points := FormattedData(data, timeRange, format);
    HistoricalData.SeriesBounds(timeRange, now, draw);
    FormattedDataKeepsFigures(data, timeRange, format);
    assert forall i :: 0 <= i < |points| ==> Coherent(points[i]);
    SummaryOrdered(points);
  }
}
