/** The synthetic latency history of app/hooks/useHistoricalData.ts: one point
    per interval back from now, each drawn from two random numbers.

    `Date.now()` is the input `now`; the k-th `Math.random()` call of one
    generation returns `draw(k)`.  The React state, the effect and the 10 s
    regeneration timer are not part of this model. */
module HistoricalData {
  import opened JsMath
  import opened Types

  /** How many intervals back the history reaches for a time range tag;
      any tag other than '1h', '24h' and '7d' gets the 30-day count. */
  function PointCount(timeRange: string): (points: nat)
    ensures points == 12 || points == 24 || points == 168 || points == 720
  {
    if timeRange == "1h" then 12
    else if timeRange == "24h" then 24
    else if timeRange == "7d" then 168
    else 720
  }

  /** The spacing of the points in milliseconds: 5 minutes for '1h', one hour otherwise. */
  function Interval(timeRange: string): (ms: nat)
    ensures ms == 300000 || ms == 3600000
  {
    if timeRange == "1h" then 300000 else 3600000
  }

  /** The point at `timestamp` made from the random draws `r1` (base latency)
      and `r2` (variation). */
  function MakePoint(timestamp: int, r1: real, r2: real): HistoricalPoint {
    var baseLatency := 50.0 + r1 * 50.0;
    var variation := r2 * 30.0;
    HistoricalPoint(
      timestamp,
      Round(baseLatency + variation),
      Round(baseLatency - 10.0),
      Round(baseLatency + variation + 20.0),
      Round(baseLatency))
  }

  /** The history `generateData` builds: point t (oldest first) sits
      `points - t` intervals before `now` and uses draws 2t and 2t + 1. */
  function HistoricalSeries(timeRange: string, now: int, draw: nat -> real): (s: seq<HistoricalPoint>)
    ensures |s| == PointCount(timeRange) + 1
  {
    var points := PointCount(timeRange);
    seq(points + 1, t requires 0 <= t <= points =>
      MakePoint(now - (points - t) * Interval(timeRange), draw(2 * t), draw(2 * t + 1)))
  }

  /** `generateData`: the loop from `i = points` down to 0 pushing one point each. */
  method GenerateData(timeRange: string, now: int, draw: nat -> real) returns (data: seq<HistoricalPoint>)
    ensures data == HistoricalSeries(timeRange, now, draw)
  {
    var points: int := if timeRange == "1h" then 12 else if timeRange == "24h" then 24 else if timeRange == "7d" then 168 else 720;
    var interval := if timeRange == "1h" then 300000 else 3600000;
    data := [];
    var i := points;
    while i >= 0
      invariant -1 <= i <= points
      invariant data == HistoricalSeries(timeRange, now, draw)[..points - i]
    {
      var timestamp := now - i * interval;
      var baseLatency := 50.0 + draw(2 * |data|) * 50.0;
      var variation := draw(2 * |data| + 1) * 30.0;
      var point := HistoricalPoint(
        timestamp,
        Round(baseLatency + variation),
        Round(baseLatency - 10.0),
        Round(baseLatency + variation + 20.0),
        Round(baseLatency));
      assert point == HistoricalSeries(timeRange, now, draw)[points - i];
      data := data + [point];
      i := i - 1;
    }
  }

  /** Point t of the history. */
  lemma SeriesAt(timeRange: string, now: int, draw: nat -> real, t: nat)
    requires t <= PointCount(timeRange)
    ensures HistoricalSeries(timeRange, now, draw)[t] ==
      MakePoint(now - (PointCount(timeRange) - t) * Interval(timeRange), draw(2 * t), draw(2 * t + 1))
  {
  }

  /** The points are `interval` apart, oldest first, and the newest is stamped `now`. */
  lemma SeriesTimestamps(timeRange: string, now: int, draw: nat -> real)
    ensures var s := HistoricalSeries(timeRange, now, draw);
      && s[|s| - 1].timestamp == now
      && s[0].timestamp == now - PointCount(timeRange) * Interval(timeRange)
      && forall t :: 0 <= t < |s| - 1 ==> s[t + 1].timestamp == s[t].timestamp + Interval(timeRange)
  {
    var s := HistoricalSeries(timeRange, now, draw);
    var points, interval := PointCount(timeRange), Interval(timeRange);
    SeriesAt(timeRange, now, draw, 0);
    SeriesAt(timeRange, now, draw, points);
    forall t | 0 <= t < |s| - 1 ensures s[t + 1].timestamp == s[t].timestamp + interval {
      SeriesAt(timeRange, now, draw, t);
      SeriesAt(timeRange, now, draw, t + 1);
      assert (points - t) * interval == (points - (t + 1)) * interval + interval;
    }
  }

  /** The history spans exactly its time range: 1 hour, 24 hours, 7 days, or 30
      days for '30d' and every unknown tag; it has 13, 25, 169 or 721 points. */
  lemma SeriesSpan(timeRange: string, now: int, draw: nat -> real)
    ensures var s := HistoricalSeries(timeRange, now, draw);
      && (timeRange == "1h" ==> |s| == 13 && s[|s| - 1].timestamp - s[0].timestamp == 60 * 60 * 1000)
      && (timeRange == "24h" ==> |s| == 25 && s[|s| - 1].timestamp - s[0].timestamp == 24 * 60 * 60 * 1000)
      && (timeRange == "7d" ==> |s| == 169 && s[|s| - 1].timestamp - s[0].timestamp == 7 * 24 * 60 * 60 * 1000)
      && (timeRange !in {"1h", "24h", "7d"} ==> |s| == 721 && s[|s| - 1].timestamp - s[0].timestamp == 30 * 24 * 60 * 60 * 1000)
  {
    SeriesTimestamps(timeRange, now, draw);
  }

  /** What one point promises for draws in [0, 1): its average lies in
      [50, 100], its latency at most 30 above that, its minimum exactly 10
      below the average and its maximum exactly 20 above the latency. */
  lemma MakePointBounds(timestamp: int, r1: real, r2: real)
    requires IsUnit(r1) && IsUnit(r2)
    ensures var p := MakePoint(timestamp, r1, r2);
      && p.timestamp == timestamp
      && 50 <= p.avg <= 100
      && p.avg <= p.latency <= p.avg + 30
      && p.min == p.avg - 10
      && p.max == p.latency + 20
      && p.min < p.avg <= p.latency < p.max
  {
    var b := 50.0 + r1 * 50.0;
    var v := r2 * 30.0;
    RoundShift(b, -10);
    RoundShift(b + v, 20);
    RoundMonotone(50.0, b);
    RoundMonotone(b, 100.0);
    RoundWhole(50);
    RoundWhole(100);
    RoundMonotone(b, b + v);
    RoundMonotone(b + v, b + 30.0);
    RoundShift(b, 30);
  }

  /** Every point of a history made from draws in [0, 1) keeps those bounds. */
  lemma SeriesBounds(timeRange: string, now: int, draw: nat -> real)
    requires forall k: nat :: IsUnit(draw(k))
    ensures var s := HistoricalSeries(timeRange, now, draw);
      forall t :: 0 <= t < |s| ==>
        && 50 <= s[t].avg <= 100
        && s[t].avg <= s[t].latency <= s[t].avg + 30
        && s[t].min == s[t].avg - 10
        && s[t].max == s[t].latency + 20
  {
    var s := HistoricalSeries(timeRange, now, draw);
    var points := PointCount(timeRange);
    forall t | 0 <= t < |s|
      ensures 50 <= s[t].avg <= 100 && s[t].avg <= s[t].latency <= s[t].avg + 30
      ensures s[t].min == s[t].avg - 10 && s[t].max == s[t].latency + 20
    {
      SeriesAt(timeRange, now, draw, t);
      MakePointBounds(now - (points - t) * Interval(timeRange), draw(2 * t), draw(2 * t + 1));
    }
  }
}
