/** The synthetic latency estimator, the severity colour scale and the
    latency matrix builder of app/lib/latencySimulator.ts.

    The great-circle distance (a haversine computation in floating point) is
    an input, `distance`, known only to be non-negative and zero for two
    exchanges at the same coordinates; each `Math.random()` draw is an input in
    [0, 1); `Date.now()` is the input `now`. */
module LatencySimulator {
  import opened JsMath
  import opened Seqs
  import opened Types
  import opened Pairs

  /** The two exchanges sit at the same coordinates. */
  predicate SameSite(a: Exchange, b: Exchange) {
    a.lat == b.lat && a.lon == b.lon
  }

  /** What is known of the great-circle distance (km) between `a` and `b`. */
  predicate IsDistance(a: Exchange, b: Exchange, distance: real) {
    distance >= 0.0 && (SameSite(a, b) ==> distance == 0.0)
  }

  /** The extra milliseconds charged to a pair hosted by different providers. */
  function ProviderPenalty(a: Exchange, b: Exchange): int {
    if a.provider != b.provider then 15 else 0
  }

  /** `calculateLatency(from, to)` for the distance `distance` and the random
      draw `r`: 1 ms per 100 km, jitter in [-10, 10), the provider penalty,
      rounded, and never below 5 ms. */
  function CalculateLatency(from: Exchange, to: Exchange, distance: real, r: real): (ms: int)
    ensures ms >= 5
  {
    var baseLatency := distance / 100.0 * 1.0;
    var jitter := r * 20.0 - 10.0;
    var providerPenalty := if from.provider != to.provider then 15 else 0;
    Max(5, Round(baseLatency + jitter + providerPenalty as real))
  }

  /** With x = distance / 100 + jitter + penalty, the estimate is the 5 ms
      floor exactly when x is below 5.5, and otherwise the whole number
      nearest to x (halves round up). */
  lemma CalculateLatencyNearest(from: Exchange, to: Exchange, distance: real, r: real)
    ensures var ms := CalculateLatency(from, to, distance, r);
      var x := distance / 100.0 + (r * 20.0 - 10.0) + ProviderPenalty(from, to) as real;
      && (ms == 5 <==> x < 5.5)
      && (ms > 5 ==> ms as real - 0.5 <= x < ms as real + 0.5)
  {
  }

  /** Re-hosting `to` on `from`'s provider removes exactly the 15 ms penalty:
      a cross-provider pair costs 15 ms more than the same pair on one provider
      unless the 5 ms floor hides the difference, and a same-provider pair is
      charged nothing. */
  lemma CrossProviderPenalty(from: Exchange, to: Exchange, distance: real, r: real)
    ensures from.provider == to.provider ==> ProviderPenalty(from, to) == 0
    ensures var same := CalculateLatency(from, to.(provider := from.provider), distance, r);
      && CalculateLatency(from, to, distance, r) >= same
      && (from.provider != to.provider && same > 5 ==> CalculateLatency(from, to, distance, r) == same + 15)
      && (from.provider == to.provider ==> CalculateLatency(from, to, distance, r) == same)
  {
    var x := distance / 100.0 * 1.0 + (r * 20.0 - 10.0);
    RoundShift(x, 15);
    RoundMonotone(x, x + 15.0);
  }

  /** Two exchanges at the same place and on the same provider get between 5
      and 10 ms: only the jitter is left. */
  lemma ColocatedSameProvider(from: Exchange, to: Exchange, distance: real, r: real)
    requires IsDistance(from, to, distance) && IsUnit(r)
    requires SameSite(from, to) && from.provider == to.provider
    ensures 5 <= CalculateLatency(from, to, distance, r) <= 10
  {
  }

  /** The four colour bands of the latency scale. */
  datatype Severity = Low | Medium | High | Critical

  /** The position of a band on the scale, from 0 (best) to 3 (worst). */
  function Rank(s: Severity): nat {
    match s
    case Low => 0
    case Medium => 1
    case High => 2
    case Critical => 3
  }

  /** The band of a latency: below 50, below 100, below 150, and the rest. */
  function SeverityOf(latency: real): Severity {
    if latency < 50.0 then Low
    else if latency < 100.0 then Medium
    else if latency < 150.0 then High
    else Critical
  }

  /** The band's colour as a CSS hex string. */
  function Hex(s: Severity): string {
    match s
    case Low => "#22c55e"
    case Medium => "#eab308"
    case High => "#f97316"
    case Critical => "#ef4444"
  }

  /** `getLatencyColor`: the colour of the latency's band. */
  function GetLatencyColor(latency: int): (color: string)
    ensures color == Hex(SeverityOf(latency as real))
  {
    if latency < 50 then "#22c55e"
    else if latency < 100 then "#eab308"
    else if latency < 150 then "#f97316"
    else "#ef4444"
  }

  /** The band boundaries of `getLatencyColor`, each in both directions. */
  lemma GetLatencyColorBands(latency: int)
    ensures GetLatencyColor(latency) == "#22c55e" <==> latency < 50
    ensures GetLatencyColor(latency) == "#eab308" <==> 50 <= latency < 100
    ensures GetLatencyColor(latency) == "#f97316" <==> 100 <= latency < 150
    ensures GetLatencyColor(latency) == "#ef4444" <==> 150 <= latency
  {
  }

  /** A larger latency never gets a less severe band. */
  lemma SeverityMonotone(a: real, b: real)
    requires a <= b
    ensures Rank(SeverityOf(a)) <= Rank(SeverityOf(b))
  {
  }

  /** The record pushed for exchanges `from` and `to` with the random draw `r`. */
  function PairRecord(from: Exchange, to: Exchange, distance: real, r: real, now: int): LatencyData {
    var latency := CalculateLatency(from, to, distance, r);
    LatencyData(from.id, to.id, latency, now, GetLatencyColor(latency))
  }

  /** The record of the index pair `p` made with random draw number `k`. */
  function RecordOfPair(exchanges: seq<Exchange>, distance: (Exchange, Exchange) -> real, jitter: nat -> real, now: int, p: Pair, k: nat): LatencyData
    requires p.0 < |exchanges| && p.1 < |exchanges|
  {
    PairRecord(exchanges[p.0], exchanges[p.1], distance(exchanges[p.0], exchanges[p.1]), jitter(k), now)
  }

  /** The first `m` records of row `i` (pairs (i, i+1), ..., (i, i+m)), the
      first of them made with random draw number `offset`. */
  function RowRecords(exchanges: seq<Exchange>, distance: (Exchange, Exchange) -> real, jitter: nat -> real, now: int, i: nat, m: nat, offset: nat): (r: seq<LatencyData>)
    requires i + m < |exchanges|
    ensures |r| == m
  {
    seq(m, t requires 0 <= t < m =>
      PairRecord(exchanges[i], exchanges[i + 1 + t], distance(exchanges[i], exchanges[i + 1 + t]), jitter(offset + t), now))
  }

  /** The records of rows 0 .. i-1, in order. */
  function RecordsBefore(exchanges: seq<Exchange>, distance: (Exchange, Exchange) -> real, jitter: nat -> real, now: int, i: nat): seq<LatencyData>
    requires i <= |exchanges|
  {
    if i == 0 then []
    else
      var prev := RecordsBefore(exchanges, distance, jitter, now, i - 1);
      prev + RowRecords(exchanges, distance, jitter, now, i - 1, |exchanges| - i, |prev|)
  }

  /** What `generateLatencyData` returns: the rows of records one after the other. */
  function LatencyRecords(exchanges: seq<Exchange>, distance: (Exchange, Exchange) -> real, jitter: nat -> real, now: int): seq<LatencyData> {
    RecordsBefore(exchanges, distance, jitter, now, |exchanges|)
  }

  /** `generateLatencyData`: for each i, for each j > i, push the record of
      exchanges i and j made with the next random draw. */
  method GenerateLatencyData(exchanges: seq<Exchange>, distance: (Exchange, Exchange) -> real, jitter: nat -> real, now: int)
    returns (data: seq<LatencyData>)
    ensures data == LatencyRecords(exchanges, distance, jitter, now)
  {
    var n := |exchanges|;
    data := [];
    for i := 0 to n
      invariant data == RecordsBefore(exchanges, distance, jitter, now, i)
    {
      ghost var prefix := data;
      for j := i + 1 to n
        invariant data == prefix + RowRecords(exchanges, distance, jitter, now, i, j - i - 1, |prefix|)
      {
        var latency := CalculateLatency(exchanges[i], exchanges[j], distance(exchanges[i], exchanges[j]), jitter(|data|));
        var record := LatencyData(exchanges[i].id, exchanges[j].id, latency, now, GetLatencyColor(latency));
        assert |data| == |prefix| + (j - i - 1);
        assert record == PairRecord(exchanges[i], exchanges[i + 1 + (j - i - 1)], distance(exchanges[i], exchanges[j]), jitter(|prefix| + (j - i - 1)), now);
        assert RowRecords(exchanges, distance, jitter, now, i, j - i, |prefix|) ==
          RowRecords(exchanges, distance, jitter, now, i, j - i - 1, |prefix|) + [record];
        data := data + [record];
      }
    }
  }

  /** Record number k of the rows before `i` is the one of the k-th pair the
      loops visit, made with the k-th random draw. */
  lemma {:induction false} RecordsBeforeFollowPairs(exchanges: seq<Exchange>, distance: (Exchange, Exchange) -> real, jitter: nat -> real, now: int, i: nat)
    requires i <= |exchanges|
    ensures var r, ps := RecordsBefore(exchanges, distance, jitter, now, i), RowsBefore(i, |exchanges|);
      |r| == |ps| && forall k :: 0 <= k < |r| ==> r[k] == RecordOfPair(exchanges, distance, jitter, now, ps[k], k)
  {
    if i > 0 {
      RecordsBeforeFollowPairs(exchanges, distance, jitter, now, i - 1);
      AppendRowFollowsPairs(exchanges, distance, jitter, now, i - 1,
        RecordsBefore(exchanges, distance, jitter, now, i - 1), RowsBefore(i - 1, |exchanges|));
    }
  }

  /** Appending the records of row `i` to records that follow the pairs `ps`
      gives records that follow `ps` followed by that row. */
  lemma AppendRowFollowsPairs(exchanges: seq<Exchange>, distance: (Exchange, Exchange) -> real, jitter: nat -> real, now: int, i: nat,
                              prev: seq<LatencyData>, ps: seq<Pair>)
    requires i < |exchanges|
    requires forall k :: 0 <= k < |ps| ==> ps[k].0 < |exchanges| && ps[k].1 < |exchanges|
    requires |prev| == |ps| && forall k :: 0 <= k < |prev| ==> prev[k] == RecordOfPair(exchanges, distance, jitter, now, ps[k], k)
    ensures var r, qs := prev + RowRecords(exchanges, distance, jitter, now, i, |exchanges| - i - 1, |prev|), ps + Row(i, |exchanges|);
      |r| == |qs| && forall k :: 0 <= k < |r| ==> r[k] == RecordOfPair(exchanges, distance, jitter, now, qs[k], k)
  {
    var n := |exchanges|;
    var row := RowRecords(exchanges, distance, jitter, now, i, n - i - 1, |prev|);
    var r, qs := prev + row, ps + Row(i, n);
    forall k | 0 <= k < |r| ensures r[k] == RecordOfPair(exchanges, distance, jitter, now, qs[k], k) {
      if k < |prev| {
        assert r[k] == prev[k] && qs[k] == ps[k];
      } else {
        RowRecordAt(exchanges, distance, jitter, now, i, n - i - 1, |prev|, k - |prev|);
        assert r[k] == row[k - |prev|] && qs[k] == Row(i, n)[k - |prev|];
      }
    }
  }

  /** Record t of a row is the one of pair (i, i+1+t), made with draw offset + t. */
  lemma RowRecordAt(exchanges: seq<Exchange>, distance: (Exchange, Exchange) -> real, jitter: nat -> real, now: int, i: nat, m: nat, offset: nat, t: nat)
    requires i + m < |exchanges| && t < m
    ensures RowRecords(exchanges, distance, jitter, now, i, m, offset)[t] == RecordOfPair(exchanges, distance, jitter, now, (i, i + 1 + t), offset + t)
  {
  }

  /** Record k of `generateLatencyData` joins the ends of the k-th pair i < j
      the loops visit and is made with the k-th random draw. */
  lemma LatencyRecordsFollowPairs(exchanges: seq<Exchange>, distance: (Exchange, Exchange) -> real, jitter: nat -> real, now: int)
    ensures var r, ps := LatencyRecords(exchanges, distance, jitter, now), AllPairs(|exchanges|);
      |r| == |ps| && forall k :: 0 <= k < |r| ==> r[k] == RecordOfPair(exchanges, distance, jitter, now, ps[k], k)
  {
    RecordsBeforeFollowPairs(exchanges, distance, jitter, now, |exchanges|);
  }

  /** n exchanges give n(n-1)/2 records; record k joins the ends of the k-th
      pair i < j, carries the colour of its latency, at least 5 ms and the
      time of the call. */
  lemma LatencyRecordsShape(exchanges: seq<Exchange>, distance: (Exchange, Exchange) -> real, jitter: nat -> real, now: int)
    ensures var r, ps := LatencyRecords(exchanges, distance, jitter, now), AllPairs(|exchanges|);
      && |r| == |ps| == |exchanges| * (|exchanges| - 1) / 2
      && forall k :: 0 <= k < |r| ==>
           && ps[k].0 < ps[k].1 < |exchanges|
           && r[k].from == exchanges[ps[k].0].id
           && r[k].to == exchanges[ps[k].1].id
           && r[k].color == GetLatencyColor(r[k].latency)
           && r[k].latency >= 5
           && r[k].timestamp == now
  {
    LatencyRecordsFollowPairs(exchanges, distance, jitter, now);
    AllPairsCount(|exchanges|);
  }

  /** With 0 or 1 exchanges there is nothing to pair. */
  lemma FewExchangesNoRecords(exchanges: seq<Exchange>, distance: (Exchange, Exchange) -> real, jitter: nat -> real, now: int)
    requires |exchanges| <= 1
    ensures LatencyRecords(exchanges, distance, jitter, now) == []
  {
    LatencyRecordsFollowPairs(exchanges, distance, jitter, now);
    NoPairsBelowTwo(|exchanges|);
  }

  /** With distinct ids no record joins an exchange to itself, and no unordered
      pair of ids occurs twice, in either direction. */
  lemma NoSelfOrRepeatedPairs(exchanges: seq<Exchange>, distance: (Exchange, Exchange) -> real, jitter: nat -> real, now: int)
    requires DistinctIds(exchanges)
    ensures var r := LatencyRecords(exchanges, distance, jitter, now);
      && (forall k :: 0 <= k < |r| ==> r[k].from != r[k].to)
      && (forall a, b :: 0 <= a < |r| && 0 <= b < |r| && a != b ==>
            (r[a].from, r[a].to) != (r[b].from, r[b].to) && (r[a].from, r[a].to) != (r[b].to, r[b].from))
  {
    var r := LatencyRecords(exchanges, distance, jitter, now);
    var ps := AllPairs(|exchanges|);
    LatencyRecordsShape(exchanges, distance, jitter, now);
    AllPairsSorted(|exchanges|);
    forall a, b | 0 <= a < |r| && 0 <= b < |r| && a != b
      ensures (r[a].from, r[a].to) != (r[b].from, r[b].to) && (r[a].from, r[a].to) != (r[b].to, r[b].from)
    {
      assert ps[a] != ps[b];
    }
  }

  /** With distinct ids, each of the n exchanges is an end of exactly n - 1 records. */
  lemma EachIdInNMinusOneRecords(exchanges: seq<Exchange>, distance: (Exchange, Exchange) -> real, jitter: nat -> real, now: int, x: nat)
    requires DistinctIds(exchanges) && x < |exchanges|
    ensures |Touching(LatencyRecords(exchanges, distance, jitter, now), exchanges[x].id)| == |exchanges| - 1
  {
    var r := LatencyRecords(exchanges, distance, jitter, now);
    var ps := AllPairs(|exchanges|);
    var id := exchanges[x].id;
    LatencyRecordsShape(exchanges, distance, jitter, now);
    assert forall k :: 0 <= k < |r| ==> (r[k].Touches(id) <==> HasEnd(ps[k], x));
    FilterLengthPointwise(r, (d: LatencyData) => d.Touches(id), ps, (p: Pair) => HasEnd(p, x));
    AllPairsTouch(|exchanges|, x);
  }
}
