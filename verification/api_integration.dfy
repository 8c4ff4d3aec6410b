/** The latency service of app/lib/apiIntegration.ts: the fallback estimate
    `simulateLatency`, the exchange ping table and its unknown-name fallback,
    the simulation switch, the two-endpoint average, and `getAllLatencies`,
    which pairs the exchanges, works through the pairs five at a time and keys
    each result by the two ids.

    The network is a parameter: a probe either times out or fails (`None`) or
    answers after some milliseconds. The random draws and the haversine
    distance of each call are parameters too. */
module ApiIntegration {
  import opened JsMath
  import opened Seqs
  import opened Types
  import opened Pairs
  import LatencySimulator

  /** `simulateLatency(from?, to?)`: with either end missing a random whole
      number `Math.floor(r * 150) + 10`; otherwise 1 ms per 100 km, a jitter
      of r * 20 - 10, 15 ms between providers, rounded and at least 5. */
  function SimulateLatency(from: Option<Exchange>, to: Option<Exchange>, distance: real, r: real): int {
    if from.None? || to.None? then Floor(r * 150.0) + 10
    else
      var baseLatency := (distance / 100.0) * 1.0;
      var jitter := r * 20.0 - 10.0;
      var providerPenalty := if from.value.provider != to.value.provider then 15.0 else 0.0;
      Max(5, Round(baseLatency + jitter + providerPenalty))
  }

  /** With an end missing the estimate is a whole number from 10 to 159. */
  lemma SimulateMissingRange(from: Option<Exchange>, to: Option<Exchange>, distance: real, r: real)
    requires from.None? || to.None?
    requires IsUnit(r)
    ensures 10 <= SimulateLatency(from, to, distance, r) <= 159
  {
    assert SimulateLatency(from, to, distance, r) == RandomInt(r, 150, 10);
  }

  /** With both ends the estimate is `calculateLatency`'s: at least 5, and
      15 ms higher across providers unless the floor of 5 applies. */
  lemma SimulateMatchesSimulator(from: Exchange, to: Exchange, distance: real, r: real)
    ensures SimulateLatency(Some(from), Some(to), distance, r) == LatencySimulator.CalculateLatency(from, to, distance, r)
    ensures SimulateLatency(Some(from), Some(to), distance, r) >= 5
    ensures var same := SimulateLatency(Some(from), Some(to.(provider := from.provider)), distance, r);
      && (from.provider != to.provider && same > 5 ==> SimulateLatency(Some(from), Some(to), distance, r) == same + 15)
      && (from.provider == to.provider ==> SimulateLatency(Some(from), Some(to), distance, r) == same)
  {
    LatencySimulator.CrossProviderPenalty(from, to, distance, r);
    assert SimulateLatency(Some(from), Some(to.(provider := from.provider)), distance, r) ==
      LatencySimulator.CalculateLatency(from, to.(provider := from.provider), distance, r);
  }

  /** The public endpoint pinged for each exchange name. */
  const PING_URLS: map<string, string> := map[
    "Binance" := "https://api.binance.com/api/v3/ping",
    "OKX" := "https://www.okx.com/api/v5/public/time",
    "Bybit" := "https://api.bybit.com/v2/public/time",
    "Kraken" := "https://api.kraken.com/0/public/Time",
    "Coinbase" := "https://api.coinbase.com/v2/time",
    "Bitfinex" := "https://api-pub.bitfinex.com/v2/platform/status",
    "Huobi" := "https://api.huobi.pro/v1/common/timestamp",
    "Gemini" := "https://api.gemini.com/v1/pubticker/btcusd",
    "KuCoin" := "https://api.kucoin.com/api/v1/timestamp",
    "Deribit" := "https://www.deribit.com/api/v2/public/test"]

  /** The outcome of a ping: the latency and the URL requested, if any. */
  datatype Ping = Ping(latency: int, request: Option<string>)

  /** `pingExchangeAPI(name)`: an unknown name gives the fallback estimate and
      no request; a known one requests its URL and gives the rounded elapsed
      time, or the fallback when the request fails. `elapsed` is what the
      network does with the request, `r` the draw of the fallback. */
  function PingExchangeApi(name: string, elapsed: Option<real>, r: real): (p: Ping)
    ensures name !in PING_URLS ==> p.request.None? && p.latency == SimulateLatency(None, None, 0.0, r)
    ensures name in PING_URLS ==> p.request == Some(PING_URLS[name])
    ensures name in PING_URLS && elapsed.Some? ==> p.latency == Round(elapsed.value)
    ensures name in PING_URLS && elapsed.None? ==> p.latency == SimulateLatency(None, None, 0.0, r)
  {
    if name !in PING_URLS then Ping(SimulateLatency(None, None, 0.0, r), None)
    else
      var apiUrl := PING_URLS[name];
      match elapsed
      case Some(t) => Ping(Round(t), Some(apiUrl))
      case None => Ping(SimulateLatency(None, None, 0.0, r), Some(apiUrl))
  }

  /** A failed or skipped request gives the fallback's 10 to 159 ms. */
  lemma PingFallbackRange(name: string, r: real)
    requires IsUnit(r)
    ensures 10 <= PingExchangeApi(name, None, r).latency <= 159
  {
    SimulateMissingRange(None, None, 0.0, r);
  }

  /** What one `getLatencyBetweenExchanges` call meets: the draw of the
      simulation, the network's answers to the two pings, and the draws of
      their fallbacks. */
  datatype CallEnv = CallEnv(jitter: real, fromElapsed: Option<real>, toElapsed: Option<real>, fromFallback: real, toFallback: real)

  /** `getLatencyBetweenExchanges`: the simulation in simulation mode,
      otherwise the rounded mean of the two pings. */
  function LatencyBetween(useSimulation: bool, from: Exchange, to: Exchange, distance: real, e: CallEnv): int {
    if useSimulation then SimulateLatency(Some(from), Some(to), distance, e.jitter)
    else
      var fromLatency := PingExchangeApi(from.name, e.fromElapsed, e.fromFallback).latency;
      var toLatency := PingExchangeApi(to.name, e.toElapsed, e.toFallback).latency;
      Round((fromLatency + toLatency) as real / 2.0)
  }

  /** In simulation mode the answer is the simulated one (at least 5); otherwise
      it lies between the two ping results. */
  lemma LatencyBetweenModes(useSimulation: bool, from: Exchange, to: Exchange, distance: real, e: CallEnv)
    ensures useSimulation ==> LatencyBetween(useSimulation, from, to, distance, e) == SimulateLatency(Some(from), Some(to), distance, e.jitter) >= 5
    ensures !useSimulation ==>
      var a := PingExchangeApi(from.name, e.fromElapsed, e.fromFallback).latency;
      var b := PingExchangeApi(to.name, e.toElapsed, e.toFallback).latency;
      Min(a, b) <= LatencyBetween(useSimulation, from, to, distance, e) <= Max(a, b)
  {
    if useSimulation {
      SimulateMatchesSimulator(from, to, distance, e.jitter);
    } else {
      var a := PingExchangeApi(from.name, e.fromElapsed, e.fromFallback).latency;
      var b := PingExchangeApi(to.name, e.toElapsed, e.toFallback).latency;
      var mean := (a + b) as real / 2.0;
      RoundMonotone(Min(a, b) as real, mean);
      RoundMonotone(mean, Max(a, b) as real);
      RoundWhole(Min(a, b));
      RoundWhole(Max(a, b));
    }
  }

  /** The map key of a pair: the two ids joined by '-'. */
  function Key(p: (Exchange, Exchange)): string {
    p.0.id + "-" + p.1.id
  }

  /** Pair k of `pairs` is the pair of exchanges at the ends of index pair `ps[k]`. */
  predicate PairsFollow(pairs: seq<(Exchange, Exchange)>, exchanges: seq<Exchange>, ps: seq<Pair>) {
    && |pairs| == |ps|
    && (forall k :: 0 <= k < |ps| ==> ps[k].0 < |exchanges| && ps[k].1 < |exchanges|)
    && (forall k :: 0 <= k < |pairs| ==> pairs[k] == (exchanges[ps[k].0], exchanges[ps[k].1]))
  }

  /** Pushing the next pair keeps `PairsFollow`. */
  lemma PairsFollowSnoc(pairs: seq<(Exchange, Exchange)>, exchanges: seq<Exchange>, ps: seq<Pair>, p: Pair)
    requires PairsFollow(pairs, exchanges, ps)
    requires p.0 < |exchanges| && p.1 < |exchanges|
    ensures PairsFollow(pairs + [(exchanges[p.0], exchanges[p.1])], exchanges, ps + [p])
  {
    var d, q := pairs + [(exchanges[p.0], exchanges[p.1])], ps + [p];
    forall k | 0 <= k < |d| ensures d[k] == (exchanges[q[k].0], exchanges[q[k].1]) {
      if k < |pairs| {
        assert d[k] == pairs[k] && q[k] == ps[k];
      }
    }
  }

  /** The latency of each pair, in pair order: the call for pair k meets `env(k)`. */
  function PairLatencies(useSimulation: bool, pairs: seq<(Exchange, Exchange)>, distance: (Exchange, Exchange) -> real, env: nat -> CallEnv): (lat: seq<int>)
    ensures |lat| == |pairs|
  {
    seq(|pairs|, k requires 0 <= k < |pairs| => LatencyBetween(useSimulation, pairs[k].0, pairs[k].1, distance(pairs[k].0, pairs[k].1), env(k)))
  }

  /** Latency k is the answer of the call for pair k. */
  lemma PairLatencyAt(useSimulation: bool, pairs: seq<(Exchange, Exchange)>, distance: (Exchange, Exchange) -> real, env: nat -> CallEnv, k: nat)
    requires k < |pairs|
    ensures PairLatencies(useSimulation, pairs, distance, env)[k] == LatencyBetween(useSimulation, pairs[k].0, pairs[k].1, distance(pairs[k].0, pairs[k].1), env(k))
  {
  }

  /** The map after the latencies of the first `m` pairs have been set, in
      order, under the pairs' keys. */
  function KeyedLatencies(pairs: seq<(Exchange, Exchange)>, lat: seq<int>, m: nat): map<string, int>
    requires m <= |pairs| == |lat|
  {
    SetInOrder(PairKeys(pairs), lat, m)
  }

  /** The batches `pairs.slice(i, i + 5)` for i = start, start + 5, ... */
  function BatchesFrom<T>(pairs: seq<T>, start: nat): seq<seq<T>>
    decreases |pairs| - start
  {
    if start >= |pairs| then []
    else [pairs[start..Min(start + 5, |pairs|)]] + BatchesFrom(pairs, start + 5)
  }

  /** The batches of `getAllLatencies`. */
  function Batches<T>(pairs: seq<T>): seq<seq<T>> {
    BatchesFrom(pairs, 0)
  }

  /** The batches one after the other. */
  function Flatten<T>(batches: seq<seq<T>>): seq<T> {
    if batches == [] then [] else batches[0] + Flatten(batches[1..])
  }

  /** The batches from `start` cover `pairs[start..]` in order, each holding
      one to five pairs, and there are ceil((P - start) / 5) of them. */
  lemma {:induction false} BatchesFromCover<T>(pairs: seq<T>, start: nat)
    requires start <= |pairs|
    ensures Flatten(BatchesFrom(pairs, start)) == pairs[start..]
    ensures forall b :: 0 <= b < |BatchesFrom(pairs, start)| ==> 1 <= |BatchesFrom(pairs, start)[b]| <= 5
    ensures |BatchesFrom(pairs, start)| == (|pairs| - start + 4) / 5
    decreases |pairs| - start
  {
    var bs := BatchesFrom(pairs, start);
    if start < |pairs| {
      var next := Min(start + 5, |pairs|);
      BatchesFromCover(pairs, next);
      assert BatchesFrom(pairs, start + 5) == BatchesFrom(pairs, next);
      assert bs[1..] == BatchesFrom(pairs, next);
      assert pairs[start..] == pairs[start..next] + pairs[next..];
    }
  }

  /** The batches are consecutive slices of at most five pairs that together
      are all the pairs, in order; there are ceil(P / 5) of them. */
  lemma BatchesCover<T>(pairs: seq<T>)
    ensures Flatten(Batches(pairs)) == pairs
    ensures forall b :: 0 <= b < |Batches(pairs)| ==> 1 <= |Batches(pairs)[b]| <= 5
    ensures |Batches(pairs)| == (|pairs| + 4) / 5
  {
    BatchesFromCover(pairs, 0);
  }

  /** Every id has exactly one '-' in it (as 'binance-sg' does). */
  predicate OneDash(id: string) {
    exists p :: 0 <= p < |id| && id[p] == '-' && forall q :: 0 <= q < |id| && id[q] == '-' ==> q == p
  }

  /** With ids of one '-' each, a key names its pair: equal keys mean equal ids. */
  lemma KeyInjective(a: string, b: string, c: string, d: string)
    requires OneDash(a) && OneDash(b) && OneDash(c) && OneDash(d)
    requires a + "-" + b == c + "-" + d
    ensures a == c && b == d
  {
    assert (a + "-" + b)[..|a| + 1] == a + "-";
    assert (c + "-" + d)[..|c| + 1] == c + "-";
    assert (a + "-" + b)[..|a|] == a && (c + "-" + d)[..|c|] == c;
    var k := a + "-" + b;
    if |a| < |c| {
      DashInside(a, c, k);
    } else if |c| < |a| {
      DashInside(c, a, k);
    } else {
      assert a == k[..|a|] == c;
      assert b == k[|a| + 1..] == d;
    }
  }

  /** If `k` starts with `short + "-"` and with a longer `long` of one '-',
      `short` has no '-'. */
  lemma DashInside(short: string, long: string, k: string)
    requires OneDash(long) && |short| < |long| <= |k|
    requires k[..|short| + 1] == short + "-" && k[..|long|] == long
    ensures forall q :: 0 <= q < |short| ==> short[q] != '-'
  {
    assert long[|short|] == k[..|long|][|short|] == k[..|short| + 1][|short|] == '-';
    forall q | 0 <= q < |short| ensures short[q] != '-' {
      assert short[q] == k[..|short| + 1][q] == k[q] == k[..|long|][q] == long[q];
    }
  }

  /** The service: the switch between simulation and real pings. */
  class LatencyApiService {
    var useSimulation: bool

    /** The singleton starts in simulation mode. */
    constructor ()
      ensures useSimulation
    {
      useSimulation := true;
    }

    /** `setUseSimulation`. */
    method SetUseSimulation(useSimulation: bool)
      modifies this
      ensures this.useSimulation == useSimulation
    {
      this.useSimulation := useSimulation;
    }

    /** `getLatencyBetweenExchanges` in the current mode. */
    method GetLatencyBetweenExchanges(from: Exchange, to: Exchange, distance: real, e: CallEnv) returns (latency: int)
      ensures latency == LatencyBetween(useSimulation, from, to, distance, e)
    {
      latency := LatencyBetween(useSimulation, from, to, distance, e);
    }

    /** `pairs.slice(start, start + 5)` and `Promise.all(batch.map(...))`: the
        key and the latency of each pair of the batch, in batch order; the
        call for pair k meets `env(k)`. */
    method FetchBatch(pairs: seq<(Exchange, Exchange)>, start: nat, distance: (Exchange, Exchange) -> real, env: nat -> CallEnv)
      returns (results: seq<(string, int)>)
      requires start <= |pairs|
      ensures |results| == Min(start + 5, |pairs|) - start
      ensures forall u :: 0 <= u < |results| ==>
        results[u] == (Key(pairs[start + u]), PairLatencies(useSimulation, pairs, distance, env)[start + u])
    {
      var batch := pairs[start..Min(start + 5, |pairs|)];
      results := [];
      for t := 0 to |batch|
        invariant |results| == t
        invariant forall u :: 0 <= u < t ==>
          results[u] == (Key(pairs[start + u]), PairLatencies(useSimulation, pairs, distance, env)[start + u])
      {
        var latency := GetLatencyBetweenExchanges(batch[t].0, batch[t].1, distance(batch[t].0, batch[t].1), env(start + t));
        assert batch[t] == pairs[start + t];
        PairLatencyAt(useSimulation, pairs, distance, env, start + t);
        results := results + [(Key(batch[t]), latency)];
      }
    }

    /** The pair loops of `getAllLatencies`: every pair i < j, in loop order. */
    method MakePairs(exchanges: seq<Exchange>) returns (pairs: seq<(Exchange, Exchange)>)
      ensures PairsFollow(pairs, exchanges, AllPairs(|exchanges|))
    {
      var n := |exchanges|;
      pairs := [];
      for i := 0 to n
        invariant PairsFollow(pairs, exchanges, RowsBefore(i, n))
      {
        ghost var before := RowsBefore(i, n);
        var row := Row(i, n);
        for j := i + 1 to n
          invariant PairsFollow(pairs, exchanges, before + row[..j - i - 1])
        {
          PairsFollowSnoc(pairs, exchanges, before + row[..j - i - 1], (i, j));
          assert row[..j - i] == row[..j - i - 1] + [(i, j)];
          assert before + row[..j - i] == before + row[..j - i - 1] + [(i, j)];
          pairs := pairs + [(exchanges[i], exchanges[j])];
        }
        assert row[..n - i - 1] == row;
      }
    }

    /** `getAllLatencies`: the pairs, then batches of five whose results are
        set under their keys in pair order, with a pause after every batch
        but the last. Call number k (pair k) meets `env(k)`. */
    method GetAllLatencies(exchanges: seq<Exchange>, distance: (Exchange, Exchange) -> real, env: nat -> CallEnv)
      returns (latencies: map<string, int>, pauses: nat)
      ensures var pairs := PairsOf(exchanges);
        && latencies == KeyedLatencies(pairs, PairLatencies(useSimulation, pairs, distance, env), |pairs|)
        && pauses == (if |pairs| == 0 then 0 else |Batches(pairs)| - 1)
    {
      var pairs := MakePairs(exchanges);
      PairsOfFollow(exchanges, pairs);
      latencies, pauses := FetchAll(pairs, distance, env);
    }

    /** The batch loop of `getAllLatencies` over its pair list `pairs`. */
    method FetchAll(pairs: seq<(Exchange, Exchange)>, distance: (Exchange, Exchange) -> real, env: nat -> CallEnv)
      returns (latencies: map<string, int>, pauses: nat)
      ensures latencies == KeyedLatencies(pairs, PairLatencies(useSimulation, pairs, distance, env), |pairs|)
      ensures pauses == (if |pairs| == 0 then 0 else |Batches(pairs)| - 1)
    {
      latencies := map[];
      pauses := 0;
      ghost var lat := PairLatencies(useSimulation, pairs, distance, env);
      var batchSize := 5;
      var i := 0;
      ghost var b := 0;
      while i < |pairs|
        invariant i == 5 * b && (b == 0 || i - 5 < |pairs|)
        invariant latencies == KeyedLatencies(pairs, lat, Min(i, |pairs|))
        invariant pauses == (if b == 0 then 0 else b - 1 + (if i < |pairs| then 1 else 0))
        decreases |pairs| - i
      {
        var results := FetchBatch(pairs, i, distance, env);
        latencies := SetResults(pairs, lat, i, results, latencies);
        if i + batchSize < |pairs| {
          pauses := pauses + 1;
        }
        i := i + batchSize;
        b := b + 1;
      }
      BatchCount(pairs, i, b);
    }
  }

  /** After `b` batches of five, ending at or past the last pair, `b` is the
      number of batches. */
  lemma BatchCount<T>(pairs: seq<T>, i: nat, b: nat)
    requires i == 5 * b && (b == 0 || i - 5 < |pairs|) && i >= |pairs|
    ensures b == |Batches(pairs)|
  {
    BatchesCover(pairs);
  }

  /** `results.forEach(({key, latency}) => latencies.set(key, latency))` for
      the batch starting at pair `start`: the map grows from the first
      `start` pairs' latencies to the first `start + |results|`. */
  method SetResults(ghost pairs: seq<(Exchange, Exchange)>, ghost lat: seq<int>, ghost start: nat, results: seq<(string, int)>, latencies: map<string, int>)
    returns (updated: map<string, int>)
    requires start + |results| <= |pairs| == |lat|
    requires forall u :: 0 <= u < |results| ==> results[u] == (Key(pairs[start + u]), lat[start + u])
    requires latencies == KeyedLatencies(pairs, lat, start)
    ensures updated == KeyedLatencies(pairs, lat, start + |results|)
  {
    updated := latencies;
    for t := 0 to |results|
      invariant updated == KeyedLatencies(pairs, lat, start + t)
    {
      updated := updated[results[t].0 := results[t].1];
    }
  }

  /** The pairs `getAllLatencies` builds, as a value. */
  function PairsOf(exchanges: seq<Exchange>): (pairs: seq<(Exchange, Exchange)>)
    ensures PairsFollow(pairs, exchanges, AllPairs(|exchanges|))
  {
    var ps := AllPairs(|exchanges|);
    seq(|ps|, k requires 0 <= k < |ps| => (exchanges[ps[k].0], exchanges[ps[k].1]))
  }

  /** `PairsFollow` fixes the pairs. */
  lemma PairsOfFollow(exchanges: seq<Exchange>, pairs: seq<(Exchange, Exchange)>)
    requires PairsFollow(pairs, exchanges, AllPairs(|exchanges|))
    ensures pairs == PairsOf(exchanges)
  {
  }

  /** n exchanges give n(n-1)/2 pairs i < j and ceil(P / 5) - 1 pauses. */
  lemma PairsAndPauses(exchanges: seq<Exchange>)
    ensures |PairsOf(exchanges)| == |exchanges| * (|exchanges| - 1) / 2
    ensures forall k :: 0 <= k < |PairsOf(exchanges)| ==> AllPairs(|exchanges|)[k].0 < AllPairs(|exchanges|)[k].1
    ensures |Batches(PairsOf(exchanges))| == (|PairsOf(exchanges)| + 4) / 5
  {
    AllPairsCount(|exchanges|);
    BatchesCover(PairsOf(exchanges));
  }

  /** The map after `values[k]` has been set under `keys[k]` for k < m, in order. */
  function SetInOrder(keys: seq<string>, values: seq<int>, m: nat): map<string, int>
    requires m <= |keys| == |values|
  {
    if m == 0 then map[] else SetInOrder(keys, values, m - 1)[keys[m - 1] := values[m - 1]]
  }

  /** A key is in the map iff one of the first `m` keys is it. */
  lemma {:induction false} SetInOrderKeys(keys: seq<string>, values: seq<int>, m: nat)
    requires m <= |keys| == |values|
    ensures forall key :: key in SetInOrder(keys, values, m) <==> exists k :: 0 <= k < m && keys[k] == key
  {
    if m > 0 {
      SetInOrderKeys(keys, values, m - 1);
    }
  }

  /** With distinct keys the map has `m` entries, the one of key k holding value k. */
  lemma {:induction false} SetInOrderDistinct(keys: seq<string>, values: seq<int>, m: nat)
    requires m <= |keys| == |values|
    requires forall a, b :: 0 <= a < b < |keys| ==> keys[a] != keys[b]
    ensures |SetInOrder(keys, values, m)| == m
    ensures forall k :: 0 <= k < m ==> keys[k] in SetInOrder(keys, values, m) && SetInOrder(keys, values, m)[keys[k]] == values[k]
  {
    if m > 0 {
      SetInOrderDistinct(keys, values, m - 1);
      SetInOrderKeys(keys, values, m - 1);
      var prev := SetInOrder(keys, values, m - 1);
      assert keys[m - 1] !in prev;
      forall k | 0 <= k < m - 1 ensures SetInOrder(keys, values, m)[keys[k]] == values[k] {
        assert keys[k] != keys[m - 1];
      }
    }
  }

  /** The keys of the pairs, in pair order. */
  function PairKeys(pairs: seq<(Exchange, Exchange)>): (keys: seq<string>)
    ensures |keys| == |pairs|
    ensures forall k :: 0 <= k < |pairs| ==> keys[k] == Key(pairs[k])
  {
    seq(|pairs|, k requires 0 <= k < |pairs| => Key(pairs[k]))
  }

  /** A key is in the map iff one of the first `m` pairs has it. */
  lemma KeyedLatenciesKeys(pairs: seq<(Exchange, Exchange)>, lat: seq<int>, m: nat)
    requires m <= |pairs| == |lat|
    ensures forall key :: key in KeyedLatencies(pairs, lat, m) <==> exists k :: 0 <= k < m && Key(pairs[k]) == key
  {
    SetInOrderKeys(PairKeys(pairs), lat, m);
  }

  /** With distinct keys the map of the first `m` pairs has `m` entries, the
      one of pair k holding latency k. */
  lemma KeyedLatenciesDistinct(pairs: seq<(Exchange, Exchange)>, lat: seq<int>, m: nat)
    requires m <= |pairs| == |lat|
    requires forall a, b :: 0 <= a < b < |pairs| ==> Key(pairs[a]) != Key(pairs[b])
    ensures |KeyedLatencies(pairs, lat, m)| == m
    ensures forall k :: 0 <= k < m ==> Key(pairs[k]) in KeyedLatencies(pairs, lat, m) && KeyedLatencies(pairs, lat, m)[Key(pairs[k])] == lat[k]
  {
    SetInOrderDistinct(PairKeys(pairs), lat, m);
  }

  /** With distinct ids of one '-' each, the map of `getAllLatencies` has one
      entry per pair: n(n-1)/2 entries, the one of pair k holding the answer
      of the call for pair k. */
  lemma OneEntryPerPair(useSimulation: bool, exchanges: seq<Exchange>, distance: (Exchange, Exchange) -> real, env: nat -> CallEnv)
    requires DistinctIds(exchanges)
    requires forall i :: 0 <= i < |exchanges| ==> OneDash(exchanges[i].id)
    ensures var pairs := PairsOf(exchanges);
      var m := KeyedLatencies(pairs, PairLatencies(useSimulation, pairs, distance, env), |pairs|);
      && |m| == |exchanges| * (|exchanges| - 1) / 2
      && forall k :: 0 <= k < |pairs| ==>
           Key(pairs[k]) in m && m[Key(pairs[k])] == LatencyBetween(useSimulation, pairs[k].0, pairs[k].1, distance(pairs[k].0, pairs[k].1), env(k))
  {
    var pairs := PairsOf(exchanges);
    AllPairsCount(|exchanges|);
    PairKeysDistinct(exchanges);
    KeyedLatenciesDistinct(pairs, PairLatencies(useSimulation, pairs, distance, env), |pairs|);
    forall k | 0 <= k < |pairs| ensures PairLatencies(useSimulation, pairs, distance, env)[k] ==
      LatencyBetween(useSimulation, pairs[k].0, pairs[k].1, distance(pairs[k].0, pairs[k].1), env(k)) {
      PairLatencyAt(useSimulation, pairs, distance, env, k);
    }
  }

  /** With distinct ids of one '-' each, no two pairs share a key. */
  lemma PairKeysDistinct(exchanges: seq<Exchange>)
    requires DistinctIds(exchanges)
    requires forall i :: 0 <= i < |exchanges| ==> OneDash(exchanges[i].id)
    ensures var pairs := PairsOf(exchanges);
      forall a, b :: 0 <= a < b < |pairs| ==> Key(pairs[a]) != Key(pairs[b])
  {
    var pairs := PairsOf(exchanges);
    var ps := AllPairs(|exchanges|);
    AllPairsSorted(|exchanges|);
    forall a, b | 0 <= a < b < |pairs| ensures Key(pairs[a]) != Key(pairs[b]) {
      assert ps[a] != ps[b];
      if Key(pairs[a]) == Key(pairs[b]) {
        KeyInjective(pairs[a].0.id, pairs[a].1.id, pairs[b].0.id, pairs[b].1.id);
      }
    }
  }
}
