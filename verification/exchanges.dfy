/** The exchange registry of app/lib/exchanges.ts and the provider colours,
    with the facts about them that the rest of the dashboard relies on. */
module Exchanges {
  import opened JsMath
  import opened Seqs
  import opened Types
  import LatencySimulator
  import ApiIntegration
  import Heatmap

  /** `EXCHANGES`, in registry order. */
  const EXCHANGES: seq<Exchange> := [
    Exchange("binance-sg", "Binance", 1.3521, 103.8198, "Singapore", AWS, "ap-southeast-1", "#F3BA2F"),
    Exchange("okx-sg", "OKX", 1.3521, 103.8198, "Singapore", AWS, "ap-southeast-1", "#000000"),
    Exchange("deribit-nl", "Deribit", 52.3676, 4.9041, "Amsterdam", GCP, "europe-west4", "#00A4E4"),
    Exchange("bybit-jp", "Bybit", 35.6762, 139.6503, "Tokyo", AWS, "ap-northeast-1", "#F7A600"),
    Exchange("kraken-us", "Kraken", 37.7749, -122.4194, "San Francisco", Azure, "westus2", "#5741D9"),
    Exchange("coinbase-us", "Coinbase", 37.7749, -122.4194, "San Francisco", AWS, "us-west-1", "#0052FF"),
    Exchange("bitfinex-uk", "Bitfinex", 51.5074, -0.1278, "London", GCP, "europe-west2", "#16B157"),
    Exchange("huobi-hk", "Huobi", 22.3193, 114.1694, "Hong Kong", Azure, "eastasia", "#2EACD1"),
    Exchange("gemini-us", "Gemini", 40.7128, -74.0060, "New York", AWS, "us-east-1", "#00DCFA"),
    Exchange("kucoin-sc", "KuCoin", -4.6796, 55.4920, "Seychelles", GCP, "asia-southeast1", "#24AE8F")]

  /** `PROVIDER_COLORS`. */
  const PROVIDER_COLORS: map<Provider, string> := map[AWS := "#FF9900", GCP := "#4285F4", Azure := "#0078D4"]

  /** Ten exchanges with pairwise distinct ids. */
  lemma RegistryDistinct()
    ensures |EXCHANGES| == 10
    ensures DistinctIds(EXCHANGES)
  {
    var sigs := [('b', 'i', 10), ('o', 'k', 6), ('d', 'e', 10), ('b', 'y', 8), ('k', 'r', 9),
                 ('c', 'o', 11), ('b', 'i', 11), ('h', 'u', 8), ('g', 'e', 9), ('k', 'u', 9)];
    forall i | 0 <= i < |EXCHANGES| ensures |EXCHANGES[i].id| >= 2 && Signature(EXCHANGES[i].id) == sigs[i] {
    }
    forall a, b | 0 <= a < |EXCHANGES| && 0 <= b < |EXCHANGES| && a != b ensures EXCHANGES[a].id != EXCHANGES[b].id {
      assert sigs[a] != sigs[b];
    }
  }

  /** The first two letters and the length of an id. */
  function Signature(id: string): (char, char, int)
    requires |id| >= 2
  {
    (id[0], id[1], |id|)
  }

  /** Every exchange has a valid latitude and longitude, so its heat spot lies
      on the canvas. */
  lemma RegistryCoordinates()
    ensures forall i :: 0 <= i < |EXCHANGES| ==>
      -90.0 <= EXCHANGES[i].lat <= 90.0 && -180.0 <= EXCHANGES[i].lon <= 180.0
    ensures forall i :: 0 <= i < |EXCHANGES| ==>
      0.0 <= Heatmap.CanvasX(EXCHANGES[i].lon) <= Heatmap.SIZE && 0.0 <= Heatmap.CanvasY(EXCHANGES[i].lat) <= Heatmap.SIZE
  {
    forall i | 0 <= i < |EXCHANGES| ensures 0.0 <= Heatmap.CanvasX(EXCHANGES[i].lon) <= Heatmap.SIZE && 0.0 <= Heatmap.CanvasY(EXCHANGES[i].lat) <= Heatmap.SIZE {
      Heatmap.CanvasBounds(EXCHANGES[i].lat, EXCHANGES[i].lon);
    }
  }

  /** Every provider has a colour. */
  lemma ProviderColorsComplete()
    ensures forall p: Provider :: p in PROVIDER_COLORS
  {
    forall p: Provider ensures p in PROVIDER_COLORS {
      match p
      case AWS =>
      case GCP =>
      case Azure =>
    }
  }

  /** Every exchange's name is a key of the ping table, so no exchange of the
      registry falls back to the estimate for want of a URL. */
  lemma NamesPinged()
    ensures forall i :: 0 <= i < |EXCHANGES| ==> EXCHANGES[i].name in ApiIntegration.PING_URLS
  {
  }

  /** binance-sg and okx-sg share coordinates and provider, so their distance
      is 0 and their estimate lies from 5 to 10 ms. */
  lemma BinanceOkxColocated(distance: real, r: real)
    requires LatencySimulator.IsDistance(EXCHANGES[0], EXCHANGES[1], distance) && IsUnit(r)
    ensures EXCHANGES[0].id == "binance-sg" && EXCHANGES[1].id == "okx-sg"
    ensures LatencySimulator.SameSite(EXCHANGES[0], EXCHANGES[1]) && EXCHANGES[0].provider == EXCHANGES[1].provider
    ensures distance == 0.0
    ensures 5 <= LatencySimulator.CalculateLatency(EXCHANGES[0], EXCHANGES[1], distance, r) <= 10
  {
    LatencySimulator.ColocatedSameProvider(EXCHANGES[0], EXCHANGES[1], distance, r);
  }

  /** Every id has exactly one '-'. */
  lemma IdsOneDash()
    ensures forall i :: 0 <= i < |EXCHANGES| ==> ApiIntegration.OneDash(EXCHANGES[i].id)
  {
    OneDashAt("binance-sg", 7);
    OneDashAt("okx-sg", 3);
    OneDashAt("deribit-nl", 7);
    OneDashAt("bybit-jp", 5);
    OneDashAt("kraken-us", 6);
    OneDashAt("coinbase-us", 8);
    OneDashAt("bitfinex-uk", 8);
    OneDashAt("huobi-hk", 5);
    OneDashAt("gemini-us", 6);
    OneDashAt("kucoin-sc", 6);
  }

  /** An id whose only '-' is at `p`. */
  lemma OneDashAt(id: string, p: nat)
    requires p < |id| && id[p] == '-'
    requires forall q :: 0 <= q < |id| && q != p ==> id[q] != '-'
    ensures ApiIntegration.OneDash(id)
  {
  }

  /** The registry's latency matrix: 45 records, each exchange at an end of 9. */
  lemma RegistryMatrix(distance: (Exchange, Exchange) -> real, jitter: nat -> real, now: int, x: nat)
    requires x < |EXCHANGES|
    ensures |LatencySimulator.LatencyRecords(EXCHANGES, distance, jitter, now)| == 45
    ensures |Touching(LatencySimulator.LatencyRecords(EXCHANGES, distance, jitter, now), EXCHANGES[x].id)| == 9
  {
    RegistryDistinct();
    LatencySimulator.LatencyRecordsShape(EXCHANGES, distance, jitter, now);
    LatencySimulator.EachIdInNMinusOneRecords(EXCHANGES, distance, jitter, now, x);
  }

  /** `getAllLatencies(EXCHANGES)`: 45 map entries, one per pair, in 9 batches
      with 8 pauses. */
  lemma RegistryAllLatencies(useSimulation: bool, distance: (Exchange, Exchange) -> real, env: nat -> ApiIntegration.CallEnv)
    ensures var pairs := ApiIntegration.PairsOf(EXCHANGES);
      && |pairs| == 45
      && |ApiIntegration.KeyedLatencies(pairs, ApiIntegration.PairLatencies(useSimulation, pairs, distance, env), |pairs|)| == 45
      && |ApiIntegration.Batches(pairs)| == 9
  {
    RegistryDistinct();
    IdsOneDash();
    ApiIntegration.PairsAndPauses(EXCHANGES);
    ApiIntegration.OneEntryPerPair(useSimulation, EXCHANGES, distance, env);
  }
}
