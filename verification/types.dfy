/** The entities of the dashboard (app/types/index.ts), as values. */
module Types {
  import opened Seqs

  /** The closed set of cloud providers. */
  datatype Provider = AWS | GCP | Azure

  /** The provider's name as the registries spell it. */
  function ProviderName(p: Provider): string {
    match p
    case AWS => "AWS"
    case GCP => "GCP"
    case Azure => "Azure"
  }

  /** An exchange server: where it is and who hosts it. */
  datatype Exchange = Exchange(
    id: string,
    name: string,
    lat: real,
    lon: real,
    location: string,
    provider: Provider,
    region: string,
    color: string)

  /** A cloud region marker drawn on the globe. */
  datatype CloudRegion = CloudRegion(
    id: string,
    provider: Provider,
    region: string,
    lat: real,
    lon: real,
    name: string,
    serverCount: int)

  /** One latency observation between two exchanges, by id. */
  datatype LatencyData = LatencyData(from: string, to: string, latency: int, timestamp: int, color: string)
  {
    /** The observation has the exchange `id` at one of its ends. */
    predicate Touches(id: string) {
      from == id || to == id
    }
  }

  /** One point of the synthetic history. */
  datatype HistoricalPoint = HistoricalPoint(timestamp: int, latency: int, min: int, max: int, avg: int)

  /** The provider selector: every provider, or one of them. */
  datatype ProviderFilter = All | Only(provider: Provider)

  /** The four time ranges of the history chart. */
  datatype TimeRange = OneHour | OneDay | OneWeek | OneMonth

  /** The tag under which a time range travels as a string: '1h', '24h', '7d', '30d'. */
  function TimeRangeTag(t: TimeRange): string {
    match t
    case OneHour => "1h"
    case OneDay => "24h"
    case OneWeek => "7d"
    case OneMonth => "30d"
  }

  /** The UI state that every component reads. */
  datatype AppState = AppState(
    selectedExchange: Option<Exchange>,
    selectedCloudProvider: ProviderFilter,
    searchTerm: string,
    showRealtime: bool,
    showHistorical: bool,
    showRegions: bool,
    darkMode: bool,
    timeRange: TimeRange,
    latencyRange: (int, int))

  /** No two exchanges of the list share an id. */
  predicate DistinctIds(exchanges: seq<Exchange>) {
    forall a, b :: 0 <= a < |exchanges| && 0 <= b < |exchanges| && a != b ==> exchanges[a].id != exchanges[b].id
  }

  /** The observations that have exchange `id` at one end, in order
      (`latencyData.filter(d => d.from === id || d.to === id)`). */
  function Touching(data: seq<LatencyData>, id: string): (r: seq<LatencyData>)
    ensures forall i :: 0 <= i < |r| ==> r[i].Touches(id) && r[i] in data
    ensures forall i :: 0 <= i < |data| && data[i].Touches(id) ==> data[i] in r
  {
    FilterMembers(data, (d: LatencyData) => d.Touches(id));
    Filter(data, (d: LatencyData) => d.Touches(id))
  }

  /** `data.map(d => d.latency)`. */
  function LatencyValues(data: seq<LatencyData>): (r: seq<int>)
    ensures |r| == |data|
  {
    seq(|data|, i requires 0 <= i < |data| => data[i].latency)
  }
}
