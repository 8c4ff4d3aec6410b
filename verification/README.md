# Latency Topology Visualizer — a Dafny model of its data logic

The Latency Topology Visualizer is a Next.js dashboard. It draws crypto exchange servers on a 3D globe, joins them with latency lines, overlays a latency heat map, marks cloud regions and charts a synthetic latency history. Underneath the rendering is a small pipeline of list and integer logic. This project models that pipeline in Dafny and proves what the code promises about it:

- **Latency simulator** (`app/lib/latencySimulator.ts`):
  - the estimate `calculateLatency`, with its 5 ms floor and 15 ms cross-provider penalty;
  - the colour scale `getLatencyColor`;
  - the matrix builder `generateLatencyData`. Its nested `for` loops are a Dafny method proved to produce one record per index pair i < j, in row-major order.
- **History generator** (`app/hooks/useHistoricalData.ts`): the point count and spacing of each time range, and the count-down loop that pushes `points + 1` points. The arithmetic relations between each point's four figures are proved.
- **Globe selection** (`app/components/Globe3D.tsx`):
  - the `filteredExchanges`, `visibleLatencyData` and `filteredRegions` filters;
  - the lookup of a record's two exchanges, which skips records that name an unknown exchange.
- **Statistics panel** (`app/components/StatsPanel.tsx`): the panel's copy of the list filter, and the average, minimum and maximum of the records touching the selected exchange. This includes the empty cases: `|| 0`, and `Math.min()` of nothing being Infinity.
- **History chart** (`app/components/HistoricalChart.tsx`): `formattedData`, the CSV text of `handleExport` with a proved parse-back round trip, and the four summary figures.
- **Heat map** (`app/components/HeatmapOverlay.tsx`): the `forEach` that fills the per-exchange mean map, the `|| 50` default, the colour/opacity if-chain and the canvas coordinates. The spot colours are proved to be `getLatencyColor`'s colours written as `r, g, b`.
- **UI store** (`app/store/useStore.ts`): a class with the nine fields, the initial state and one method per setter or toggle. Each method is proved to perform `Apply` of its action, and the frame, toggle and overwrite laws are lemmas about `Apply`.
- **Mock endpoint** (`app/api/latency/route.ts`): `generateMockLatency`'s nested loops over five fixed ids, and the success envelope of `GET`.
- **Latency service** (`app/lib/apiIntegration.ts`):
  - `simulateLatency`;
  - the ping table with its unknown-name fallback;
  - the `useSimulation` switch and the two-endpoint average;
  - `getAllLatencies`: the pair loops, the batches of five, the keyed map and the pause count.
- **Registries** (`app/lib/exchanges.ts`, `app/lib/cloudRegions.ts`): the constant tables and the facts the rest relies on (counts, distinct ids, valid coordinates, id spelling).

Helper modules hold what several source files share:

- `JsMath`: `Math.round` as floor(x + 0.5), `Math.floor`, `Math.random() * n` scaled to an integer, and `Math.min`/`Math.max` spread over an array, whose empty case gives ±Infinity.
- `Seqs`: `Array.filter`, `Array.find` and a flat map.
- `Text`: `join`, `split`, `String(n)`, `parseInt`, `toLowerCase` and `includes`.
- `Pairs`: the i < j enumeration that three nested loop pairs of the source share.
- `Types`: the shapes of `app/types/index.ts`.

How non-deterministic inputs are modelled:

- Every `Math.random()` draw is an input: a real in [0, 1), or a function from the draw's number to such a real.
- `Date.now()` is an integer input.
- The haversine distance is a real input. It is known only to be non-negative, and 0 for two exchanges at the same coordinates.
- A network probe is an `Option<real>`: `None` when the request fails, otherwise the elapsed milliseconds.
- `toISOString` and date-fns `format` are function parameters.

Where the description of the system and the code disagree, the model follows the code:

- The matrix builder emits one record per unordered pair (i < j), not both directions. The registry therefore gives 45 records, not 90.
- The fallback `Math.floor(Math.random() * 150) + 10` gives 10 to 159, not 10 to 160.
- `exchangeLatencies.get(id) || 50` also turns a mean of exactly 0 into 50. `SpotLatency` models that.

## Model

| member | source | states |
|---|---|---|
| JsMath.Round | app/lib/latencySimulator.ts:24 | `Math.round`: the result is the whole number within half of x, with halves going up |
| JsMath.Floor | app/api/latency/route.ts:31 | `Math.floor`: the greatest whole number not above x |
| JsMath.RoundMonotone | app/hooks/useHistoricalData.ts:22-25 | rounding never reverses the order of two numbers |
| JsMath.RoundShift | app/hooks/useHistoricalData.ts:23-24 | rounding x + k for whole k is rounding x, plus k |
| JsMath.RoundWhole | app/lib/apiIntegration.ts:139 | a whole number rounds to itself |
| JsMath.RandomInt | app/api/latency/route.ts:31 | `Math.floor(r * span) + low` for r in [0, 1) lies in [low, low + span) |
| JsMath.MinSpread | app/components/StatsPanel.tsx:35-41 | `Math.min(...xs)`: Infinity exactly for the empty array, otherwise an element of xs no greater than any element |
| JsMath.MaxSpread | app/components/StatsPanel.tsx:43-49 | `Math.max(...xs)`: -Infinity exactly for the empty array, otherwise an element of xs no smaller than any element |
| JsMath.SumBounds | app/components/StatsPanel.tsx:28-30 | the sum of n values within [lo, hi] lies within [n·lo, n·hi] |
| JsMath.MeanWithin | app/components/HistoricalChart.tsx:124 | the mean of values within [lo, hi] lies within [lo, hi] |
| JsMath.MeanBetween | app/components/HeatmapOverlay.tsx:47 | the mean of a non-empty array lies between its `Math.min` and `Math.max`, both finite |
| JsMath.RoundedMeanBetween | app/components/StatsPanel.tsx:26-49 | the rounded mean of a non-empty array lies between its `Math.min` and `Math.max` |
| Seqs.Filter | app/components/Globe3D.tsx:366-374 | `Array.filter`: no longer than the input, and every element kept passes the predicate |
| Seqs.FilterMembers | app/components/Globe3D.tsx:366-374 | an element of the input that passes is kept, every kept element comes from the input, and the order is kept |
| Seqs.FilterAll | app/components/Globe3D.tsx:365-375 | a predicate that every element passes keeps the whole list |
| Seqs.FilterExtensional | app/components/StatsPanel.tsx:16-24 | two callbacks that agree on every element filter to the same list |
| Seqs.Find | app/components/Globe3D.tsx:437-438 | `Array.find`: undefined exactly when no element passes, otherwise the first element that passes |
| Text.Split | app/components/HistoricalChart.tsx:32-33 | splitting on a separator gives at least one part and no part holds the separator |
| Text.SplitJoin | app/components/HistoricalChart.tsx:32-33 | splitting `join(parts, sep)` on sep gives back the parts when none holds sep |
| Text.JoinAvoids | app/components/HistoricalChart.tsx:32-33 | a character missing from every part and different from the separator is missing from the join |
| Text.JoinLastChar | app/components/HistoricalChart.tsx:33 | a join ends with the last character of its last part, so no separator is left trailing |
| Text.IntToString | app/components/HistoricalChart.tsx:26-29 | `String(n)` is non-empty and made of digits and '-' only |
| Text.ParseIntToString | app/components/HistoricalChart.tsx:26-29 | reading `String(n)` back as a whole number gives n |
| Text.Includes | app/components/Globe3D.tsx:370 | `includes` holds exactly when the needle occurs at some position of the text |
| Types.Touching | app/components/StatsPanel.tsx:29 | the records with `id` at either end: every kept record touches `id` and comes from the input, and every touching record is kept |
| Pairs.RowsBefore | app/lib/latencySimulator.ts:37-38 | the pairs of the first i outer iterations start below i and satisfy first < second < n |
| Pairs.RowsBeforeLength | app/lib/latencySimulator.ts:37-38 | the first i outer iterations visit i(2n−1−i)/2 pairs |
| Pairs.AllPairs | app/lib/latencySimulator.ts:37-38 | every visited pair satisfies i < j < n |
| Pairs.AllPairsCount | app/lib/latencySimulator.ts:37-38 | the loops visit n(n−1)/2 pairs |
| Pairs.AllPairsSorted | app/lib/latencySimulator.ts:37-38 | the pairs come in row-major order, so none is visited twice |
| Pairs.AllPairsExactlyOnce | app/lib/latencySimulator.ts:37-38 | every pair x < y < n is visited exactly once |
| Pairs.RowTouches | app/lib/latencySimulator.ts:38 | row r of the inner loop touches index x n−1−r times if r = x, once if r < x, otherwise never |
| Pairs.RowsTouch | app/lib/latencySimulator.ts:37-38 | the first i rows touch index x i times if i ≤ x, otherwise n−1 times |
| Pairs.AllPairsTouch | app/lib/latencySimulator.ts:37-38 | each index x < n is an end of exactly n−1 pairs |
| Pairs.NoPairsBelowTwo | app/lib/latencySimulator.ts:37-38 | with fewer than two items there are no pairs |
| LatencySimulator.CalculateLatency | app/lib/latencySimulator.ts:3-25 | the estimate is never below 5 ms |
| LatencySimulator.CalculateLatencyNearest | app/lib/latencySimulator.ts:20-24 | the estimate is 5 exactly when distance/100 + jitter + penalty is below 5.5, and otherwise the whole number nearest to that sum |
| LatencySimulator.CrossProviderPenalty | app/lib/latencySimulator.ts:22-24 | same providers pay no penalty; different providers pay exactly 15 ms more than the same pair on one provider, unless the 5 ms floor hides it |
| LatencySimulator.ColocatedSameProvider | app/lib/latencySimulator.ts:3-25 | two exchanges at one site on one provider get 5 to 10 ms |
| LatencySimulator.GetLatencyColor | app/lib/latencySimulator.ts:27-32 | `getLatencyColor` is the colour of the latency's band |
| LatencySimulator.GetLatencyColorBands | app/lib/latencySimulator.ts:27-32 | each colour is given exactly on its band: below 50, 50–99, 100–149, 150 and above |
| LatencySimulator.SeverityMonotone | app/lib/latencySimulator.ts:27-32 | a larger latency never gets a less severe band |
| LatencySimulator.RowRecords | app/lib/latencySimulator.ts:38 | the first m records of one row number m |
| LatencySimulator.GenerateLatencyData | app/lib/latencySimulator.ts:34-51 | the nested loops push exactly `LatencyRecords`, the rows of records one after another |
| LatencySimulator.RecordsBeforeFollowPairs | app/lib/latencySimulator.ts:37-46 | record k of the first i rows belongs to the k-th visited pair and is made with the k-th random draw |
| LatencySimulator.AppendRowFollowsPairs | app/lib/latencySimulator.ts:38-46 | one more inner loop appends the records of its row's pairs, in order |
| LatencySimulator.LatencyRecordsFollowPairs | app/lib/latencySimulator.ts:34-51 | record k of the output belongs to the k-th pair i < j and is made with draw k |
| LatencySimulator.LatencyRecordsShape | app/lib/latencySimulator.ts:34-51 | n(n−1)/2 records; record k goes from exchange i to exchange j of pair k, has the colour of its latency, at least 5 ms, and the call's timestamp |
| LatencySimulator.FewExchangesNoRecords | app/lib/latencySimulator.ts:37-38 | 0 or 1 exchanges give no records |
| LatencySimulator.NoSelfOrRepeatedPairs | app/lib/latencySimulator.ts:37-41 | with distinct ids no record joins an exchange to itself and no unordered pair occurs twice in either direction |
| LatencySimulator.EachIdInNMinusOneRecords | app/lib/latencySimulator.ts:37-48 | with distinct ids each of the n exchanges is an end of exactly n−1 records |
| HistoricalData.PointCount | app/hooks/useHistoricalData.ts:9 | the point count is 12, 24, 168 or 720 |
| HistoricalData.Interval | app/hooks/useHistoricalData.ts:10 | the interval is 5 minutes or 1 hour |
| HistoricalData.HistoricalSeries | app/hooks/useHistoricalData.ts:15 | the history has points + 1 points |
| HistoricalData.GenerateData | app/hooks/useHistoricalData.ts:8-27 | the count-down loop pushes exactly `HistoricalSeries`, point t being the one `points − t` intervals before now |
| HistoricalData.SeriesTimestamps | app/hooks/useHistoricalData.ts:15-16 | the timestamps run from now − points·interval to now, each exactly one interval after the previous one |
| HistoricalData.SeriesSpan | app/hooks/useHistoricalData.ts:9-16 | '1h', '24h' and '7d' give 13, 25 and 169 points spanning 1 h, 24 h and 7 days; any other tag gives 721 points over 30 days |
| HistoricalData.MakePointBounds | app/hooks/useHistoricalData.ts:17-25 | for draws in [0, 1): avg in [50, 100], avg ≤ latency ≤ avg + 30, min = avg − 10, max = latency + 20 |
| HistoricalData.SeriesBounds | app/hooks/useHistoricalData.ts:15-27 | every point of the history keeps those bounds |
| Globe.FilteredExchanges | app/components/Globe3D.tsx:365-375 | every kept exchange is listed and admitted by both filters, every admitted exchange is kept, and the order is kept |
| Globe.FilteredExchangesExactly | app/components/Globe3D.tsx:366-374 | a listed exchange is shown exactly when the provider filter and the search term both admit it |
| Globe.FilteredExchangesUnfiltered | app/components/Globe3D.tsx:367-373 | with 'all' and an empty term the whole list is shown |
| Globe.VisibleLatencyData | app/components/Globe3D.tsx:378-386 | empty without a selection or with real-time off; otherwise exactly the records touching the selection with latency in the range, bounds included, in order |
| Globe.FilteredRegions | app/components/Globe3D.tsx:388-393 | empty with regions hidden; otherwise exactly the regions the provider filter admits, in order |
| Globe.FilteredRegionsUnfiltered | app/components/Globe3D.tsx:388-393 | regions shown and 'all' selected: every region is drawn |
| Globe.Resolve | app/components/Globe3D.tsx:437-438 | the found exchange is listed and has the id; nothing is found exactly when no listed exchange has it |
| Globe.Line | app/components/Globe3D.tsx:436-445 | one line for a record exactly when both ends resolve, joining the two listed exchanges it names; otherwise none |
| Globe.Connections | app/components/Globe3D.tsx:436 | there are no more lines than visible records |
| Globe.ConnectionsMembers | app/components/Globe3D.tsx:436-445 | every line belongs to a visible record and joins the listed exchanges named by its `from` and `to` |
| Globe.ConnectionsAppend | app/components/Globe3D.tsx:436 | the lines of two runs of records are the lines of each run, in order |
| Globe.UnresolvedSkipped | app/components/Globe3D.tsx:439 | a record naming an unlisted exchange draws nothing: removing it changes no line |
| Globe.AllResolvedDrawn | app/components/Globe3D.tsx:437-439 | when every record resolves, every record draws a line |
| StatsPanel.SameListAsGlobe | app/components/StatsPanel.tsx:16-24 | the panel lists exactly the exchanges the globe shows, in the same order |
| StatsPanel.QuotientOrZero | app/components/StatsPanel.tsx:30-31 | `a / b \|\| 0`: 0 for b = 0, otherwise the quotient |
| StatsPanel.AvgLatency | app/components/StatsPanel.tsx:26-33 | 0 without a selection or without touching records; otherwise the rounded mean of the touching latencies |
| StatsPanel.MinLatency | app/components/StatsPanel.tsx:35-41 | 0 without a selection; Infinity exactly when no record touches the selection; otherwise the least touching latency |
| StatsPanel.MaxLatency | app/components/StatsPanel.tsx:43-49 | 0 without a selection; -Infinity exactly when no record touches the selection; otherwise the greatest touching latency |
| StatsPanel.MinAvgMaxOrdered | app/components/StatsPanel.tsx:26-49 | with touching records, min ≤ avg ≤ max, all finite |
| StatsPanel.NoSelectionAllZero | app/components/StatsPanel.tsx:26-49 | with no selection all three figures are 0 |
| HistoricalChart.FormattedData | app/components/HistoricalChart.tsx:13 | one plotted point per history point |
| HistoricalChart.FormattedDataKeepsFigures | app/components/HistoricalChart.tsx:13-19 | the same length and the same four figures; only the time is rendered, with 'HH:mm' for '1h' and 'MMM dd HH:mm' otherwise |
| HistoricalChart.CsvRows | app/components/HistoricalChart.tsx:22-24 | the header row, then one row per point |
| HistoricalChart.CsvLines | app/components/HistoricalChart.tsx:32 | points + 1 lines |
| HistoricalChart.HeaderLine | app/components/HistoricalChart.tsx:23 | the first line is exactly `Timestamp,Latency,Min,Max,Average` |
| HistoricalChart.IntTextSafe | app/components/HistoricalChart.tsx:26-29 | a number's text holds neither ',' nor '\n' |
| HistoricalChart.RowRoundTrip | app/components/HistoricalChart.tsx:24-32 | a data line splits into exactly five fields that parse back to the point |
| HistoricalChart.LinesWithoutNewline | app/components/HistoricalChart.tsx:24-32 | no line holds '\n' when the ISO texts hold none |
| HistoricalChart.FieldsWithoutNewline | app/components/HistoricalChart.tsx:25-29 | no field holds '\n' when the ISO text holds none |
| HistoricalChart.ExportLines | app/components/HistoricalChart.tsx:22-33 | the export splits on '\n' into exactly its points + 1 lines, the first being the header |
| HistoricalChart.DataLinesRoundTrip | app/components/HistoricalChart.tsx:24-33 | the data lines from k on parse back to the points from k−1 on |
| HistoricalChart.CsvRoundTrip | app/components/HistoricalChart.tsx:22-33 | reading the export back gives every point's ISO time and four figures, in order |
| HistoricalChart.NoTrailingNewline | app/components/HistoricalChart.tsx:33 | the export does not end with a newline |
| HistoricalChart.EmptySummary | app/components/HistoricalChart.tsx:124-127 | with no points: Average NaN, Current 0, Minimum Infinity, Maximum -Infinity |
| HistoricalChart.SummaryOrdered | app/components/HistoricalChart.tsx:124-127 | for points with min = avg − 10, avg ≤ latency and max = latency + 20: all finite, Minimum + 10 ≤ Average ≤ Maximum − 20, Minimum < Current < Maximum |
| HistoricalChart.GeneratedSummaryOrdered | app/components/HistoricalChart.tsx:124-127 | for a generated history: Minimum + 10 ≤ Average ≤ Maximum − 20, all finite |
| Heatmap.ExchangeLatencies | app/components/HeatmapOverlay.tsx:41-50 | the map has an entry exactly for the listed exchanges some record touches, holding the mean of the touching latencies |
| Heatmap.DisplayLatency | app/components/HeatmapOverlay.tsx:54 | `get(id) \|\| 50`: 50 without an entry or with an entry of 0, otherwise the entry |
| Heatmap.DisplayLatencyOfListed | app/components/HeatmapOverlay.tsx:41-54 | for a listed exchange the lookup gives its mean, or 50 without records |
| Heatmap.MeanLatencyBetween | app/components/HeatmapOverlay.tsx:46-48 | the mean lies between the least and the greatest touching latency |
| Heatmap.CanvasBounds | app/components/HeatmapOverlay.tsx:57-58 | valid coordinates land on the 512-pixel canvas; the corners map to the edges |
| Heatmap.SpotStyle | app/components/HeatmapOverlay.tsx:61-75 | the if-chain picks the band's colour and the opacity 0.5 + 0.1·rank |
| Heatmap.AlphaIncreasing | app/components/HeatmapOverlay.tsx:63-75 | a more severe band is drawn more opaque |
| Heatmap.LowRgb | app/components/HeatmapOverlay.tsx:64 | '#22c55e' read as hex is '34, 197, 94' |
| Heatmap.MediumRgb | app/components/HeatmapOverlay.tsx:67 | '#eab308' read as hex is '234, 179, 8' |
| Heatmap.HighRgb | app/components/HeatmapOverlay.tsx:70 | '#f97316' read as hex is '249, 115, 22' |
| Heatmap.CriticalRgb | app/components/HeatmapOverlay.tsx:73 | '#ef4444' read as hex is '239, 68, 68' |
| Heatmap.RgbOfHex | app/components/HeatmapOverlay.tsx:63-75 | each band's spot colour is its `getLatencyColor` colour written as 'r, g, b' |
| Heatmap.SameBandsAsLatencyColor | app/components/HeatmapOverlay.tsx:63-75 | the heat map uses `getLatencyColor`'s thresholds and colours |
| Heatmap.HeatSpots | app/components/HeatmapOverlay.tsx:41-75 | one spot per exchange in list order, at its canvas point, with the colour and opacity of its spot latency |
| Store.ApplyFrame | app/store/useStore.ts:27-35 | every setter or toggle leaves every other field unchanged |
| Store.ToggleNegates | app/store/useStore.ts:30-33 | a toggle negates exactly its flag, so it always changes the state |
| Store.ToggleTwice | app/store/useStore.ts:30-33 | the same toggle twice restores the state |
| Store.SetterOverwrites | app/store/useStore.ts:27-29 | a setter replaces its field: the second of two sets wins, and setting again changes nothing |
| Store.ClearSelection | app/store/useStore.ts:27 | `setSelectedExchange(null)` clears the selection and nothing else |
| Store.Store.constructor | app/store/useStore.ts:16-25 | the initial state: no selection, 'all', empty search, four flags true, '24h', [0, 200] |
| Store.Store.SetSelectedExchange | app/store/useStore.ts:27 | the new state is `Apply` of the setter on the old one |
| Store.Store.SetSelectedCloudProvider | app/store/useStore.ts:28 | the new state is `Apply` of the setter on the old one |
| Store.Store.SetSearchTerm | app/store/useStore.ts:29 | the new state is `Apply` of the setter on the old one |
| Store.Store.ToggleRealtime | app/store/useStore.ts:30 | the new state is `Apply` of the toggle on the old one |
| Store.Store.ToggleHistorical | app/store/useStore.ts:31 | the new state is `Apply` of the toggle on the old one |
| Store.Store.ToggleRegions | app/store/useStore.ts:32 | the new state is `Apply` of the toggle on the old one |
| Store.Store.ToggleDarkMode | app/store/useStore.ts:33 | the new state is `Apply` of the toggle on the old one |
| Store.Store.SetTimeRange | app/store/useStore.ts:34 | the new state is `Apply` of the setter on the old one |
| Store.Store.SetLatencyRange | app/store/useStore.ts:35 | the new state is `Apply` of the setter on the old one |
| LatencyRoute.PairUp | app/api/latency/route.ts:24-37 | the nested loops push record k for pair k of the i < j enumeration, with draw k |
| LatencyRoute.GenerateMockLatency | app/api/latency/route.ts:22-38 | the same over the five fixed ids |
| LatencyRoute.MockLatencyShape | app/api/latency/route.ts:23-35 | 10 records; each goes from id i to id j with i < j < 5, never to itself, with latency 10 to 159 and the call's timestamp; no two records join the same two ids, in either direction |
| LatencyRoute.EachMockIdInFourRecords | app/api/latency/route.ts:23-35 | each of the five ids is an end of exactly four records |
| LatencyRoute.Get | app/api/latency/route.ts:3-13 | status 200, a success body holding the generated records and the time |
| ApiIntegration.SimulateMissingRange | app/lib/apiIntegration.ts:188-190 | with an end missing the estimate is 10 to 159 |
| ApiIntegration.SimulateMatchesSimulator | app/lib/apiIntegration.ts:187-213 | with both ends it equals `calculateLatency`: at least 5, 15 ms higher across providers unless floored |
| ApiIntegration.PingExchangeApi | app/lib/apiIntegration.ts:90-121 | a name that is not a key of the ping table gives the fallback and no request; a known name requests its URL and gives the rounded elapsed time, or the fallback when the request fails |
| ApiIntegration.PingFallbackRange | app/lib/apiIntegration.ts:104-107 | a failed or skipped ping gives 10 to 159 ms |
| ApiIntegration.LatencyBetweenModes | app/lib/apiIntegration.ts:126-139 | simulation mode gives the simulation (at least 5); otherwise the result lies between the two pings |
| ApiIntegration.PairLatencies | app/lib/apiIntegration.ts:165 | one latency per pair |
| ApiIntegration.BatchesFromCover | app/lib/apiIntegration.ts:162-163 | the batches from `start` cover the rest of the pairs in order, 1 to 5 each, ceil((P − start)/5) of them |
| ApiIntegration.BatchesCover | app/lib/apiIntegration.ts:161-163 | the batches are consecutive slices of at most five that are together all the pairs in order; there are ceil(P/5) |
| ApiIntegration.KeyInjective | app/lib/apiIntegration.ts:167 | with ids of one '-' each, equal keys mean equal ids |
| ApiIntegration.LatencyApiService.constructor | app/lib/apiIntegration.ts:9-11 | the service starts in simulation mode |
| ApiIntegration.LatencyApiService.SetUseSimulation | app/lib/apiIntegration.ts:21-23 | the switch takes the given value |
| ApiIntegration.LatencyApiService.GetLatencyBetweenExchanges | app/lib/apiIntegration.ts:126-144 | the result is `LatencyBetween` in the current mode |
| ApiIntegration.LatencyApiService.FetchBatch | app/lib/apiIntegration.ts:163-169 | one result per pair of the slice, in order: the pair's key and latency |
| ApiIntegration.LatencyApiService.MakePairs | app/lib/apiIntegration.ts:153-158 | pair k joins the exchanges of the k-th index pair i < j |
| ApiIntegration.LatencyApiService.GetAllLatencies | app/lib/apiIntegration.ts:149-182 | the map is every pair's latency set under its key in pair order; the pauses number one less than the batches |
| ApiIntegration.LatencyApiService.FetchAll | app/lib/apiIntegration.ts:161-179 | the batch loop sets every latency under its key in pair order and pauses after every batch but the last |
| ApiIntegration.BatchCount | app/lib/apiIntegration.ts:162 | the loop runs once per batch |
| ApiIntegration.SetResults | app/lib/apiIntegration.ts:171-173 | setting one batch's results extends the map by that batch's pairs |
| ApiIntegration.PairsAndPauses | app/lib/apiIntegration.ts:153-178 | n(n−1)/2 pairs, each with i < j, in ceil(P/5) batches |
| ApiIntegration.KeyedLatenciesKeys | app/lib/apiIntegration.ts:171-173 | a key is in the map exactly when one of the pairs has it |
| ApiIntegration.KeyedLatenciesDistinct | app/lib/apiIntegration.ts:171-173 | with distinct keys the map has one entry per pair, each holding its pair's latency |
| ApiIntegration.PairKeysDistinct | app/lib/apiIntegration.ts:153-167 | with distinct ids of one '-' each, no two pairs share a key |
| ApiIntegration.OneEntryPerPair | app/lib/apiIntegration.ts:149-182 | with such ids the map has n(n−1)/2 entries, the one of each pair holding that pair's answer |
| ApiIntegration.SetInOrderKeys | app/lib/apiIntegration.ts:171-173 | a `Map.set` sequence has exactly the keys that were set |
| ApiIntegration.SetInOrderDistinct | app/lib/apiIntegration.ts:171-173 | with distinct keys each set value survives |
| Exchanges.RegistryDistinct | app/lib/exchanges.ts:3-104 | 10 exchanges with pairwise distinct ids |
| Exchanges.RegistryCoordinates | app/lib/exchanges.ts:3-104 | every latitude is in [−90, 90] and every longitude in [−180, 180], so every heat spot lies on the canvas |
| Exchanges.ProviderColorsComplete | app/lib/exchanges.ts:106-110 | every provider has a colour |
| Exchanges.NamesPinged | app/lib/exchanges.ts:6-96 | every exchange name is a key of the ping table |
| Exchanges.BinanceOkxColocated | app/lib/exchanges.ts:4-23 | binance-sg and okx-sg share site and provider, so their distance is 0 and their estimate is 5 to 10 ms |
| Exchanges.IdsOneDash | app/lib/exchanges.ts:5-95 | every id has exactly one '-' |
| Exchanges.RegistryMatrix | app/lib/exchanges.ts:3-104 | the registry's matrix has 45 records, each exchange an end of 9 |
| Exchanges.RegistryAllLatencies | app/lib/exchanges.ts:3-104 | `getAllLatencies` of the registry fills 45 entries in 9 batches |
| CloudRegions.ProviderBlocks | app/lib/cloudRegions.ts:3-117 | the 12 regions come as five AWS, then three GCP, then four Azure |
| CloudRegions.RegistryCounts | app/lib/cloudRegions.ts:3-117 | 12 regions: 5 AWS, 3 GCP, 4 Azure |
| CloudRegions.BlockCounts | app/lib/cloudRegions.ts:4-116 | a list laid out in those blocks filters to those counts |
| CloudRegions.CountBlockPrefix | app/lib/cloudRegions.ts:4-116 | filtering a prefix by a predicate that holds on one block counts the part of the block inside the prefix |
| CloudRegions.RegistryCoordinates | app/lib/cloudRegions.ts:3-117 | every region has valid coordinates and a positive server count |
| CloudRegions.LowerProviderNames | app/lib/cloudRegions.ts:6-109 | the lower-cased provider names are 'aws', 'gcp', 'azure' |
| CloudRegions.IdsFollowRegions | app/lib/cloudRegions.ts:3-117 | every id is the lower-cased provider name, '-', and the region code |
| CloudRegions.RegistryDistinct | app/lib/cloudRegions.ts:3-117 | the region ids are pairwise distinct |

Proof steps such as `LatencySimulator.RowRecordAt`, `HistoricalData.SeriesAt`, `HistoricalChart.LineAt`, `LatencyRoute.FollowsPairsSnoc` and `LatencyRoute.MockPairsDistinct`, and helpers such as `ApiIntegration.PairsOf`, `ApiIntegration.PairKeys`, `ApiIntegration.PairsFollowSnoc`, `ApiIntegration.PairsOfFollow` and `ApiIntegration.PairLatencyAt`, have no row. Each one only serves the lemmas in the table.

## Left out

- Rendering: the globe, markers, lines, region markers, the heat map's gradients, blur and texture, recharts output, animations. None of it computes anything the dashboard reads back.
- The spherical projection `LatLonToVector3` and the haversine distance. Both are floating-point trigonometry. The distance is an input known only to be non-negative and 0 for one site.
- Floating point in general. Latitudes, means and distances are exact reals, and `Math.round` is exact floor(x + 0.5).
- The network: the axios probes, `performance.now`, Cloudflare/ICMP measurements and `healthCheck`. A probe's outcome is an input.
- `Promise.all` concurrency. The calls of a batch are modelled one after another, which gives the same map because the keys are set in batch order.
- The real `setTimeout` pacing of `getAllLatencies`. Only the number of pauses is modelled.
- The `catch` branch of `getLatencyBetweenExchanges` (app/lib/apiIntegration.ts:140-143). `pingExchangeAPI` catches its own failures, so the branch cannot be reached in the model.
- The singleton `getInstance`. The model has a constructor that starts in simulation mode.
- The `catch` branch of `GET`. Mock generation cannot throw, so only its response value `FAILED` is written down.
- `NextResponse` serialisation.
- React and Next plumbing: effects, the 10 s regeneration timer of the history, the `useLatencyData` timer, zustand internals, pages and layout.
- The control panel, which is pure UI.
- `toISOString` and date-fns `format` are parameters. The CSV round trip assumes the ISO text holds no ',' and no '\n'.
- The Blob/URL/anchor download of the export.
- Each `Math.random()` draw is an input rather than a generator.
- `Date.now()` is read once per call. In `generateLatencyData` and `generateMockLatency` every record gets the same `now`, although the source reads the clock per record.
- JsMath.Round: exact reals, not IEEE doubles, so rounding errors of the addition are not modelled.
- Text.Lower: only 'A' to 'Z' are folded. `toLowerCase` (app/components/Globe3D.tsx:370, app/components/StatsPanel.tsx:20) folds all of Unicode, so the model does not cover a search term or a name with non-ASCII capitals.
- Globe.FilteredExchanges: its search test uses `Text.Lower`, so it has the same ASCII-only case folding.
- StatsPanel.SameListAsGlobe: it holds for the ASCII-only folding of `Text.Lower`. The real lists agree too, because both components call the same `toLowerCase`, but the model does not show this.
- ApiIntegration.PingExchangeApi: the ping table is a plain object, so names of `Object.prototype` members such as "constructor" or "toString" find an inherited value at app/lib/apiIntegration.ts:104-105 and lead to a request. The model treats every name outside the table as unknown, so it does not cover those names. No registry name is one of them.
