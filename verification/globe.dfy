/** The selection logic of the globe view (app/components/Globe3D.tsx): which
    exchanges, latency records and cloud regions are drawn for the current
    store state, and how a record is resolved to its two exchanges. */
module Globe {
  import opened Seqs
  import opened Text
  import opened Types

  /** The provider selector admits provider `p`. */
  predicate ProviderAdmits(filter: ProviderFilter, p: Provider) {
    filter.All? || filter.provider == p
  }

  /** The search box admits `name`: an empty term admits everything, otherwise
      the lower-cased name must contain the lower-cased term. */
  predicate SearchAdmits(term: string, name: string) {
    term == "" || Includes(Lower(name), Lower(term))
  }

  /** The callback of `filteredExchanges`. */
  predicate ShowExchange(s: AppState, ex: Exchange) {
    if s.selectedCloudProvider != All && ex.provider != s.selectedCloudProvider.provider then false
    else if s.searchTerm != "" && !Includes(Lower(ex.name), Lower(s.searchTerm)) then false
    else true
  }

  /** `filteredExchanges`: the exchanges that match both the provider selector
      and the search term, in their original order. */
  function FilteredExchanges(exchanges: seq<Exchange>, s: AppState): (r: seq<Exchange>)
    ensures forall i :: 0 <= i < |r| ==>
      r[i] in exchanges && ProviderAdmits(s.selectedCloudProvider, r[i].provider) && SearchAdmits(s.searchTerm, r[i].name)
    ensures forall i :: 0 <= i < |exchanges| ==>
      ProviderAdmits(s.selectedCloudProvider, exchanges[i].provider) && SearchAdmits(s.searchTerm, exchanges[i].name) ==> exchanges[i] in r
    ensures Subsequence(r, exchanges)
  {
    FilterMembers(exchanges, (ex: Exchange) => ShowExchange(s, ex));
    Filter(exchanges, (ex: Exchange) => ShowExchange(s, ex))
  }

  /** An exchange of the list is shown iff both filters admit it. */
  lemma FilteredExchangesExactly(exchanges: seq<Exchange>, s: AppState, ex: Exchange)
    requires ex in exchanges
    ensures ex in FilteredExchanges(exchanges, s) <==>
      ProviderAdmits(s.selectedCloudProvider, ex.provider) && SearchAdmits(s.searchTerm, ex.name)
  {
    var r := FilteredExchanges(exchanges, s);
    if ex in r {
      var i :| 0 <= i < |r| && r[i] == ex;
    }
  }

  /** With every provider and an empty search term the list is shown whole. */
  lemma FilteredExchangesUnfiltered(exchanges: seq<Exchange>, s: AppState)
    requires s.selectedCloudProvider == All && s.searchTerm == ""
    ensures FilteredExchanges(exchanges, s) == exchanges
  {
    FilterAll(exchanges, (ex: Exchange) => ShowExchange(s, ex));
  }

  /** The callback of `visibleLatencyData` for the selected exchange `id`. */
  predicate ShowRecord(d: LatencyData, id: string, range: (int, int)) {
    var isConnected := d.from == id || d.to == id;
    var inRange := d.latency >= range.0 && d.latency <= range.1;
    isConnected && inRange
  }

  /** `visibleLatencyData`: nothing without a selection or with real-time
      display off; otherwise the records touching the selected exchange whose
      latency lies in the chosen range, bounds included, in order. */
  function VisibleLatencyData(data: seq<LatencyData>, s: AppState): (r: seq<LatencyData>)
    ensures s.selectedExchange.None? || !s.showRealtime ==> r == []
    ensures s.selectedExchange.Some? && s.showRealtime ==>
      && (forall i :: 0 <= i < |r| ==>
            r[i] in data && r[i].Touches(s.selectedExchange.value.id) && s.latencyRange.0 <= r[i].latency <= s.latencyRange.1)
      && (forall i :: 0 <= i < |data| ==>
            data[i].Touches(s.selectedExchange.value.id) && s.latencyRange.0 <= data[i].latency <= s.latencyRange.1 ==> data[i] in r)
    ensures Subsequence(r, data)
  {
    if s.selectedExchange.None? || !s.showRealtime then []
    else
      var id := s.selectedExchange.value.id;
      FilterMembers(data, (d: LatencyData) => ShowRecord(d, id, s.latencyRange));
      Filter(data, (d: LatencyData) => ShowRecord(d, id, s.latencyRange))
  }

  /** The callback of `filteredRegions`. */
  predicate ShowRegion(s: AppState, region: CloudRegion) {
    s.selectedCloudProvider == All || region.provider == s.selectedCloudProvider.provider
  }

  /** `filteredRegions`: nothing with regions hidden; otherwise the regions of
      the selected provider, or all of them. */
  function FilteredRegions(regions: seq<CloudRegion>, s: AppState): (r: seq<CloudRegion>)
    ensures !s.showRegions ==> r == []
    ensures s.showRegions ==>
      && (forall i :: 0 <= i < |r| ==> r[i] in regions && ProviderAdmits(s.selectedCloudProvider, r[i].provider))
      && (forall i :: 0 <= i < |regions| && ProviderAdmits(s.selectedCloudProvider, regions[i].provider) ==> regions[i] in r)
    ensures Subsequence(r, regions)
  {
    if !s.showRegions then []
    else
      FilterMembers(regions, (region: CloudRegion) => ShowRegion(s, region));
      Filter(regions, (region: CloudRegion) => ShowRegion(s, region))
  }

  /** With regions shown and every provider selected, every region is drawn. */
  lemma FilteredRegionsUnfiltered(regions: seq<CloudRegion>, s: AppState)
    requires s.showRegions && s.selectedCloudProvider == All
    ensures FilteredRegions(regions, s) == regions
  {
    FilterAll(regions, (region: CloudRegion) => ShowRegion(s, region));
  }

  /** `exchanges.find(ex => ex.id === id)`. */
  function Resolve(exchanges: seq<Exchange>, id: string): (r: Option<Exchange>)
    ensures r.Some? ==> r.value in exchanges && r.value.id == id
    ensures r.None? <==> forall i :: 0 <= i < |exchanges| ==> exchanges[i].id != id
  {
    Find(exchanges, (ex: Exchange) => ex.id == id)
  }

  /** A latency line drawn between two resolved exchanges. */
  datatype Connection = Connection(from: Exchange, to: Exchange, data: LatencyData)

  /** The record names two exchanges of the list. */
  predicate Resolvable(exchanges: seq<Exchange>, d: LatencyData) {
    (exists j :: 0 <= j < |exchanges| && exchanges[j].id == d.from) &&
    (exists j :: 0 <= j < |exchanges| && exchanges[j].id == d.to)
  }

  /** The line drawn for one record: one line between its two exchanges if
      both ends resolve, otherwise none. */
  function Line(exchanges: seq<Exchange>, d: LatencyData): (r: seq<Connection>)
    ensures |r| <= 1
    ensures |r| == 1 <==> Resolvable(exchanges, d)
    ensures forall i :: 0 <= i < |r| ==>
      && r[i].data == d
      && r[i].from in exchanges && r[i].from.id == d.from
      && r[i].to in exchanges && r[i].to.id == d.to
  {
    match (Resolve(exchanges, d.from), Resolve(exchanges, d.to))
    case (Some(fromEx), Some(toEx)) => [Connection(fromEx, toEx, d)]
    case _ => []
  }

  /** `Line` for the list `exchanges`, as the callback of the record loop. */
  function LineOf(exchanges: seq<Exchange>): LatencyData -> seq<Connection> {
    (d: LatencyData) => Line(exchanges, d)
  }

  /** The lines drawn for the visible records, in record order: a record
      whose `from` or `to` names no exchange of the list draws nothing. */
  function Connections(exchanges: seq<Exchange>, visible: seq<LatencyData>): (r: seq<Connection>)
    ensures |r| <= |visible|
  {
    FlatMapLength(visible, LineOf(exchanges));
    FlatMap(visible, LineOf(exchanges))
  }

  /** Every line belongs to a visible record and joins the two exchanges of
      the list that the record names. */
  lemma ConnectionsMembers(exchanges: seq<Exchange>, visible: seq<LatencyData>)
    ensures var r := Connections(exchanges, visible);
      forall i :: 0 <= i < |r| ==>
        && r[i].data in visible
        && r[i].from in exchanges && r[i].from.id == r[i].data.from
        && r[i].to in exchanges && r[i].to.id == r[i].data.to
  {
    var f := LineOf(exchanges);
    var r := Connections(exchanges, visible);
    FlatMapElements(visible, f);
    forall i | 0 <= i < |r| ensures r[i].data in visible && r[i].from in exchanges && r[i].from.id == r[i].data.from
      && r[i].to in exchanges && r[i].to.id == r[i].data.to
    {
      assert ResultOf(visible, f, r[i]);
      var k, j :| 0 <= k < |visible| && 0 <= j < |f(visible[k])| && r[i] == f(visible[k])[j];
      assert r[i] == Line(exchanges, visible[k])[j];
    }
  }

  /** The lines of two runs of records are the lines of each, in order. */
  lemma ConnectionsAppend(exchanges: seq<Exchange>, a: seq<LatencyData>, b: seq<LatencyData>)
    ensures Connections(exchanges, a + b) == Connections(exchanges, a) + Connections(exchanges, b)
  {
    FlatMapAppend(a, b, LineOf(exchanges));
  }

  /** A record with an end missing from the exchange list is skipped: removing
      it changes nothing. */
  lemma UnresolvedSkipped(exchanges: seq<Exchange>, a: seq<LatencyData>, d: LatencyData, b: seq<LatencyData>)
    requires (forall i :: 0 <= i < |exchanges| ==> exchanges[i].id != d.from) ||
             (forall i :: 0 <= i < |exchanges| ==> exchanges[i].id != d.to)
    ensures Connections(exchanges, a + [d] + b) == Connections(exchanges, a + b)
  {
    var f := LineOf(exchanges);
    FlatMapOne(d, f);
    assert f(d) == Line(exchanges, d) == [];
    FlatMapAppend(a + [d], b, f);
    FlatMapAppend(a, [d], f);
    FlatMapAppend(a, b, f);
  }

  /** When every record names two listed exchanges, every record is drawn. */
  lemma AllResolvedDrawn(exchanges: seq<Exchange>, visible: seq<LatencyData>)
    requires forall i :: 0 <= i < |visible| ==> Resolvable(exchanges, visible[i])
    ensures |Connections(exchanges, visible)| == |visible|
  {
    var f := LineOf(exchanges);
    assert forall i :: 0 <= i < |visible| ==> |f(visible[i])| == 1;
    FlatMapLength(visible, f);
  }
}
