/** The figures of the statistics panel (app/components/StatsPanel.tsx): its
    own copy of the exchange list filter, and the average, least and greatest
    latency of the records touching the selected exchange. */
module StatsPanel {
  import opened JsMath
  import opened Seqs
  import opened Text
  import opened Types
  import Globe

  /** The panel's list filter callback, written out again in the panel. */
  predicate ListedExchange(s: AppState, ex: Exchange) {
    if s.selectedCloudProvider != All && ex.provider != s.selectedCloudProvider.provider then false
    else if s.searchTerm != "" && !Includes(Lower(ex.name), Lower(s.searchTerm)) then false
    else true
  }

  /** The panel's `filteredExchanges`. */
  function ListedExchanges(exchanges: seq<Exchange>, s: AppState): seq<Exchange> {
    Filter(exchanges, (ex: Exchange) => ListedExchange(s, ex))
  }

  /** The panel lists exactly the exchanges the globe shows, in the same order. */
  lemma SameListAsGlobe(exchanges: seq<Exchange>, s: AppState)
    ensures ListedExchanges(exchanges, s) == Globe.FilteredExchanges(exchanges, s)
  {
    FilterExtensional(exchanges, (ex: Exchange) => ListedExchange(s, ex), (ex: Exchange) => Globe.ShowExchange(s, ex));
  }

  /** `a / b || 0` for a count `b`: the quotient, with the NaN of 0 / 0 replaced by 0. */
  function QuotientOrZero(a: int, b: nat): (q: real)
    ensures b == 0 ==> q == 0.0
    ensures b > 0 ==> q * b as real == a as real
  {
    if b == 0 then 0.0 else a as real / b as real
  }

  /** The latencies of the records touching the selected exchange. */
  function SelectedLatencies(data: seq<LatencyData>, selected: Exchange): seq<int> {
    LatencyValues(Touching(data, selected.id))
  }

  /** `avgLatency`: 0 without a selection; otherwise the rounded mean of the
      touching latencies, 0 when there are none. */
  function AvgLatency(data: seq<LatencyData>, selected: Option<Exchange>): (avg: int)
    ensures selected.None? ==> avg == 0
    ensures selected.Some? && |Touching(data, selected.value.id)| == 0 ==> avg == 0
    ensures selected.Some? && |Touching(data, selected.value.id)| > 0 ==>
      avg == Round(Mean(SelectedLatencies(data, selected.value)))
  {
    if selected.None? then 0
    else
      var touching := Touching(data, selected.value.id);
      Round(QuotientOrZero(Sum(LatencyValues(touching)), |touching|))
  }

  /** `minLatency`: 0 without a selection, otherwise `Math.min` of the touching
      latencies (Infinity when there are none). */
  function MinLatency(data: seq<LatencyData>, selected: Option<Exchange>): (m: Number)
    ensures selected.None? ==> m == Finite(0)
    ensures selected.Some? ==> (m == Infinity <==> |Touching(data, selected.value.id)| == 0)
    ensures selected.Some? && m.Finite? ==>
      m.value in SelectedLatencies(data, selected.value) && forall x :: x in SelectedLatencies(data, selected.value) ==> m.value <= x
  {
    if selected.None? then Finite(0) else MinSpread(SelectedLatencies(data, selected.value))
  }

  /** `maxLatency`: 0 without a selection, otherwise `Math.max` of the touching
      latencies (-Infinity when there are none). */
  function MaxLatency(data: seq<LatencyData>, selected: Option<Exchange>): (m: Number)
    ensures selected.None? ==> m == Finite(0)
    ensures selected.Some? ==> (m == NegInfinity <==> |Touching(data, selected.value.id)| == 0)
    ensures selected.Some? && m.Finite? ==>
      m.value in SelectedLatencies(data, selected.value) && forall x :: x in SelectedLatencies(data, selected.value) ==> x <= m.value
  {
    if selected.None? then Finite(0) else MaxSpread(SelectedLatencies(data, selected.value))
  }

  /** With a selection that some record touches, the panel shows
      min <= avg <= max, all three finite. */
  lemma MinAvgMaxOrdered(data: seq<LatencyData>, selected: Exchange)
    requires |Touching(data, selected.id)| > 0
    ensures MinLatency(data, Some(selected)).Finite? && MaxLatency(data, Some(selected)).Finite?
    ensures MinLatency(data, Some(selected)).value <= AvgLatency(data, Some(selected)) <= MaxLatency(data, Some(selected)).value
  {
    RoundedMeanBetween(SelectedLatencies(data, selected));
  }

  /** Without a selection all three figures are 0. */
  lemma NoSelectionAllZero(data: seq<LatencyData>)
    ensures AvgLatency(data, None) == 0 && MinLatency(data, None) == Finite(0) && MaxLatency(data, None) == Finite(0)
  {
  }
}
