/** The UI store of app/store/useStore.ts: nine fields, a fixed initial state,
    and one setter or toggle per field.

    `Apply` states each action on plain `AppState` values; the class `Store`
    holds the fields and changes them in place, each method proved to perform
    `Apply` of its action. */
module Store {
  import opened Seqs
  import opened Types

  /** The state the store starts in. */
  const INITIAL: AppState := AppState(
    selectedExchange := None,
    selectedCloudProvider := All,
    searchTerm := "",
    showRealtime := true,
    showHistorical := true,
    showRegions := true,
    darkMode := true,
    timeRange := OneDay,
    latencyRange := (0, 200))

  /** The store's actions, one per setter or toggle. */
  datatype Action =
    | SetSelectedExchange(exchange: Option<Exchange>)
    | SetSelectedCloudProvider(provider: ProviderFilter)
    | SetSearchTerm(term: string)
    | ToggleRealtime
    | ToggleHistorical
    | ToggleRegions
    | ToggleDarkMode
    | SetTimeRange(range: TimeRange)
    | SetLatencyRange(latencyRange: (int, int))
  {
    predicate IsToggle() {
      ToggleRealtime? || ToggleHistorical? || ToggleRegions? || ToggleDarkMode?
    }
  }

  /** The state after the action: the action's own field replaced (a toggle
      negates its flag), every other field as it was. */
  function Apply(s: AppState, a: Action): AppState {
    match a
    case SetSelectedExchange(e) => s.(selectedExchange := e)
    case SetSelectedCloudProvider(p) => s.(selectedCloudProvider := p)
    case SetSearchTerm(t) => s.(searchTerm := t)
    case ToggleRealtime => s.(showRealtime := !s.showRealtime)
    case ToggleHistorical => s.(showHistorical := !s.showHistorical)
    case ToggleRegions => s.(showRegions := !s.showRegions)
    case ToggleDarkMode => s.(darkMode := !s.darkMode)
    case SetTimeRange(r) => s.(timeRange := r)
    case SetLatencyRange(r) => s.(latencyRange := r)
  }

  /** The fields an action writes, by name. */
  function Writes(a: Action): string {
    match a
    case SetSelectedExchange(_) => "selectedExchange"
    case SetSelectedCloudProvider(_) => "selectedCloudProvider"
    case SetSearchTerm(_) => "searchTerm"
    case ToggleRealtime => "showRealtime"
    case ToggleHistorical => "showHistorical"
    case ToggleRegions => "showRegions"
    case ToggleDarkMode => "darkMode"
    case SetTimeRange(_) => "timeRange"
    case SetLatencyRange(_) => "latencyRange"
  }

  /** Two states agree on every field except possibly the one named `field`. */
  predicate SameExcept(s: AppState, t: AppState, field: string) {
    && (field != "selectedExchange" ==> s.selectedExchange == t.selectedExchange)
    && (field != "selectedCloudProvider" ==> s.selectedCloudProvider == t.selectedCloudProvider)
    && (field != "searchTerm" ==> s.searchTerm == t.searchTerm)
    && (field != "showRealtime" ==> s.showRealtime == t.showRealtime)
    && (field != "showHistorical" ==> s.showHistorical == t.showHistorical)
    && (field != "showRegions" ==> s.showRegions == t.showRegions)
    && (field != "darkMode" ==> s.darkMode == t.darkMode)
    && (field != "timeRange" ==> s.timeRange == t.timeRange)
    && (field != "latencyRange" ==> s.latencyRange == t.latencyRange)
  }

  /** Every action leaves all fields but its own unchanged. */
  lemma ApplyFrame(s: AppState, a: Action)
    ensures SameExcept(s, Apply(s, a), Writes(a))
  {
  }

  /** A toggle negates exactly its own flag, so it always changes the state. */
  lemma ToggleNegates(s: AppState, a: Action)
    requires a.IsToggle()
    ensures a.ToggleRealtime? ==> Apply(s, a).showRealtime == !s.showRealtime
    ensures a.ToggleHistorical? ==> Apply(s, a).showHistorical == !s.showHistorical
    ensures a.ToggleRegions? ==> Apply(s, a).showRegions == !s.showRegions
    ensures a.ToggleDarkMode? ==> Apply(s, a).darkMode == !s.darkMode
    ensures Apply(s, a) != s
  {
  }

  /** The same toggle twice restores the state. */
  lemma ToggleTwice(s: AppState, a: Action)
    requires a.IsToggle()
    ensures Apply(Apply(s, a), a) == s
  {
  }

  /** A setter replaces its field wholesale: setting twice keeps only the
      second value, and setting the current value changes nothing. */
  lemma SetterOverwrites(s: AppState, a: Action, b: Action)
    requires !a.IsToggle() && Writes(a) == Writes(b)
    ensures Apply(Apply(s, a), b) == Apply(s, b)
    ensures Apply(Apply(s, a), a) == Apply(s, a)
  {
  }

  /** `setSelectedExchange(null)` clears the selection. */
  lemma ClearSelection(s: AppState)
    ensures Apply(s, SetSelectedExchange(None)).selectedExchange.None?
    ensures SameExcept(s, Apply(s, SetSelectedExchange(None)), "selectedExchange")
  {
  }

  /** The zustand store: its fields, updated in place by its methods. */
  class Store {
    var selectedExchange: Option<Exchange>
    var selectedCloudProvider: ProviderFilter
    var searchTerm: string
    var showRealtime: bool
    var showHistorical: bool
    var showRegions: bool
    var darkMode: bool
    var timeRange: TimeRange
    var latencyRange: (int, int)

    /** The fields, read as one state value. */
    function State(): AppState
      reads this
    {
      AppState(selectedExchange, selectedCloudProvider, searchTerm, showRealtime,
        showHistorical, showRegions, darkMode, timeRange, latencyRange)
    }

    /** `create(...)`: the store with its initial state. */
    constructor ()
      ensures State() == INITIAL
    {
      selectedExchange := None;
      selectedCloudProvider := All;
      searchTerm := "";
      showRealtime := true;
      showHistorical := true;
      showRegions := true;
      darkMode := true;
      timeRange := OneDay;
      latencyRange := (0, 200);
    }

    method SetSelectedExchange(exchange: Option<Exchange>)
      modifies this
      ensures State() == Apply(old(State()), Action.SetSelectedExchange(exchange))
    {
      selectedExchange := exchange;
    }

    method SetSelectedCloudProvider(provider: ProviderFilter)
      modifies this
      ensures State() == Apply(old(State()), Action.SetSelectedCloudProvider(provider))
    {
      selectedCloudProvider := provider;
    }

    method SetSearchTerm(term: string)
      modifies this
      ensures State() == Apply(old(State()), Action.SetSearchTerm(term))
    {
      searchTerm := term;
    }

    method ToggleRealtime()
      modifies this
      ensures State() == Apply(old(State()), Action.ToggleRealtime)
    {
      showRealtime := !showRealtime;
    }

    method ToggleHistorical()
      modifies this
      ensures State() == Apply(old(State()), Action.ToggleHistorical)
    {
      showHistorical := !showHistorical;
    }

    method ToggleRegions()
      modifies this
      ensures State() == Apply(old(State()), Action.ToggleRegions)
    {
      showRegions := !showRegions;
    }

    method ToggleDarkMode()
      modifies this
      ensures State() == Apply(old(State()), Action.ToggleDarkMode)
    {
      darkMode := !darkMode;
    }

    method SetTimeRange(range: TimeRange)
      modifies this
      ensures State() == Apply(old(State()), Action.SetTimeRange(range))
    {
      timeRange := range;
    }

    method SetLatencyRange(range: (int, int))
      modifies this
      ensures State() == Apply(old(State()), Action.SetLatencyRange(range))
    {
      latencyRange := range;
    }
  }
}
