/**
 * The expenses bar chart view: the keys/values projection of the server's
 * category map, the `loading`/`error` flags of `fetchChartData`, the screen
 * selection, and the effect that re-fetches when `updateCounter` changes.
 */
module BarChart {
  import opened Wrappers
  import opened JsValues
  import opened ServiceClient
  import ChartService

  /** The chart's `labels` and its single dataset's `data`. */
  datatype BarData = BarData(labels: seq<string>, values: seq<Value>)

  /** `Object.keys(data)` and `Object.values(data)` for truthy data: parallel, in entry order. */
  function Project(data: Value): (r: BarData)
    requires Truthy(data)
    ensures |r.labels| == |Entries(data)| && |r.values| == |Entries(data)|
    ensures forall i :: 0 <= i < |r.labels| ==> Prop(r.labels[i], r.values[i]) == Entries(data)[i]
  {
    var e := Entries(data);
    BarData(Keys(e), Values(e))
  }

  /** A category map projects onto its keys and its values, and the empty map onto two empty series. */
  lemma ProjectMap(props: seq<Prop>)
    ensures Project(Obj(props)) == BarData(Keys(props), Values(props))
    ensures props == [] ==> Project(Obj(props)) == BarData([], [])
  {
  }

  /** `if (error)` on a state that holds `null` or an error message. */
  predicate Shows(error: Option<string>) {
    error.Some? && error.value != ""
  }

  datatype Screen = Loading | Failed(message: string) | Chart(data: Option<BarData>)

  /** The screen: loading first, then an error, then the chart; there is no no-data screen. */
  function Render(loading: bool, error: Option<string>, chartData: Option<BarData>): (r: Screen)
    ensures r.Loading? <==> loading
    ensures r.Failed? <==> !loading && Shows(error)
    ensures r.Chart? <==> !loading && !Shows(error)
    ensures r.Failed? ==> r.message == error.value
    ensures r.Chart? ==> r.data == chartData
  {
    if loading then Loading
    else if Shows(error) then Failed(error.value)
    else Chart(chartData)
  }

  datatype PanelState = PanelState(chartData: Option<BarData>, loading: bool, error: Option<string>)

  const InitialPanel := PanelState(None, true, None)

  /**
   * The state once the fetch settles: loading is over in both cases; truthy
   * data replaces the chart, falsy data leaves it; a rejection records its
   * message and leaves the chart. Nothing but a rejection touches the error.
   */
  function AfterFetch(st: PanelState, o: Remote<Value>): (r: PanelState)
    ensures !r.loading
    ensures o.Ok? ==> r.error == st.error
    ensures o.Ok? && Truthy(o.value) ==> r.chartData == Some(Project(o.value))
    ensures o.Ok? && !Truthy(o.value) ==> r.chartData == st.chartData
    ensures o.Err? ==> r.error == Some(o.message) && r.chartData == st.chartData
  {
    match o
    case Ok(data) => st.(chartData := if Truthy(data) then Some(Project(data)) else st.chartData, loading := false)
    case Err(message) => st.(error := Some(message), loading := false)
  }

  /** The state after a series of fetches, each started and settled in turn. */
  function AfterFetches(st: PanelState, outcomes: seq<Remote<Value>>): PanelState
    decreases |outcomes|
  {
    if outcomes == [] then st
    else AfterFetches(AfterFetch(st.(loading := true), outcomes[0]), outcomes[1..])
  }

  /**
   * Once the error is set it is never cleared: no later fetch, however it
   * settles, brings the chart back, unless a later rejection carries an
   * empty message.
   */
  lemma {:induction false} ErrorIsSticky(st: PanelState, outcomes: seq<Remote<Value>>)
    requires st.error.Some?
    ensures AfterFetches(st, outcomes).error.Some?
    ensures Shows(st.error) && (forall i :: 0 <= i < |outcomes| && outcomes[i].Err? ==> outcomes[i].message != "") ==>
      Shows(AfterFetches(st, outcomes).error)
    ensures Shows(st.error) && (forall i :: 0 <= i < |outcomes| ==> outcomes[i].Ok?) && outcomes != [] ==>
      Render(false, AfterFetches(st, outcomes).error, AfterFetches(st, outcomes).chartData) == Failed(st.error.value)
    decreases |outcomes|
  {
    if outcomes != [] {
      var next := AfterFetch(st.(loading := true), outcomes[0]);
      ErrorIsSticky(next, outcomes[1..]);
      assert forall i :: 0 <= i < |outcomes[1..]| ==> outcomes[1..][i] == outcomes[i + 1];
      if forall i :: 0 <= i < |outcomes| ==> outcomes[i].Ok? {
        assert outcomes[0].Ok?;
        ErrorUnchangedBySuccesses(next, outcomes[1..]);
      }
    }
  }

  /** A series of successful fetches leaves the error as it was. */
  lemma {:induction false} ErrorUnchangedBySuccesses(st: PanelState, outcomes: seq<Remote<Value>>)
    requires forall i :: 0 <= i < |outcomes| ==> outcomes[i].Ok?
    ensures AfterFetches(st, outcomes).error == st.error
    decreases |outcomes|
  {
    if outcomes != [] {
      assert outcomes[0].Ok?;
      assert forall i :: 0 <= i < |outcomes[1..]| ==> outcomes[1..][i] == outcomes[i + 1];
      ErrorUnchangedBySuccesses(AfterFetch(st.(loading := true), outcomes[0]), outcomes[1..]);
    }
  }

  /** Whether an effect with dependency list `[dep]` runs: on mount, and whenever `dep` changed. */
  function EffectRuns(last: Option<Value>, dep: Value): (r: bool)
    ensures r <==> last.None? || last.value != dep
  {
    last != Some(dep)
  }

  /** The number of runs of such an effect over a series of renders with the given dependency values. */
  function EffectRunCount(last: Option<Value>, deps: seq<Value>): nat
    decreases |deps|
  {
    if deps == [] then 0
    else (if EffectRuns(last, deps[0]) then 1 else 0) + EffectRunCount(Some(deps[0]), deps[1..])
  }

  /**
   * With `[updateCounter]` as dependency list, renders whose counter values
   * are strictly increasing (as the expense store's is on every confirmed
   * change) each run the fetch: one fetch on mount and one per change.
   */
  lemma {:induction false} FetchOnEveryCounterChange(last: Option<int>, counters: seq<int>)
    requires forall i, j :: 0 <= i < j < |counters| ==> counters[i] < counters[j]
    requires last.Some? && counters != [] ==> last.value < counters[0]
    ensures EffectRunCount(if last.Some? then Some(Num(last.value)) else None, NumsOf(counters)) == |counters|
    decreases |counters|
  {
    if counters != [] {
      FetchOnEveryCounterChange(Some(counters[0]), counters[1..]);
      assert NumsOf(counters)[1..] == NumsOf(counters[1..]);
    }
  }

  /** The counters as the number values React compares. */
  function NumsOf(counters: seq<int>): (r: seq<Value>)
    ensures |r| == |counters| && forall i :: 0 <= i < |counters| ==> r[i] == Num(counters[i])
  {
    seq(|counters|, i requires 0 <= i < |counters| => Num(counters[i]))
  }

  class BarChartView {
    var chartData: Option<BarData>
    var loading: bool
    var error: Option<string>
    /** The `updateCounter` value the effect last ran with, `None` before mount. */
    var lastCounter: Option<Value>

    function State(): PanelState
      reads this
    {
      PanelState(chartData, loading, error)
    }

    function Screen(): Screen
      reads this
    {
      Render(loading, error, chartData)
    }

    constructor ()
      ensures State() == InitialPanel && lastCounter == None
    {
      chartData, loading, error := None, true, None;
      lastCounter := None;
    }

    /** `setLoading(true)`, before the request is sent. */
    method BeginFetch()
      modifies this
      ensures State() == old(State()).(loading := true) && lastCounter == old(lastCounter)
      ensures Screen() == Loading
    {
      loading := true;
    }

    /** The `.then`/`.catch` handlers, once `getExpensesByCategory` settles. */
    method SettleFetch(result: Remote<Value>)
      modifies this
      ensures State() == AfterFetch(old(State()), result) && lastCounter == old(lastCounter)
    {
      match result
      case Ok(data) =>
        if Truthy(data) {
          chartData := Some(Project(data));
        }
        loading := false;
      case Err(message) =>
        error := Some(message);
        loading := false;
    }

    /**
     * `fetchChartData()`: the request sent (with no user id: the argument is
     * missing at the call), then the state after it settles as `o`.
     */
    method FetchChartData(env: Option<string>, o: AxiosOutcome) returns (request: Request)
      modifies this
      ensures request == ChartService.ExpensesByCategoryRequest(env, Undefined)
      ensures State() == AfterFetch(old(State()).(loading := true), ChartService.ExpensesByCategoryResult(o))
      ensures lastCounter == old(lastCounter)
    {
      BeginFetch();
      request := ChartService.ExpensesByCategoryRequest(env, Undefined);
      SettleFetch(ChartService.ExpensesByCategoryResult(o));
    }

    /** A render with the given `updateCounter`: the effect fetches on mount and on every change. */
    method OnRender(env: Option<string>, updateCounter: Value, o: AxiosOutcome) returns (request: Option<Request>)
      modifies this
      ensures lastCounter == Some(updateCounter)
      ensures request.Some? <==> EffectRuns(old(lastCounter), updateCounter)
      ensures request.Some? ==>
        request.value == ChartService.ExpensesByCategoryRequest(env, Undefined)
        && State() == AfterFetch(old(State()).(loading := true), ChartService.ExpensesByCategoryResult(o))
      ensures request.None? ==> State() == old(State())
    {
      request := None;
      if EffectRuns(lastCounter, updateCounter) {
        var r := FetchChartData(env, o);
        request := Some(r);
      }
      lastCounter := Some(updateCounter);
    }
  }
}
