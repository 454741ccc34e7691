/**
 * The budget pie chart view: the projection of the budget list into labels
 * and amounts, the `loading`/`error`/`noData` flags, and which of the four
 * mutually exclusive screens shows.
 */
module BudgetPieChart {
  import opened Wrappers
  import opened JsValues
  import opened Records

  // Split so that the verifier sees the first character, which the proof below needs.
  const LoadFailedMessage := "F" + "ailed to load budgets. Please refresh the page to try again."

  /** The chart's `labels` and its single dataset's `data`. */
  datatype PieData = PieData(labels: seq<Value>, values: seq<Value>)

  /** `budgets && budgets.length > 0`, with `None` for an absent list. */
  predicate HasBudgets(budgets: Option<seq<Value>>) {
    budgets.Some? && |budgets.value| > 0
  }

  /** The chart data `prepareChartData` builds: one label and one amount per budget, in list order. */
  function ChartOf(budgets: seq<Value>): (r: PieData)
    ensures |r.labels| == |budgets| && |r.values| == |budgets|
    ensures forall i :: 0 <= i < |budgets| ==>
      r.labels[i] == Get(budgets[i], "budgetDescription") && r.values[i] == Get(budgets[i], "budgetAmount")
  {
    PieData(Pluck(budgets, "budgetDescription"), Pluck(budgets, "budgetAmount"))
  }

  /** `if (error)` on a state that holds `null` or a string. */
  predicate Shows(error: Option<string>) {
    error.Some? && error.value != ""
  }

  datatype Screen = Loading | Failed(message: string) | NoData | Chart(data: Option<PieData>)

  /**
   * The screen the component renders: exactly one of the four, chosen in the
   * priority order loading, error, no data, chart.
   */
  function Render(loading: bool, error: Option<string>, noData: bool, chartData: Option<PieData>): (r: Screen)
    ensures r.Loading? <==> loading
    ensures r.Failed? <==> !loading && Shows(error)
    ensures r.NoData? <==> !loading && !Shows(error) && noData
    ensures r.Chart? <==> !loading && !Shows(error) && !noData
    ensures r.Failed? ==> r.message == error.value
    ensures r.Chart? ==> r.data == chartData
  {
    if loading then Loading
    else if Shows(error) then Failed(error.value)
    else if noData then NoData
    else Chart(chartData)
  }

  datatype PieState = PieState(chartData: Option<PieData>, loading: bool, error: Option<string>, noData: bool)

  class BudgetPieChartView {
    /** `None` is the initial empty object. */
    var chartData: Option<PieData>
    var loading: bool
    var error: Option<string>
    var noData: bool

    function State(): PieState
      reads this
    {
      PieState(chartData, loading, error, noData)
    }

    function Screen(): Screen
      reads this
    {
      Render(loading, error, noData, chartData)
    }

    constructor ()
      ensures State() == PieState(None, true, None, false)
      ensures Screen() == Loading
    {
      chartData, loading, error, noData := None, true, None, false;
    }

    /**
     * `prepareChartData()` over the list the callback sees: a non-empty list
     * becomes the chart, anything else shows the no-data screen and keeps the
     * old chart data.
     */
    method PrepareChartData(budgets: Option<seq<Value>>)
      modifies this
      ensures HasBudgets(budgets) ==>
        State() == old(State()).(chartData := Some(ChartOf(budgets.value)), loading := false, noData := false)
      ensures !HasBudgets(budgets) ==> State() == old(State()).(loading := false, noData := true)
    {
      if HasBudgets(budgets) {
        chartData := Some(ChartOf(budgets.value));
        loading := false;
        noData := false;
      } else {
        loading := false;
        noData := true;
      }
    }

    /** The first three steps of `loadBudgets`. */
    method BeginLoad()
      modifies this
      ensures State() == old(State()).(loading := true, error := None, noData := false)
      ensures Screen() == Loading
    {
      loading := true;
      error := None;
      noData := false;
    }

    /**
     * `loadBudgets()`: `fetchFailed` says whether the awaited `fetchBudgets()`
     * rejected, and `budgets` is the list `prepareChartData` closed over.
     * Afterwards the chart is no longer loading, and exactly one of the error,
     * no-data and chart screens shows.
     */
    method LoadBudgets(budgets: Option<seq<Value>>, fetchFailed: bool)
      modifies this
      ensures fetchFailed ==> State() == old(State()).(loading := false, error := Some(LoadFailedMessage), noData := false)
      ensures !fetchFailed && HasBudgets(budgets) ==> State() == PieState(Some(ChartOf(budgets.value)), false, None, false)
      ensures !fetchFailed && !HasBudgets(budgets) ==> State() == old(State()).(loading := false, error := None, noData := true)
      ensures Screen() == if fetchFailed then Failed(LoadFailedMessage)
                          else if HasBudgets(budgets) then Chart(Some(ChartOf(budgets.value)))
                          else NoData
    {
      BeginLoad();
      if fetchFailed {
        error := Some(LoadFailedMessage);
        loading := false;
        assert LoadFailedMessage[0] == 'F';
      } else {
        PrepareChartData(budgets);
      }
    }
  }
}
