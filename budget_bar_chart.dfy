/**
 * The budget bar chart view. It shares the expenses chart's projection and
 * flag machine, but as written it calls a chart function the chart service
 * does not define and watches a counter the budget store does not provide.
 */
module BudgetBarChart {
  import opened Wrappers
  import opened JsValues
  import opened BarChart

  /**
   * A stand-in for the message of the TypeError that calling the missing
   * import raises; its exact text depends on the bundler.
   */
  const NotAFunctionMessage := "getBudgetsByCategory is not a function"

  /** How a call of `fetchChartData` ends: normally, or with an exception that leaves it. */
  datatype Exit = Completed | Threw(message: string)

  /**
   * `fetchChartData()` as written: `setLoading(true)` runs, then calling the
   * missing import throws synchronously, before any promise exists, so the
   * `.catch` handler never runs. No request is sent, and the exception
   * escapes the effect; the state given is the view's last state before it
   * does. What React then does with the uncaught exception is not modelled.
   */
  method FetchChartDataAsWritten(view: BarChartView) returns (exit: Exit)
    modifies view
    ensures exit == Threw(NotAFunctionMessage)
    ensures view.State() == old(view.State()).(loading := true) && view.lastCounter == old(view.lastCounter)
    ensures view.Screen() == Loading
  {
    view.BeginFetch();
    exit := Threw(NotAFunctionMessage);
  }

  /**
   * `fetchChartData()` with a chart function that exists and settles as
   * `result`: the expenses chart's machine, so loading always ends, and a
   * rejection shows its message; nothing escapes the effect.
   */
  method FetchChartData(view: BarChartView, result: Remote<Value>) returns (exit: Exit)
    modifies view
    ensures exit == Completed
    ensures view.State() == AfterFetch(old(view.State()).(loading := true), result)
    ensures view.lastCounter == old(view.lastCounter)
    ensures !view.loading && view.Screen() != Loading
    ensures result.Err? && result.message != "" ==> view.Screen() == Failed(result.message)
  {
    view.BeginFetch();
    view.SettleFetch(result);
    exit := Completed;
  }

  /** The dependency values the render sees: the budget store has no `updateCounter`, so always `undefined`. */
  function CounterDeps(renders: nat): (r: seq<Value>)
    ensures |r| == renders && forall i :: 0 <= i < renders ==> r[i] == Undefined
  {
    seq(renders, _ => Undefined)
  }

  /** Once it has run, an effect whose dependency stays `undefined` runs no more. */
  lemma {:induction false} NoRunAfterMount(renders: nat)
    ensures EffectRunCount(Some(Undefined), CounterDeps(renders)) == 0
    decreases renders
  {
    if renders > 0 {
      assert CounterDeps(renders)[1..] == CounterDeps(renders - 1);
      NoRunAfterMount(renders - 1);
    }
  }

  /**
   * Over any number of renders, the budget chart's effect runs exactly once,
   * on mount: adding, updating or removing a budget never refreshes it.
   */
  lemma FetchesOnlyOnMount(renders: nat)
    requires renders > 0
    ensures EffectRunCount(None, CounterDeps(renders)) == 1
  {
    assert CounterDeps(renders)[1..] == CounterDeps(renders - 1);
    NoRunAfterMount(renders - 1);
  }
}
