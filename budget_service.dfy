/** The budget service functions of the client: their requests and how their promises settle. */
module BudgetService {
  import opened Wrappers
  import opened Text
  import opened JsValues
  import opened ServiceClient

  /** One call of a budget service function, with its arguments. */
  datatype BudgetCall =
    | CreateBudget(budgetData: Value)
    | GetBudgetsByUserId(userId: Value)
    | UpdateBudget(budgetId: Value, budgetData: Value)
    | DeleteBudget(budgetId: Value)
    | GetBudgetCategoriesForChart(userId: Value)

  /** `API_URL`: the API root followed by `/budgets`. */
  function ApiUrl(env: Option<string>): string {
    ApiRoot(env) + "/budgets"
  }

  /** The request each service function sends (template literals render ids with `String`). */
  function RequestFor(env: Option<string>, call: BudgetCall): Request {
    match call
    case CreateBudget(data) => Request(Post, ApiUrl(env), Some(data), [])
    case GetBudgetsByUserId(userId) => Request(Get, ApiUrl(env) + "/user/" + JsString(userId), None, [])
    case UpdateBudget(budgetId, data) => Request(Put, ApiUrl(env) + "/" + JsString(budgetId), Some(data), [])
    case DeleteBudget(budgetId) => Request(Delete, ApiUrl(env) + "/" + JsString(budgetId), None, [])
    case GetBudgetCategoriesForChart(userId) =>
      Request(Get, ApiUrl(env) + "/user/" + JsString(userId) + "/names-and-amounts", None, [])
  }

  /** The fixed message each function throws when the server sent no usable data. */
  const CreateFallback := "An error occurred while creating the budget. Please try again later."
  const ListFallback := "Failed to load budgets. Please refresh the page to try again."
  const UpdateFallback := "An error occurred while updating the budget. Please try again later."
  const DeleteFallback := "An error occurred while deleting the budget. Please try again later."
  const ChartFallback := "Failed to fetch budget categories for chart."

  function Fallback(call: BudgetCall): string {
    match call
    case CreateBudget(_) => CreateFallback
    case GetBudgetsByUserId(_) => ListFallback
    case UpdateBudget(_, _) => UpdateFallback
    case DeleteBudget(_) => DeleteFallback
    case GetBudgetCategoriesForChart(_) => ChartFallback
  }

  lemma FallbacksDistinct()
    ensures CreateFallback != ListFallback && CreateFallback != UpdateFallback
    ensures CreateFallback != DeleteFallback && CreateFallback != ChartFallback
    ensures ListFallback != UpdateFallback && ListFallback != DeleteFallback && ListFallback != ChartFallback
    ensures UpdateFallback != DeleteFallback && UpdateFallback != ChartFallback
    ensures DeleteFallback != ChartFallback
  {
  }

  /** The promise the service function returns for `call`. */
  function Result(call: BudgetCall, o: AxiosOutcome): Remote<Value> {
    Settle(o, Fallback(call))
  }

  /** The two calls are calls of the same service function. */
  predicate SameOperation(c1: BudgetCall, c2: BudgetCall) {
    || (c1.CreateBudget? && c2.CreateBudget?)
    || (c1.GetBudgetsByUserId? && c2.GetBudgetsByUserId?)
    || (c1.UpdateBudget? && c2.UpdateBudget?)
    || (c1.DeleteBudget? && c2.DeleteBudget?)
    || (c1.GetBudgetCategoriesForChart? && c2.GetBudgetCategoriesForChart?)
  }

  /** The five fallbacks are distinct, so a fallback message names the operation that failed. */
  lemma FallbackIdentifiesOperation(c1: BudgetCall, c2: BudgetCall)
    ensures Fallback(c1) == Fallback(c2) <==> SameOperation(c1, c2)
  {
    FallbacksDistinct();
  }

  /**
   * Every budget request goes below `API_URL`; create posts the data itself,
   * update and delete address `API_URL/{id}`, and the chart path extends the
   * list path by `/names-and-amounts`.
   */
  lemma RequestShapes(env: Option<string>, call: BudgetCall)
    ensures StartsWith(RequestFor(env, call).url, ApiUrl(env))
    ensures call.CreateBudget? ==> RequestFor(env, call) == Request(Post, ApiUrl(env), Some(call.budgetData), [])
    ensures call.UpdateBudget? ==>
      (RequestFor(env, call).body == Some(call.budgetData)
       && RequestFor(env, call).url == RequestFor(env, DeleteBudget(call.budgetId)).url)
    ensures call.GetBudgetCategoriesForChart? ==>
      RequestFor(env, call).url == RequestFor(env, GetBudgetsByUserId(call.userId)).url + "/names-and-amounts"
  {
    var u := RequestFor(env, call).url;
    assert u[..|ApiUrl(env)|] == ApiUrl(env);
  }

  /**
   * For a numeric user id the list path ends in the id's decimal digits, which
   * the server's `/budgets/user/{userId}` route reads back as the same number.
   */
  lemma ListPathCarriesUserId(env: Option<string>, n: nat)
    ensures exists digits ::
      && RequestFor(env, GetBudgetsByUserId(Num(n))).url == ApiUrl(env) + "/user/" + digits
      && (forall i :: 0 <= i < |digits| ==> '0' <= digits[i] <= '9')
      && DigitsValue(digits) == n
  {
    NatToStringRoundTrip(n);
    assert JsString(Num(n)) == NatToString(n);
  }

  /**
   * Where a service function's rejection message comes from. A non-empty text
   * body reaches the caller verbatim; an empty message only comes from array
   * data; and a message equal to another operation's fallback was sent by the
   * server, since each function falls back only to its own text.
   */
  lemma RejectionSources(call: BudgetCall, other: BudgetCall, o: AxiosOutcome)
    ensures Result(call, o).Ok? <==> o.Resolved?
    ensures o.Rejected? && o.responseData.Str? && o.responseData.s != "" ==>
      Result(call, o) == Err(o.responseData.s)
    ensures Result(call, o).Err? && Result(call, o).message == "" ==> o.Rejected? && o.responseData.Arr?
    ensures Result(call, o).Err? && Result(call, o).message == Fallback(other) && !SameOperation(call, other) ==>
      o.Rejected? && Truthy(o.responseData)
  {
    SettleCases(o, Fallback(call));
    EmptyMessageOnlyFromArray(o, Fallback(call));
    FallbackIdentifiesOperation(call, other);
  }
}
