/** The chart service function of the client: expenses grouped by category. */
module ChartService {
  import opened Wrappers
  import opened Text
  import opened JsValues
  import opened ServiceClient

  const ExpensesByCategoryFallback := "Failed to load expenses by category. Please try again later."

  /** `API_URL`: the API root followed by `/data`. */
  function ApiUrl(env: Option<string>): string {
    ApiRoot(env) + "/data"
  }

  /** `axios.get(`${API_URL}/expenses-by-category`, { params: { userId } })` */
  function ExpensesByCategoryRequest(env: Option<string>, userId: Value): (r: Request)
    ensures r.verb == Get && r.body == None
    ensures r.url == ApiRoot(env) + "/data/expenses-by-category"
    ensures Keys(r.params) == ["userId"] && Lookup(r.params, "userId") == userId
  {
    Request(Get, ApiUrl(env) + "/expenses-by-category", None, [Prop("userId", userId)])
  }

  /** The promise `getExpensesByCategory` returns. */
  function ExpensesByCategoryResult(o: AxiosOutcome): Remote<Value> {
    Settle(o, ExpensesByCategoryFallback)
  }

  /**
   * Success resolves with the body unchanged (an empty map included); a
   * server error with truthy data rejects with exactly that data; null data or
   * no response at all rejects with the fixed fallback.
   */
  lemma ExpensesByCategoryCases(o: AxiosOutcome)
    ensures o.Resolved? ==> ExpensesByCategoryResult(o) == Ok(o.data)
    ensures ExpensesByCategoryResult(Resolved(Obj([]))) == Ok(Obj([]))
    ensures o.Rejected? && o.responseData.Str? && o.responseData.s != "" ==>
      ExpensesByCategoryResult(o) == Err(o.responseData.s)
    ensures ExpensesByCategoryResult(Rejected(Null)) == Err(ExpensesByCategoryFallback)
    ensures ExpensesByCategoryResult(Rejected(Undefined)) == Err(ExpensesByCategoryFallback)
  {
    SettleCases(o, ExpensesByCategoryFallback);
  }
}
