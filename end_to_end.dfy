/**
 * Properties that span the server and the client: what the client's
 * normalisation makes of a controller's response, and how the stores then
 * classify it; and the stores driven together with the views that use them.
 */
module EndToEnd {
  import opened Wrappers
  import opened Text
  import opened JsValues
  import opened ErrorMapping
  import opened ServiceClient
  import opened Http
  import BudgetService
  import BudgetController
  import ExpensesController
  import BudgetContext
  import ExpenseContext
  import BudgetPieChart

  /**
   * How axios settles on a response: it resolves for a 2xx status and rejects
   * otherwise, and in both cases its data is the body (a plain-text body
   * stays a string).
   */
  function ToAxios(r: Response): (o: AxiosOutcome)
    ensures o.Resolved? <==> 200 <= Code(r.status) < 300
    ensures r.body.Entity? ==> (if o.Resolved? then o.data else o.responseData) == r.body.value
    ensures r.body.Message? ==> (if o.Resolved? then o.data else o.responseData) == Str(r.body.text)
  {
    var data := match r.body case Entity(v) => v case Message(t) => Str(t);
    if 200 <= Code(r.status) < 300 then Resolved(data) else Rejected(data)
  }

  /** A non-empty text message rejected by the server reaches the client as exactly that message. */
  lemma RejectedMessageArrivesIntact(text: string, fallback: string)
    requires text != ""
    ensures Settle(Rejected(Str(text)), fallback) == Err(text)
  {
  }

  /** The same text in front of two strings makes equal strings only when they are equal. */
  lemma PrefixCancels(p: string, x: string, y: string)
    ensures p + x == p + y <==> x == y
  {
    if p + x == p + y {
      assert x == (p + x)[|p|..];
      assert y == (p + y)[|p|..];
    }
  }

  /**
   * A budget created on the server reaches the store as the resolved value of
   * `createBudget`, which the store then appends.
   */
  lemma CreatedBudgetReachesStore(payload: Value, created: Value)
    ensures BudgetController.CreateBudget(Returned(created)).Responded?
    ensures BudgetService.Result(BudgetService.CreateBudget(payload),
                                 ToAxios(BudgetController.CreateBudget(Returned(created)).response)) == Ok(created)
  {
  }

  /**
   * The server's invalid-input response to a budget create or update, carried
   * to the store by the budget service, is classified by the store's table:
   * the prefix the controller adds is exactly the one the table's keys carry,
   * so the amount and the description keys are reached for exactly their
   * reasons, and any other reason gets the generic key.
   */
  lemma InvalidBudgetInputReachesKey(reason: string, budgetId: Value, budgetData: Value, onCreate: bool)
    ensures var h := if onCreate then BudgetController.CreateBudget(Threw(InvalidInput(reason)))
                     else BudgetController.UpdateBudget(Threw(InvalidInput(reason)));
            var call := if onCreate then BudgetService.CreateBudget(budgetData)
                        else BudgetService.UpdateBudget(budgetId, budgetData);
            && h.Responded? && h.response.status == BadRequest400
            && BudgetService.Result(call, ToAxios(h.response)) == Err(Http.InvalidInputPrefix + reason)
            && (ClassifyBudgetFailure(Http.InvalidInputPrefix + reason).key == InvalidBudgetInputKey
                <==> reason == BudgetAmountReason)
            && (ClassifyBudgetFailure(Http.InvalidInputPrefix + reason).key == BudgetDescriptionKey
                <==> reason == BudgetDescriptionReason)
            && (reason != BudgetAmountReason && reason != BudgetDescriptionReason ==>
                ClassifyBudgetFailure(Http.InvalidInputPrefix + reason).key == UnexpectedKey)
  {
    var message := Http.InvalidInputPrefix + reason;
    assert |message| > 0;
    BudgetClassification(message);
    PrefixCancels(Http.InvalidInputPrefix, reason, BudgetAmountReason);
    PrefixCancels(Http.InvalidInputPrefix, reason, BudgetDescriptionReason);
    assert message[0] == 'I';
    assert BudgetExistsPrefix[0] == 'A';
  }

  lemma PrefixLowered(p: string, q: string)
    requires p == Http.InvalidInputPrefix && q == LowerInvalidInputPrefix
    ensures ToLower(p) == q
  {
    LowerFirstOnly(p);
  }

  /**
   * The expense controller's invalid-input response has the same prefix; the
   * expense store lower-cases the whole message, so its amount and description
   * keys are reached for their reasons in any letter case. (The expense
   * service is assumed to normalise a rejection as the budget service does.)
   */
  lemma InvalidExpenseInputReachesKey(reason: string)
    ensures var h := ExpensesController.CreateExpense(Threw(InvalidInput(reason)));
            && h.Responded? && h.response == Response(BadRequest400, Message(Http.InvalidInputPrefix + reason))
            && (ClassifyExpenseFailure(Http.InvalidInputPrefix + reason).key == InvalidExpenseInputKey
                <==> ToLower(reason) == ExpenseAmountReason)
            && (ClassifyExpenseFailure(Http.InvalidInputPrefix + reason).key == ExpenseDescriptionKey
                <==> ToLower(reason) == ExpenseDescriptionReason)
  {
    var message := Http.InvalidInputPrefix + reason;
    ToLowerConcat(Http.InvalidInputPrefix, reason);
    PrefixLowered(Http.InvalidInputPrefix, LowerInvalidInputPrefix);
    assert ToLower(message) == LowerInvalidInputPrefix + ToLower(reason);
    ExpenseClassification(message);
    PrefixCancels(LowerInvalidInputPrefix, ToLower(reason), ExpenseAmountReason);
    PrefixCancels(LowerInvalidInputPrefix, ToLower(reason), ExpenseDescriptionReason);
  }

  /** The budget service's duplicate-name message for `name`, followed by `rest`. */
  function DuplicateBudgetMessage(name: string, rest: string): string {
    BudgetExistsPrefix + " \"" + name + "\"" + rest
  }

  /**
   * A duplicate-name rejection relayed raw by the controller reaches the
   * store as the duplicate key with the quoted name as parameter, for any
   * name without double quotes.
   */
  lemma DuplicateNameReachesStore(name: string, rest: string, budgetData: Value)
    requires name != [] && forall k :: 0 <= k < |name| ==> name[k] != '"'
    ensures var h := BudgetController.CreateBudget(Threw(DuplicateBudgetName(DuplicateBudgetMessage(name, rest))));
            && h.Responded? && h.response.status == BadRequest400
            && BudgetService.Result(BudgetService.CreateBudget(budgetData), ToAxios(h.response))
               == Err(DuplicateBudgetMessage(name, rest))
            && ClassifyBudgetFailure(DuplicateBudgetMessage(name, rest)) == Classified(BudgetExistsKey, Some(name))
  {
    var p := BudgetExistsPrefix + " ";
    var m := DuplicateBudgetMessage(name, rest);
    assert m == p + "\"" + name + "\"" + rest;
    assert p[..|BudgetExistsPrefix|] == BudgetExistsPrefix;
    assert m[..|BudgetExistsPrefix|] == BudgetExistsPrefix;
    forall k | 0 <= k < |p| ensures p[k] != '"' {
    }
    QuotedNameOfMessage(p, name, rest);
  }

  /**
   * The pie chart's load driven by the budget store: it fetches for an
   * undefined user (the view passes no id), and since the store's fetch
   * swallows every failure the pie chart's error screen never shows; the chart
   * is built from the list as it was before the fetch.
   */
  method LoadPieChart(store: BudgetContext.BudgetProvider, view: BudgetPieChart.BudgetPieChartView, outcome: Remote<Value>)
    returns (sent: seq<BudgetService.BudgetCall>)
    requires store.Valid()
    modifies store, view
    ensures store.Valid()
    ensures sent == [BudgetService.GetBudgetsByUserId(Undefined)]
    ensures !view.Screen().Failed? && !view.Screen().Loading?
    ensures view.Screen() == if |old(store.budgets)| > 0 then BudgetPieChart.Chart(Some(BudgetPieChart.ChartOf(old(store.budgets))))
                             else BudgetPieChart.NoData
  {
    var before := store.budgets;
    sent := store.FetchBudgets(Undefined, outcome);
    view.LoadBudgets(Some(before), false);
  }

  /**
   * A failed add, then a successful one, then a language change: the error
   * the success cleared comes back, re-rendered from the key and parameters
   * the failure stored.
   */
  method StaleErrorReturns(store: ExpenseContext.ExpenseProvider, expenseData: Value, failure: string,
                           created: Value, t: Translate)
    requires store.Valid() && Truthy(store.userId)
    modifies store
    ensures store.Valid()
    ensures store.errorKey == ClassifyExpenseFailure(failure).key != ""
    ensures store.error == t(store.errorKey, store.dynamicErrorContent)
    ensures store.updateCounter == old(store.updateCounter) + 1
  {
    var s1 := store.AddNewExpense(expenseData, Err(failure));
    ExpenseClassification(failure);
    var s2 := store.AddNewExpense(expenseData, Ok(created));
    assert store.error == "";
    store.LanguageChanged(t);
  }
}
