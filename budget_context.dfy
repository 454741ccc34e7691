/**
 * The budget store (`BudgetProvider`): the budget list, the chart snapshot and
 * the error fields, and the callbacks that change them. Each callback is one
 * atomic transition; the settled promises of the service functions it calls
 * are given as inputs, and it returns the service calls it makes, in order.
 */
module BudgetContext {
  import opened Wrappers
  import opened JsValues
  import opened Records
  import opened ErrorMapping
  import opened BudgetService

  const MissingIdError := "Failed to update budget: Missing budget ID"
  const ListShapeError := "Failed to fetch budgets correctly"

  /**
   * The chart snapshot `fetchBudgetCategoriesForChart` leaves: the elements of
   * an array result, and the empty array after any other result or a failure.
   */
  function ChartSnapshot(o: Remote<Value>): (r: seq<Value>)
    ensures o.Ok? && o.value.Arr? ==> r == o.value.items
    ensures !(o.Ok? && o.value.Arr?) ==> r == []
  {
    if o.Ok? && Truthy(o.value) && o.value.Arr? then o.value.items else []
  }

  /** Everything the store holds except the translation function. */
  datatype BudgetState = BudgetState(
    budgets: seq<Value>,
    chartData: seq<Value>,
    errors: ErrorState,
    shouldPopulateForm: bool)

  class BudgetProvider {
    /** `user?.id` of the signed-in user. */
    const userId: Value
    var budgets: seq<Value>
    var chartData: seq<Value>
    var error: string
    var errorKey: string
    var dynamicErrorContent: seq<Prop>
    var shouldPopulateForm: bool
    /** `t` of the active language. */
    var translate: Translate

    function Errors(): ErrorState
      reads this
    {
      ErrorState(error, errorKey, dynamicErrorContent)
    }

    function State(): BudgetState
      reads this
    {
      BudgetState(budgets, chartData, Errors(), shouldPopulateForm)
    }

    ghost predicate Valid()
      reads this
    {
      ErrorInvariant(Errors(), BudgetKeys)
    }

    constructor (userId: Value, translate: Translate)
      ensures Valid()
      ensures this.userId == userId && this.translate == translate
      ensures State() == BudgetState([], [], InitialErrorState, false)
    {
      this.userId := userId;
      this.translate := translate;
      budgets, chartData := [], [];
      error, errorKey, dynamicErrorContent := "", "", [];
      shouldPopulateForm := false;
    }

    /** `fetchBudgets(forUser)`: the list is replaced only by an array; the error is never cleared here. */
    method FetchBudgets(forUser: Value, outcome: Remote<Value>) returns (sent: seq<BudgetCall>)
      requires Valid()
      modifies this
      ensures Valid() && translate == old(translate)
      ensures sent == [GetBudgetsByUserId(forUser)]
      ensures outcome.Ok? && outcome.value.Arr? ==> State() == old(State()).(budgets := outcome.value.items)
      ensures outcome.Ok? && !outcome.value.Arr? ==>
        State() == old(State()).(errors := old(Errors()).(error := ListShapeError))
      ensures outcome.Err? ==> State() == old(State()).(errors := old(Errors()).(error := MessageOr(outcome.message)))
    {
      sent := [GetBudgetsByUserId(forUser)];
      match outcome
      case Ok(response) =>
        if response.Arr? {
          budgets := response.items;
        } else {
          error := ListShapeError;
        }
      case Err(message) =>
        error := MessageOr(message);
    }

    /** `fetchBudgetCategoriesForChart(forUser)`: the snapshot is replaced, or reset to []. */
    method FetchBudgetCategoriesForChart(forUser: Value, outcome: Remote<Value>) returns (sent: seq<BudgetCall>)
      requires Valid()
      modifies this
      ensures Valid() && translate == old(translate)
      ensures sent == [GetBudgetCategoriesForChart(forUser)]
      ensures State() == old(State()).(chartData := ChartSnapshot(outcome))
    {
      sent := [GetBudgetCategoriesForChart(forUser)];
      chartData := ChartSnapshot(outcome);
    }

    /** The effect that loads the list and the chart once a user id is known. */
    method OnUserId(listOutcome: Remote<Value>, chartOutcome: Remote<Value>) returns (sent: seq<BudgetCall>)
      requires Valid()
      modifies this
      ensures Valid() && translate == old(translate)
      ensures !Truthy(userId) ==> sent == [] && State() == old(State())
      ensures Truthy(userId) ==> sent == [GetBudgetsByUserId(userId), GetBudgetCategoriesForChart(userId)]
      ensures Truthy(userId) ==> chartData == ChartSnapshot(chartOutcome)
    {
      sent := [];
      if Truthy(userId) {
        var s1 := FetchBudgets(userId, listOutcome);
        var s2 := FetchBudgetCategoriesForChart(userId, chartOutcome);
        sent := s1 + s2;
      }
    }

    /** Records a classified create/update failure in the error fields. */
    method RecordFailure(message: string)
      requires Valid()
      modifies this
      ensures Valid() && translate == old(translate)
      ensures State() == old(State()).(errors := OnFailure(ClassifyBudgetFailure(message), old(Errors()), translate))
    {
      BudgetTransitionsKeepInvariant(Errors(), message, "", translate);
      var c := ClassifyBudgetFailure(message);
      match c.name
      case Some(n) =>
        dynamicErrorContent := NameParams(n);
        errorKey := c.key;
        error := translate(c.key, NameParams(n));
      case None =>
        errorKey := c.key;
        error := translate(c.key, []);
    }

    /**
     * `addNewBudget(budgetData)`: on success the server's record is appended,
     * the chart is refreshed and the error cleared; on failure only the error
     * fields change.
     */
    method AddNewBudget(budgetData: Value, outcome: Remote<Value>, chartOutcome: Remote<Value>)
      returns (sent: seq<BudgetCall>)
      requires Valid()
      modifies this
      ensures Valid() && translate == old(translate)
      ensures outcome.Ok? ==>
        && sent == [CreateBudget(CreatePayload(budgetData, userId)), GetBudgetCategoriesForChart(userId)]
        && State() == old(State()).(budgets := old(budgets) + [outcome.value],
                                    chartData := ChartSnapshot(chartOutcome),
                                    errors := old(Errors()).(error := ""))
      ensures outcome.Err? ==>
        && sent == [CreateBudget(CreatePayload(budgetData, userId))]
        && State() == old(State()).(errors := OnFailure(ClassifyBudgetFailure(outcome.message), old(Errors()), translate))
    {
      sent := [CreateBudget(CreatePayload(budgetData, userId))];
      match outcome
      case Ok(response) =>
        budgets := budgets + [response];
        var refresh := FetchBudgetCategoriesForChart(userId, chartOutcome);
        sent := sent + refresh;
        error := "";
      case Err(message) =>
        RecordFailure(message);
    }

    /**
     * `updateExistingBudget(budgetId, budgetData)`: a falsy id fails locally
     * without a call; otherwise on success the server's fields are merged over
     * every record whose `id` is `budgetId` and the chart is refreshed.
     */
    method UpdateExistingBudget(budgetId: Value, budgetData: Value, outcome: Remote<Value>, chartOutcome: Remote<Value>)
      returns (sent: seq<BudgetCall>)
      requires Valid()
      modifies this
      ensures Valid() && translate == old(translate)
      ensures !Truthy(budgetId) ==>
        sent == [] && State() == old(State()).(errors := old(Errors()).(error := MissingIdError))
      ensures Truthy(budgetId) && outcome.Ok? ==>
        && sent == [UpdateBudget(budgetId, budgetData), GetBudgetCategoriesForChart(userId)]
        && State() == old(State()).(budgets := MergeWhere(old(budgets), "id", budgetId, outcome.value),
                                    chartData := ChartSnapshot(chartOutcome),
                                    errors := old(Errors()).(error := ""))
      ensures Truthy(budgetId) && outcome.Err? ==>
        && sent == [UpdateBudget(budgetId, budgetData)]
        && State() == old(State()).(errors := OnFailure(ClassifyBudgetFailure(outcome.message), old(Errors()), translate))
    {
      if !Truthy(budgetId) {
        BudgetTransitionsKeepInvariant(Errors(), "", MissingIdError, translate);
        error := MissingIdError;
        return [];
      }
      sent := [UpdateBudget(budgetId, budgetData)];
      match outcome
      case Ok(updatedBudget) =>
        budgets := MergeWhere(budgets, "id", budgetId, updatedBudget);
        var refresh := FetchBudgetCategoriesForChart(userId, chartOutcome);
        sent := sent + refresh;
        error := "";
      case Err(message) =>
        RecordFailure(message);
    }

    /**
     * `removeBudget(budgetId)`: only a confirmed delete filters out the records
     * whose `id` is `budgetId` (and refreshes the chart); a failure only sets the message.
     */
    method RemoveBudget(budgetId: Value, outcome: Remote<Value>, chartOutcome: Remote<Value>)
      returns (sent: seq<BudgetCall>)
      requires Valid()
      modifies this
      ensures Valid() && translate == old(translate)
      ensures outcome.Ok? ==>
        && sent == [DeleteBudget(budgetId), GetBudgetCategoriesForChart(userId)]
        && State() == old(State()).(budgets := RemoveWhere(old(budgets), "id", budgetId),
                                    chartData := ChartSnapshot(chartOutcome),
                                    errors := old(Errors()).(error := ""))
      ensures outcome.Err? ==>
        && sent == [DeleteBudget(budgetId)]
        && State() == old(State()).(errors := old(Errors()).(error := MessageOr(outcome.message)))
    {
      sent := [DeleteBudget(budgetId)];
      match outcome
      case Ok(_) =>
        budgets := RemoveWhere(budgets, "id", budgetId);
        var refresh := FetchBudgetCategoriesForChart(userId, chartOutcome);
        sent := sent + refresh;
        error := "";
      case Err(message) =>
        error := MessageOr(message);
    }

    /** The exposed `setError`: replaces the displayed text only. */
    method SetError(text: string)
      requires Valid()
      modifies this
      ensures Valid() && translate == old(translate)
      ensures State() == old(State()).(errors := old(Errors()).(error := text))
    {
      BudgetTransitionsKeepInvariant(Errors(), "", text, translate);
      error := text;
    }

    /** `resetError()`: clears the displayed text only; the key and parameters stay. */
    method ResetError()
      requires Valid()
      modifies this
      ensures Valid() && translate == old(translate)
      ensures State() == old(State()).(errors := old(Errors()).(error := ""))
    {
      SetError("");
    }

    /** The `languageChanged` handler: switch to `t` and re-render the stored error if it has parameters. */
    method LanguageChanged(t: Translate)
      requires Valid()
      modifies this
      ensures Valid() && translate == t
      ensures State() == old(State()).(errors := BudgetLanguageChanged(old(Errors()), t))
    {
      BudgetTransitionsKeepInvariant(Errors(), "", "", t);
      translate := t;
      if errorKey != "" && |Keys(dynamicErrorContent)| > 0 {
        error := t(errorKey, dynamicErrorContent);
      }
    }

    method EnableFormPopulation()
      requires Valid()
      modifies this
      ensures Valid() && translate == old(translate)
      ensures State() == old(State()).(shouldPopulateForm := true)
    {
      shouldPopulateForm := true;
    }

    method DisableFormPopulation()
      requires Valid()
      modifies this
      ensures Valid() && translate == old(translate)
      ensures State() == old(State()).(shouldPopulateForm := false)
    {
      shouldPopulateForm := false;
    }
  }
}
