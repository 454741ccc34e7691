/**
 * The expense store (`ExpenseProvider`): the expense list, the error fields,
 * and `updateCounter`, the count of confirmed changes that the charts watch.
 * Every callback is a no-op without a signed-in user. A ghost log records the
 * confirmed changes, and the invariant ties the counter to its length.
 */
module ExpenseContext {
  import opened Wrappers
  import opened Text
  import opened JsValues
  import opened Records
  import opened ErrorMapping

  /**
   * The expense requests the store issues. The expense service module that
   * builds the HTTP requests is not part of this model.
   */
  datatype ExpenseCall =
    | GetUserExpenses(userId: Value)
    | CreateExpense(expenseData: Value)
    | UpdateExpense(expenseId: Value, expenseData: Value)
    | DeleteExpense(expenseId: Value)

  /** A confirmed change to the list, as the ghost log records it. */
  datatype Mutation =
    | Added(expense: Value)
    | Updated(expenseId: Value, expenseData: Value)
    | Removed(expenseId: Value)

  const ListShapeError := "Failed to fetch expenses correctly"
  /** The message of the ReferenceError that an unbound identifier raises. */
  const UpdateNotDefinedMessage := "updateExpense is not defined"

  /** Everything the store holds except the translation function and the ghost log. */
  datatype ExpenseState = ExpenseState(expenses: seq<Value>, errors: ErrorState, updateCounter: int)

  /**
   * The ReferenceError raised before any request is sent is caught like a
   * server failure. Its message cannot bind to the duplicate key, and it is
   * not in the table, so it always maps to the generic key.
   */
  lemma UpdateNotDefinedIsUnexpected()
    ensures ClassifyExpenseFailure(UpdateNotDefinedMessage) == Classified(UnexpectedKey, None)
  {
    var m := UpdateNotDefinedMessage;
    assert m[0] == 'u' && ExpenseExistsPrefix[0] == 'A';
    var lower := ToLower(m);
    assert lower[0] == 'u' && |lower| == 28;
    assert ExpenseAmountMessage[0] == 'i' && ExpenseDescriptionMessage[0] == 'i';
    assert |"unexpectederror"| == 15;
    assert lower !in ExpenseErrorTable;
  }

  /**
   * What the missing import costs: when a record matches `expenseId` and the
   * submitted data changes one of its fields, the intended merge changes the
   * list, while the update as written leaves it as it was.
   */
  lemma AsWrittenLosesEdit(expenses: seq<Value>, expenseId: Value, expenseData: Value, i: nat, k: string)
    requires i < |expenses| && Matches(expenses[i], "expensesId", expenseId)
    requires HasKey(OwnProps(expenseData), k) && Get(expenseData, k) != Get(expenses[i], k)
    ensures MergeWhere(expenses, "expensesId", expenseId, expenseData) != expenses
  {
    MergedField(expenses, "expensesId", expenseId, expenseData, i, k);
  }

  class ExpenseProvider {
    /** `user?.id` of the signed-in user. */
    const userId: Value
    var expenses: seq<Value>
    var error: string
    var errorKey: string
    var dynamicErrorContent: seq<Prop>
    var updateCounter: int
    /** `t` of the active language. */
    var translate: Translate
    /** The confirmed changes so far, oldest first. */
    ghost var mutations: seq<Mutation>

    function Errors(): ErrorState
      reads this
    {
      ErrorState(error, errorKey, dynamicErrorContent)
    }

    function State(): ExpenseState
      reads this
    {
      ExpenseState(expenses, Errors(), updateCounter)
    }

    /** The error fields keep their shape, and the counter counts the confirmed changes. */
    ghost predicate Valid()
      reads this
    {
      && ErrorInvariant(Errors(), ExpenseKeys)
      && updateCounter == |mutations|
    }

    constructor (userId: Value, translate: Translate)
      ensures Valid()
      ensures this.userId == userId && this.translate == translate
      ensures State() == ExpenseState([], InitialErrorState, 0) && mutations == []
    {
      this.userId := userId;
      this.translate := translate;
      expenses := [];
      error, errorKey, dynamicErrorContent := "", "", [];
      updateCounter := 0;
      mutations := [];
    }

    /** `fetchExpenses(forUser)`: the list is replaced only by an array; the counter is not touched. */
    method FetchExpenses(forUser: Value, outcome: Remote<Value>) returns (sent: seq<ExpenseCall>)
      requires Valid()
      modifies this
      ensures Valid() && translate == old(translate) && mutations == old(mutations)
      ensures sent == [GetUserExpenses(forUser)]
      ensures outcome.Ok? && outcome.value.Arr? ==> State() == old(State()).(expenses := outcome.value.items)
      ensures outcome.Ok? && !outcome.value.Arr? ==>
        State() == old(State()).(errors := old(Errors()).(error := ListShapeError))
      ensures outcome.Err? ==> State() == old(State()).(errors := old(Errors()).(error := MessageOr(outcome.message)))
    {
      ExpenseTransitionsKeepInvariant(Errors(), "", "", translate);
      sent := [GetUserExpenses(forUser)];
      match outcome
      case Ok(response) =>
        if response.Arr? {
          expenses := response.items;
        } else {
          error := ListShapeError;
        }
      case Err(message) =>
        error := MessageOr(message);
    }

    /** The effect that loads the list once a user id is known. */
    method OnUserId(outcome: Remote<Value>) returns (sent: seq<ExpenseCall>)
      requires Valid()
      modifies this
      ensures Valid() && translate == old(translate) && mutations == old(mutations)
      ensures !Truthy(userId) ==> sent == [] && State() == old(State())
      ensures Truthy(userId) ==> sent == [GetUserExpenses(userId)]
    {
      sent := [];
      if Truthy(userId) {
        sent := FetchExpenses(userId, outcome);
      }
    }

    /** Records a classified create/update failure in the error fields. */
    method RecordFailure(message: string)
      requires Valid()
      modifies this
      ensures Valid() && translate == old(translate) && mutations == old(mutations)
      ensures State() == old(State()).(errors := OnFailure(ClassifyExpenseFailure(message), old(Errors()), translate))
    {
      ExpenseTransitionsKeepInvariant(Errors(), message, "", translate);
      var c := ClassifyExpenseFailure(message);
      match c.name
      case Some(n) =>
        dynamicErrorContent := NameParams(n);
        errorKey := c.key;
        error := translate(c.key, NameParams(n));
      case None =>
        errorKey := c.key;
        error := translate(c.key, []);
    }

    /** Counts one confirmed change and clears the displayed error. */
    method Confirm(m: Mutation)
      requires Valid()
      modifies this
      ensures Valid() && translate == old(translate) && mutations == old(mutations) + [m]
      ensures State() == old(State()).(errors := old(Errors()).(error := ""), updateCounter := old(updateCounter) + 1)
    {
      ExpenseTransitionsKeepInvariant(Errors(), "", "", translate);
      mutations := mutations + [m];
      updateCounter := updateCounter + 1;
      error := "";
    }

    /**
     * `addNewExpense(expenseData)`: on success the server's record is appended
     * and the counter advances; on failure only the error fields change.
     */
    method AddNewExpense(expenseData: Value, outcome: Remote<Value>) returns (sent: seq<ExpenseCall>)
      requires Valid()
      modifies this
      ensures Valid() && translate == old(translate)
      ensures !Truthy(userId) ==> sent == [] && State() == old(State()) && mutations == old(mutations)
      ensures Truthy(userId) && outcome.Ok? ==>
        && sent == [CreateExpense(CreatePayload(expenseData, userId))]
        && mutations == old(mutations) + [Added(outcome.value)]
        && State() == ExpenseState(old(expenses) + [outcome.value], old(Errors()).(error := ""), old(updateCounter) + 1)
      ensures Truthy(userId) && outcome.Err? ==>
        && sent == [CreateExpense(CreatePayload(expenseData, userId))]
        && mutations == old(mutations)
        && State() == old(State()).(errors := OnFailure(ClassifyExpenseFailure(outcome.message), old(Errors()), translate))
    {
      if !Truthy(userId) {
        return [];
      }
      sent := [CreateExpense(CreatePayload(expenseData, userId))];
      match outcome
      case Ok(response) =>
        expenses := expenses + [response];
        Confirm(Added(response));
      case Err(message) =>
        RecordFailure(message);
    }

    /**
     * `updateExistingExpense(expenseId, expenseData)` as evidently intended,
     * with the update function imported: on success the submitted fields are
     * merged over every record whose `expensesId` is `expenseId` and the
     * counter advances. The server's response is not used.
     */
    method UpdateExistingExpense(expenseId: Value, expenseData: Value, outcome: Remote<Value>)
      returns (sent: seq<ExpenseCall>)
      requires Valid()
      modifies this
      ensures Valid() && translate == old(translate)
      ensures !Truthy(userId) ==> sent == [] && State() == old(State()) && mutations == old(mutations)
      ensures Truthy(userId) && outcome.Ok? ==>
        && sent == [UpdateExpense(expenseId, expenseData)]
        && mutations == old(mutations) + [Updated(expenseId, expenseData)]
        && State() == ExpenseState(MergeWhere(old(expenses), "expensesId", expenseId, expenseData),
                                   old(Errors()).(error := ""), old(updateCounter) + 1)
      ensures Truthy(userId) && outcome.Err? ==>
        && sent == [UpdateExpense(expenseId, expenseData)]
        && mutations == old(mutations)
        && State() == old(State()).(errors := OnFailure(ClassifyExpenseFailure(outcome.message), old(Errors()), translate))
    {
      if !Truthy(userId) {
        return [];
      }
      sent := [UpdateExpense(expenseId, expenseData)];
      match outcome
      case Ok(_) =>
        expenses := MergeWhere(expenses, "expensesId", expenseId, expenseData);
        Confirm(Updated(expenseId, expenseData));
      case Err(message) =>
        RecordFailure(message);
    }

    /**
     * `updateExistingExpense` as written: `updateExpense` is never imported, so
     * the call raises a ReferenceError inside the `try`. No request is sent,
     * the list and the counter never change, and the generic error is shown.
     */
    method UpdateExistingExpenseAsWritten(expenseId: Value, expenseData: Value) returns (sent: seq<ExpenseCall>)
      requires Valid()
      modifies this
      ensures Valid() && translate == old(translate) && mutations == old(mutations)
      ensures sent == []
      ensures !Truthy(userId) ==> State() == old(State())
      ensures Truthy(userId) ==>
        State() == old(State()).(errors := ErrorState(translate(UnexpectedKey, []), UnexpectedKey, old(dynamicErrorContent)))
    {
      sent := [];
      if !Truthy(userId) {
        return;
      }
      UpdateNotDefinedIsUnexpected();
      RecordFailure(UpdateNotDefinedMessage);
    }

    /**
     * `removeExpense(expenseId)`: only a confirmed delete filters out the
     * records whose `expensesId` is `expenseId` and advances the counter; a
     * failure only sets the message.
     */
    method RemoveExpense(expenseId: Value, outcome: Remote<Value>) returns (sent: seq<ExpenseCall>)
      requires Valid()
      modifies this
      ensures Valid() && translate == old(translate)
      ensures !Truthy(userId) ==> sent == [] && State() == old(State()) && mutations == old(mutations)
      ensures Truthy(userId) && outcome.Ok? ==>
        && sent == [DeleteExpense(expenseId)]
        && mutations == old(mutations) + [Removed(expenseId)]
        && State() == ExpenseState(RemoveWhere(old(expenses), "expensesId", expenseId),
                                   old(Errors()).(error := ""), old(updateCounter) + 1)
      ensures Truthy(userId) && outcome.Err? ==>
        && sent == [DeleteExpense(expenseId)]
        && mutations == old(mutations)
        && State() == old(State()).(errors := old(Errors()).(error := MessageOr(outcome.message)))
    {
      if !Truthy(userId) {
        return [];
      }
      sent := [DeleteExpense(expenseId)];
      match outcome
      case Ok(_) =>
        expenses := RemoveWhere(expenses, "expensesId", expenseId);
        Confirm(Removed(expenseId));
      case Err(message) =>
        ExpenseTransitionsKeepInvariant(Errors(), "", MessageOr(message), translate);
        error := MessageOr(message);
    }

    /** The exposed `setError`: replaces the displayed text only. */
    method SetError(text: string)
      requires Valid()
      modifies this
      ensures Valid() && translate == old(translate) && mutations == old(mutations)
      ensures State() == old(State()).(errors := old(Errors()).(error := text))
    {
      ExpenseTransitionsKeepInvariant(Errors(), "", text, translate);
      error := text;
    }

    /** `resetError()`: clears the displayed text only; the key and parameters stay. */
    method ResetError()
      requires Valid()
      modifies this
      ensures Valid() && translate == old(translate) && mutations == old(mutations)
      ensures State() == old(State()).(errors := old(Errors()).(error := ""))
    {
      SetError("");
    }

    /** `resetExpError()`: the same transition as `resetError`. */
    method ResetExpError()
      requires Valid()
      modifies this
      ensures Valid() && translate == old(translate) && mutations == old(mutations)
      ensures State() == old(State()).(errors := old(Errors()).(error := ""))
    {
      SetError("");
    }

    /** The `languageChanged` handler: switch to `t` and re-render the stored error whenever a key is stored. */
    method LanguageChanged(t: Translate)
      requires Valid()
      modifies this
      ensures Valid() && translate == t && mutations == old(mutations)
      ensures State() == old(State()).(errors := ExpenseLanguageChanged(old(Errors()), t))
    {
      ExpenseTransitionsKeepInvariant(Errors(), "", "", t);
      translate := t;
      if errorKey != "" {
        error := t(errorKey, dynamicErrorContent);
      }
    }
  }
}
