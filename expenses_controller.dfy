/** The expense endpoints: how each maps the expense service's outcome to a response. */
module ExpensesController {
  import opened Text
  import opened JsValues
  import opened Http

  const UpdateFailedMessage := "An unexpected error occurred. Please try again later."
  const DeleteFailedMessage := "An error occurred while deleting the expense"

  /** `"An expense with ID = " + id + " is not found"` */
  function UpdateNotFoundMessage(id: int): string {
    "An expense with ID = " + IntToString(id) + " is not found"
  }

  /** `"Expense with ID " + id + " deleted successfully"` */
  function DeletedMessage(id: int): string {
    "Expense with ID " + IntToString(id) + " deleted successfully"
  }

  /** `"Expense with ID " + id + " not found"` */
  function DeleteNotFoundMessage(id: int): string {
    "Expense with ID " + IntToString(id) + " not found"
  }

  /**
   * `POST /expenses`: 201 with the created expense; 400 with the raw message
   * for a duplicate name; 400 with the prefixed message for invalid input, an
   * invalid date or an unknown budget; any other exception propagates.
   */
  function CreateExpense(o: ServiceOutcome): (r: Handled)
    ensures HasStatus(r, Created201) <==> o.Returned?
    ensures o.Returned? ==> r.response.body == Entity(o.value)
    ensures HasStatus(r, BadRequest400) <==>
      (o.Threw? && (o.failure.DuplicateExpenseName? || o.failure.InvalidInput? || o.failure.InvalidDate? || o.failure.BudgetNotFound?))
    ensures !HasStatus(r, NotFound404) && !HasStatus(r, InternalError500)
    ensures r.Propagated? <==>
      (o.Threw? && !(o.failure.DuplicateExpenseName? || o.failure.InvalidInput? || o.failure.InvalidDate? || o.failure.BudgetNotFound?))
    ensures r.Propagated? ==> r.failure == o.failure
    ensures o.Threw? && o.failure.DuplicateExpenseName? ==> r.response.body == Message(o.failure.message)
    ensures o.Threw? && (o.failure.InvalidInput? || o.failure.InvalidDate? || o.failure.BudgetNotFound?) ==>
      r.response.body == Message(InvalidInputPrefix + o.failure.message)
  {
    match o
    case Returned(v) => Responded(Response(Created201, Entity(v)))
    case Threw(f) =>
      match f
      case DuplicateExpenseName(m) => Responded(Response(BadRequest400, Message(m)))
      case InvalidInput(m) => Responded(Response(BadRequest400, Message(InvalidInputPrefix + m)))
      case InvalidDate(m) => Responded(Response(BadRequest400, Message(InvalidInputPrefix + m)))
      case BudgetNotFound(m) => Responded(Response(BadRequest400, Message(InvalidInputPrefix + m)))
      case _ => Propagated(f)
  }

  /**
   * `GET /expenses`, `GET /expenses/{id}` and `GET /expenses/user/{userId}`
   * return the service's result unchanged.
   */
  lemma GettersPassThrough(o: ServiceOutcome)
    ensures o.Returned? ==> PassThrough(o) == Responded(Response(Ok200, Entity(o.value)))
    ensures o.Threw? ==> PassThrough(o) == Propagated(o.failure)
  {
  }

  /**
   * `PUT /expenses/{id}`: 200 with the updated expense; 404 naming the id for
   * an unknown expense; 400 prefixed for invalid input or an unknown budget;
   * 500 with a fixed message for anything else. Nothing propagates.
   */
  function UpdateExpense(id: int, o: ServiceOutcome): (r: Handled)
    ensures r.Responded?
    ensures HasStatus(r, Ok200) <==> o.Returned?
    ensures o.Returned? ==> r.response.body == Entity(o.value)
    ensures HasStatus(r, NotFound404) <==> o.Threw? && o.failure.ExpenseNotFound?
    ensures HasStatus(r, NotFound404) ==> r.response.body == Message(UpdateNotFoundMessage(id))
    ensures HasStatus(r, BadRequest400) <==> o.Threw? && (o.failure.InvalidInput? || o.failure.BudgetNotFound?)
    ensures HasStatus(r, BadRequest400) ==> r.response.body == Message(InvalidInputPrefix + o.failure.message)
    ensures HasStatus(r, InternalError500) <==>
      o.Threw? && !(o.failure.ExpenseNotFound? || o.failure.InvalidInput? || o.failure.BudgetNotFound?)
    ensures HasStatus(r, InternalError500) ==> r.response.body == Message(UpdateFailedMessage)
  {
    match o
    case Returned(v) => Responded(Response(Ok200, Entity(v)))
    case Threw(f) =>
      match f
      case ExpenseNotFound(_) => Responded(Response(NotFound404, Message(UpdateNotFoundMessage(id))))
      case InvalidInput(m) => Responded(Response(BadRequest400, Message(InvalidInputPrefix + m)))
      case BudgetNotFound(m) => Responded(Response(BadRequest400, Message(InvalidInputPrefix + m)))
      case _ => Responded(Response(InternalError500, Message(UpdateFailedMessage)))
  }

  /**
   * `DELETE /expenses/{id}`: 200 confirming the id, 404 naming the id for an
   * unknown expense, 500 with a fixed message for anything else. Nothing propagates.
   */
  function DeleteExpense(id: int, o: ServiceOutcome): (r: Handled)
    ensures r.Responded?
    ensures o.Returned? <==> r.response == Response(Ok200, Message(DeletedMessage(id)))
    ensures HasStatus(r, NotFound404) <==> o.Threw? && o.failure.ExpenseNotFound?
    ensures HasStatus(r, NotFound404) ==> r.response.body == Message(DeleteNotFoundMessage(id))
    ensures HasStatus(r, InternalError500) <==> o.Threw? && !o.failure.ExpenseNotFound?
    ensures HasStatus(r, InternalError500) ==> r.response.body == Message(DeleteFailedMessage)
  {
    match o
    case Returned(_) => Responded(Response(Ok200, Message(DeletedMessage(id))))
    case Threw(f) =>
      if f.ExpenseNotFound? then Responded(Response(NotFound404, Message(DeleteNotFoundMessage(id))))
      else Responded(Response(InternalError500, Message(DeleteFailedMessage)))
  }

  /** The id-bearing messages name the id they were built from: different ids give different messages. */
  lemma MessagesIdentifyTheId(a: int, b: int)
    ensures UpdateNotFoundMessage(a) == UpdateNotFoundMessage(b) <==> a == b
    ensures DeletedMessage(a) == DeletedMessage(b) <==> a == b
    ensures DeleteNotFoundMessage(a) == DeleteNotFoundMessage(b) <==> a == b
  {
    var x, y := IntToString(a), IntToString(b);
    if UpdateNotFoundMessage(a) == UpdateNotFoundMessage(b) {
      Unframe("An expense with ID = ", x, y, " is not found");
    }
    if DeletedMessage(a) == DeletedMessage(b) {
      Unframe("Expense with ID ", x, y, " deleted successfully");
    }
    if DeleteNotFoundMessage(a) == DeleteNotFoundMessage(b) {
      Unframe("Expense with ID ", x, y, " not found");
    }
    if x == y {
      IntToStringInjective(a, b);
    }
  }

  /** The same text around two strings is equal only if they are. */
  lemma Unframe(p: string, x: string, y: string, q: string)
    requires p + x + q == p + y + q
    ensures x == y
  {
    var s, t := p + x + q, p + y + q;
    assert |x| == |y|;
    assert x == s[|p|..|p| + |x|];
    assert y == t[|p|..|p| + |y|];
  }
}
