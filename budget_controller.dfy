/** The budget endpoints: how each maps the budget service's outcome to a response. */
module BudgetController {
  import opened JsValues
  import opened Http

  const DeletedMessage := "Budget deleted successfully!"
  const UpdateUserNotFoundMessage := "User not found"

  /** `GET /budgets/user/{userId}`: always 200 with the service's list. */
  function GetBudgetsByUserId(o: ServiceOutcome): (r: Handled)
    ensures o.Returned? ==> r == Responded(Response(Ok200, Entity(o.value)))
    ensures o.Threw? ==> r == Propagated(o.failure)
  {
    PassThrough(o)
  }

  /**
   * `POST /budgets`: 201 with the created budget; 400 with the raw message for
   * a duplicate name, 400 with the prefixed message for invalid input, 404 with
   * the prefixed message for an unknown user; any other exception propagates.
   */
  function CreateBudget(o: ServiceOutcome): (r: Handled)
    ensures HasStatus(r, Created201) <==> o.Returned?
    ensures o.Returned? ==> r.response.body == Entity(o.value)
    ensures HasStatus(r, BadRequest400) <==> o.Threw? && (o.failure.DuplicateBudgetName? || o.failure.InvalidInput?)
    ensures HasStatus(r, NotFound404) <==> o.Threw? && o.failure.UserNotFound?
    ensures r.Propagated? <==>
      o.Threw? && !(o.failure.DuplicateBudgetName? || o.failure.InvalidInput? || o.failure.UserNotFound?)
    ensures r.Propagated? ==> r.failure == o.failure
    ensures o.Threw? && o.failure.DuplicateBudgetName? ==> r.response.body == Message(o.failure.message)
    ensures o.Threw? && (o.failure.InvalidInput? || o.failure.UserNotFound?) ==>
      r.response.body == Message(InvalidInputPrefix + o.failure.message)
  {
    match o
    case Returned(v) => Responded(Response(Created201, Entity(v)))
    case Threw(f) =>
      match f
      case DuplicateBudgetName(m) => Responded(Response(BadRequest400, Message(m)))
      case InvalidInput(m) => Responded(Response(BadRequest400, Message(InvalidInputPrefix + m)))
      case UserNotFound(m) => Responded(Response(NotFound404, Message(InvalidInputPrefix + m)))
      case _ => Propagated(f)
  }

  /**
   * `PUT /budgets/{id}`: 200 with the updated budget; 400 as on create for a
   * duplicate or invalid input; but an unknown user gives 404 with a fixed
   * message, not the prefixed one. Any other exception propagates.
   */
  function UpdateBudget(o: ServiceOutcome): (r: Handled)
    ensures HasStatus(r, Ok200) <==> o.Returned?
    ensures o.Returned? ==> r.response.body == Entity(o.value)
    ensures HasStatus(r, BadRequest400) <==> o.Threw? && (o.failure.DuplicateBudgetName? || o.failure.InvalidInput?)
    ensures HasStatus(r, NotFound404) <==> o.Threw? && o.failure.UserNotFound?
    ensures r.Propagated? <==>
      o.Threw? && !(o.failure.DuplicateBudgetName? || o.failure.InvalidInput? || o.failure.UserNotFound?)
    ensures r.Propagated? ==> r.failure == o.failure
    ensures o.Threw? && o.failure.DuplicateBudgetName? ==> r.response.body == Message(o.failure.message)
    ensures o.Threw? && o.failure.InvalidInput? ==> r.response.body == Message(InvalidInputPrefix + o.failure.message)
    ensures o.Threw? && o.failure.UserNotFound? ==> r.response.body == Message(UpdateUserNotFoundMessage)
  {
    match o
    case Returned(v) => Responded(Response(Ok200, Entity(v)))
    case Threw(f) =>
      match f
      case DuplicateBudgetName(m) => Responded(Response(BadRequest400, Message(m)))
      case InvalidInput(m) => Responded(Response(BadRequest400, Message(InvalidInputPrefix + m)))
      case UserNotFound(_) => Responded(Response(NotFound404, Message(UpdateUserNotFoundMessage)))
      case _ => Propagated(f)
  }

  /**
   * `DELETE /budgets/{id}`: 200 with a fixed confirmation, 404 with the
   * prefixed message for an unknown budget; any other exception propagates.
   */
  function DeleteBudget(o: ServiceOutcome): (r: Handled)
    ensures o.Returned? <==> r == Responded(Response(Ok200, Message(DeletedMessage)))
    ensures HasStatus(r, NotFound404) <==> o.Threw? && o.failure.BudgetNotFound?
    ensures o.Threw? && o.failure.BudgetNotFound? ==> r.response.body == Message(InvalidInputPrefix + o.failure.message)
    ensures r.Propagated? <==> o.Threw? && !o.failure.BudgetNotFound?
    ensures r.Propagated? ==> r.failure == o.failure
  {
    match o
    case Returned(_) => Responded(Response(Ok200, Message(DeletedMessage)))
    case Threw(f) =>
      if f.BudgetNotFound? then Responded(Response(NotFound404, Message(InvalidInputPrefix + f.message)))
      else Propagated(f)
  }

  /**
   * An unknown user is reported differently by create and update: both 404,
   * but only create's body carries the exception's message.
   */
  lemma UserNotFoundDiffers(m: string)
    ensures CreateBudget(Threw(UserNotFound(m))).response == Response(NotFound404, Message(InvalidInputPrefix + m))
    ensures UpdateBudget(Threw(UserNotFound(m))).response == Response(NotFound404, Message(UpdateUserNotFoundMessage))
    ensures CreateBudget(Threw(UserNotFound(m))) != UpdateBudget(Threw(UserNotFound(m)))
  {
    assert |InvalidInputPrefix + m| >= 15 > |UpdateUserNotFoundMessage|;
  }
}
