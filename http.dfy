/**
 * What the server's controllers produce: a status among those of section 15
 * of RFC 9110 that the endpoints use, and a body that is either an entity or
 * a plain message. The services' exceptions become a `Failure` value.
 */
module Http {
  import opened JsValues

  datatype Status = Ok200 | Created201 | BadRequest400 | NotFound404 | InternalError500

  /** The status code (RFC 9110 sections 15.3.1, 15.3.2, 15.5.1, 15.5.5 and 15.6.1). */
  function Code(s: Status): (r: int)
    ensures 200 <= r < 600
    ensures 200 <= r < 300 <==> s == Ok200 || s == Created201
    ensures 400 <= r < 500 <==> s == BadRequest400 || s == NotFound404
  {
    match s
    case Ok200 => 200
    case Created201 => 201
    case BadRequest400 => 400
    case NotFound404 => 404
    case InternalError500 => 500
  }

  /** Different statuses have different codes. */
  lemma CodeInjective(s1: Status, s2: Status)
    ensures Code(s1) == Code(s2) <==> s1 == s2
  {
  }

  /** A response body: a serialised entity (its JSON form), or a plain string. */
  datatype Body = Entity(value: Value) | Message(text: string)

  datatype Response = Response(status: Status, body: Body)

  /** The exceptions the services throw, each with its message. The service classes are not part of this model. */
  datatype Failure =
    | DuplicateBudgetName(message: string)
    | DuplicateExpenseName(message: string)
    | DuplicateUser(message: string)
    | InvalidInput(message: string)
    | InvalidDate(message: string)
    | UserNotFound(message: string)
    | BudgetNotFound(message: string)
    | ExpenseNotFound(message: string)
    | DataIntegrityViolation(message: string)
    | OtherException(message: string)

  /** How the service call a handler makes ends. */
  datatype ServiceOutcome = Returned(value: Value) | Threw(failure: Failure)

  /** What a handler does: respond, or let the exception propagate out of it. */
  datatype Handled = Responded(response: Response) | Propagated(failure: Failure)

  predicate HasStatus(h: Handled, s: Status) {
    h.Responded? && h.response.status == s
  }

  /** The prefix the handlers put before an invalid-input message. */
  const InvalidInputPrefix := "Invalid input: "

  /**
   * A handler without a `try`, or one that returns the service's result
   * directly: 200 with the result unchanged, and any exception propagates.
   */
  function PassThrough(o: ServiceOutcome): (r: Handled)
    ensures o.Returned? <==> r.Responded?
    ensures o.Returned? ==> r.response == Response(Ok200, Entity(o.value))
    ensures o.Threw? ==> r == Propagated(o.failure)
  {
    match o
    case Returned(v) => Responded(Response(Ok200, Entity(v)))
    case Threw(f) => Propagated(f)
  }
}
