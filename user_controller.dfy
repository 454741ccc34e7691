/** The user endpoints: sign-up and look-up. */
module UserController {
  import opened Wrappers
  import opened JsValues
  import opened Http

  const EmailTakenMessage := "A user with the provided email already exists."
  const NotFoundMessage := "User not found. Proceed with creation."

  /**
   * `POST /users`: 201 with the created user; 400 with the exception's message
   * for a duplicate user, 400 with a fixed message for any other integrity
   * violation; any other exception propagates.
   */
  function CreateUser(o: ServiceOutcome): (r: Handled)
    ensures HasStatus(r, Created201) <==> o.Returned?
    ensures o.Returned? ==> r.response.body == Entity(o.value)
    ensures HasStatus(r, BadRequest400) <==> o.Threw? && (o.failure.DuplicateUser? || o.failure.DataIntegrityViolation?)
    ensures o.Threw? && o.failure.DuplicateUser? ==> r.response.body == Message(o.failure.message)
    ensures o.Threw? && o.failure.DataIntegrityViolation? ==> r.response.body == Message(EmailTakenMessage)
    ensures r.Propagated? <==> o.Threw? && !(o.failure.DuplicateUser? || o.failure.DataIntegrityViolation?)
    ensures r.Propagated? ==> r.failure == o.failure
  {
    match o
    case Returned(u) => Responded(Response(Created201, Entity(u)))
    case Threw(f) =>
      match f
      case DuplicateUser(m) => Responded(Response(BadRequest400, Message(m)))
      case DataIntegrityViolation(_) => Responded(Response(BadRequest400, Message(EmailTakenMessage)))
      case _ => Propagated(f)
  }

  /**
   * `GET /users/find`: always 200, never 404: the user when the look-up found
   * one, otherwise a fixed message inviting the client to create it.
   */
  function FindUser(found: Option<Value>): (r: Response)
    ensures r.status == Ok200
    ensures found.Some? <==> r.body.Entity?
    ensures found.Some? ==> r.body == Entity(found.value)
    ensures found.None? ==> r.body == Message(NotFoundMessage)
  {
    match found
    case Some(u) => Response(Ok200, Entity(u))
    case None => Response(Ok200, Message(NotFoundMessage))
  }
}
