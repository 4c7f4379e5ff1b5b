/**
 * The backend as the components see it: the requests they issue and the
 * abstract outcome of each one. Transport, base URL and response-shape
 * tolerance are not modelled; a successful reply carries the value the
 * component uses.
 */
module Http {
  import opened Common

  datatype Verb = Get | Post | Put | Delete

  /** The JSON bodies the components send. */
  datatype Body =
    | NoBody
    | Credentials(email: string, password: string)
    | Registration(name: string, email: string, password: string, role: string)
    | AssignmentFields(title: string, description: string, dueDate: string, status: string,
                       createdBy: Option<string>)
    | StatusChange(status: string)
    | NewSubmission(assignmentId: Option<string>, content: string)

  datatype Request = Request(verb: Verb, path: string, body: Body)

  function GetRequest(path: string): Request
  {
    Request(Get, path, NoBody)
  }

  /**
   * A failed call: `message` is `err.response?.data?.message` (the
   * backend's text, when there is one) and `errMessage` is `err.message`.
   */
  datatype HttpError = HttpError(message: Option<string>, errMessage: string)

  datatype Reply<T> = Ok(value: T) | Fail(error: HttpError)

  /** `err?.response?.data?.message || fallback`. */
  function MessageOr(e: HttpError, fallback: string): (r: string)
    ensures Truthy(e.message) ==> r == e.message.value
    ensures !Truthy(e.message) ==> r == fallback
  {
    OrElse(e.message, fallback)
  }

  /** `err?.response?.data?.message || err.message || fallback`. */
  function MessageOrErrorOr(e: HttpError, fallback: string): (r: string)
    ensures Truthy(e.message) ==> r == e.message.value
    ensures !Truthy(e.message) && e.errMessage != "" ==> r == e.errMessage
    ensures !Truthy(e.message) && e.errMessage == "" ==> r == fallback
  {
    OrElse(Or(e.message, Some(e.errMessage)), fallback)
  }
}
