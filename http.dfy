/**
 * The values that cross the HTTP boundary of the contact endpoint: the
 * violations the validation library records, the JSON bodies the handlers
 * send, and the two ways a middleware can finish.
 */
module Http {
  import opened Wrappers

  /**
   * One entry of the validation library's error list: the body field it is
   * about (`path`), the message, and the field's value when the failing
   * validator ran.
   */
  datatype Violation = Violation(path: string, msg: string, value: string)

  /** One entry of the `errors` array of a 400 response: `{field, message, value}`. */
  datatype FieldError = FieldError(field: string, message: string, value: string)

  /**
   * The `errors` member of a response body: either the summarised entries
   * `validateContactForm` builds, or the library's own entries passed
   * through unchanged.
   */
  datatype Errors = Summaries(entries: seq<FieldError>) | Raw(violations: seq<Violation>)

  /**
   * A JSON response body.  A member that is `undefined` in the source is
   * omitted from the serialised JSON, and is `None` here.
   */
  datatype Body = Body(
    success: bool,
    message: string,
    errors: Option<Errors>,
    messageId: Option<string>,
    error: Option<string>)

  datatype Response = Response(status: nat, body: Body)

  /** How a middleware finishes: it calls `next()`, or it writes a response. */
  datatype Outcome = Next | Respond(response: Response)
}
