/** What a `fetch` can come back with, given to the model as a parameter in place of
    the network, and how an async action ends. */
module Http {
  import opened Wrappers
  import opened Json

  /** The result of `response.json()`: the parsed body, or the SyntaxError it throws. */
  datatype Parsed<T> = Valid(value: T) | Unreadable(reason: string)

  /** The `error` field of a failure payload such as `{ error: 'Task not found' }`. */
  datatype ErrorPayload = ErrorPayload(error: Option<string>)

  /** The outcome of one request/response cycle. */
  datatype HttpOutcome<T> =
    | NetworkError(reason: string)            // `fetch` itself rejected
    | Success(body: Parsed<T>)                // `response.ok`
    | ErrorStatus(payload: Parsed<ErrorPayload>)  // `!response.ok`

  /** How an async action ended for its caller: it returned, or it threw. */
  datatype Completion = Returned | Threw(message: string)

  /** A request as it leaves the client: method, URL and JSON body, if any. */
  datatype Request = Request(verb: string, url: string, body: Option<JsonValue>)
}
