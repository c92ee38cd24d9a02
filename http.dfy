/**
 * The parts of the Fetch API both components use: the request handed to
 * `fetch`, and the outcome of awaiting it.
 */
module Http {
  import opened Wrappers

  datatype Method = Get | Post | Delete

  function MethodName(m: Method): string {
    match m
    case Get => "GET"
    case Post => "POST"
    case Delete => "DELETE"
  }

  /** A plain header object, name to value. */
  type Headers = map<string, string>

  /** What is handed to `fetch`: URL, method, headers and optional body text. */
  datatype OutRequest = OutRequest(url: string, verb: Method, headers: Headers, body: Option<string>)

  /**
   * The statuses of the replies modelled: the range 200 to 599 that the
   * Response constructor accepts (informational statuses are not modelled).
   */
  type Status = s: int | 200 <= s <= 599 witness 200

  /**
   * The null-body statuses of the Fetch standard: a Response with one of these
   * must have a null body, and its constructor throws a TypeError otherwise.
   */
  predicate NullBodyStatus(s: Status) {
    s == 204 || s == 205 || s == 304
  }

  /**
   * The outcome of `fetch` followed by reading the body as text: a reply, or
   * the message of the error that rejected either promise.
   */
  datatype FetchOutcome =
    | Reply(status: Status, statusText: string, text: string)
    | Failed(message: string)

  /** `Response.ok`. */
  predicate IsOk(status: Status) {
    200 <= status <= 299
  }
}
