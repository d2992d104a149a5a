/**
  The part of the external HTTP library the resource accessor relies on, as
  values: the request it is handed and the outcome it returns. The network
  exchange itself is not modelled.
 */
module Fetch {
  import opened Wrappers
  import opened Clients

  datatype Verb = GET | POST | PUT | DELETE

  /**
    A request as handed to the library: the URL template (":id" left in
    place), the query and path-parameter maps (None when the call leaves them
    nil), the headers and the body (None for no body or a nil pointer).
   */
  datatype Request<T> = Request(
    verb: Verb,
    path: string,
    query: Option<StringMap>,
    params: Option<StringMap>,
    headers: StringMap,
    body: Option<T>)

  /**
    A response: the HTTP status, the body's numeric "code" field (0 when
    absent), its "message" field ("" when absent) and the raw body text.
   */
  datatype Response = Response(status: int, code: int, message: string, text: string)

  /** What one library call returns: a transport error, or a response. */
  datatype Outcome = Failed(cause: string) | Received(response: Response)
}
