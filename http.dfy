/**
 * Network responses as inputs. Every `fetch` the site performs is replaced by
 * a value that says what came back: a transport failure, or a status and a
 * body that the page then parses as JSON.
 */
module Http {
  import opened Js

  /** The string fields the pages read out of a JSON object body. */
  datatype Payload = Payload(
    access: Option<string>,
    refresh: Option<string>,
    error: Option<string>,
    success: Option<string>,
    pesapalUrl: Option<string>)

  /** A response body as JSON parsing sees it. */
  datatype JsonBody =
    | Unparsable        // `JSON.parse` or `res.json()` throws
    | JsonNull          // the body is the JSON literal null
    | Object(payload: Payload)

  datatype Response = Response(status: int, body: JsonBody) {
    /** `res.ok` */
    predicate Ok() {
      200 <= status <= 299
    }
  }

  /** The settled `fetch` promise: rejected (a transport failure) or a response. */
  datatype Fetched = NetworkError | Received(response: Response)

  /** A list endpoint: the rows it returned, or any failure on the way to them. */
  datatype Listing<T> = Failed | Rows(rows: seq<T>)

  /** A toast notification shown to the user. */
  datatype Toast = Success(message: string) | Failure(message: string)

  /**
   * The value a page holds after parsing the body with a fallback of null
   * (`try { JSON.parse(raw) } catch {}` or `res.json().catch(() => null)`).
   */
  function Data(body: JsonBody): Option<Payload> {
    match body
    case Object(p) => Some(p)
    case _ => None
  }

  /** `(data && data.error) || fallback` */
  function ErrorOr(data: Option<Payload>, fallback: string): (msg: string)
    ensures data.Some? && Truthy(data.value.error) ==> msg == data.value.error.value
    ensures !(data.Some? && Truthy(data.value.error)) ==> msg == fallback
  {
    if data.Some? then OrElse(data.value.error, fallback) else fallback
  }
}
