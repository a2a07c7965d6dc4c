/**
 * The network as the client sees it through `requests.get`: a request (URL,
 * query parameters, timeout) and what comes back. The remote service is a
 * parameter `Network`, a function from request to exchange.
 */
module Http {
  import opened Json

  /** A query-parameter value: `requests` renders ints in decimal. */
  datatype Param = PStr(s: string) | PInt(i: int)

  datatype Request = Request(url: string, params: map<string, Param>, timeout: int)

  /** The body as `response.json()` sees it: decoded, or a decode error with its text. */
  datatype Body = Decoded(doc: Json) | Undecodable(error: string)

  datatype Reply = Reply(status: int, body: Body)

  /** A reply, or a `RequestException` (timeout, DNS, refused connection) with its text. */
  datatype Exchange = Answered(reply: Reply) | Failed(error: string)

  type Network = Request -> Exchange

  /** What a client call produces, with the requests it issued, in order. */
  datatype Outcome<T> = Outcome(result: T, requests: seq<Request>)
}
