/** What the proxy sees of one outbound HTTP exchange. */
module Http {

  /**
    The end of one `HttpClient` call: a response with its status code, or an
    `HttpRequestException` / `TaskCanceledException` (a timeout) with its message.
   */
  datatype Outcome = Response(statusCode: nat) | Exception(message: string)

  /** `HttpResponseMessage.IsSuccessStatusCode`: the 2xx class (section 15.3 of RFC 9110). */
  predicate IsSuccessStatusCode(code: int)
  {
    200 <= code <= 299
  }

  /** A header or query dictionary, in its enumeration order. */
  type Pairs = seq<(string, string)>
}
