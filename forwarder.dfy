/**
  The forwarder: builds the outbound POST for one webhook (target URL, query
  string, relayed headers) and maps the downstream's answer to a
  `ForwardResult`. The HTTP exchange itself is the `send` argument.
 */
module Forwarding {

  import opened Wrappers
  import opened Text
  import opened Http
  import opened Config
  import UriEscaping

  /** Transport-framing headers that are never relayed (compared ignoring case). */
  const RestrictedHeaders: set<string> := {"Content-Length", "Host", "Connection", "Accept-Encoding"}

  predicate IsRestricted(name: string)
  {
    exists r | r in RestrictedHeaders :: EqualsIgnoreCase(name, r)
  }

  const DefaultTimeoutSeconds := 10

  /** The client timeout: the configured seconds, or the default when not positive. */
  function EffectiveTimeout(configured: int): (t: int)
    ensures t > 0
    ensures configured > 0 ==> t == configured
    ensures configured <= 0 ==> t == DefaultTimeoutSeconds
  {
    if configured <= 0 then DefaultTimeoutSeconds else configured
  }

  datatype ForwardResult = ForwardResult(success: bool, error: Option<string>, statusCode: Option<nat>)

  const NotConfiguredError := "Forwarding base URL is not configured"
  const StatusFailurePrefix := "Forwarding failed with status "
  const ExceptionPrefix := "Forwarding exception: "

  /** The result of a request that was sent. */
  function ResponseResult(send: Outcome): (r: ForwardResult)
    ensures r.success <==> send.Response? && IsSuccessStatusCode(send.statusCode)
    ensures r.success <==> r.error == None
    ensures r.statusCode == (if send.Response? then Some(send.statusCode) else None)
    ensures send.Exception? ==> r.error == Some(ExceptionPrefix + send.message)
    ensures send.Response? && !IsSuccessStatusCode(send.statusCode) ==>
      r.error == Some(StatusFailurePrefix + DecimalString(send.statusCode))
  {
    match send
    case Response(code) =>
      if IsSuccessStatusCode(code) then ForwardResult(true, None, Some(code))
      else ForwardResult(false, Some(StatusFailurePrefix + DecimalString(code)), Some(code))
    case Exception(message) => ForwardResult(false, Some(ExceptionPrefix + message), None)
  }

  /** The result of `TryForwardAsync`, whatever the request. */
  function ForwardOutcome(options: ForwardingOptions, send: Outcome): (r: ForwardResult)
    ensures r.success <==> !IsBlank(options.baseUrl) && send.Response? && IsSuccessStatusCode(send.statusCode)
    ensures r.success <==> r.error == None
    ensures IsBlank(options.baseUrl) ==> r == ForwardResult(false, Some(NotConfiguredError), None)
    ensures !IsBlank(options.baseUrl) ==> r == ResponseResult(send)
  {
    if IsBlank(options.baseUrl) then ForwardResult(false, Some(NotConfiguredError), None)
    else ResponseResult(send)
  }

  /** A failure reason for a non-2xx status names that status: its digits read back as the code. */
  lemma StatusFailureNamesCode(code: nat)
    requires !IsSuccessStatusCode(code)
    ensures var e := ResponseResult(Response(code)).error;
      && e.Some? && |e.value| > |StatusFailurePrefix|
      && e.value[..|StatusFailurePrefix|] == StatusFailurePrefix
      && var digits := e.value[|StatusFailurePrefix|..];
         (forall i :: 0 <= i < |digits| ==> '0' <= digits[i] <= '9') && DecimalValue(digits) == code
  {
    var e := StatusFailurePrefix + DecimalString(code);
    assert e[|StatusFailurePrefix|..] == DecimalString(code);
    DecimalRoundTrip(code);
  }

  // ---------------------------------------------------------------------------
  // Target URL and query string
  // ---------------------------------------------------------------------------

  /** `PathPrefix?.Trim('/') ?? ""`. */
  function PathPrefix(options: ForwardingOptions): string
  {
    match options.pathPrefix
    case None => ""
    case Some(p) => Trim(p, '/')
  }

  /** `base/endpoint` or `base/prefix/endpoint`, with the base's trailing slashes removed. */
  function EndpointUrl(options: ForwardingOptions, endpoint: string): string
  {
    var prefix := PathPrefix(options);
    var basePath := TrimEnd(options.baseUrl, '/');
    if prefix == "" then basePath + "/" + endpoint
    else basePath + "/" + prefix + "/" + endpoint
  }

  /**
    The seams of the endpoint URL: the base URL loses its trailing slashes,
    the prefix loses its slashes at both ends, and an empty prefix adds no
    segment. The endpoint itself is not trimmed, so a leading '/' in it
    still doubles the last separator.
   */
  lemma EndpointUrlSeams(options: ForwardingOptions, endpoint: string)
    ensures var basePath := TrimEnd(options.baseUrl, '/');
      var prefix := PathPrefix(options);
      && (basePath == [] || basePath[|basePath| - 1] != '/')
      && (prefix == [] || (prefix[0] != '/' && prefix[|prefix| - 1] != '/'))
      && EndpointUrl(options, endpoint) == basePath + "/" + (if prefix == [] then "" else prefix + "/") + endpoint
  {
    if options.pathPrefix.Some? {
      TrimmedEnds(options.pathPrefix.value, '/');
    }
  }

  /**
    Under the default options nothing is forwarded (no base URL), and once a
    base URL is set the default prefix puts every endpoint under `/webhook/`.
   */
  lemma DefaultForwarding(send: Outcome, baseUrl: string, endpoint: string)
    ensures ForwardOutcome(DefaultForwardingOptions, send) == ForwardResult(false, Some(NotConfiguredError), None)
    ensures EffectiveTimeout(DefaultForwardingOptions.timeoutSeconds) == 10
    ensures EndpointUrl(DefaultForwardingOptions.(baseUrl := baseUrl), endpoint)
            == TrimEnd(baseUrl, '/') + "/webhook/" + endpoint
  {
    var options := DefaultForwardingOptions.(baseUrl := baseUrl);
    DefaultPrefix(options);
    var basePath := TrimEnd(baseUrl, '/');
    assert basePath + "/" + "webhook" + "/" + endpoint == basePath + ("/" + "webhook" + "/") + endpoint;
    assert "/" + "webhook" + "/" == "/webhook/";
  }

  lemma DefaultPrefix(options: ForwardingOptions)
    requires options.pathPrefix == DefaultForwardingOptions.pathPrefix
    ensures PathPrefix(options) == "webhook"
  {
    var prefix := "webhook";
    assert TrimEnd(prefix, '/') == prefix by {
      assert prefix[|prefix| - 1] == 'k';
    }
    assert TrimStart(prefix, '/') == prefix by {
      assert prefix[0] == 'w';
    }
  }

  function EncodePair(kv: (string, string)): string
  {
    UriEscaping.EscapeDataString(kv.0) + "=" + UriEscaping.EscapeDataString(kv.1)
  }

  function QueryParts(query: Pairs): (parts: seq<string>)
    ensures |parts| == |query|
    ensures forall i :: 0 <= i < |query| ==> parts[i] == EncodePair(query[i])
  {
    seq(|query|, i requires 0 <= i < |query| => EncodePair(query[i]))
  }

  /** The `k=v` pairs, both sides escaped, joined by '&'. */
  function QueryString(query: Pairs): string
  {
    Join("&", QueryParts(query))
  }

  /** The full target URL: a query string is appended only for a non-empty query. */
  function TargetUrl(options: ForwardingOptions, endpoint: string, query: Pairs): string
  {
    EndpointUrl(options, endpoint) + (if |query| > 0 then "?" + QueryString(query) else "")
  }

  /** Reading one `k=v` pair back. */
  function ParsePair(part: string): Option<(string, string)>
  {
    if '=' in part then
      var i := IndexOf(part, '=');
      match (UriEscaping.UnescapeDataString(part[..i]), UriEscaping.UnescapeDataString(part[i + 1..]))
      case (Some(k), Some(v)) => Some((k, v))
      case _ => None
    else None
  }

  function ParsePairs(parts: seq<string>): Option<Pairs>
  {
    if parts == [] then Some([])
    else match (ParsePair(parts[0]), ParsePairs(parts[1..]))
      case (Some(kv), Some(rest)) => Some([kv] + rest)
      case _ => None
  }

  /** Reading a query string back into its pairs. */
  function ParseQuery(q: string): Option<Pairs>
  {
    ParsePairs(Split(q, '&'))
  }

  lemma ParseEncodedPair(kv: (string, string))
    ensures ParsePair(EncodePair(kv)) == Some(kv)
  {
    var k, v := UriEscaping.EscapeDataString(kv.0), UriEscaping.EscapeDataString(kv.1);
    UriEscaping.NoQueryDelimiters(kv.0);
    var part := k + "=" + v;
    assert part == k + ['='] + v;
    IndexOfAfter(k, '=', v);
    assert part[..|k|] == k && part[|k| + 1..] == v;
    UriEscaping.EscapeDataStringRoundTrip(kv.0);
    UriEscaping.EscapeDataStringRoundTrip(kv.1);
  }

  lemma {:induction false} ParseQueryParts(query: Pairs)
    ensures ParsePairs(QueryParts(query)) == Some(query)
    decreases |query|
  {
    if query != [] {
      ParseEncodedPair(query[0]);
      assert QueryParts(query)[1..] == QueryParts(query[1..]);
      ParseQueryParts(query[1..]);
      assert [query[0]] + query[1..] == query;
    }
  }

  /** The query string percent-decodes back to exactly the original pairs, in order. */
  lemma QueryStringRoundTrip(query: Pairs)
    requires |query| > 0
    ensures ParseQuery(QueryString(query)) == Some(query)
  {
    var parts := QueryParts(query);
    forall i | 0 <= i < |parts| ensures '&' !in parts[i] {
      UriEscaping.NoQueryDelimiters(query[i].0);
      UriEscaping.NoQueryDelimiters(query[i].1);
    }
    SplitJoin(parts, '&');
    ParseQueryParts(query);
  }

  // ---------------------------------------------------------------------------
  // Relayed headers
  // ---------------------------------------------------------------------------

  /** The inbound headers that are relayed, in their original order. */
  function OutboundHeaders(headers: Pairs): Pairs
  {
    if headers == [] then []
    else
      var last := headers[|headers| - 1];
      OutboundHeaders(headers[..|headers| - 1]) + (if IsRestricted(last.0) then [] else [last])
  }

  /** Exactly the headers whose names are not restricted are relayed, with their values. */
  lemma {:induction false} OutboundHeadersExactly(headers: Pairs)
    ensures forall h :: h in OutboundHeaders(headers) <==> h in headers && !IsRestricted(h.0)
    decreases |headers|
  {
    if headers != [] {
      var init := headers[..|headers| - 1];
      OutboundHeadersExactly(init);
      assert headers == init + [headers[|headers| - 1]];
    }
  }

  // ---------------------------------------------------------------------------
  // The forwarder object
  // ---------------------------------------------------------------------------

  datatype OutboundRequest = OutboundRequest(
    verb: string,
    url: string,
    content: string,
    contentType: string,
    headers: Pairs)

  /** The part of `HttpClient` the forwarder configures. */
  class HttpClient {
    var timeoutSeconds: int
  }

  /** The `foreach` that copies every non-restricted header onto the outbound request. */
  method RelayHeaders(headers: Pairs) returns (relayed: Pairs)
    ensures relayed == OutboundHeaders(headers)
  {
    relayed := [];
    var i := 0;
    while i < |headers|
      invariant 0 <= i <= |headers|
      invariant relayed == OutboundHeaders(headers[..i])
    {
      if !IsRestricted(headers[i].0) {
        relayed := relayed + [headers[i]];
      }
      assert headers[..i + 1][..i] == headers[..i];
      i := i + 1;
    }
    assert headers[..|headers|] == headers;
  }

  class Forwarder {
    const client: HttpClient
    const options: ForwardingOptions

    constructor (client: HttpClient, options: ForwardingOptions)
      modifies client
      ensures this.client == client && this.options == options
      ensures client.timeoutSeconds == EffectiveTimeout(options.timeoutSeconds)
    {
      this.client := client;
      this.options := options;
      client.timeoutSeconds := EffectiveTimeout(options.timeoutSeconds);
    }

    /**
      `TryForwardAsync`: no request at all when the base URL is blank;
      otherwise one POST to the target URL carrying the payload and the
      relayed headers, whose outcome `send` is mapped to the result.
     */
    method TryForward(endpoint: string, payload: string, contentType: string,
                      headers: Pairs, query: Pairs, send: Outcome)
      returns (result: ForwardResult, request: Option<OutboundRequest>)
      ensures result == ForwardOutcome(options, send)
      ensures IsBlank(options.baseUrl) ==>
        request == None && result == ForwardResult(false, Some(NotConfiguredError), None)
      ensures !IsBlank(options.baseUrl) ==>
        request == Some(OutboundRequest("POST", TargetUrl(options, endpoint, query), payload,
                                        contentType, OutboundHeaders(headers)))
    {
      if IsBlank(options.baseUrl) {
        return ForwardResult(false, Some(NotConfiguredError), None), None;
      }
      var targetUrl := EndpointUrl(options, endpoint);
      if |query| > 0 {
        var queryString := QueryString(query);
        targetUrl := targetUrl + "?" + queryString;
      }
      assert targetUrl == TargetUrl(options, endpoint, query);
      var relayed := RelayHeaders(headers);
      request := Some(OutboundRequest("POST", targetUrl, payload, contentType, relayed));
      result := ResponseResult(send);
    }
  }
}
