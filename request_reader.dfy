/**
  `WebhookRequestReader.ReadAsync`: the size checks on an inbound webhook,
  the content-type default, and the header and query dictionaries it hands on.
 */
module RequestReader {

  import opened Wrappers
  import opened Text
  import opened Http
  import opened Config
  import Utf8

  /**
    What the reader sees of an inbound request: the declared Content-Length
    (if any), the body as decoded text, the Content-Type (null is `None`),
    and the header and query collections, one value string per name.
   */
  datatype IncomingRequest = IncomingRequest(
    contentLength: Option<int>,
    body: string,
    contentType: Option<string>,
    headers: Pairs,
    query: Pairs)

  datatype ReadResult =
    | Read(body: string, contentType: string, headers: Pairs, query: Pairs)
    | TooLarge(message: string)

  const PayloadTooLargeError := "Payload exceeds 2MB limit"
  const DefaultContentType := "application/json"

  /** Content-Length and Host, compared ignoring case, are not kept. */
  predicate IsDroppedHeader(name: string)
  {
    EqualsIgnoreCase(name, "Content-Length") || EqualsIgnoreCase(name, "Host")
  }

  function KeptHeaders(headers: Pairs): Pairs
  {
    if headers == [] then []
    else
      var last := headers[|headers| - 1];
      KeptHeaders(headers[..|headers| - 1]) + (if IsDroppedHeader(last.0) then [] else [last])
  }

  /** Every header except Content-Length and Host is kept, with its value. */
  lemma {:induction false} KeptHeadersExactly(headers: Pairs)
    ensures forall h :: h in KeptHeaders(headers) <==> h in headers && !IsDroppedHeader(h.0)
    decreases |headers|
  {
    if headers != [] {
      var init := headers[..|headers| - 1];
      KeptHeadersExactly(init);
      assert headers == init + [headers[|headers| - 1]];
    }
  }

  predicate ExceedsLimit(req: IncomingRequest)
  {
    (req.contentLength.Some? && req.contentLength.value > MaxPayloadBytes)
    || Utf8.ByteCount(req.body) > MaxPayloadBytes
  }

  function EffectiveContentType(contentType: Option<string>): (t: string)
    ensures contentType.None? || IsBlank(contentType.value) ==> t == DefaultContentType
    ensures contentType.Some? && !IsBlank(contentType.value) ==> t == contentType.value
  {
    if contentType.None? || IsBlank(contentType.value) then DefaultContentType else contentType.value
  }

  /**
    Refused, with one message, when the declared length or the body's UTF-8
    byte count is above 2 MiB (a body of exactly 2 MiB passes); otherwise the
    body unchanged, the content type defaulted, the kept headers and the query.
   */
  function ReadRequest(req: IncomingRequest): (r: ReadResult)
    ensures r.TooLarge? <==> ExceedsLimit(req)
    ensures r.TooLarge? ==> r.message == PayloadTooLargeError
    ensures r.Read? ==>
      && r.body == req.body
      && r.contentType == EffectiveContentType(req.contentType)
      && r.headers == KeptHeaders(req.headers)
      && r.query == req.query
  {
    if req.contentLength.Some? && req.contentLength.value > MaxPayloadBytes then
      TooLarge(PayloadTooLargeError)
    else if Utf8.ByteCount(req.body) > MaxPayloadBytes then
      TooLarge(PayloadTooLargeError)
    else
      Read(req.body, EffectiveContentType(req.contentType), KeptHeaders(req.headers), req.query)
  }

  /** The limit is inclusive: a body of exactly 2 MiB UTF-8 bytes is read. */
  lemma ExactLimitAccepted(req: IncomingRequest)
    requires Utf8.ByteCount(req.body) == MaxPayloadBytes
    requires req.contentLength.None? || req.contentLength.value <= MaxPayloadBytes
    ensures ReadRequest(req).Read?
  {
  }
}
