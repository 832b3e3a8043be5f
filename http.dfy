/**
 * The transport-level records the request layer produces and consumes, and the
 * translation of a failed HTTP response into the library's `APIError`.
 * Serialised bodies are kept symbolic: a body records which encoder produced
 * it and from which payload, not the bytes themselves.
 */
module Http {
  import opened Wrappers
  import opened Dicts

  /** The protobuf request messages a serving API may serialise its payload into. */
  datatype PbMessage = V1CompletionsRequest | V1ChatCompletionsRequest | V1TextToImageRequest

  /** Request body bytes: the JSON text of the payload, or its protobuf encoding. */
  datatype Content =
    | JsonBody(fields: OrderedMap<Value>)
    | ProtobufBody(message: PbMessage, fields: OrderedMap<Value>)

  /** One multipart part, the tuple `(filename, value)`. */
  datatype FilePart = FilePart(filename: Option<string>, value: Value)

  /** A path resolved against the client's base URL. */
  datatype Url = Url(host: string, path: string)

  datatype HttpRequest = HttpRequest(
    verb: string,
    url: Url,
    content: Option<Content>,
    files: Option<OrderedMap<FilePart>>,
    headers: map<string, string>)

  /** A received response: its status code and its body decoded as text. */
  datatype Response = Response(status: int, body: string)

  /** The library's `APIError`, with the status of the failure it was raised from. */
  datatype ApiError = ApiError(message: string, causeStatus: int)

  const NotFoundStatus := 404

  const NotFoundMessage := "Endpoint is not found. This may be due to an invalid model name. "
    + "See https://docs.friendli.ai/guides/serverless_endpoints/pricing "
    + "to find out availble models."

  /**
   * `_check_http_error`: no error when the status check passes; otherwise a
   * 404 gets the fixed guidance message and any other failing status gets the
   * response body verbatim. `isFailure` stands for `raise_for_status`.
   */
  function CheckHttpError(resp: Response, isFailure: int -> bool): (r: Option<ApiError>)
    ensures r.None? <==> !isFailure(resp.status)
    ensures r.Some? ==> r.value.causeStatus == resp.status
    ensures r.Some? && resp.status == NotFoundStatus ==> r.value.message == NotFoundMessage
    ensures r.Some? && resp.status != NotFoundStatus ==> r.value.message == resp.body
  {
    if !isFailure(resp.status) then None
    else if resp.status == NotFoundStatus then Some(ApiError(NotFoundMessage, resp.status))
    else Some(ApiError(resp.body, resp.status))
  }

  /** The error for a failing 404 does not depend on what the body says. */
  lemma NotFoundIgnoresBody(body1: string, body2: string, isFailure: int -> bool)
    requires isFailure(NotFoundStatus)
    ensures CheckHttpError(Response(NotFoundStatus, body1), isFailure)
         == CheckHttpError(Response(NotFoundStatus, body2), isFailure)
         == Some(ApiError(NotFoundMessage, NotFoundStatus))
  {
  }
}
