/**
 * `ServingAPI` and `AsyncServingAPI`: check the model/endpoint combination,
 * build the request, send it, and translate a failed response into an
 * `APIError`. Both wrap a `BaseApi`; the asynchronous one is modelled as a
 * second, sequential variant, since its scheduling does not change its logic.
 * The transport is the parameter `send` (request and stream flag to
 * response), the auth provider the map `auth`, and `raise_for_status` the
 * predicate `isFailure`.
 */
module Serving {
  import opened Wrappers
  import opened Dicts
  import opened Http
  import opened Base

  const ProductionHost := "https://inference.friendli.ai"

  /** The `ValueError`s raised before a request is built. */
  datatype ValueError = ModelRequired | ModelNotAllowed {
    function Message(): string {
      match this
      case ModelRequired => "`model` is required for serverless endpoints."
      case ModelNotAllowed => "`model` is not allowed for dedicated endpoints."
    }
  }

  /** How a call ends: refused before building a request, an `APIError`, or the response. */
  datatype Outcome =
    | Rejected(error: ValueError)
    | Raised(request: HttpRequest, apiError: ApiError)
    | Returned(request: HttpRequest, response: Response)

  /** The sent request's fate once the response is in: `_check_http_error` raises or the response is returned. */
  function Exchange(request: HttpRequest, response: Response, isFailure: int -> bool): (o: Outcome)
    ensures !o.Rejected? && o.request == request
    ensures o.Returned? <==> !isFailure(response.status)
    ensures o.Returned? ==> o.response == response
    ensures o.Raised? && response.status == NotFoundStatus ==> o.apiError.message == NotFoundMessage
    ensures o.Raised? && response.status != NotFoundStatus ==> o.apiError.message == response.body
  {
    match CheckHttpError(response, isFailure)
    case Some(e) => Raised(request, e)
    case None => Returned(request, response)
  }

  class ServingApi {
    const base: BaseApi

    constructor (base: BaseApi)
      ensures this.base == base
    {
      this.base := base;
    }

    /**
     * The synchronous checks: a missing model is refused only on the
     * production host, a model together with an endpoint id always.
     */
    function PreconditionError(model: Option<string>): (r: Option<ValueError>)
      ensures r == Some(ModelRequired) <==> base.host == ProductionHost && base.endpointId.None? && model.None?
      ensures r == Some(ModelNotAllowed) <==> base.endpointId.Some? && model.Some?
      ensures r.None? && base.host == ProductionHost ==> (base.endpointId.Some? <==> model.None?)
      ensures r == Some(ModelRequired) ==> r.value.Message() == "`model` is required for serverless endpoints."
      ensures r == Some(ModelNotAllowed) ==> r.value.Message() == "`model` is not allowed for dedicated endpoints."
    {
      if base.host == ProductionHost && base.endpointId.None? && model.None? then Some(ModelRequired)
      else if base.endpointId.Some? && model.Some? then Some(ModelNotAllowed)
      else None
    }

    /**
     * `_request`: a refused call leaves `data` as it was and builds nothing;
     * otherwise `data` gets its model, and the built request is sent and its
     * response checked.
     */
    method Request(data: Dict, stream: bool, model: Option<string>, auth: map<string, string>,
                   send: (HttpRequest, bool) -> Response, isFailure: int -> bool)
      returns (outcome: Outcome)
      requires data.Valid()
      modifies data
      ensures data.Valid()
      ensures PreconditionError(model).Some? ==>
                outcome == Rejected(PreconditionError(model).value) && data.items == old(data.items)
      ensures PreconditionError(model).None? ==>
                && data.items == old(data.items).Set(ModelKey, base.InjectedModel(model))
                && var request := base.RequestFor(old(data.items), model, auth);
                   outcome == Exchange(request, send(request, stream), isFailure)
    {
      var error := PreconditionError(model);
      if error.Some? {
        return Rejected(error.value);
      }
      var request := base.BuildRequest(data, model, auth);
      var response := send(request, stream);
      outcome := Exchange(request, response, isFailure);
    }
  }

  class AsyncServingApi {
    const base: BaseApi

    constructor (base: BaseApi)
      ensures this.base == base
    {
      this.base := base;
    }

    /**
     * The asynchronous checks: whatever the host, a call goes ahead exactly
     * when one of endpoint id and model is given.
     */
    function PreconditionError(model: Option<string>): (r: Option<ValueError>)
      ensures r == Some(ModelRequired) <==> base.endpointId.None? && model.None?
      ensures r == Some(ModelNotAllowed) <==> base.endpointId.Some? && model.Some?
      ensures r.None? <==> (base.endpointId.Some? <==> model.None?)
      ensures r == Some(ModelRequired) ==> r.value.Message() == "`model` is required for serverless endpoints."
      ensures r == Some(ModelNotAllowed) ==> r.value.Message() == "`model` is not allowed for dedicated endpoints."
    {
      if base.endpointId.None? && model.None? then Some(ModelRequired)
      else if base.endpointId.Some? && model.Some? then Some(ModelNotAllowed)
      else None
    }

    /** `_request`, awaited: the same steps as the synchronous call. */
    method Request(data: Dict, stream: bool, model: Option<string>, auth: map<string, string>,
                   send: (HttpRequest, bool) -> Response, isFailure: int -> bool)
      returns (outcome: Outcome)
      requires data.Valid()
      modifies data
      ensures data.Valid()
      ensures PreconditionError(model).Some? ==>
                outcome == Rejected(PreconditionError(model).value) && data.items == old(data.items)
      ensures PreconditionError(model).None? ==>
                && data.items == old(data.items).Set(ModelKey, base.InjectedModel(model))
                && var request := base.RequestFor(old(data.items), model, auth);
                   outcome == Exchange(request, send(request, stream), isFailure)
    {
      var error := PreconditionError(model);
      if error.Some? {
        return Rejected(error.value);
      }
      var request := base.BuildRequest(data, model, auth);
      var response := send(request, stream);
      outcome := Exchange(request, response, isFailure);
    }
  }

  /**
   * Over the same base API the two variants disagree in exactly one case: a
   * serverless call without a model to a host other than the production one,
   * which the synchronous variant lets through and the asynchronous refuses.
   */
  lemma SyncAsyncPreconditionsDiffer(sync: ServingApi, async: AsyncServingApi, model: Option<string>)
    requires sync.base == async.base
    ensures sync.PreconditionError(model) != async.PreconditionError(model) <==>
              sync.base.host != ProductionHost && sync.base.endpointId.None? && model.None?
    ensures sync.PreconditionError(model) != async.PreconditionError(model) ==>
              sync.PreconditionError(model).None? && async.PreconditionError(model) == Some(ModelRequired)
  {
  }

  /**
   * What the synchronous variant's extra case sends: the payload carries
   * `model: None`, so a JSON or protobuf body holds a null model and a
   * multipart body has no `model` part.
   */
  lemma SyncSendsNullModel(sync: ServingApi, items: OrderedMap<Value>, auth: map<string, string>)
    requires items.Valid()
    requires sync.base.host != ProductionHost && sync.base.endpointId.None?
    ensures sync.PreconditionError(None).None?
    ensures var r := sync.base.RequestFor(items, None, auth);
      && (r.content.Some? ==> r.content.value.fields.Get(ModelKey) == Some(Null))
      && (r.files.Some? ==> ModelKey !in r.files.value.entries)
  {
  }
}
