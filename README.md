# Friendli serving-API request core, modelled in Dafny

This project models the request-construction and response-classification
core of the Friendli Python client's serving-API base classes
(`friendli/sdk/api/base.py`): `BaseAPI`, which turns a payload dictionary
into an HTTP request, and `ServingAPI` / `AsyncServingAPI`, which check the
model/endpoint combination, send the request and turn a failed response into
an `APIError`.

- `wrappers.dfy`: `Option`, Python's `Optional`.
- `dicts.dfy`: payload values (`None`, strings, other objects), an
  insertion-ordered dictionary `OrderedMap` with Python's `d[k] = v`
  semantics, and the class `Dict`, the caller's `data` object that the
  builder changes in place.
- `http.dfy`: the transport records (request, URL, symbolic JSON/protobuf
  body, multipart parts, response) and `CheckHttpError`.
- `base.dfy`: class `BaseApi`, whose constant fields are the constructor
  arguments and the abstract properties a concrete API supplies (`_api_path`,
  `_method`, `_content_type`, `_request_pb_cls`). `BuildContent`,
  `BuildFiles` and `BuildRequest` are methods: the first writes
  `data["model"]` in place, the second runs the filtering loop of
  `_build_files`. Each is proved against a specification function
  (`ContentFor`, `NonNullParts`, `RequestFor`).
- `serving.dfy`: classes `ServingApi` and `AsyncServingApi`, each wrapping a
  `BaseApi`. Each has its own precondition check and a `Request` method.
  The transport is a parameter `send`, the auth headers a map `auth`, and
  `raise_for_status` a predicate `isFailure` on the status code.

The two error messages of `_request` ("`model` is required for serverless
endpoints", "`model` is not allowed for dedicated endpoints") imply that a
call carries exactly one of endpoint id and model. The source states no such
rule otherwise, and the model follows the code. Only the asynchronous
`_request` enforces the rule in full. The synchronous `_request` refuses a
missing model only when the host is `https://inference.friendli.ai`. On any
other host it goes ahead with a `None` model: a JSON or protobuf payload
holds `"model": None`, and a multipart request has no `model` part.
`SyncAsyncPreconditionsDiffer` and `SyncSendsNullModel` state the difference.
A related detail: `os.path.join` drops the `dedicated` segment when the API
path is absolute, and `BuildUrl` says so. Path joining is modelled as POSIX
`os.path.join` (`posixpath.join`); see "## Left out" for Windows.

## Model

| member | source | states |
|---|---|---|
| `Dicts.OrderedMap.Set` | friendli/sdk/api/base.py:144-147 | `data["model"] = v` makes the key hold `v` and leaves every other key's value unchanged. An existing key keeps its position and a new key goes last. Validity is preserved. |
| `Dicts.Dict.SetItem` | friendli/sdk/api/base.py:145-147 | The in-place write on the caller's dictionary: its new contents are the old contents with that one key set. |
| `Http.CheckHttpError` | friendli/sdk/api/base.py:196-208 | No error exactly when the status check passes. A failing 404 gets the fixed guidance message. Any other failing status gets the body text verbatim. The error records the failing status as its cause. |
| `Http.NotFoundIgnoresBody` | friendli/sdk/api/base.py:200-205 | A failing 404 yields the same guidance error whatever the body says. |
| `Base.NonNullPartsSpec` | friendli/sdk/api/base.py:134-138 | For distinct keys, the parts are keyed by exactly the keys whose value is not `None`, in their original order. Each part is `(None, value)`, and the result is a valid dictionary. |
| `Base.PartsSpec` | friendli/sdk/api/base.py:132-138 | For a whole valid payload, there is a part for exactly the entries whose value is not `None`, and each part is `(None, value)`. |
| `Base.PartsOrder` | friendli/sdk/api/base.py:135-137 | For a whole valid payload, the parts follow the payload's insertion order, keeping only the non-`None` entries. |
| `Base.InjectedPartValues` | friendli/sdk/api/base.py:135-147 | After the model is written, every part other than `model` holds `(None, value)` of the payload's own entry. The parts follow the order of the payload after the write. |
| `Base.InjectedPartsSpec` | friendli/sdk/api/base.py:132-147 | After `value` is written under `model`, the parts contain `model` exactly when `value` is not `None`, and that part is `(None, value)`. Every other key has a part exactly when its value was non-`None` before the write. |
| `Base.FilesSeeInjectedModel` | friendli/sdk/api/base.py:110-114 | For a multipart payload without a `model` key and an injected model that is not `None`: parts built before the content would have no `model` part, but because content is built first the request carries one. |
| `Base.BaseApi.constructor` | friendli/sdk/api/base.py:75-84 | The API keeps the base URL, endpoint id and protobuf flag it was given, together with the properties a concrete API supplies. |
| `Base.BaseApi.BuildUrl` | friendli/sdk/api/base.py:119-124 | With POSIX path joining, a dedicated call's path is `"dedicated/" + api_path` for a relative API path. A serverless call's path is exactly `api_path`. An absolute API path replaces the dedicated segment. The host is kept. |
| `Base.BaseApi.GetHeaders` | friendli/sdk/api/base.py:126-130 | The header names are the auth header names plus `Content-Type`. Every auth header keeps its value. `Content-Type` is the API's content type unless an auth header of that name overrides it. |
| `Base.BaseApi.ContentFor` | friendli/sdk/api/base.py:149-158 | There are no content bytes exactly when the content type starts with `multipart/form-data`. Otherwise the body is the protobuf encoding (with the API's message class) exactly when `use_protobuf` is set, else the JSON encoding. It serialises the whole payload. |
| `Base.BaseApi.RequestFor` | friendli/sdk/api/base.py:106-117 | The request's method, URL and headers come from the API. Exactly one of content and files is present, chosen by whether the content type is multipart. The body's `model` is the injected value and its other keys are the payload's. A `model` part is present exactly when the injected value is not `None`. Every other part is there exactly for a non-`None` entry of the payload and holds `(None, value)` of that entry. The parts follow the order of the payload after the injection. |
| `Base.BaseApi.BuildFiles` | friendli/sdk/api/base.py:132-139 | For a multipart content type the loop returns parts keyed by exactly the non-`None` entries of `data`, in the order of `data`, each `(None, value)`. For any other content type it returns `None`. |
| `Base.BaseApi.BuildContent` | friendli/sdk/api/base.py:141-158 | `data["model"]` becomes the endpoint id if one is set, else the caller's model (possibly `None`). Every other key keeps its value. The returned bytes are those of `ContentFor` on the updated payload. |
| `Base.BaseApi.BuildRequest` | friendli/sdk/api/base.py:106-117 | The request equals `RequestFor` of the caller's original payload: content is built before files, so the files see the injected model. `data` is left holding the injected model. |
| `Serving.Exchange` | friendli/sdk/api/base.py:191-194 | The response is returned exactly when the status check passes. Otherwise the `APIError` has the guidance message for 404 and the body for any other status. The same classification serves both variants, so their messages agree. |
| `Serving.ServingApi.constructor` | friendli/sdk/api/base.py:164-175 | The synchronous API wraps the given base API. |
| `Serving.ServingApi.PreconditionError` | friendli/sdk/api/base.py:181-188 | "model is required" is raised exactly on the production host with neither endpoint id nor model. "model is not allowed" is raised exactly when both are set. Each error carries the source's message. If the checks pass on the production host, exactly one of the two is set. |
| `Serving.ServingApi.Request` | friendli/sdk/api/base.py:177-208 | A refused call returns the `ValueError` with `data` untouched and no request built. Otherwise `data` gets its model and the request is built as `RequestFor` specifies. It is sent with the stream flag and its response is classified. |
| `Serving.AsyncServingApi.constructor` | friendli/sdk/api/base.py:214-225 | The asynchronous API wraps the given base API. |
| `Serving.AsyncServingApi.PreconditionError` | friendli/sdk/api/base.py:231-234 | "model is required" is raised exactly when neither endpoint id nor model is set, whatever the host. "model is not allowed" is raised exactly when both are set. Each error carries the source's message. A call goes ahead exactly when one of the two is set. |
| `Serving.AsyncServingApi.Request` | friendli/sdk/api/base.py:227-254 | This is the same contract as the synchronous `Request`, under the asynchronous checks. |
| `Serving.SyncAsyncPreconditionsDiffer` | friendli/sdk/api/base.py:181-186 | Over the same base API the two variants' checks differ exactly for a serverless call without a model to a non-production host. The synchronous variant lets that call through and the asynchronous one refuses it. |
| `Serving.SyncSendsNullModel` | friendli/sdk/api/base.py:181-190 | In that extra synchronous case the check passes and the request carries a `None` model. The payload handed to the JSON or protobuf encoder holds `model: None` (for protobuf, `ParseDict` then leaves the field unset), and a multipart request has no `model` part. |

## Left out

- Sending requests (`self._client.send`), the httpx client objects and their creation, and `build_request` itself are outside the model. The request is a plain record and the response comes from the parameter `send`.
- `DEFAULT_REQ_TIMEOUT` is not modelled; `friendli/utils/request.py` is not part of this model.
- `httpx.URL.join` is not modelled: the URL is the pair of host and path, and resolving the path against the base URL is left to the transport.
- The host comparison in the synchronous check compares strings. It does not model the normalisation `httpx.URL` equality applies.
- JSON and protobuf serialisation (`json.dumps`, `json_format.ParseDict`, `SerializeToString`) are symbolic. A body records its encoder and the payload it encodes.
- Base.BaseApi.BuildContent: the encoders are total in the model. In the source, `json.dumps` raises `TypeError` on a value JSON cannot encode (bytes, for one), and `ParseDict` raises on fields unknown to the message class and on values of the wrong type. Either raises after `data["model"]` has been written, so the caller's dictionary already holds the injected model and nothing is sent. The model has no outcome for this.
- Serving.ServingApi.Request: `send` is total in the model, and the encoders are too (see the line above). In the source, a transport error from `send` propagates unwrapped, and an encoder error propagates from `_build_request`. In both cases `data` already holds the injected model. `Outcome` has no case for either.
- Serving.AsyncServingApi.Request: the same as `Serving.ServingApi.Request`. Encoder errors and transport errors from the awaited `send` are not modelled.
- Base.BaseApi.BuildUrl: the model is `posixpath.join`. On Windows, `os.path.join` is `ntpath.join`, so a dedicated call with a relative API path gets the path `"dedicated\\" + api_path`, whose backslash httpx then percent-encodes. That would break routing on Windows, but the model does not capture it.
- `get_auth_header` is an external collaborator. It is the parameter `auth`.
- `raise_for_status` is the parameter predicate `isFailure`.
- Decoding the body (`read().decode()` / `aread()`) is taken as given: a response carries its body as text, so a body that is not valid UTF-8 is not modelled.
- The exception cause chain is kept only as the failing status.
- The async/await scheduling of `AsyncServingAPI` is modelled as sequential code.
- `GenerationStream` and `AsyncGenerationStream` only wrap the response's line iterators and leave `__next__` abstract, so there is no logic to model.
- Payload values other than `None` and strings are opaque (`Other`). The model passes them to the encoders unchanged and does not model which of them the encoders reject (see `Base.BaseApi.BuildContent` above).
