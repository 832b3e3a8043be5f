/**
 * `BaseAPI`: how a serving call turns a payload into a transport request.
 * The abstract properties a concrete API supplies (`_api_path`, `_method`,
 * `_content_type`, `_request_pb_cls`) are constructor arguments here.
 */
module Base {
  import opened Wrappers
  import opened Dicts
  import opened Http

  const DedicatedSegment := "dedicated"
  const MultipartFormData := "multipart/form-data"
  const ModelKey := "model"
  const ContentTypeHeader := "Content-Type"

  /** `s.startswith(prefix)` */
  predicate StartsWith(s: string, prefix: string) {
    prefix <= s
  }

  /**
   * `os.path.join(a, b)` on POSIX: an absolute `b` replaces `a`; otherwise `b`
   * is appended, with a separator unless `a` is empty or already ends in one.
   */
  function PathJoin(a: string, b: string): (joined: string) {
    if StartsWith(b, "/") then b
    else if a == "" || a[|a| - 1] == '/' then a + b
    else a + "/" + b
  }

  /** Keeps a value unless it is `None`. */
  predicate Kept(vals: map<string, Value>, k: string) {
    k in vals && vals[k] != Null
  }

  /**
   * The multipart parts built from the entries of `vals` visited in the order
   * `keys`: each non-`None` value becomes the part `(None, value)`.
   */
  function NonNullParts(keys: seq<string>, vals: map<string, Value>): (parts: OrderedMap<FilePart>)
    decreases |keys|
  {
    if keys == [] then Empty()
    else
      var k := keys[|keys| - 1];
      var rest := NonNullParts(keys[..|keys| - 1], vals);
      if Kept(vals, k) then rest.Set(k, FilePart(None, vals[k])) else rest
  }

  /** The keys with a non-`None` value, in their original order. */
  function KeptKeys(keys: seq<string>, vals: map<string, Value>): (kept: seq<string>) {
    if keys == [] then []
    else (if Kept(vals, keys[0]) then [keys[0]] else []) + KeptKeys(keys[1..], vals)
  }

  lemma {:induction false} KeptKeysSnoc(keys: seq<string>, k: string, vals: map<string, Value>)
    ensures KeptKeys(keys + [k], vals) == KeptKeys(keys, vals) + (if Kept(vals, k) then [k] else [])
  {
    if keys == [] {
      assert keys + [k] == [k];
    } else {
      assert (keys + [k])[1..] == keys[1..] + [k];
      KeptKeysSnoc(keys[1..], k, vals);
    }
  }

  /**
   * For distinct keys, the parts are keyed by exactly the keys whose value is
   * not `None`, in their original order, and each part is `(None, value)`.
   */
  lemma {:induction false} NonNullPartsSpec(keys: seq<string>, vals: map<string, Value>)
    requires forall i, j :: 0 <= i < j < |keys| ==> keys[i] != keys[j]
    ensures NonNullParts(keys, vals).Valid()
    ensures NonNullParts(keys, vals).order == KeptKeys(keys, vals)
    ensures forall k :: k in NonNullParts(keys, vals).entries <==> k in keys && Kept(vals, k)
    ensures forall k :: k in NonNullParts(keys, vals).entries ==>
              k in vals && NonNullParts(keys, vals).entries[k] == FilePart(None, vals[k])
  {
    if keys != [] {
      var init, k := keys[..|keys| - 1], keys[|keys| - 1];
      assert keys == init + [k];
      NonNullPartsSpec(init, vals);
      KeptKeysSnoc(init, k, vals);
      assert k !in init by {
        forall i | 0 <= i < |init| ensures init[i] != k {
          assert init[i] == keys[i];
        }
      }
    }
  }

  /** The multipart parts `_build_files` makes of a whole payload. */
  function Parts(d: OrderedMap<Value>): (parts: OrderedMap<FilePart>) {
    NonNullParts(d.order, d.entries)
  }

  /** For a valid payload, the parts follow the payload's order. */
  lemma PartsOrder(d: OrderedMap<Value>)
    requires d.Valid()
    ensures Parts(d).order == KeptKeys(d.order, d.entries)
  {
    NonNullPartsSpec(d.order, d.entries);
  }

  /** For a valid payload: a part for exactly the non-`None` entries, each `(None, value)`. */
  lemma PartsSpec(d: OrderedMap<Value>)
    requires d.Valid()
    ensures forall k :: k in Parts(d).entries <==> Kept(d.entries, k)
    ensures forall k :: k in Parts(d).entries ==> k in d.entries && Parts(d).entries[k] == FilePart(None, d.entries[k])
  {
    NonNullPartsSpec(d.order, d.entries);
  }

  /**
   * The parts of a payload after `value` was written under `model`: the
   * `model` part is there exactly when `value` is not `None`, and the other
   * parts are those of the payload before the write.
   */
  lemma InjectedPartsSpec(items: OrderedMap<Value>, value: Value)
    requires items.Valid()
    ensures ModelKey in Parts(items.Set(ModelKey, value)).entries <==> value != Null
    ensures ModelKey in Parts(items.Set(ModelKey, value)).entries ==>
              Parts(items.Set(ModelKey, value)).entries[ModelKey] == FilePart(None, value)
    ensures forall k :: k != ModelKey ==>
              (k in Parts(items.Set(ModelKey, value)).entries <==> Kept(items.entries, k))
  {
    var injected := items.Set(ModelKey, value);
    assert injected.entries == items.entries[ModelKey := value];
    PartsSpec(injected);
  }

  /**
   * After `value` was written under `model`, every other part holds the
   * payload's own value as `(None, value)`, and the parts follow the order of
   * the payload after the write.
   */
  lemma InjectedPartValues(items: OrderedMap<Value>, value: Value)
    requires items.Valid()
    ensures forall k :: k != ModelKey && k in Parts(items.Set(ModelKey, value)).entries ==>
              k in items.entries && Parts(items.Set(ModelKey, value)).entries[k] == FilePart(None, items.entries[k])
    ensures Parts(items.Set(ModelKey, value)).order ==
              KeptKeys(items.Set(ModelKey, value).order, items.Set(ModelKey, value).entries)
  {
    var injected := items.Set(ModelKey, value);
    assert injected.entries == items.entries[ModelKey := value];
    PartsSpec(injected);
    PartsOrder(injected);
  }

  class BaseApi {
    const host: string
    const endpointId: Option<string>
    const useProtobuf: bool
    const apiPath: string
    const httpMethod: string
    const contentType: string
    const requestPb: PbMessage

    constructor (baseUrl: string, endpointId: Option<string>, useProtobuf: bool,
                 apiPath: string, httpMethod: string, contentType: string, requestPb: PbMessage)
      ensures this.host == baseUrl && this.endpointId == endpointId && this.useProtobuf == useProtobuf
      ensures this.apiPath == apiPath && this.httpMethod == httpMethod
      ensures this.contentType == contentType && this.requestPb == requestPb
    {
      this.host := baseUrl;
      this.endpointId := endpointId;
      this.useProtobuf := useProtobuf;
      this.apiPath := apiPath;
      this.httpMethod := httpMethod;
      this.contentType := contentType;
      this.requestPb := requestPb;
    }

    predicate IsMultipart() {
      StartsWith(contentType, MultipartFormData)
    }

    /** The value written to `data["model"]`: the endpoint id when there is one, else the caller's model. */
    function InjectedModel(model: Option<string>): (v: Value) {
      if endpointId.Some? then Str(endpointId.value) else FromOptional(model)
    }

    /**
     * `_build_url`: a dedicated deployment is routed under the `dedicated`
     * segment, a serverless call uses the API path as it is. An absolute API
     * path replaces the segment, as `os.path.join` does.
     */
    function BuildUrl(): (u: Url)
      ensures u.host == host
      ensures endpointId.None? ==> u.path == apiPath
      ensures endpointId.Some? && !StartsWith(apiPath, "/") ==> u.path == "dedicated/" + apiPath
      ensures endpointId.Some? && StartsWith(apiPath, "/") ==> u.path == apiPath
    {
      Url(host, PathJoin(if endpointId.Some? then DedicatedSegment else "", apiPath))
    }

    /**
     * `_get_headers`: the content type under `Content-Type`, then the auth
     * headers merged over it, so an auth header of the same name would win.
     */
    function GetHeaders(auth: map<string, string>): (h: map<string, string>)
      ensures h.Keys == auth.Keys + {ContentTypeHeader}
      ensures forall k :: k in auth ==> h[k] == auth[k]
      ensures ContentTypeHeader !in auth ==> h[ContentTypeHeader] == contentType
    {
      map[ContentTypeHeader := contentType] + auth
    }

    /** The body `_build_content` returns for a payload that already holds its model. */
    function ContentFor(items: OrderedMap<Value>): (c: Option<Content>)
      ensures c.None? <==> IsMultipart()
      ensures c.Some? ==> c.value.fields == items
      ensures c.Some? ==> (c.value.ProtobufBody? <==> useProtobuf)
      ensures c.Some? && c.value.ProtobufBody? ==> c.value.message == requestPb
    {
      if IsMultipart() then None
      else if useProtobuf then Some(ProtobufBody(requestPb, items))
      else Some(JsonBody(items))
    }

    /**
     * The request `_build_request` builds from the caller's payload `items`.
     * The content is built first, so the multipart parts see the payload with
     * its model already injected: a `model` part is present exactly when the
     * injected value is not `None`.
     */
    function RequestFor(items: OrderedMap<Value>, model: Option<string>, auth: map<string, string>): (r: HttpRequest)
      requires items.Valid()
      ensures r.verb == httpMethod && r.url == BuildUrl() && r.headers == GetHeaders(auth)
      ensures r.content.None? <==> IsMultipart()
      ensures r.files.None? <==> !IsMultipart()
      ensures r.content.Some? ==> r.content.value.fields.Get(ModelKey) == Some(InjectedModel(model))
      ensures r.content.Some? ==> forall k :: k != ModelKey ==> r.content.value.fields.Get(k) == items.Get(k)
      ensures r.files.Some? ==> (ModelKey in r.files.value.entries <==> InjectedModel(model) != Null)
      ensures r.files.Some? && ModelKey in r.files.value.entries ==>
                r.files.value.entries[ModelKey] == FilePart(None, InjectedModel(model))
      ensures r.files.Some? ==> forall k :: k != ModelKey ==>
                (k in r.files.value.entries <==> k in items.entries && items.entries[k] != Null)
      ensures r.files.Some? ==> forall k :: k != ModelKey && k in r.files.value.entries ==>
                k in items.entries && r.files.value.entries[k] == FilePart(None, items.entries[k])
      ensures r.files.Some? ==>
                r.files.value.order == KeptKeys(items.Set(ModelKey, InjectedModel(model)).order,
                                                items.Set(ModelKey, InjectedModel(model)).entries)
    {
      var injected := items.Set(ModelKey, InjectedModel(model));
      InjectedPartsSpec(items, InjectedModel(model));
      InjectedPartValues(items, InjectedModel(model));
      HttpRequest(
        httpMethod,
        BuildUrl(),
        ContentFor(injected),
        if IsMultipart() then Some(Parts(injected)) else None,
        GetHeaders(auth))
    }

    /**
     * `_build_files`: for a multipart content type, the parts `(None, value)`
     * of every entry of `data` whose value is not `None`, in the order of
     * `data`; for any other content type, `None`.
     */
    method BuildFiles(data: Dict) returns (files: Option<OrderedMap<FilePart>>)
      requires data.Valid()
      ensures files.Some? <==> IsMultipart()
      ensures files.Some? ==> files.value == NonNullParts(data.items.order, data.items.entries)
      ensures files.Some? ==> files.value.Valid() && files.value.order == KeptKeys(data.items.order, data.items.entries)
      ensures files.Some? ==> forall k :: k in files.value.entries <==> k in data.items.entries && data.items.entries[k] != Null
      ensures files.Some? ==> forall k :: k in files.value.entries ==> files.value.entries[k] == FilePart(None, data.items.entries[k])
    {
      if !IsMultipart() {
        return None;
      }
      var order, entries := data.items.order, data.items.entries;
      var parts := Empty();
      var i := 0;
      while i < |order|
        invariant 0 <= i <= |order|
        invariant parts == NonNullParts(order[..i], entries)
      {
        var key := order[i];
        var val := entries[key];
        if val != Null {
          parts := parts.Set(key, FilePart(None, val));
        }
        assert order[..i + 1][..i] == order[..i];
        i := i + 1;
      }
      assert order[..i] == order;
      NonNullPartsSpec(order, entries);
      files := Some(parts);
    }

    /**
     * `_build_content`: sets `data["model"]` in place, then returns no bytes
     * for a multipart content type, the protobuf encoding when `useProtobuf`
     * is set, and the JSON encoding otherwise.
     */
    method BuildContent(data: Dict, model: Option<string>) returns (content: Option<Content>)
      requires data.Valid()
      modifies data
      ensures data.Valid()
      ensures data.items == old(data.items).Set(ModelKey, InjectedModel(model))
      ensures data.items.Get(ModelKey) == Some(InjectedModel(model))
      ensures forall k :: k != ModelKey ==> data.items.Get(k) == old(data.items).Get(k)
      ensures content == ContentFor(data.items)
    {
      if endpointId.Some? {
        data.SetItem(ModelKey, Str(endpointId.value));
      } else {
        data.SetItem(ModelKey, FromOptional(model));
      }
      if IsMultipart() {
        return None;
      }
      if useProtobuf {
        return Some(ProtobufBody(requestPb, data.items));
      }
      return Some(JsonBody(data.items));
    }

    /**
     * `_build_request`: the URL, then the content (which injects the model),
     * then the files, then the headers.
     */
    method BuildRequest(data: Dict, model: Option<string>, auth: map<string, string>) returns (request: HttpRequest)
      requires data.Valid()
      modifies data
      ensures data.Valid()
      ensures data.items == old(data.items).Set(ModelKey, InjectedModel(model))
      ensures request == RequestFor(old(data.items), model, auth)
    {
      var url := BuildUrl();
      var content := BuildContent(data, model);
      var files := BuildFiles(data);
      request := HttpRequest(httpMethod, url, content, files, GetHeaders(auth));
    }
  }

  /**
   * Why the order of `_build_request` matters: when the payload has no model
   * yet, parts built before the injection would lack the `model` part that
   * the request carries.
   */
  lemma FilesSeeInjectedModel(api: BaseApi, items: OrderedMap<Value>, model: Option<string>, auth: map<string, string>)
    requires items.Valid() && api.IsMultipart()
    requires ModelKey !in items.entries && api.InjectedModel(model) != Null
    ensures ModelKey !in NonNullParts(items.order, items.entries).entries
    ensures ModelKey in api.RequestFor(items, model, auth).files.value.entries
  {
    NonNullPartsSpec(items.order, items.entries);
  }
}
