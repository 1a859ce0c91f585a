/** The transport of the client (request.go): the request descriptor, the two
    authentication schemes, parameter validation, and `Requester.Do` with its
    five convenience wrappers.

    Foreign code is abstract: `url.Parse`, `json.Marshal`, `json.Unmarshal` and
    the Base64 step of `SetBasicAuth` are the functions of a `Library` value,
    and the HTTP exchange is a `Reply` handed to `Do`. What is left is the
    decision procedure of `Do`: which request goes on the wire, and how the
    answer is classified. */
module Request {
  import opened Wrappers
  import opened Common
  import Format

  datatype Method = GET | POST | PUT | PATCH | DELETE

  /** An `http.Header`: each header name with its list of values. */
  type Header = map<string, seq<string>>

  /** The foreign functions `Do` relies on; each may fail where Go's may. */
  datatype Library = Library(
    validUrl: string -> bool,             // url.Parse succeeds on this string
    marshal: Json -> Option<Bytes>,       // json.Marshal
    unmarshal: Bytes -> Option<Json>,     // json.Unmarshal
    base64: string -> string)             // the encoding inside SetBasicAuth

  /** What the network did with the request `Do` sent. */
  datatype Reply =
    | SendFailed(cause: string)           // http.Client.Do returned an error
    | ReadFailed(cause: string)           // io.ReadAll on the body failed
    | Received(status: int, body: Bytes)  // a response, its body fully read

  /** The `*http.Response` handed back on success (its body already read). */
  datatype Response = Response(status: int, body: Bytes)

  /** The outgoing `http.Request` as built by `Do`: `target` is the string given
      to `url.Parse`; `query` is `None` when the parsed URL's own query is
      kept, `Some(values)` when it is replaced by the encoding of `values`. */
  datatype Wire = Wire(
    verb: Method,
    target: string,
    query: Option<map<string, seq<string>>>,
    body: Option<Bytes>,
    header: Header)

  /** Everything one call of `Do` produces: the request it put on the wire
      (`None` when it failed before sending), its result, and the document it
      decoded into the result container (`None` when it wrote nothing there). */
  datatype Outcome = Outcome(wire: Option<Wire>, result: Result<Response, Error>, decoded: Option<Json>)

  /** A snapshot of the fields of an `APIRequest`. */
  datatype Descriptor = Descriptor(
    verb: Method,
    endpoint: string,
    payload: Option<Json>,
    headers: Header,
    query: Option<map<string, string>>,
    suffix: string)

  // ---------------------------------------------------------------------------
  // Endpoint normalisation

  predicate EndsInSlash(s: string) { |s| > 0 && s[|s| - 1] == '/' }

  /** Every method but POST is sent to an endpoint ending in `/`. */
  function Normalize(verb: Method, endpoint: string): (e: string)
    ensures verb == POST ==> e == endpoint
    ensures verb != POST ==> EndsInSlash(e) && (e == endpoint || e == endpoint + "/")
    ensures EndsInSlash(endpoint) ==> e == endpoint
    ensures |e| <= |endpoint| + 1 && e[..|endpoint|] == endpoint
  {
    if !EndsInSlash(endpoint) && verb != POST then endpoint + "/" else endpoint
  }

  lemma NormalizeIdempotent(verb: Method, endpoint: string)
    ensures Normalize(verb, Normalize(verb, endpoint)) == Normalize(verb, endpoint)
  {
  }

  /** A path built as `prefix + "%d"` never ends in `/`, so every method but
      POST sends it with one slash appended. */
  lemma IdEndpointGetsSlash(verb: Method, prefix: string, id: int)
    ensures verb != POST ==> Normalize(verb, prefix + Format.Decimal(id)) == prefix + Format.Decimal(id) + "/"
    ensures verb == POST ==> Normalize(verb, prefix + Format.Decimal(id)) == prefix + Format.Decimal(id)
  {
    var s := prefix + Format.Decimal(id);
    assert s[|s| - 1] == Format.Decimal(id)[|Format.Decimal(id)| - 1];
  }

  // ---------------------------------------------------------------------------
  // Headers and authentication

  /** `Header.Get`: the first value, or "" when there is none. */
  function FirstValue(values: seq<string>): string
  {
    if values == [] then "" else values[0]
  }

  /** `h` after `h.Add(k, FirstValue(extra[k]))` for every key `k` of `extra`. */
  function AddHeaders(h: Header, extra: Header): (r: Header)
    ensures r.Keys == h.Keys + extra.Keys
    ensures forall k :: k in h && k !in extra ==> r[k] == h[k]
    ensures forall k :: k in extra ==> r[k] == (if k in h then h[k] else []) + [FirstValue(extra[k])]
  {
    map k | k in h.Keys + extra.Keys ::
      if k in extra then (if k in h then h[k] else []) + [FirstValue(extra[k])] else h[k]
  }

  datatype Auth = BasicAuth(username: string, password: string) | TokenAuth(token: string)
  {
    /** The `Authorization` value the scheme writes. */
    function Credentials(lib: Library): string
    {
      match this
      case BasicAuth(user, pass) => "Basic " + lib.base64(user + ":" + pass)
      case TokenAuth(token) => "Bearer " + token
    }

    /** `SetAuthorizationHeader`: a `Header.Set` of `Authorization`, which
        replaces any earlier value and touches no other header. */
    function SetAuthorizationHeader(lib: Library, h: Header): (r: Header)
      ensures r.Keys == h.Keys + {"Authorization"}
      ensures r["Authorization"] == [Credentials(lib)]
      ensures forall k :: k in h && k != "Authorization" ==> r[k] == h[k]
      ensures TokenAuth? ==> r["Authorization"] == ["Bearer " + token]
    {
      h["Authorization" := [Credentials(lib)]]
    }
  }

  /** The loop of `Do` that copies the caller's headers onto the request. */
  method AddCallerHeaders(h: Header, extra: Header) returns (r: Header)
    ensures r == AddHeaders(h, extra)
  {
    r := h;
    var pending := extra.Keys;
    while pending != {}
      invariant pending <= extra.Keys
      invariant r.Keys == h.Keys + (extra.Keys - pending)
      invariant forall k :: k in r && k !in extra.Keys - pending ==> r[k] == h[k]
      invariant forall k :: k in extra.Keys - pending ==>
        r[k] == (if k in h then h[k] else []) + [FirstValue(extra[k])]
      decreases pending
    {
      var k :| k in pending;
      assert (k in r <==> k in h) && (k in r ==> r[k] == h[k]);
      r := r[k := (if k in r then r[k] else []) + [FirstValue(extra[k])]];
      pending := pending - {k};
    }
    var spec := AddHeaders(h, extra);
    assert r.Keys == spec.Keys;
    assert forall k :: k in r ==> r[k] == spec[k];
  }

  // ---------------------------------------------------------------------------
  // Query and parameter validation

  /** The `url.Values` that `Do` builds from a query map: one value per key. */
  function QueryValues(q: map<string, string>): (v: map<string, seq<string>>)
    ensures v.Keys == q.Keys
    ensures forall k :: k in q ==> v[k] == [q[k]]
  {
    map k | k in q :: [q[k]]
  }

  /** The loop of `Do` that `Set`s every query pair into a fresh `url.Values`. */
  method EncodeQuery(q: map<string, string>) returns (values: map<string, seq<string>>)
    ensures values == QueryValues(q)
  {
    values := map[];
    var pending := q.Keys;
    while pending != {}
      invariant pending <= q.Keys
      invariant values.Keys == q.Keys - pending
      invariant forall k :: k in values ==> values[k] == [q[k]]
      decreases pending
    {
      var k :| k in pending;
      values := values[k := [q[k]]];
      pending := pending - {k};
    }
  }

  /** The mandatory fields absent from `data`, in the order they are listed. */
  function Missing(fields: seq<string>, data: map<string, Json>): (r: seq<string>)
    ensures |r| <= |fields|
    ensures forall k :: k in r <==> k in fields && k !in data
  {
    if fields == [] then []
    else Missing(fields[..|fields| - 1], data)
         + (if fields[|fields| - 1] in data then [] else [fields[|fields| - 1]])
  }

  /** Checking one more field appends it exactly when it is absent. */
  lemma MissingSnoc(fields: seq<string>, x: string, data: map<string, Json>)
    ensures Missing(fields + [x], data) == Missing(fields, data) + (if x in data then [] else [x])
  {
    assert (fields + [x])[..|fields|] == fields;
  }

  lemma Regroup(whole: seq<string>, left: seq<string>, right: seq<string>, mid: seq<string>, tail: seq<string>)
    requires whole == (left + mid) + tail && right == mid + tail
    ensures whole == left + right
  {
    assert (left + mid) + tail == left + (mid + tail);
  }

  lemma {:induction false} MissingAppend(a: seq<string>, b: seq<string>, data: map<string, Json>)
    ensures Missing(a + b, data) == Missing(a, data) + Missing(b, data)
    decreases |b|
  {
    if b == [] {
      assert a + b == a;
    } else {
      var init, last := b[..|b| - 1], b[|b| - 1];
      var tail := if last in data then [] else [last];
      var ma, mi := Missing(a, data), Missing(init, data);
      assert Missing(a + b, data) == (ma + mi) + tail by {
        assert a + b == (a + init) + [last];
        MissingSnoc(a + init, last, data);
        MissingAppend(a, init, data);
      }
      assert Missing(b, data) == mi + tail by {
        assert b == init + [last];
        MissingSnoc(init, last, data);
      }
      Regroup(Missing(a + b, data), ma, Missing(b, data), mi, tail);
    }
  }

  /** `ValidateParams`: `status` holds exactly when every mandatory field is a
      key of `data`, and `notfound` lists the absent ones in order. */
  method ValidateParams(data: map<string, Json>, mandatoryFields: seq<string>)
    returns (notfound: seq<string>, status: bool)
    ensures notfound == Missing(mandatoryFields, data)
    ensures status <==> forall k :: k in mandatoryFields ==> k in data
    ensures status <==> notfound == []
  {
    status := true;
    notfound := [];
    for i := 0 to |mandatoryFields|
      invariant notfound == Missing(mandatoryFields[..i], data)
      invariant status <==> notfound == []
    {
      var key := mandatoryFields[i];
      MissingStep(mandatoryFields, i, data);
      if key !in data {
        notfound := notfound + [key];
        status := false;
      }
    }
    assert mandatoryFields[..|mandatoryFields|] == mandatoryFields;
    if !status {
      assert notfound[0] in Missing(mandatoryFields, data);
    }
  }

  lemma MissingStep(fields: seq<string>, i: nat, data: map<string, Json>)
    requires i < |fields|
    ensures Missing(fields[..i + 1], data)
      == Missing(fields[..i], data) + (if fields[i] in data then [] else [fields[i]])
  {
    assert fields[..i + 1][..i] == fields[..i];
  }

  // ---------------------------------------------------------------------------
  // Response classification

  /** Section 15.3 of RFC 9110: the 2xx class is success. */
  predicate IsSuccess(status: int) { 200 <= status <= 299 }

  /** How `Do` settles a fully read response: a status outside 2xx is an error
      carrying the code and the raw body; otherwise the body is decoded into the
      container only when it is non-empty and a container was given. A body
      that decodes to `null` stops at `Do`'s own interface variable and never
      reaches the caller's value, so nothing is written for it. */
  function Settle(lib: Library, status: int, body: Bytes, hasContainer: bool)
    : (o: (Result<Response, Error>, Option<Json>))
    ensures !IsSuccess(status) ==> o == (Err(StatusError(status, body)), None)
    ensures o.0.Ok? <==>
      IsSuccess(status) && (|body| == 0 || !hasContainer || lib.unmarshal(body).Some?)
    ensures o.0.Ok? ==> o.0.value == Response(status, body)
    ensures o.1.Some? <==> o.0.Ok? && |body| > 0 && hasContainer && lib.unmarshal(body) != Some(JNull)
    ensures o.1.Some? ==> o.1 == lib.unmarshal(body)
    ensures IsSuccess(status) && o.0.Err? ==> o.0.error == UnmarshalError
  {
    if status < 200 || status > 299 then (Err(StatusError(status, body)), None)
    else if |body| > 0 && hasContainer then
      match lib.unmarshal(body)
      case None => (Err(UnmarshalError), None)
      case Some(doc) => (Ok(Response(status, body)), if doc == JNull then None else Some(doc))
    else (Ok(Response(status, body)), None)
  }

  /** An empty body, a missing container or a failing status never reach the
      decoder: the outcome is the same whatever `unmarshal` does. */
  lemma SettleSkipsDecoder(lib1: Library, lib2: Library, status: int, body: Bytes, hasContainer: bool)
    requires !IsSuccess(status) || |body| == 0 || !hasContainer
    ensures Settle(lib1, status, body, hasContainer) == Settle(lib2, status, body, hasContainer)
  {
  }

  // ---------------------------------------------------------------------------
  // The request descriptor and the result container

  /** `APIRequest`: built by `NewAPIRequest`, headers added by `SetHeader`, and
      its endpoint rewritten in place by `Do`. */
  class APIRequest {
    var verb: Method
    var endpoint: string
    var payload: Option<Json>
    var headers: Header
    var query: Option<map<string, string>>
    var suffix: string

    function Snapshot(): Descriptor
      reads this
    {
      Descriptor(verb, endpoint, payload, headers, query, suffix)
    }

    /** `NewAPIRequest`: no headers and an empty suffix. */
    constructor (verb: Method, endpoint: string, payload: Option<Json>, query: Option<map<string, string>>)
      ensures Snapshot() == Descriptor(verb, endpoint, payload, map[], query, "")
    {
      this.verb := verb;
      this.endpoint := endpoint;
      this.payload := payload;
      this.headers := map[];
      this.query := query;
      this.suffix := "";
    }

    /** `SetHeader`: `Header.Set`, replacing any earlier values of `key`. */
    method SetHeader(key: string, value: string)
      modifies this
      ensures Snapshot() == old(Snapshot()).(headers := old(headers)[key := [value]])
    {
      headers := headers[key := [value]];
    }
  }

  /** A caller's `map[string]interface{}` payload, which some service methods
      write into. */
  class DataMap {
    var entries: map<string, Json>

    constructor (entries: map<string, Json>)
      ensures this.entries == entries
    {
      this.entries := entries;
    }
  }

  /** The zero value of a result struct, before anything is decoded into it. */
  const EmptyObject: Json := JObject(map[])

  /** The caller's result value, filled in place through the pointer handed to
      the requester. */
  class ResultBox {
    var doc: Json

    constructor (zero: Json)
      ensures doc == zero
    {
      doc := zero;
    }
  }

  /** The document a service method returns from its result container: the
      decoded one, or the container's zero value when nothing was decoded. */
  function Filled(o: Outcome, zero: Json): Json
  {
    if o.decoded.Some? then o.decoded.value else zero
  }

  /** What a service method returns after one requester call: the requester's
      error unchanged, or the filled result container. */
  function Delivered(o: Outcome, zero: Json): (r: Result<Json, Error>)
    ensures r.Err? <==> o.result.Err?
    ensures r.Err? ==> r.error == o.result.error
    ensures r.Ok? && o.decoded.None? ==> r.value == zero
    ensures r.Ok? && o.decoded.Some? ==> r.value == o.decoded.value
  {
    if o.result.Err? then Err(o.result.error) else Ok(Filled(o, zero))
  }

  /** The header `http.Request` carries before the caller's headers are added. */
  function AuthHeader(auth: Option<Auth>, lib: Library): Header
  {
    if auth.Some? then auth.value.SetAuthorizationHeader(lib, map[]) else map[]
  }

  /** The headers set by the caller before `Do` for the body-carrying methods. */
  const JsonContentType: Header := map["Content-Type" := ["application/json"]]

  // ---------------------------------------------------------------------------
  // The requester

  /** `Requester`: the base URL, the optional authentication scheme and the
      foreign functions. It is never changed after construction. */
  datatype Requester = Requester(base: string, auth: Option<Auth>, lib: Library)
  {
    /** Steps of `Do` up to sending, on a descriptor whose endpoint is already
        normalised: URL, query, body, then the auth header and the caller's
        headers on top of it. */
    function Prepare(d: Descriptor): Result<Wire, Error>
    {
      var target := base + d.endpoint + d.suffix;
      if !lib.validUrl(target) then Err(UrlParseError(target))
      else if d.payload.Some? && lib.marshal(d.payload.value).None? then Err(MarshalError)
      else
        var query := if d.query.Some? then Some(QueryValues(d.query.value)) else None;
        var body := if d.payload.Some? then lib.marshal(d.payload.value) else None;
        Ok(Wire(d.verb, target, query, body, AddHeaders(AuthHeader(auth, lib), d.headers)))
    }

    /** The whole of `Do` on a request descriptor `d`, as a function. */
    function Exchange(d: Descriptor, hasContainer: bool, reply: Reply): Outcome
    {
      match Prepare(d.(endpoint := Normalize(d.verb, d.endpoint)))
      case Err(e) => Outcome(None, Err(e), None)
      case Ok(wire) =>
        match reply
        case SendFailed(cause) => Outcome(Some(wire), Err(NetworkError(cause)), None)
        case ReadFailed(cause) => Outcome(Some(wire), Err(BodyReadError(cause)), None)
        case Received(status, bytes) =>
          var (result, decoded) := Settle(lib, status, bytes, hasContainer);
          Outcome(Some(wire), result, decoded)
    }

    /** The request-building part of `Do`. */
    method Build(d: Descriptor) returns (prepared: Result<Wire, Error>)
      ensures prepared == Prepare(d)
    {
      var target := base + d.endpoint + d.suffix;
      if !lib.validUrl(target) {
        return Err(UrlParseError(target));
      }
      var query: Option<map<string, seq<string>>> := None;
      if d.query.Some? {
        var values := EncodeQuery(d.query.value);
        query := Some(values);
      }
      var body: Option<Bytes> := None;
      if d.payload.Some? {
        body := lib.marshal(d.payload.value);
        if body.None? {
          return Err(MarshalError);
        }
      }
      var header: Header := map[];
      if auth.Some? {
        header := auth.value.SetAuthorizationHeader(lib, header);
      }
      header := AddCallerHeaders(header, d.headers);
      prepared := Ok(Wire(d.verb, target, query, body, header));
    }

    /** `Do`: normalises the descriptor's endpoint in place, builds and sends
        the request, and classifies the reply, filling `box` on a decode. */
    method Do(ar: APIRequest, box: ResultBox?, reply: Reply)
      returns (wire: Option<Wire>, result: Result<Response, Error>)
      modifies ar, box
      ensures ar.Snapshot() == old(ar.Snapshot()).(endpoint := Normalize(old(ar.verb), old(ar.endpoint)))
      ensures var o := Exchange(old(ar.Snapshot()), box != null, reply);
        && wire == o.wire && result == o.result
        && (box != null ==> box.doc == Filled(o, old(box.doc)))
    {
      if !EndsInSlash(ar.endpoint) && ar.verb != POST {
        ar.endpoint := ar.endpoint + "/";
      }
      var prepared := Build(ar.Snapshot());
      if prepared.Err? {
        return None, Err(prepared.error);
      }
      wire := Some(prepared.value);
      match reply {
        case SendFailed(cause) =>
          result := Err(NetworkError(cause));
        case ReadFailed(cause) =>
          result := Err(BodyReadError(cause));
        case Received(status, bytes) =>
          if status < 200 || status > 299 {
            result := Err(StatusError(status, bytes));
            return;
          }
          if |bytes| > 0 && box != null {
            var decoded := lib.unmarshal(bytes);
            if decoded.None? {
              result := Err(UnmarshalError);
              return;
            }
            if decoded.value != JNull {
              box.doc := decoded.value;
            }
          }
          result := Ok(Response(status, bytes));
      }
    }

    // The five convenience methods, as functions of their arguments.

    function GetOutcome(endpoint: string, hasContainer: bool, query: Option<map<string, string>>, reply: Reply): Outcome
    {
      Exchange(Descriptor(GET, endpoint, None, map[], query, ""), hasContainer, reply)
    }

    /** POST, PUT and PATCH hand `Do` a pointer to their own `responseStruct`
        variable, which is never nil: `Do` always sees a container. */
    function SendOutcome(verb: Method, endpoint: string, payload: Option<Json>, reply: Reply): Outcome
    {
      Exchange(Descriptor(verb, endpoint, payload, JsonContentType, Some(map[]), ""), true, reply)
    }

    function DeleteOutcome(endpoint: string, reply: Reply): Outcome
    {
      Exchange(Descriptor(DELETE, endpoint, None, map[], Some(map[]), ""), false, reply)
    }

    method Get(endpoint: string, box: ResultBox?, query: Option<map<string, string>>, reply: Reply)
      returns (wire: Option<Wire>, result: Result<Response, Error>)
      modifies box
      ensures var o := GetOutcome(endpoint, box != null, query, reply);
        && wire == o.wire && result == o.result
        && (box != null ==> box.doc == Filled(o, old(box.doc)))
    {
      var ar := new APIRequest(GET, endpoint, None, query);
      ar.suffix := "";
      wire, result := Do(ar, box, reply);
    }

    /** The shared body of `Post`, `Put` and `Patch`. */
    method Send(verb: Method, endpoint: string, payload: Option<Json>, box: ResultBox?, reply: Reply)
      returns (wire: Option<Wire>, result: Result<Response, Error>)
      requires verb in {POST, PUT, PATCH}
      modifies box
      ensures var o := SendOutcome(verb, endpoint, payload, reply);
        && wire == o.wire && result == o.result
        && (box != null ==> box.doc == Filled(o, old(box.doc)))
    {
      var ar := new APIRequest(verb, endpoint, payload, Some(map[]));
      ar.SetHeader("Content-Type", "application/json");
      ar.suffix := "";
      var holder := box;
      if holder == null {
        // `&responseStruct` points at a local variable holding nil: whatever
        // is decoded lands there and is dropped.
        holder := new ResultBox(JNull);
      }
      wire, result := Do(ar, holder, reply);
    }

    method Post(endpoint: string, payload: Option<Json>, box: ResultBox?, reply: Reply)
      returns (wire: Option<Wire>, result: Result<Response, Error>)
      modifies box
      ensures var o := SendOutcome(POST, endpoint, payload, reply);
        && wire == o.wire && result == o.result
        && (box != null ==> box.doc == Filled(o, old(box.doc)))
    {
      wire, result := Send(POST, endpoint, payload, box, reply);
    }

    method Put(endpoint: string, payload: Option<Json>, box: ResultBox?, reply: Reply)
      returns (wire: Option<Wire>, result: Result<Response, Error>)
      modifies box
      ensures var o := SendOutcome(PUT, endpoint, payload, reply);
        && wire == o.wire && result == o.result
        && (box != null ==> box.doc == Filled(o, old(box.doc)))
    {
      wire, result := Send(PUT, endpoint, payload, box, reply);
    }

    method Patch(endpoint: string, payload: Option<Json>, box: ResultBox?, reply: Reply)
      returns (wire: Option<Wire>, result: Result<Response, Error>)
      modifies box
      ensures var o := SendOutcome(PATCH, endpoint, payload, reply);
        && wire == o.wire && result == o.result
        && (box != null ==> box.doc == Filled(o, old(box.doc)))
    {
      wire, result := Send(PATCH, endpoint, payload, box, reply);
    }

    method Delete(endpoint: string, reply: Reply)
      returns (wire: Option<Wire>, result: Result<Response, Error>)
      ensures var o := DeleteOutcome(endpoint, reply); wire == o.wire && result == o.result
    {
      var ar := new APIRequest(DELETE, endpoint, None, Some(map[]));
      ar.suffix := "";
      wire, result := Do(ar, null, reply);
    }
  }

  // ---------------------------------------------------------------------------
  // Properties of `Do`

  /** The request is sent to `Base + Endpoint + Suffix`, the endpoint
      normalised; a request goes out exactly when URL and body could be built. */
  lemma ExchangeTarget(r: Requester, d: Descriptor, hasContainer: bool, reply: Reply)
    ensures var o := r.Exchange(d, hasContainer, reply);
      var target := r.base + Normalize(d.verb, d.endpoint) + d.suffix;
      && (o.wire.Some? ==> o.wire.value.target == target && o.wire.value.verb == d.verb)
      && (o.wire.None? <==> !r.lib.validUrl(target) || (d.payload.Some? && r.lib.marshal(d.payload.value).None?))
  {
  }

  /** A body is sent exactly when there is a payload, and it is the payload's
      JSON encoding; the query is replaced exactly when a query map is given. */
  lemma ExchangeBodyAndQuery(r: Requester, d: Descriptor, hasContainer: bool, reply: Reply)
    ensures var o := r.Exchange(d, hasContainer, reply);
      o.wire.Some? ==>
        && (o.wire.value.body.Some? <==> d.payload.Some?)
        && (d.payload.Some? ==> o.wire.value.body == r.lib.marshal(d.payload.value))
        && (o.wire.value.query.Some? <==> d.query.Some?)
        && (d.query.Some? ==> o.wire.value.query == Some(QueryValues(d.query.value)))
        && (d.query == Some(map[]) ==> o.wire.value.query == Some(map[]))
  {
  }

  /** The auth header is written first and the caller's headers are added
      after it: a caller-supplied `Authorization` value comes second. Without a
      scheme no `Authorization` header is set by the requester. */
  lemma ExchangeHeaders(r: Requester, d: Descriptor, hasContainer: bool, reply: Reply)
    ensures var o := r.Exchange(d, hasContainer, reply);
      o.wire.Some? ==>
        var h := o.wire.value.header;
        && h.Keys == d.headers.Keys + (if r.auth.Some? then {"Authorization"} else {})
        && (r.auth.Some? ==>
              h["Authorization"] == [r.auth.value.Credentials(r.lib)]
                + (if "Authorization" in d.headers then [FirstValue(d.headers["Authorization"])] else []))
        && (forall k :: k in d.headers && k != "Authorization" ==> h[k] == [FirstValue(d.headers[k])])
        && (r.auth.None? ==> forall k :: k in h ==> h[k] == [FirstValue(d.headers[k])])
  {
  }

  /** A status outside 2xx is an error carrying the code and the body
      verbatim, and nothing is decoded; network and read failures are errors
      too, and nothing is decoded for them either. */
  lemma ExchangeStatusClassification(r: Requester, d: Descriptor, hasContainer: bool, reply: Reply)
    ensures var o := r.Exchange(d, hasContainer, reply);
      && (o.decoded.Some? ==> o.result.Ok?)
      && (o.wire.Some? && reply.Received? && !IsSuccess(reply.status) ==>
            o.result == Err(StatusError(reply.status, reply.body)) && o.decoded == None)
      && (o.wire.Some? && reply.SendFailed? ==> o.result == Err(NetworkError(reply.cause)))
      && (o.wire.Some? && reply.ReadFailed? ==> o.result == Err(BodyReadError(reply.cause)))
      && (o.result.Ok? ==>
            reply.Received? && IsSuccess(reply.status) && o.result.value == Response(reply.status, reply.body))
  {
  }

  /** On a 2xx reply the container is written exactly when the body is
      non-empty, a container was given and the body decodes to something other
      than `null`. */
  lemma ExchangeDecodes(r: Requester, d: Descriptor, hasContainer: bool, reply: Reply)
    requires reply.Received? && IsSuccess(reply.status)
    ensures var o := r.Exchange(d, hasContainer, reply);
      o.wire.Some? ==>
        && (o.decoded.Some? <==>
              |reply.body| > 0 && hasContainer && r.lib.unmarshal(reply.body).Some?
              && r.lib.unmarshal(reply.body) != Some(JNull))
        && (o.decoded.Some? ==> o.decoded == r.lib.unmarshal(reply.body))
        && (o.result.Err? <==> |reply.body| > 0 && hasContainer && r.lib.unmarshal(reply.body).None?)
  {
  }

  /** A 2xx body that decodes to `null` is a success that leaves the caller's
      value as it was. */
  lemma NullBodyKeepsContainer(r: Requester, d: Descriptor, hasContainer: bool, status: int, body: Bytes)
    requires IsSuccess(status) && |body| > 0 && r.lib.unmarshal(body) == Some(JNull)
    ensures var o := r.Exchange(d, hasContainer, Received(status, body));
      o.wire.Some? ==> o.result == Ok(Response(status, body)) && o.decoded.None?
  {
  }

  /** POST, PUT and PATCH: no suffix, `Content-Type: application/json`, and the
      query replaced by an empty one. */
  lemma SendRequestShape(r: Requester, verb: Method, endpoint: string, payload: Option<Json>, reply: Reply)
    ensures var o := r.SendOutcome(verb, endpoint, payload, reply);
      o.wire.Some? ==>
        && o.wire.value.target == r.base + Normalize(verb, endpoint)
        && o.wire.value.header["Content-Type"] == ["application/json"]
        && o.wire.value.query == Some(map[])
  {
    assert "Content-Type" != "Authorization";
  }

  /** GET: no suffix, no body and no content type. */
  lemma GetRequestShape(r: Requester, endpoint: string, hasContainer: bool,
                        query: Option<map<string, string>>, reply: Reply)
    ensures var o := r.GetOutcome(endpoint, hasContainer, query, reply);
      o.wire.Some? ==>
        && o.wire.value.target == r.base + Normalize(GET, endpoint)
        && "Content-Type" !in o.wire.value.header
        && o.wire.value.body.None?
  {
  }

  /** DELETE: no suffix, no body, no content type, and never a decode. */
  lemma DeleteRequestShape(r: Requester, endpoint: string, reply: Reply)
    ensures var o := r.DeleteOutcome(endpoint, reply);
      && o.decoded.None?
      && (o.wire.Some? ==>
            && o.wire.value.target == r.base + Normalize(DELETE, endpoint)
            && "Content-Type" !in o.wire.value.header
            && o.wire.value.body.None?)
  {
  }
}
