/** The app's HTTP client configuration: the base URL, the endpoint paths,
    the headers sent, and how one `fetchJson` call turns the transport's
    outcome into a value or an error message. The network, the timer and
    `JSON.parse`/`JSON.stringify` themselves are not modelled: what the
    transport did (responded, was aborted by the timer, failed) and what the
    response text parsed to are inputs. */
module ApiClient {
  import opened Common

  const DefaultBaseUrl := "http://localhost:8000"
  const ApiVersion := "v1"
  const DefaultTimeoutMs := 30000

  /** `process.env.EXPO_PUBLIC_API_BASE_URL || 'http://localhost:8000'`:
      an unset or empty variable gives the default. */
  function BaseUrl(env: Option<string>): (r: string)
    ensures env.Some? && env.value != "" ==> r == env.value
    ensures env.None? || env.value == "" ==> r == DefaultBaseUrl
    ensures r != ""
  {
    if env.Some? && env.value != "" then env.value else DefaultBaseUrl
  }

  // ---------------------------------------------------------------------
  // Endpoints

  const Prefix := "/api/" + ApiVersion + "/"

  const AuthRegister := Prefix + "auth/register"
  const AuthLogin := Prefix + "auth/login"
  const AuthLogout := Prefix + "auth/logout"
  const AuthRefresh := Prefix + "auth/refresh"
  const ProfileMe := Prefix + "profile/me"
  const ProfileChangePassword := Prefix + "profile/change-password"
  const OrdersList := Prefix + "orders"
  const MedicinesList := Prefix + "medicines"

  function OrderDetail(id: string): string { Prefix + "orders/" + id }
  function MedicineDetail(id: string): string { Prefix + "medicines/" + id }

  predicate StartsWith(s: string, prefix: string) {
    |prefix| <= |s| && s[..|prefix|] == prefix
  }

  /** Every path lives under "/api/v1/", and a detail path is its list
      path, a slash, and the id. */
  lemma EndpointShapes(id: string)
    ensures Prefix == "/api/v1/"
    ensures forall p | p in {AuthRegister, AuthLogin, AuthLogout, AuthRefresh, ProfileMe,
                              ProfileChangePassword, OrdersList, MedicinesList,
                              OrderDetail(id), MedicineDetail(id)} :: StartsWith(p, "/api/v1/")
    ensures OrderDetail(id) == OrdersList + "/" + id
    ensures MedicineDetail(id) == MedicinesList + "/" + id
  {
    forall p, q | p == Prefix + q ensures StartsWith(p, "/api/v1/") {
      assert p[..|Prefix|] == Prefix;
    }
    assert AuthRegister == Prefix + "auth/register";
    assert AuthLogin == Prefix + "auth/login";
    assert AuthLogout == Prefix + "auth/logout";
    assert AuthRefresh == Prefix + "auth/refresh";
    assert ProfileMe == Prefix + "profile/me";
    assert ProfileChangePassword == Prefix + "profile/change-password";
    assert OrdersList == Prefix + "orders";
    assert MedicinesList == Prefix + "medicines";
    assert OrderDetail(id) == Prefix + ("orders/" + id);
    assert MedicineDetail(id) == Prefix + ("medicines/" + id);
  }

  /** `buildApiUrl`: the base URL immediately followed by the path. */
  function BuildApiUrl(base: string, endpoint: string): (r: string)
    ensures |r| == |base| + |endpoint|
    ensures r[..|base|] == base && r[|base|..] == endpoint
  {
    base + endpoint
  }

  // ---------------------------------------------------------------------
  // Headers

  type Headers = map<string, string>

  const DefaultHeaders: Headers := map["Content-Type" := "application/json", "Accept" := "application/json"]

  /** `getAuthHeaders(token)`: the defaults, plus a bearer authorization
      when the token is a non-empty string. */
  function AuthHeaders(token: Option<string>): (r: Headers)
    ensures token.None? || token.value == "" ==> r == DefaultHeaders
    ensures token.Some? && token.value != "" ==>
              r.Keys == DefaultHeaders.Keys + {"Authorization"}
              && r["Authorization"] == "Bearer " + token.value
              && forall k | k in DefaultHeaders :: r[k] == DefaultHeaders[k]
  {
    if token.Some? && token.value != "" then DefaultHeaders["Authorization" := "Bearer " + token.value]
    else DefaultHeaders
  }

  /** `{ ...base, ...overrides }`: the caller's header wins over a default
      or authorization header of the same name. */
  function MergeHeaders(base: Headers, overrides: Headers): (r: Headers)
    ensures r.Keys == base.Keys + overrides.Keys
    ensures forall k | k in overrides :: r[k] == overrides[k]
    ensures forall k | k in base && k !in overrides :: r[k] == base[k]
  {
    base + overrides
  }

  // ---------------------------------------------------------------------
  // JSON values and their JavaScript conversions

  datatype Json =
    | JNull
    | JBool(b: bool)
    | JNumber(n: int)
    | JString(s: string)
    | JArray(items: seq<Json>)
    | JObject(fields: map<string, Json>)

  /** JavaScript truthiness of a JSON value (no NaN among the numbers). */
  predicate Truthy(v: Json) {
    match v
    case JNull => false
    case JBool(b) => b
    case JNumber(n) => n != 0
    case JString(s) => s != ""
    case _ => true
  }

  /** `v.key`: the member of an object, undefined (None) for anything else. */
  function Member(v: Json, key: string): (r: Option<Json>)
    ensures r.Some? <==> v.JObject? && key in v.fields
  {
    if v.JObject? && key in v.fields then Some(v.fields[key]) else None
  }

  /** `String(v)`, the message `new Error(v)` carries. */
  function ToJsString(v: Json): (r: string)
    ensures v.JString? ==> r == v.s
    ensures v.JObject? ==> r == "[object Object]"
    ensures v == JNull ==> r == "null"
    ensures v.JArray? && v.items == [] ==> r == ""
    ensures v.JArray? && |v.items| == 1 ==> r == if v.items[0] == JNull then "" else ToJsString(v.items[0])
    decreases v, 1, 0
  {
    match v
    case JNull => "null"
    case JBool(b) => if b then "true" else "false"
    case JNumber(n) => IntToString(n)
    case JString(s) => s
    case JArray(items) => JoinFrom(v, 0)
    case JObject(_) => "[object Object]"
  }

  /** `items.slice(i).join(",")`, null elements written as nothing. */
  function JoinFrom(v: Json, i: nat): string
    requires v.JArray? && i <= |v.items|
    decreases v, 0, |v.items| - i
  {
    if i == |v.items| then ""
    else
      var item := if v.items[i] == JNull then "" else ToJsString(v.items[i]);
      if i + 1 == |v.items| then item else item + "," + JoinFrom(v, i + 1)
  }

  // ---------------------------------------------------------------------
  // One request

  datatype HttpMethod = GET | POST | PUT | PATCH | DELETE

  /** The `options` argument; a missing member is `None` (undefined). A
      body of `Some(JNull)` is an explicit `null`. */
  datatype FetchOptions = FetchOptions(
    verb: Option<HttpMethod>,
    token: Option<string>,
    body: Option<Json>,
    headers: Option<Headers>,
    timeoutMs: Option<int>)

  const NoOptions := FetchOptions(None, None, None, None, None)

  /** The request handed to `fetch`: the body is the value that is
      serialised as JSON, when one is attached. */
  datatype Request = Request(url: string, verb: HttpMethod, headers: Headers, body: Option<Json>, timeoutMs: int)

  /** What the response text held: nothing, JSON, or text `JSON.parse`
      rejects with the given message. */
  datatype ResponseBody = EmptyText | Parsed(value: Json) | Unparseable(parseError: string)

  datatype Response = Response(ok: bool, statusText: string, body: ResponseBody)

  /** How the transport ended: a response, the timer's abort, or any other
      failure with its message. */
  datatype Transport = Responded(response: Response) | Aborted | TransportFailed(message: string)

  /** The promise `fetchJson` returns: a value, or a rejection with an
      `Error` message. */
  datatype Outcome = Resolved(data: Json) | Rejected(message: string)

  /** `(data && (data.detail || data.message)) || res.statusText || 'Request failed'`,
      as the message of the error thrown: the first truthy of `detail` and
      `message` converted to a string, otherwise the status text, otherwise
      'Request failed'. */
  function ErrorMessage(data: Json, statusText: string): (r: string)
    ensures Member(data, "detail").Some? && Truthy(Member(data, "detail").value) ==>
              r == ToJsString(data.fields["detail"])
    ensures data.JObject? && !("detail" in data.fields && Truthy(data.fields["detail"]))
            && "message" in data.fields && Truthy(data.fields["message"]) ==>
              r == ToJsString(data.fields["message"])
    ensures !(data.JObject? && (("detail" in data.fields && Truthy(data.fields["detail"]))
                                || ("message" in data.fields && Truthy(data.fields["message"])))) ==>
              r == if statusText != "" then statusText else "Request failed"
  {
    var detail := Member(data, "detail");
    var message := Member(data, "message");
    if Truthy(data) && detail.Some? && Truthy(detail.value) then ToJsString(detail.value)
    else if Truthy(data) && message.Some? && Truthy(message.value) then ToJsString(message.value)
    else if statusText != "" then statusText
    else "Request failed"
  }

  /** How the promise of `fetchJson` settles for a given transport: a
      timeout and any other failure reject with their messages, so does a
      response text that is not JSON; otherwise an ok response resolves to
      its data (null for an empty text) and any other rejects with the
      message taken from the data. */
  function Settle(transport: Transport): (r: Outcome)
    ensures transport.Aborted? ==> r == Rejected("Request timed out")
    ensures transport.TransportFailed? ==> r == Rejected(transport.message)
    ensures transport.Responded? && transport.response.body.Unparseable? ==>
              r == Rejected(transport.response.body.parseError)
    ensures transport.Responded? && !transport.response.body.Unparseable? ==>
              var data := if transport.response.body.Parsed? then transport.response.body.value else JNull;
              r == if transport.response.ok then Resolved(data)
                   else Rejected(ErrorMessage(data, transport.response.statusText))
    ensures r.Resolved? <==> transport.Responded? && transport.response.ok && !transport.response.body.Unparseable?
  {
    match transport
    case Aborted => Rejected("Request timed out")
    case TransportFailed(m) => Rejected(m)
    case Responded(res) =>
      match res.body
      case Unparseable(e) => Rejected(e)
      case EmptyText => if res.ok then Resolved(JNull) else Rejected(ErrorMessage(JNull, res.statusText))
      case Parsed(data) => if res.ok then Resolved(data) else Rejected(ErrorMessage(data, res.statusText))
  }

  /** `fetchJson(endpoint, options)` against the base URL `base`. */
  method FetchJson(base: string, endpoint: string, options: Option<FetchOptions>, transport: Transport)
    returns (request: Request, outcome: Outcome)
    ensures var o := options.GetOr(NoOptions);
      && request.url == BuildApiUrl(base, endpoint)
      && request.verb == o.verb.GetOr(GET)
      && request.timeoutMs == o.timeoutMs.GetOr(DefaultTimeoutMs)
      && request.headers == MergeHeaders(AuthHeaders(o.token), o.headers.GetOr(map[]))
      && (request.body.Some? <==> o.body.Some? && o.body.value != JNull)
      && (request.body.Some? ==> request.body == o.body)
    ensures outcome == Settle(transport)
  {
    var o := options.GetOr(NoOptions);
    var verb := o.verb.GetOr(GET);
    var headers := o.headers.GetOr(map[]);
    var timeoutMs := o.timeoutMs.GetOr(DefaultTimeoutMs);
    request := Request(BuildApiUrl(base, endpoint), verb, MergeHeaders(AuthHeaders(o.token), headers), None, timeoutMs);
    if o.body.Some? && o.body.value != JNull {
      request := request.(body := o.body);
    }
    outcome := Settle(transport);
  }

  /** `apiGet`: a GET without a body. */
  method ApiGet(base: string, endpoint: string, token: Option<string>, transport: Transport)
    returns (request: Request, outcome: Outcome)
    ensures request.url == BuildApiUrl(base, endpoint)
    ensures request.verb == GET && request.body.None?
    ensures request.headers == AuthHeaders(token) && request.timeoutMs == DefaultTimeoutMs
    ensures outcome == Settle(transport)
  {
    request, outcome := FetchJson(base, endpoint, Some(FetchOptions(Some(GET), token, None, None, None)), transport);
  }

  /** `apiPost`: a POST carrying `body` unless it is null. */
  method ApiPost(base: string, endpoint: string, body: Json, token: Option<string>, transport: Transport)
    returns (request: Request, outcome: Outcome)
    ensures request.url == BuildApiUrl(base, endpoint)
    ensures request.verb == POST
    ensures request.body == if body == JNull then None else Some(body)
    ensures request.headers == AuthHeaders(token) && request.timeoutMs == DefaultTimeoutMs
    ensures outcome == Settle(transport)
  {
    request, outcome := FetchJson(base, endpoint, Some(FetchOptions(Some(POST), token, Some(body), None, None)), transport);
  }

  /** `apiPut`: a PUT carrying `body` unless it is null. */
  method ApiPut(base: string, endpoint: string, body: Json, token: Option<string>, transport: Transport)
    returns (request: Request, outcome: Outcome)
    ensures request.url == BuildApiUrl(base, endpoint)
    ensures request.verb == PUT
    ensures request.body == if body == JNull then None else Some(body)
    ensures request.headers == AuthHeaders(token) && request.timeoutMs == DefaultTimeoutMs
    ensures outcome == Settle(transport)
  {
    request, outcome := FetchJson(base, endpoint, Some(FetchOptions(Some(PUT), token, Some(body), None, None)), transport);
  }

  /** `apiDelete`: a DELETE without a body. */
  method ApiDelete(base: string, endpoint: string, token: Option<string>, transport: Transport)
    returns (request: Request, outcome: Outcome)
    ensures request.url == BuildApiUrl(base, endpoint)
    ensures request.verb == DELETE && request.body.None?
    ensures request.headers == AuthHeaders(token) && request.timeoutMs == DefaultTimeoutMs
    ensures outcome == Settle(transport)
  {
    request, outcome := FetchJson(base, endpoint, Some(FetchOptions(Some(DELETE), token, None, None, None)), transport);
  }

  /** An error whose `detail` is a non-empty string shows that string. */
  lemma StringDetailShown(detail: string, statusText: string)
    requires detail != ""
    ensures ErrorMessage(JObject(map["detail" := JString(detail)]), statusText) == detail
  {
  }

  /** A request-validation error, whose `detail` is a list of objects,
      shows "[object Object]" once per entry instead of a readable message. */
  lemma ValidationDetailShownAsObjectText(entry: map<string, Json>, statusText: string)
    ensures ErrorMessage(JObject(map["detail" := JArray([JObject(entry)])]), statusText) == "[object Object]"
    ensures ErrorMessage(JObject(map["detail" := JArray([JObject(entry), JObject(entry)])]), statusText)
            == "[object Object],[object Object]"
  {
    ObjectListText(entry);
    var d1 := JObject(map["detail" := JArray([JObject(entry)])]);
    assert Member(d1, "detail") == Some(JArray([JObject(entry)]));
    var d2 := JObject(map["detail" := JArray([JObject(entry), JObject(entry)])]);
    assert Member(d2, "detail") == Some(JArray([JObject(entry), JObject(entry)]));
  }

  /** `String` of a list of objects: one "[object Object]" per entry,
      joined by commas. */
  lemma ObjectListText(entry: map<string, Json>)
    ensures ToJsString(JArray([JObject(entry)])) == "[object Object]"
    ensures ToJsString(JArray([JObject(entry), JObject(entry)])) == "[object Object],[object Object]"
  {
    var one := JArray([JObject(entry)]);
    assert JoinFrom(one, 0) == "[object Object]";
    var two := JArray([JObject(entry), JObject(entry)]);
    assert JoinFrom(two, 1) == "[object Object]";
    assert JoinFrom(two, 0) == "[object Object]" + "," + "[object Object]";
  }
}
