/**
 * The HTTP core every domain API shares (sdk/typescript/src/base-api-client.ts):
 * building the URL and headers of a request, sending it, and turning the
 * response into data or a thrown error, clearing the session on 401.
 *
 * The network is not modelled: the request a call sends is returned, and the
 * server's answer to it (or the rejection of `fetch`) is a parameter.
 */
module ApiClient {
  import opened Js
  import opened Strings
  import opened TokenStore

  datatype Verb = GET | POST | PUT | DELETE

  /** The `RequestOptions` the verb helpers build: the method, the body, the query parameters and extra headers. */
  datatype RequestOptions = RequestOptions(verb: Verb, body: Option<string>, params: JsObject, headers: map<string, string>)

  /** What goes to `fetch`: the URL before its query, the appended query pairs, the method, the headers and the body. */
  datatype OutgoingRequest = OutgoingRequest(
    url: string, query: seq<(string, string)>, verb: Verb, headers: map<string, string>, body: Option<string>)

  /** What `fetch` comes back with: a response, or a rejection with an `Error` or with another value. */
  datatype FetchOutcome =
    | Response(status: nat, bodyText: string)
    | Rejected(isError: bool, message: string)

  /** The errors `request` can throw. */
  datatype Failure =
    | HttpError(message: string, code: Json, statusCode: nat, details: Json)
    | TypeError(reason: string)
    | SyntaxError
    | FetchFailed(message: string)
    | NetworkError

  datatype Outcome = Data(json: Json) | Thrown(failure: Failure)

  /** `response.ok` (the Fetch Standard's ok status range). */
  predicate IsOk(status: nat) {
    200 <= status <= 299
  }

  /** The query pairs `request` appends: entries whose value is undefined are skipped, the rest printed with `String`. */
  function KeptParams(params: JsObject, host: Host): (r: seq<(string, string)>)
    ensures |r| <= |params|
    ensures forall e | e in r :: exists i | 0 <= i < |params| :: params[i].1 != Undefined && e == (params[i].0, JsToString(params[i].1, host))
    decreases |params|
  {
    if params == [] then []
    else
      var rest := KeptParams(params[1..], host);
      assert forall e | e in rest :: exists i | 0 <= i < |params| :: params[i].1 != Undefined && e == (params[i].0, JsToString(params[i].1, host)) by {
        forall e | e in rest
          ensures exists i | 0 <= i < |params| :: params[i].1 != Undefined && e == (params[i].0, JsToString(params[i].1, host))
        {
          var i :| 0 <= i < |params[1..]| && params[1..][i].1 != Undefined && e == (params[1..][i].0, JsToString(params[1..][i].1, host));
          assert params[i + 1] == params[1..][i];
        }
      }
      if params[0].1 == Undefined then rest
      else [(params[0].0, JsToString(params[0].1, host))] + rest
  }

  lemma {:induction false} KeptParamsAppend(params: JsObject, entry: (string, JsValue), host: Host)
    ensures KeptParams(params + [entry], host) ==
      KeptParams(params, host) + (if entry.1 == Undefined then [] else [(entry.0, JsToString(entry.1, host))])
    decreases |params|
  {
    if params != [] {
      assert (params + [entry])[1..] == params[1..] + [entry];
      KeptParamsAppend(params[1..], entry, host);
    }
  }

  /** Every defined parameter reaches the query, printed with `String`. */
  lemma {:induction false} DefinedParamsKept(params: JsObject, i: nat, host: Host)
    requires i < |params| && params[i].1 != Undefined
    ensures (params[i].0, JsToString(params[i].1, host)) in KeptParams(params, host)
    decreases i
  {
    if i > 0 {
      DefinedParamsKept(params[1..], i - 1, host);
      assert params[1..][i - 1] == params[i];
    }
  }

  /** The loop of `request` that appends the defined parameters to `url.searchParams`. */
  method AppendParams(query: seq<(string, string)>, params: JsObject, host: Host) returns (r: seq<(string, string)>)
    ensures r == query + KeptParams(params, host)
  {
    r := query;
    var i := 0;
    while i < |params|
      invariant 0 <= i <= |params|
      invariant r == query + KeptParams(params[..i], host)
    {
      KeptParamsAppend(params[..i], params[i], host);
      assert params[..i + 1] == params[..i] + [params[i]];
      if params[i].1 != Undefined {
        r := r + [(params[i].0, JsToString(params[i].1, host))];
      }
      i := i + 1;
    }
    assert params[..i] == params;
  }

  /** The headers of a request: a JSON content type, overridden by the auth header, overridden by the caller's. */
  function MergeHeaders(auth: map<string, string>, caller: map<string, string>): (r: map<string, string>)
    ensures r.Keys == {"Content-Type"} + auth.Keys + caller.Keys
    ensures forall k | k in caller :: r[k] == caller[k]
    ensures forall k | k in auth && k !in caller :: r[k] == auth[k]
    ensures "Content-Type" !in auth && "Content-Type" !in caller ==> r["Content-Type"] == "application/json"
  {
    map["Content-Type" := "application/json"] + auth + caller
  }

  /** `data ? JSON.stringify(data) : undefined`: falsy data (0, "", false, null) sends no body. */
  function SerializedBody(data: Option<Json>, host: Host): (r: Option<string>)
    ensures r.Some? <==> data.Some? && JsonTruthy(data.value)
    ensures r.Some? ==> r.value == host.jsonStringify(data.value)
  {
    if data.Some? && JsonTruthy(data.value) then Some(host.jsonStringify(data.value)) else None
  }

  /** `get(path, params)` */
  function GetOptions(params: JsObject): (o: RequestOptions)
    ensures o.verb == GET && o.body == None && o.params == params && o.headers == map[]
  {
    RequestOptions(GET, None, params, map[])
  }

  /** `post(path, data, params)` */
  function PostOptions(data: Option<Json>, params: JsObject, host: Host): (o: RequestOptions)
    ensures o.verb == POST && o.body == SerializedBody(data, host) && o.params == params && o.headers == map[]
  {
    RequestOptions(POST, SerializedBody(data, host), params, map[])
  }

  /** `put(path, data, params)` */
  function PutOptions(data: Option<Json>, params: JsObject, host: Host): (o: RequestOptions)
    ensures o.verb == PUT && o.body == SerializedBody(data, host) && o.params == params && o.headers == map[]
  {
    RequestOptions(PUT, SerializedBody(data, host), params, map[])
  }

  /** `delete(path, params)` */
  function DeleteOptions(params: JsObject): (o: RequestOptions)
    ensures o.verb == DELETE && o.body == None && o.params == params && o.headers == map[]
  {
    RequestOptions(DELETE, None, params, map[])
  }

  /** `d[key]` on a parsed JSON value: only objects have properties (None is undefined). */
  function Prop(d: Json, key: string): (r: Option<Json>)
    ensures r.Some? <==> d.JObj? && key in d.fields
  {
    if d.JObj? && key in d.fields then Some(d.fields[key]) else None
  }

  predicate PropTruthy(d: Json, key: string) {
    Prop(d, key).Some? && JsonTruthy(Prop(d, key).value)
  }

  /** `errorData.error || errorData.message || \`HTTP ${status}\`` */
  function MessageOf(d: Json, status: nat, host: Host): (r: string)
    ensures PropTruthy(d, "error") ==> r == JsonToString(d.fields["error"], host)
    ensures !PropTruthy(d, "error") && PropTruthy(d, "message") ==> r == JsonToString(d.fields["message"], host)
    ensures !PropTruthy(d, "error") && !PropTruthy(d, "message") ==> r == "HTTP " + NatToDecimal(status)
  {
    if PropTruthy(d, "error") then JsonToString(d.fields["error"], host)
    else if PropTruthy(d, "message") then JsonToString(d.fields["message"], host)
    else "HTTP " + NatToDecimal(status)
  }

  /** `errorData.code || 'HTTP_ERROR'` */
  function CodeOf(d: Json): (r: Json)
    ensures PropTruthy(d, "code") ==> r == d.fields["code"]
    ensures !PropTruthy(d, "code") ==> r == JStr("HTTP_ERROR")
  {
    if PropTruthy(d, "code") then d.fields["code"] else JStr("HTTP_ERROR")
  }

  /** `{ error: 'Request failed' }`, used when the error body is not JSON. */
  const REQUEST_FAILED: Json := JObj(map["error" := JStr("Request failed")])

  /** The error body as `handleErrorResponse` sees it. */
  function ErrorData(bodyText: string, host: Host): (d: Json)
    ensures host.jsonParse(bodyText).Some? ==> d == host.jsonParse(bodyText).value
    ensures host.jsonParse(bodyText).None? ==> d == REQUEST_FAILED
  {
    match host.jsonParse(bodyText)
    case None => REQUEST_FAILED
    case Some(d) => d
  }

  /**
   * The error `handleErrorResponse` throws; a body that parses to `null`
   * makes reading `errorData.error` itself throw a TypeError.
   */
  function ErrorFor(status: nat, bodyText: string, host: Host): (f: Failure)
    ensures ErrorData(bodyText, host) == JNull <==> f.TypeError?
    ensures ErrorData(bodyText, host) != JNull ==>
      var d := ErrorData(bodyText, host);
      f == HttpError(MessageOf(d, status, host), CodeOf(d), status, d)
  {
    var d := ErrorData(bodyText, host);
    if d == JNull then TypeError("Cannot read properties of null (reading 'error')")
    else HttpError(MessageOf(d, status, host), CodeOf(d), status, d)
  }

  /** The outcome of a request once the URL is built and `fetch` has settled. */
  function Settle(fetched: FetchOutcome, host: Host): (out: Outcome)
    ensures out.Data? ==> fetched.Response? && IsOk(fetched.status)
    ensures fetched.Response? && !IsOk(fetched.status) ==> out == Thrown(ErrorFor(fetched.status, fetched.bodyText, host))
    ensures fetched.Response? && IsOk(fetched.status) && fetched.bodyText == "" ==> out == Data(JObj(map[]))
    ensures fetched.Response? && IsOk(fetched.status) && fetched.bodyText != "" ==>
      out == (match host.jsonParse(fetched.bodyText) case Some(j) => Data(j) case None => Thrown(SyntaxError))
    ensures fetched.Rejected? ==> out == Thrown(if fetched.isError then FetchFailed(fetched.message) else NetworkError)
  {
    match fetched
    case Rejected(isError, message) => Thrown(if isError then FetchFailed(message) else NetworkError)
    case Response(status, text) =>
      if !IsOk(status) then Thrown(ErrorFor(status, text, host))
      else if text == "" then Data(JObj(map[]))
      else
        match host.jsonParse(text)
        case Some(j) => Data(j)
        case None => Thrown(SyntaxError)
  }

  /** The response that makes `handleErrorResponse` reach `clearTokens`: a 401 whose body does not parse to null. */
  predicate SessionCleared(fetched: FetchOutcome, host: Host) {
    fetched.Response? && fetched.status == 401 && ErrorData(fetched.bodyText, host) != JNull
  }

  /** A 401 with an empty or non-JSON body clears the session and reports the fallback message. */
  lemma {:induction false} UnauthorizedWithoutBody(bodyText: string, host: Host)
    requires host.jsonParse(bodyText).None?
    ensures SessionCleared(Response(401, bodyText), host)
    ensures Settle(Response(401, bodyText), host) ==
      Thrown(HttpError("Request failed", JStr("HTTP_ERROR"), 401, REQUEST_FAILED))
  {
    assert PropTruthy(REQUEST_FAILED, "error");
    assert !PropTruthy(REQUEST_FAILED, "code");
  }

  /** An error body with neither `error` nor `message` gives the status line as message. */
  lemma {:induction false} ServerErrorWithEmptyObject(bodyText: string, host: Host)
    requires host.jsonParse(bodyText) == Some(JObj(map[]))
    ensures Settle(Response(500, bodyText), host) == Thrown(HttpError("HTTP 500", JStr("HTTP_ERROR"), 500, JObj(map[])))
  {
    assert NatToDecimal(500) == "500";
  }

  datatype Effect = TokensCleared | AuthErrorCallback

  /** `BaseAPIClient`; `effects` records the session clearing and the calls of `onAuthError`, in order. */
  class BaseApiClient {
    const baseUrl: string
    const tokens: TokenManager
    const hasAuthErrorCallback: bool
    var effects: seq<Effect>

    constructor(baseUrl: string, tokens: TokenManager, hasAuthErrorCallback: bool)
      ensures this.baseUrl == baseUrl && this.tokens == tokens && this.hasAuthErrorCallback == hasAuthErrorCallback
      ensures effects == []
    {
      this.baseUrl := baseUrl;
      this.tokens := tokens;
      this.hasAuthErrorCallback := hasAuthErrorCallback;
      effects := [];
    }

    /** What a 401 does: clear the tokens, then call `onAuthError` when there is one. */
    function AuthEffects(): (r: seq<Effect>)
      ensures |r| == (if hasAuthErrorCallback then 2 else 1)
      ensures r[0] == TokensCleared
      ensures hasAuthErrorCallback ==> r[1] == AuthErrorCallback
    {
      [TokensCleared] + (if hasAuthErrorCallback then [AuthErrorCallback] else [])
    }

    /** `handleErrorResponse`: build the error, clear the session on 401, and throw. */
    method HandleErrorResponse(status: nat, bodyText: string, host: Host) returns (f: Failure)
      modifies this, tokens, tokens.store
      ensures f == ErrorFor(status, bodyText, host)
      ensures SessionCleared(Response(status, bodyText), host) ==>
        tokens.Current() == Session(None, None) &&
        tokens.store.items == StoreAfterClear(old(tokens.store.items), tokens.Persistent()) &&
        effects == old(effects) + AuthEffects()
      ensures !SessionCleared(Response(status, bodyText), host) ==>
        unchanged(tokens) && unchanged(tokens.store) && effects == old(effects)
    {
      var data := ErrorData(bodyText, host);
      if data == JNull {
        f := TypeError("Cannot read properties of null (reading 'error')");
        return;
      }
      f := HttpError(MessageOf(data, status, host), CodeOf(data), status, data);
      if status == 401 {
        tokens.ClearTokens();
        effects := effects + [TokensCleared];
        if hasAuthErrorCallback {
          effects := effects + [AuthErrorCallback];
        }
      }
    }

    /**
     * `request(path, options)` against the response `fetched`: a URL that does
     * not parse throws before anything is sent; otherwise the request goes out
     * with the defined parameters and the merged headers, and the response
     * settles the outcome.
     */
    method Request(path: string, opts: RequestOptions, fetched: FetchOutcome, host: Host)
      returns (sent: Option<OutgoingRequest>, out: Outcome)
      modifies this, tokens, tokens.store
      ensures !host.urlParses(baseUrl + path) ==>
        sent == None && out == Thrown(TypeError("Invalid URL")) &&
        effects == old(effects) && unchanged(tokens) && unchanged(tokens.store)
      ensures host.urlParses(baseUrl + path) ==>
        sent == Some(OutgoingRequest(baseUrl + path, KeptParams(opts.params, host), opts.verb,
                                     MergeHeaders(old(tokens.GetAuthHeader()), opts.headers), opts.body)) &&
        out == Settle(fetched, host)
      ensures host.urlParses(baseUrl + path) && SessionCleared(fetched, host) ==>
        tokens.Current() == Session(None, None) &&
        tokens.store.items == StoreAfterClear(old(tokens.store.items), tokens.Persistent()) &&
        effects == old(effects) + AuthEffects()
      ensures !(host.urlParses(baseUrl + path) && SessionCleared(fetched, host)) ==>
        unchanged(tokens) && unchanged(tokens.store) && effects == old(effects)
    {
      var url := baseUrl + path;
      if !host.urlParses(url) {
        return None, Thrown(TypeError("Invalid URL"));
      }
      var query := AppendParams([], opts.params, host);
      assert query == KeptParams(opts.params, host);
      var headers := MergeHeaders(tokens.GetAuthHeader(), opts.headers);
      sent := Some(OutgoingRequest(url, query, opts.verb, headers, opts.body));
      match fetched {
        case Rejected(isError, message) =>
          out := Thrown(if isError then FetchFailed(message) else NetworkError);
        case Response(status, text) =>
          if !IsOk(status) {
            var f := HandleErrorResponse(status, text, host);
            out := Thrown(f);
          } else if text == "" {
            out := Data(JObj(map[]));
          } else {
            match host.jsonParse(text) {
              case Some(j) => out := Data(j);
              case None => out := Thrown(SyntaxError);
            }
          }
      }
    }
  }
}
