/**
 * The resource client of `api/client.ts`: a base URL and a header dictionary that
 * the bearer token is written into, query-parameter appending for GET, and the
 * mapping of a fetch outcome to an `ApiResponse`.
 *
 * The network is the parameter `outcome`: a response (its `ok` flag and its parsed
 * body), an abort by the timeout controller, or another failure with its message.
 */
module HttpClient {
  import opened Base
  import opened Query

  const ApiTimeout: int := 30000
  const AuthorizationKey := "Authorization"
  const JsonType := "application/json"

  /** `ApiResponse<T>`: a success flag, then data and message, or an error body. */
  datatype ApiResponse<T> = ApiResponse(success: bool, data: Option<T>, message: Option<Json>, error: Option<Json>)

  datatype FetchOutcome = Response(ok: bool, body: Json) | Aborted | Failed(message: string)

  /** What is handed to `fetch`: method, the header dictionary and an optional body. */
  datatype RequestInit = RequestInit(verb: string, headers: map<string, string>, body: Option<string>)

  /** The client-made error body `{status, code, message}`. */
  function ErrorBody(status: int, code: string, message: string): Json
  {
    JObj([("status", JNum(status)), ("code", JStr(code)), ("message", JStr(message))])
  }

  /** The TypeError `new URL` throws for a string it cannot parse. */
  const InvalidUrl := "Invalid URL"

  /** The message the engine gives when `.data` is read from a null body (V8 wording). */
  const NullBodyMessage := "Cannot read properties of null (reading 'data')"

  /** How `request` turns the outcome of `fetch` into an `ApiResponse`. */
  function ResponseOf(outcome: FetchOutcome): (r: ApiResponse<Json>)
    ensures r.success <==> outcome.Response? && outcome.ok && outcome.body != JNull
    ensures outcome.Response? && !outcome.ok ==> r.error == Some(outcome.body)
    ensures r.success ==> r.data == Member(outcome.body, "data") && r.message == Member(outcome.body, "message")
    ensures r.success ==> r.error.None?
    ensures outcome.Aborted? ==> r.error == Some(ErrorBody(408, "REQUEST_TIMEOUT", "Request timed out"))
    ensures outcome.Failed? ==>
              r.error == Some(ErrorBody(0, "NETWORK_ERROR", if outcome.message != "" then outcome.message else "Network error"))
  {
    match outcome
    case Response(ok, body) =>
      if !ok then ApiResponse(false, None, None, Some(body))
      else if body == JNull then ApiResponse(false, None, None, Some(ErrorBody(0, "NETWORK_ERROR", NullBodyMessage)))
      else ApiResponse(true, Member(body, "data"), Member(body, "message"), None)
    case Aborted => ApiResponse(false, None, None, Some(ErrorBody(408, "REQUEST_TIMEOUT", "Request timed out")))
    case Failed(m) => ApiResponse(false, None, None, Some(ErrorBody(0, "NETWORK_ERROR", if m != "" then m else "Network error")))
  }

  /** `if (data) options.body = JSON.stringify(data)`: a body only for truthy data. */
  function BodyOf(data: Option<Json>): (r: Option<string>)
    ensures r.Some? <==> data.Some? && JsonTruthy(data.value)
    ensures r.Some? ==> r.value == Stringify(data.value)
  {
    if data.Some? && JsonTruthy(data.value) then Some(Stringify(data.value)) else None
  }

  /** The token inside an `Authorization` value: the second of exactly two space-separated parts. */
  function TokenOfHeader(h: Option<string>): (r: Option<string>)
  {
    if h.None? || h.value == "" then None
    else
      var parts := Split(h.value, ' ');
      if |parts| == 2 then Some(parts[1]) else None
  }

  lemma SplitBearer(t: string)
    ensures Split("Bearer " + t, ' ') == ["Bearer"] + Split(t, ' ')
  {
    var s := "Bearer " + t;
    assert s[6] == ' ';
    var i := IndexOfChar(s, ' ');
    assert s[..6] == "Bearer";
    assert i == 6;
    assert s[i + 1..] == t;
  }

  /** A token without spaces reads back from its `Bearer` header; one with a space is lost. */
  lemma BearerRoundTrip(t: string)
    ensures ' ' !in t ==> TokenOfHeader(Some("Bearer " + t)) == Some(t)
    ensures ' ' in t ==> TokenOfHeader(Some("Bearer " + t)).None?
  {
    SplitBearer(t);
    if ' ' in t {
      var i := IndexOfChar(t, ' ');
      assert |Split(t, ' ')| >= 2;
    }
  }

  /** The pairs `get` appends: every parameter whose value is neither null nor undefined, in key order. */
  function PresentParams(params: seq<(string, Option<Scalar>)>): (r: seq<Param>)
    ensures |r| <= |params|
  {
    if params == [] then []
    else
      var rest := PresentParams(params[1..]);
      if params[0].1.Some? then [Param(params[0].0, ScalarText(params[0].1.value))] + rest else rest
  }

  lemma {:induction false} PresentParamsAll(params: seq<(string, Option<Scalar>)>)
    requires forall i :: 0 <= i < |params| ==> params[i].1.Some?
    ensures |PresentParams(params)| == |params|
  {
    if params != [] {
      PresentParamsAll(params[1..]);
    }
  }

  lemma {:induction false} PresentParamsNone(params: seq<(string, Option<Scalar>)>)
    requires forall i :: 0 <= i < |params| ==> params[i].1.None?
    ensures PresentParams(params) == []
  {
    if params != [] {
      PresentParamsNone(params[1..]);
    }
  }

  class ApiClient {
    var baseUrl: string
    var headers: map<string, string>
    const timeout: int

    constructor(baseUrl: string, timeout: int)
      ensures this.baseUrl == baseUrl && this.timeout == timeout
      ensures headers == map["Content-Type" := JsonType, "Accept" := JsonType]
    {
      this.baseUrl := baseUrl;
      this.timeout := timeout;
      headers := map["Content-Type" := JsonType, "Accept" := JsonType];
    }

    /** `setAuthToken(token)`: writes or deletes `Authorization` and touches no other header. */
    method SetAuthToken(token: Option<string>)
      modifies this
      ensures TruthyStr(token) ==> headers == old(headers)[AuthorizationKey := "Bearer " + token.value]
      ensures !TruthyStr(token) ==> headers == old(headers) - {AuthorizationKey}
      ensures headers - {AuthorizationKey} == old(headers) - {AuthorizationKey}
      ensures baseUrl == old(baseUrl)
    {
      if TruthyStr(token) {
        headers := headers[AuthorizationKey := "Bearer " + token.value];
      } else {
        headers := headers - {AuthorizationKey};
      }
    }

    function GetAuthToken(): (r: Option<string>)
      reads this
      ensures AuthorizationKey !in headers ==> r.None?
    {
      TokenOfHeader(if AuthorizationKey in headers then Some(headers[AuthorizationKey]) else None)
    }

    method UpdateBaseUrl(url: string)
      modifies this
      ensures baseUrl == url && headers == old(headers)
    {
      baseUrl := url;
    }

    function Options(httpMethod: string, data: Option<Json>): (r: RequestInit)
      reads this
    {
      RequestInit(httpMethod, headers, BodyOf(data))
    }

    /**
     * `get(path, params)`: `new URL(baseUrl + path)` with every present parameter
     * appended in order. A joined string without any ':' has no scheme, so the URL
     * constructor throws before anything is sent (the default base '' with a '/'
     * path is such a string).
     */
    method Get(path: string, params: seq<(string, Option<Scalar>)>, outcome: FetchOutcome)
      returns (url: string, init: RequestInit, r: Outcome<ApiResponse<Json>>)
      ensures ':' !in baseUrl + path ==> r == Threw(InvalidUrl)
      ensures ':' in baseUrl + path ==> url == WithQuery(baseUrl + path, PresentParams(params))
      ensures ':' in baseUrl + path ==> r == Returned(ResponseOf(outcome))
      ensures init == Options("GET", None) && init.body.None?
    {
      init := Options("GET", None);
      if ':' !in baseUrl + path {
        url := baseUrl + path;
        r := Threw(InvalidUrl);
        return;
      }
      var appended: seq<Param> := [];
      var i := 0;
      assert params[0..] == params;
      while i < |params|
        invariant 0 <= i <= |params|
        invariant appended + PresentParams(params[i..]) == PresentParams(params)
      {
        assert params[i..][1..] == params[i + 1..];
        if params[i].1.Some? {
          appended := appended + [Param(params[i].0, ScalarText(params[i].1.value))];
        }
        i := i + 1;
      }
      assert appended == PresentParams(params);
      url := WithQuery(baseUrl + path, appended);
      r := Returned(ResponseOf(outcome));
    }

    /** `post`, `put` and `patch`: the joined URL, the method and a body for truthy data. */
    method Send(httpMethod: string, path: string, data: Option<Json>, outcome: FetchOutcome)
      returns (url: string, init: RequestInit, r: ApiResponse<Json>)
      ensures url == baseUrl + path
      ensures init == Options(httpMethod, data)
      ensures r == ResponseOf(outcome)
    {
      url := baseUrl + path;
      init := Options(httpMethod, data);
      r := ResponseOf(outcome);
    }
  }

  /** After `setAuthToken(t)` for a non-empty token without spaces, `getAuthToken()` returns it. */
  method SetThenGetAuthToken(c: ApiClient, t: string) returns (r: Option<string>)
    requires t != "" && ' ' !in t
    modifies c
    ensures r == Some(t)
  {
    c.SetAuthToken(Some(t));
    BearerRoundTrip(t);
    r := c.GetAuthToken();
  }

  /** After `setAuthToken(null)` or `setAuthToken('')`, there is no token. */
  method ClearThenGetAuthToken(c: ApiClient, t: Option<string>) returns (r: Option<string>)
    requires !TruthyStr(t)
    modifies c
    ensures r.None?
  {
    c.SetAuthToken(t);
    r := c.GetAuthToken();
  }
}
