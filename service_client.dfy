/**
 * The `$fetch`-based service client (`services/api/client.ts`): the URL and header
 * builders, the request options, and the error mapping that turns every failed
 * request into a thrown `ApiError`. The fetch itself is a parameter: its outcome is
 * handed in.
 */
module ServiceClient {
  import opened Base
  import opened Query
  import opened HttpClient

  const ContentTypeKey := "Content-Type"
  const AuthorizationHeader := "Authorization"
  const DefaultHeaders: map<string, string> := map[ContentTypeKey := "application/json"]

  /** The `ApiError` the client throws. */
  datatype ServiceError = ServiceError(message: string, code: int, name: string, className: Option<Json>, data: Option<Json>)

  /** `error.response`: its status and its `_data` and `data` bodies. */
  datatype FailedResponse = FailedResponse(status: int, underscoreData: Option<Json>, data: Option<Json>)

  /** What `$fetch` rejects with. */
  datatype FetchError = FetchError(
    response: Option<FailedResponse>,
    data: Option<Json>,
    message: Option<string>,
    name: Option<string>,
    className: Option<Json>)

  /** How `$fetch` ended: with the parsed body, or by rejecting. */
  datatype FetchResult = Fetched(body: Json) | Rejected(error: FetchError)

  /** What `request` ends with: the body, or the thrown `ApiError`. */
  datatype Reply = Value(body: Json) | Thrown(error: ServiceError)

  /** The options handed to `$fetch`. */
  datatype FetchInit = FetchInit(verb: string, headers: map<string, string>, body: Option<string>)

  function Truthy(v: Option<Json>): bool
  {
    v.Some? && JsonTruthy(v.value)
  }

  /** `obj.key` when it is truthy. */
  function TruthyMember(v: Json, key: string): (r: Option<string>)
    ensures r.Some? ==> Member(v, key).Some? && JsonTruthy(Member(v, key).value)
  {
    var m := Member(v, key);
    if m.Some? && JsonTruthy(m.value) then Some(ToText(m.value)) else None
  }

  const DefaultErrorText := "An unexpected error occurred"

  /** The message before the status table: from the response body, else `error.data`, else `error.message`. */
  function ExtractedMessage(e: FetchError): string
  {
    if e.response.Some? then
      var body := if Truthy(e.response.value.underscoreData) then e.response.value.underscoreData
                  else e.response.value.data;
      if !Truthy(body) then DefaultErrorText
      else if body.value.JStr? then body.value.s
      else if TruthyMember(body.value, "message").Some? then TruthyMember(body.value, "message").value
      else if TruthyMember(body.value, "error").Some? then TruthyMember(body.value, "error").value
      else DefaultErrorText
    else if Truthy(e.data) then
      if TruthyMember(e.data.value, "message").Some? then TruthyMember(e.data.value, "message").value
      else if TruthyMember(e.data.value, "error").Some? then TruthyMember(e.data.value, "error").value
      else DefaultErrorText
    else if TruthyStr(e.message) then e.message.value
    else DefaultErrorText
  }

  /** The statuses whose message is fixed, whatever the server said. */
  function StatusText(status: int): Option<string>
  {
    if status == 401 then Some("Authentication required. Please log in again.")
    else if status == 403 then Some("You do not have permission to perform this action.")
    else if status == 404 then Some("The requested resource was not found.")
    else if status == 422 then Some("Validation failed. Please check your input.")
    else if status == 500 then Some("Server error. Please try again later.")
    else None
  }

  /** The status `handleError` reports: the response's, or 500 without a response. */
  function StatusOf(e: FetchError): (r: int)
    ensures e.response.None? ==> r == 500
  {
    if e.response.Some? then e.response.value.status else 500
  }

  /**
   * `handleError(error)` as written: the extracted message, replaced by the fixed
   * text of the five listed statuses. It always throws this error.
   */
  function HandleError(e: FetchError): (r: ServiceError)
    ensures r.code == StatusOf(e)
    ensures StatusText(r.code).Some? ==> r.message == StatusText(r.code).value
    ensures StatusText(r.code).None? ==> r.message == ExtractedMessage(e)
    ensures r.name == (if TruthyStr(e.name) then e.name.value else "ApiError")
    ensures r.className == e.className && r.data == e.data
  {
    var status := StatusOf(e);
    var message := if StatusText(status).Some? then StatusText(status).value else ExtractedMessage(e);
    ServiceError(message, status, OrElse(e.name, "ApiError"), e.className, e.data)
  }

  /**
   * The response body wins over `error.data`: with a response, the message never
   * comes from `error.data` or `error.message`.
   */
  lemma ResponseBodyFirst(e: FetchError)
    requires e.response.Some? && StatusText(e.response.value.status).None?
    requires Truthy(e.response.value.underscoreData) && e.response.value.underscoreData.value.JStr?
    ensures HandleError(e).message == e.response.value.underscoreData.value.s
  {
  }

  /**
   * Without a response the status defaults to 500, whose fixed text then replaces
   * whatever `error.data` or `error.message` said.
   */
  lemma NoResponseAlwaysServerError(e: FetchError)
    requires e.response.None?
    ensures HandleError(e).code == 500
    ensures HandleError(e).message == "Server error. Please try again later."
  {
  }

  /**
   * The evident intent: the fixed texts apply to statuses a server actually sent,
   * so an error without a response keeps its own message.
   */
  function HandleErrorIntended(e: FetchError): (r: ServiceError)
    ensures e.response.Some? ==> r == HandleError(e)
    ensures e.response.None? ==> r.code == 500 && r.message == ExtractedMessage(e)
  {
    if e.response.Some? then HandleError(e)
    else ServiceError(ExtractedMessage(e), 500, OrElse(e.name, "ApiError"), e.className, e.data)
  }

  /** Under the intended rule, a network failure's own message reaches the caller. */
  lemma IntendedKeepsNetworkMessage(e: FetchError, m: string)
    requires e.response.None? && !Truthy(e.data) && e.message == Some(m) && m != ""
    ensures HandleErrorIntended(e).message == m
  {
  }

  /** The body `request` sends: only for a truthy body and a method other than GET. */
  function RequestBody(verb: Option<string>, body: Option<Json>): (r: Option<string>)
    ensures r.Some? <==> Truthy(body) && verb != Some("GET")
    ensures r.Some? ==> r.value == Stringify(body.value)
  {
    if Truthy(body) && verb != Some("GET") then Some(Stringify(body.value)) else None
  }

  /** The `get` helper always passes 'GET', so it never sends a body; every other verb does when it has one. */
  lemma GetNeverSendsBody(body: Option<Json>, verb: string)
    ensures RequestBody(Some("GET"), body).None?
    ensures verb != "GET" && Truthy(body) ==> RequestBody(Some(verb), body) == Some(Stringify(body.value))
  {
  }

  class ApiClient {
    const baseUrl: string
    var token: Option<string>

    constructor(baseUrl: string)
      ensures this.baseUrl == baseUrl && token.None?
    {
      this.baseUrl := baseUrl;
      token := None;
    }

    /** `setToken(token)` */
    method SetToken(t: Option<string>)
      modifies this
      ensures token == t
    {
      token := t;
    }

    /**
     * `buildURL(endpoint, params)`: the base and the endpoint, then '?' and every
     * entry whose value is neither null nor undefined. The '?' depends on the
     * params having keys, not on any pair surviving.
     */
    method BuildUrl(endpoint: string, params: Option<seq<(string, Option<Scalar>)>>) returns (url: string)
      ensures params.None? || params.value == [] ==> url == baseUrl + endpoint
      ensures params.Some? && params.value != [] ==>
                url == baseUrl + endpoint + "?" + Serialize(PresentParams(params.value))
      ensures params.Some? && params.value != [] && (forall i :: 0 <= i < |params.value| ==> params.value[i].1.None?) ==>
                url == baseUrl + endpoint + "?"
    {
      url := baseUrl + endpoint;
      if params.Some? && |params.value| > 0 {
        var entries := params.value;
        var searchParams: seq<Param> := [];
        var i := 0;
        assert entries[0..] == entries;
        while i < |entries|
          invariant 0 <= i <= |entries|
          invariant searchParams + PresentParams(entries[i..]) == PresentParams(entries)
        {
          assert entries[i..][1..] == entries[i + 1..];
          if entries[i].1.Some? {
            searchParams := searchParams + [Param(entries[i].0, ScalarText(entries[i].1.value))];
          }
          i := i + 1;
        }
        assert searchParams == PresentParams(entries);
        if forall i :: 0 <= i < |entries| ==> entries[i].1.None? {
          PresentParamsNone(entries);
        }
        url := url + "?" + Serialize(searchParams);
      }
    }

    /**
     * `buildHeaders(custom)`: Content-Type, then 'Bearer <token>' for a truthy token,
     * then the custom headers, which override both.
     */
    method BuildHeaders(custom: Option<map<string, string>>) returns (h: map<string, string>)
      ensures ContentTypeKey in h
      ensures AuthorizationHeader in h <==> TruthyStr(token) || (custom.Some? && AuthorizationHeader in custom.value)
      ensures custom.Some? ==> forall k :: k in custom.value ==> k in h && h[k] == custom.value[k]
      ensures (custom.None? || ContentTypeKey !in custom.value) ==> h[ContentTypeKey] == "application/json"
      ensures TruthyStr(token) && (custom.None? || AuthorizationHeader !in custom.value) ==>
                h[AuthorizationHeader] == "Bearer " + token.value
      ensures forall k :: k in h ==> k == ContentTypeKey || k == AuthorizationHeader || (custom.Some? && k in custom.value)
    {
      h := DefaultHeaders;
      if TruthyStr(token) {
        h := h[AuthorizationHeader := "Bearer " + token.value];
      }
      if custom.Some? {
        h := h + custom.value;
      }
    }

    /**
     * `request(endpoint, options)`: the URL and headers, the method (GET by
     * default) and a body when the rule allows one; a fetch that rejects ends in
     * the error `handleError` throws, as written.
     */
    method Request(endpoint: string, verb: Option<string>, customHeaders: Option<map<string, string>>,
                   body: Option<Json>, params: Option<seq<(string, Option<Scalar>)>>, outcome: FetchResult)
      returns (url: string, init: FetchInit, r: Reply)
      ensures params.None? || params.value == [] ==> url == baseUrl + endpoint
      ensures params.Some? && params.value != [] ==>
                url == baseUrl + endpoint + "?" + Serialize(PresentParams(params.value))
      ensures ContentTypeKey in init.headers
      ensures customHeaders.Some? ==>
                forall k :: k in customHeaders.value ==> k in init.headers && init.headers[k] == customHeaders.value[k]
      ensures TruthyStr(token) && (customHeaders.None? || AuthorizationHeader !in customHeaders.value) ==>
                AuthorizationHeader in init.headers && init.headers[AuthorizationHeader] == "Bearer " + token.value
      ensures init.verb == (if verb.Some? && verb.value != "" then verb.value else "GET")
      ensures init.body == RequestBody(verb, body)
      ensures outcome.Fetched? ==> r == Value(outcome.body)
      ensures outcome.Rejected? ==> r == Thrown(HandleError(outcome.error))
    {
      url := BuildUrl(endpoint, params);
      var headers := BuildHeaders(customHeaders);
      init := FetchInit(if verb.Some? && verb.value != "" then verb.value else "GET", headers, None);
      if Truthy(body) && verb != Some("GET") {
        init := init.(body := Some(Stringify(body.value)));
      }
      if outcome.Fetched? {
        r := Value(outcome.body);
      } else {
        r := Thrown(HandleError(outcome.error));
      }
    }
  }

  /** After `setToken(null)` no header build carries Authorization unless the caller passes one. */
  method ClearedTokenHeaders(c: ApiClient) returns (h: map<string, string>)
    modifies c
    ensures AuthorizationHeader !in h
    ensures ContentTypeKey in h && h[ContentTypeKey] == "application/json"
  {
    c.SetToken(None);
    h := c.BuildHeaders(None);
  }

  /** After `setToken(t)` for a non-empty `t`, every header build sends 'Bearer t'. */
  method TokenHeaders(c: ApiClient, t: string) returns (h: map<string, string>)
    requires t != ""
    modifies c
    ensures AuthorizationHeader in h && h[AuthorizationHeader] == "Bearer " + t
  {
    c.SetToken(Some(t));
    h := c.BuildHeaders(None);
  }
}
