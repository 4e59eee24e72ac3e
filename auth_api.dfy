/**
 * `authApi` of `api/auth.ts`: the login request, and the token kept both in the
 * resource client's `Authorization` header and, in the browser, under
 * `auth_token` in the shared storage.
 */
module AuthApi {
  import opened Base
  import opened Query
  import opened HttpClient
  import opened BrowserStorage

  const TokenKey := "auth_token"
  const AuthenticationPath := "/authentication"

  /** The login body: strategy 'local' and the credentials as given. */
  function LoginPayload(email: string, password: string): (r: Json)
    ensures Member(r, "strategy") == Some(JStr("local"))
    ensures Member(r, "email") == Some(JStr(email)) && Member(r, "password") == Some(JStr(password))
  {
    var ms := [("strategy", JStr("local")), ("email", JStr(email)), ("password", JStr(password))];
    assert ms[..2] == [ms[0], ms[1]] && ms[..2][..1] == [ms[0]];
    JObj(ms)
  }

  class AuthApi {
    const client: ApiClient
    const storage: Storage

    constructor(client: ApiClient, storage: Storage)
      ensures this.client == client && this.storage == storage
    {
      this.client := client;
      this.storage := storage;
    }

    /** `login(email, password)`: a POST of the payload to '/authentication'. */
    method Login(email: string, password: string, outcome: FetchOutcome)
      returns (url: string, init: RequestInit, r: ApiResponse<Json>)
      ensures url == client.baseUrl + AuthenticationPath
      ensures init.verb == "POST" && init.body == Some(Stringify(LoginPayload(email, password)))
      ensures r == ResponseOf(outcome)
    {
      url, init, r := client.Send("POST", AuthenticationPath, Some(LoginPayload(email, password)), outcome);
    }

    /** `getCurrentUser()`: a GET of '/authentication' without parameters. */
    method GetCurrentUser(outcome: FetchOutcome) returns (url: string, init: RequestInit, r: Outcome<ApiResponse<Json>>)
      ensures ':' in client.baseUrl ==> url == client.baseUrl + AuthenticationPath && r == Returned(ResponseOf(outcome))
      ensures ':' !in client.baseUrl ==> r == Threw(InvalidUrl)
      ensures init.verb == "GET" && init.body.None?
    {
      url, init, r := client.Get(AuthenticationPath, [], outcome);
      SerializeEmpty([]);
    }

    /** `setToken(token)`: into the client, and into storage (or out of it for a falsy token). */
    method SetToken(token: Option<string>)
      modifies client, storage
      ensures TruthyStr(token) ==> client.headers == old(client.headers)[AuthorizationKey := "Bearer " + token.value]
      ensures !TruthyStr(token) ==> client.headers == old(client.headers) - {AuthorizationKey}
      ensures TruthyStr(token) && storage.available ==> storage.items == old(storage.items)[TokenKey := token.value]
      ensures !TruthyStr(token) && storage.available ==> storage.items == old(storage.items) - {TokenKey}
      ensures !storage.available ==> storage.items == old(storage.items)
      ensures client.baseUrl == old(client.baseUrl)
    {
      client.SetAuthToken(token);
      if storage.available && TruthyStr(token) {
        storage.Set(TokenKey, token.value);
      } else if storage.available {
        storage.Remove(TokenKey);
      }
    }

    /** The token `getToken` finds: the client's, else (in the browser) the stored one. */
    function TokenLookup(): (r: Option<string>)
      reads client, storage
      ensures TruthyStr(client.GetAuthToken()) ==> r == client.GetAuthToken()
      ensures !TruthyStr(client.GetAuthToken()) && storage.available ==> r == storage.Get(TokenKey)
      ensures !TruthyStr(client.GetAuthToken()) && !storage.available ==> !TruthyStr(r)
    {
      var t := client.GetAuthToken();
      if !TruthyStr(t) && storage.available then storage.Get(TokenKey) else t
    }

    /**
     * `getToken()`: the client's token; failing that, in the browser, the stored one,
     * which is then installed into the client.
     */
    method GetToken() returns (r: Option<string>)
      modifies client
      ensures r == old(TokenLookup())
      ensures TruthyStr(r) && !TruthyStr(old(client.GetAuthToken())) ==>
                client.headers == old(client.headers)[AuthorizationKey := "Bearer " + r.value]
      ensures TruthyStr(old(client.GetAuthToken())) || !TruthyStr(r) ==> client.headers == old(client.headers)
      ensures client.baseUrl == old(client.baseUrl)
    {
      r := client.GetAuthToken();
      if !TruthyStr(r) && storage.available {
        r := storage.Get(TokenKey);
        if TruthyStr(r) {
          client.SetAuthToken(r);
        }
      }
    }

    method Logout()
      modifies client, storage
      ensures AuthorizationKey !in client.headers
      ensures storage.available ==> storage.items == old(storage.items) - {TokenKey}
      ensures !storage.available ==> storage.items == old(storage.items)
      ensures client.baseUrl == old(client.baseUrl)
    {
      SetToken(None);
    }
  }

  /** A token set through `setToken` is what `getToken` returns. */
  method SetThenGetToken(a: AuthApi, t: string) returns (r: Option<string>)
    requires t != "" && ' ' !in t
    modifies a.client, a.storage
    ensures r == Some(t)
  {
    a.SetToken(Some(t));
    BearerRoundTrip(t);
    r := a.GetToken();
  }

  /** After `logout`, `getToken` finds no token anywhere. */
  method LogoutThenGetToken(a: AuthApi) returns (r: Option<string>)
    modifies a.client, a.storage
    ensures !TruthyStr(r)
  {
    a.Logout();
    r := a.GetToken();
  }
}
