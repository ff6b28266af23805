/** The frontend's HTTP interceptor: which requests get the access token,
    and which failed requests sign the user out. */
module AuthInterceptor {
  import opened Wrappers
  import opened JavaStrings

  /** The request paths that authenticate and so never carry a token. */
  const AuthExemptPaths: seq<string> := ["/api/auth/login", "/api/auth/register"]

  /** The part of an Angular `HttpRequest` the interceptor reads or sets. */
  datatype HttpRequest = HttpRequest(url: string, headers: map<string, string>)

  /** An `HttpErrorResponse`, by its status. */
  datatype HttpError = HttpError(status: int)

  /** What the interceptor does with a failed request: whether it clears the
      stored session, where it navigates, and the error it re-throws. */
  datatype ErrorHandling = ErrorHandling(clearAuth: bool, navigateTo: Option<string>, rethrown: HttpError)

  /** `normalizeBaseUrl`: `replace(/\/+$/, '')`, the base without its
      trailing slashes. */
  function NormalizeBaseUrl(apiBaseUrl: string): (r: string)
    ensures r <= apiBaseUrl
    ensures r == "" || r[|r| - 1] != '/'
    ensures forall i :: |r| <= i < |apiBaseUrl| ==> apiBaseUrl[i] == '/'
  {
    if |apiBaseUrl| > 0 && apiBaseUrl[|apiBaseUrl| - 1] == '/' then NormalizeBaseUrl(apiBaseUrl[..|apiBaseUrl| - 1])
    else apiBaseUrl
  }

  /** `isApiRequest`: the url starts with the normalised base and `/api/`. */
  function IsApiRequest(url: string, apiBaseUrl: string): (r: bool)
    ensures var n := |NormalizeBaseUrl(apiBaseUrl)|;
      r <==> n + 5 <= |url| && url == NormalizeBaseUrl(apiBaseUrl) + "/api/" + url[n + 5..]
  {
    var prefix := NormalizeBaseUrl(apiBaseUrl) + "/api/";
    assert |prefix| <= |url| ==> url == url[..|prefix|] + url[|prefix|..];
    StartsWith(url, prefix)
  }

  /** `isAuthExempt`: the url contains one of the exempt paths anywhere. */
  function IsAuthExempt(url: string): (r: bool)
    ensures r <==> Contains(url, "/api/auth/login") || Contains(url, "/api/auth/register")
  {
    assert AuthExemptPaths[0] == "/api/auth/login" && AuthExemptPaths[1] == "/api/auth/register";
    exists i :: 0 <= i < |AuthExemptPaths| && Contains(url, AuthExemptPaths[i])
  }

  /** A JavaScript string that is truthy: present and not empty. */
  predicate Truthy(token: Option<string>) {
    token.Some? && token.value != ""
  }

  /** A header name that names the `Authorization` header. Angular's
      `HttpHeaders` compare names case-insensitively; lowering ASCII letters
      is enough here, as no other character lowers to one of
      "authorization". */
  predicate IsAuthorizationName(h: string) {
    |h| == |"authorization"| && forall i :: 0 <= i < |h| ==> AsciiLower(h[i]) == "authorization"[i]
  }

  /** The request the interceptor passes on: a clone with the bearer token
      for an API request that is not exempt when there is a token, else the
      request itself. `setHeaders` replaces an `Authorization` header under
      any spelling of its name; the model writes it back as "Authorization". */
  function OutgoingRequest(req: HttpRequest, apiBaseUrl: string, accessToken: Option<string>): (r: HttpRequest)
    ensures r.url == req.url
    ensures forall h :: h in r.headers ==> h in req.headers || h == "Authorization"
    ensures forall h :: h in req.headers && !IsAuthorizationName(h) ==> h in r.headers && r.headers[h] == req.headers[h]
    ensures r != req ==> Truthy(accessToken) && "Authorization" in r.headers
    ensures r != req ==> forall h :: h in r.headers && IsAuthorizationName(h) ==>
                           h == "Authorization" && r.headers[h] == "Bearer " + accessToken.value
  {
    if IsApiRequest(req.url, apiBaseUrl) && !IsAuthExempt(req.url) && Truthy(accessToken) then
      var others := map h | h in req.headers && !IsAuthorizationName(h) :: req.headers[h];
      req.(headers := others["Authorization" := "Bearer " + accessToken.value])
    else req
  }

  /** The `catchError` handler: a 401 on an API request that is not exempt
      clears the session and navigates to the login page; the error is
      re-thrown in every case. */
  function HandleError(url: string, apiBaseUrl: string, err: HttpError): (r: ErrorHandling)
    ensures r.rethrown == err
    ensures r.clearAuth <==> r.navigateTo.Some?
    ensures r.navigateTo.Some? ==> r.navigateTo.value == "/login"
    ensures r.clearAuth ==> err.status == 401 && IsApiRequest(url, apiBaseUrl)
  {
    if IsApiRequest(url, apiBaseUrl) && !IsAuthExempt(url) && err.status == 401 then
      ErrorHandling(true, Some("/login"), err)
    else ErrorHandling(false, None, err)
  }

  /** Normalising is idempotent, and the unique result that is a prefix
      without a trailing slash and drops only slashes. */
  lemma {:induction false} NormalizeIdempotent(apiBaseUrl: string)
    ensures NormalizeBaseUrl(NormalizeBaseUrl(apiBaseUrl)) == NormalizeBaseUrl(apiBaseUrl)
  {
  }

  /** A result with those three properties is the normalised base. */
  lemma {:induction false} NormalizeUnique(apiBaseUrl: string, r: string)
    requires r <= apiBaseUrl && (r == "" || r[|r| - 1] != '/')
    requires forall i :: |r| <= i < |apiBaseUrl| ==> apiBaseUrl[i] == '/'
    ensures NormalizeBaseUrl(apiBaseUrl) == r
    decreases |apiBaseUrl|
  {
    if |apiBaseUrl| > 0 && apiBaseUrl[|apiBaseUrl| - 1] == '/' {
      NormalizeUnique(apiBaseUrl[..|apiBaseUrl| - 1], r);
    }
  }

  /** Trailing slashes on the configured base do not change which requests
      are API requests. */
  lemma {:induction false} TrailingSlashIgnored(url: string, apiBaseUrl: string)
    ensures IsApiRequest(url, apiBaseUrl + "/") == IsApiRequest(url, apiBaseUrl)
  {
    assert (apiBaseUrl + "/")[..|apiBaseUrl|] == apiBaseUrl;
  }

  /** The bearer header is set exactly when the request is an API request,
      not exempt, and there is a token, and it is then the only
      `Authorization` header; every other request goes out as it came, and
      the url is never changed. */
  lemma {:induction false} AuthorizationHeader(req: HttpRequest, apiBaseUrl: string, accessToken: Option<string>)
    ensures OutgoingRequest(req, apiBaseUrl, accessToken).url == req.url
    ensures IsApiRequest(req.url, apiBaseUrl) && !IsAuthExempt(req.url) && Truthy(accessToken) ==>
              && "Authorization" in OutgoingRequest(req, apiBaseUrl, accessToken).headers
              && OutgoingRequest(req, apiBaseUrl, accessToken).headers["Authorization"] == "Bearer " + accessToken.value
              && forall h :: h in OutgoingRequest(req, apiBaseUrl, accessToken).headers && IsAuthorizationName(h) ==> h == "Authorization"
    ensures !(IsApiRequest(req.url, apiBaseUrl) && !IsAuthExempt(req.url) && Truthy(accessToken)) ==>
              OutgoingRequest(req, apiBaseUrl, accessToken) == req
    ensures forall h :: h in req.headers && !IsAuthorizationName(h) ==>
              h in OutgoingRequest(req, apiBaseUrl, accessToken).headers
              && OutgoingRequest(req, apiBaseUrl, accessToken).headers[h] == req.headers[h]
  {
    assert IsAuthorizationName("Authorization");
  }

  /** A lower-case `authorization` header already on an API request is
      replaced by the bearer token, not sent beside it. */
  lemma {:induction false} ExistingAuthorizationReplaced()
    ensures OutgoingRequest(HttpRequest("/api/chat", map["authorization" := "Basic x"]), "", Some("t")).headers
            == map["Authorization" := "Bearer t"]
  {
    var req := HttpRequest("/api/chat", map["authorization" := "Basic x"]);
    ChatUrlCarriesToken();
    assert IsAuthorizationName("authorization");
    var r := OutgoingRequest(req, "", Some("t"));
    assert "Bearer " + "t" == "Bearer t";
    assert r.headers.Keys == {"Authorization"};
  }

  /** A chat call on a same-origin deployment is an API request that is not
      exempt. */
  lemma {:induction false} ChatUrlCarriesToken()
    ensures IsApiRequest("/api/chat", "") && !IsAuthExempt("/api/chat")
  {
    ExemptHasG("/api/chat");
    assert 'g' !in "/api/chat";
    assert "/api/chat" == NormalizeBaseUrl("") + "/api/" + "/api/chat"[5..];
  }

  /** The login and register calls never carry the token, and their 401
      (a wrong password) does not sign the user out. */
  lemma {:induction false} ExemptPathsUntouched(req: HttpRequest, apiBaseUrl: string, accessToken: Option<string>, err: HttpError)
    requires Contains(req.url, "/api/auth/login") || Contains(req.url, "/api/auth/register")
    ensures OutgoingRequest(req, apiBaseUrl, accessToken) == req
    ensures !HandleError(req.url, apiBaseUrl, err).clearAuth
  {
    if Contains(req.url, "/api/auth/login") {
      assert Contains(req.url, AuthExemptPaths[0]);
    } else {
      assert Contains(req.url, AuthExemptPaths[1]);
    }
  }

  /** A 401 clears the session exactly for API requests that are not exempt,
      navigating to the login page when it does; the error always reaches
      the caller unchanged. */
  lemma {:induction false} UnauthorizedClearsSession(url: string, apiBaseUrl: string, err: HttpError)
    ensures HandleError(url, apiBaseUrl, err).rethrown == err
    ensures HandleError(url, apiBaseUrl, err).clearAuth <==>
              IsApiRequest(url, apiBaseUrl) && !IsAuthExempt(url) && err.status == 401
    ensures HandleError(url, apiBaseUrl, err).navigateTo.Some? <==> HandleError(url, apiBaseUrl, err).clearAuth
  {
  }

  /** The login and register calls are exempt wherever they are hosted;
      refreshing is not, so a refresh carries the token and a 401 on it
      signs the user out. */
  lemma {:induction false} AuthExemptExamples()
    ensures IsAuthExempt("https://aura.example/api/auth/login")
    ensures IsAuthExempt("/api/auth/register?invite=1")
    ensures !IsAuthExempt("/api/auth/refresh")
  {
    var login := "https://aura.example/api/auth/login";
    assert login[20..35] == "/api/auth/login";
    ContainsAt(login, "/api/auth/login", 20);
    var register := "/api/auth/register?invite=1";
    assert register[0..18] == "/api/auth/register";
    ContainsAt(register, "/api/auth/register", 0);
    ExemptHasG("/api/auth/refresh");
    assert 'g' !in "/api/auth/refresh";
  }

  /** Both exempt paths hold a 'g', so every exempt url holds one. */
  lemma {:induction false} ExemptHasG(url: string)
    ensures IsAuthExempt(url) ==> 'g' in url
  {
    if Contains(url, "/api/auth/login") {
      var k := ContainsWitness(url, "/api/auth/login");
      assert url[k..k + 15][12] == 'g';
    } else if Contains(url, "/api/auth/register") {
      var k := ContainsWitness(url, "/api/auth/register");
      assert url[k..k + 18][12] == 'g';
    }
  }
}
