/**
 * The HTTP client of src/services/api.js: one axios instance whose request
 * interceptor attaches the stored bearer token and whose response interceptor
 * handles "no response" and 401 globally, plus the `authAPI` wrappers, which
 * turn every outcome into a `{success, data, message}` record and never reject.
 *
 * The backend is not modelled: every call takes its `Outcome` as a parameter.
 */
module Api {
  import opened Wrappers
  import opened Js
  import opened Domain
  import opened Browser

  const DefaultBaseUrl := "http://localhost:5000/api"
  const JsonHeaders: map<string, string> := map["Content-Type" := "application/json"]
  const UnreachableAlert := "\U{26A0} Backend server not reachable."

  /** `error.response` of a failed call: the HTTP status and the body's `message`. */
  datatype ErrorResponse = ErrorResponse(status: int, message: Option<string>)

  /** A rejected call; `response` is missing when the server could not be reached. */
  datatype AxiosError = AxiosError(response: Option<ErrorResponse>)

  /** What the backend does with one call: answer with a 2xx body, or fail. */
  datatype Outcome<B> = Response(body: B) | Failure(error: AxiosError)

  /** How the promise returned to the caller settles. */
  datatype Settled<B> = Resolved(value: B) | Rejected(error: AxiosError)

  /** One request as it leaves the client, as the request interceptor leaves it. */
  datatype HttpRequest = HttpRequest(verb: string, url: string, headers: map<string, string>, data: Obj)

  predicate Unauthorized(e: AxiosError) {
    e.response.Some? && e.response.value.status == 401
  }

  predicate Unreachable(e: AxiosError) {
    e.response.None?
  }

  /** `error.response?.data?.message`. */
  function ServerMessage(e: AxiosError): Option<string> {
    if e.response.Some? then e.response.value.message else None
  }

  /** The response interceptor's value: a response passes through, an error is re-thrown unchanged. */
  function Settle<B>(o: Outcome<B>): Settled<B> {
    match o
    case Response(b) => Resolved(b)
    case Failure(e) => Rejected(e)
  }

  /** The headers after the request interceptor, given the stored token. */
  function WithBearer(headers: map<string, string>, token: Option<string>): (r: map<string, string>)
    ensures r.Keys == headers.Keys + (if token.Some? && token.value != "" then {"Authorization"} else {})
    ensures token.Some? && token.value != "" ==> r["Authorization"] == "Bearer " + token.value
    ensures forall k :: k in headers && (k != "Authorization" || token.None? || token.value == "") ==> r[k] == headers[k]
  {
    if token.Some? && token.value != "" then headers["Authorization" := "Bearer " + token.value] else headers
  }

  /** Mutable request configuration handed to the request interceptor. */
  class RequestConfig {
    var verb: string
    var url: string
    var headers: map<string, string>
    var data: Obj

    constructor(verb: string, url: string, headers: map<string, string>, data: Obj)
      ensures this.verb == verb && this.url == url && this.headers == headers && this.data == data
    {
      this.verb := verb;
      this.url := url;
      this.headers := headers;
      this.data := data;
    }
  }

  /** The response interceptor's side effects on the window, for an outcome `o`. */
  twostate predicate ResponseHandled<B>(w: Window, o: Outcome<B>)
    reads w
  {
    && (if o.Failure? && Unauthorized(o.error)
        then w.storage == EmptyStorage && w.location == "/"
        else w.storage == old(w.storage) && w.location == old(w.location))
    && w.alerts == old(w.alerts) + (if o.Failure? && Unreachable(o.error) then [UnreachableAlert] else [])
  }

  /** The axios instance: a fixed base URL and the log of requests it sent. */
  class Http {
    const browser: Window
    const baseUrl: string
    var sent: seq<HttpRequest>

    /** `axios.create`: the base URL comes from the environment, else the local default. */
    constructor(browser: Window, envBaseUrl: Option<string>)
      ensures this.browser == browser && sent == []
      ensures baseUrl == OrElse(envBaseUrl, DefaultBaseUrl)
    {
      this.browser := browser;
      baseUrl := OrElse(envBaseUrl, DefaultBaseUrl);
      sent := [];
    }

    /** Request interceptor: adds `Authorization: Bearer <token>` iff a token is stored. */
    method AttachToken(config: RequestConfig)
      modifies config
      ensures config.headers == WithBearer(old(config.headers), browser.storage.token)
      ensures config.verb == old(config.verb) && config.url == old(config.url) && config.data == old(config.data)
    {
      var token := browser.storage.token;
      if token.Some? && token.value != "" {
        config.headers := config.headers["Authorization" := "Bearer " + token.value];
      }
    }

    /**
     * Response interceptor: no response alerts; a 401 removes both storage keys
     * and sends the window to "/"; either way the original error is re-thrown.
     */
    method HandleResponse<B>(o: Outcome<B>) returns (s: Settled<B>)
      modifies browser
      ensures s == Settle(o)
      ensures ResponseHandled(browser, o)
    {
      match o
      case Response(b) =>
        s := Resolved(b);
      case Failure(e) =>
        if e.response.None? {
          browser.alerts := browser.alerts + [UnreachableAlert];
        }
        if e.response.Some? && e.response.value.status == 401 {
          browser.storage := EmptyStorage;
          browser.location := "/";
        }
        s := Rejected(e);
    }

    /** One call through the instance: both interceptors around a backend outcome. */
    method Send<B>(verb: string, path: string, data: Obj, o: Outcome<B>) returns (s: Settled<B>)
      modifies this, browser
      ensures sent == old(sent) + [HttpRequest(verb, baseUrl + path, WithBearer(JsonHeaders, old(browser.storage.token)), data)]
      ensures s == Settle(o)
      ensures ResponseHandled(browser, o)
    {
      var config := new RequestConfig(verb, baseUrl + path, JsonHeaders, data);
      AttachToken(config);
      sent := sent + [HttpRequest(config.verb, config.url, config.headers, config.data)];
      s := HandleResponse(o);
    }
  }

  // ─── authAPI ───────────────────────────────────────────────────────────────

  /** The `{ token, user }` payload of a login or registration response. */
  datatype AuthData = AuthData(token: string, user: Identity)

  /** Body of a login or registration response: `{ message?, data? }`. */
  datatype AuthBody = AuthBody(message: Option<string>, data: Option<AuthData>)

  /** Body of a profile response: `{ user }`. */
  datatype ProfileBody = ProfileBody(user: Identity)

  /** What every `authAPI` operation resolves to; it never rejects. */
  datatype ApiResult<B> = ApiResult(success: bool, data: Option<B>, message: Option<string>)

  const RegisterSucceeded := "Registration successful"
  const RegisterFailed := "Failed to register. Please check your input."
  const LoginSucceeded := "Login successful"
  const LoginFailed := "Login failed. Please check your credentials."
  const ProfileFetchFailed := "Failed to fetch profile"
  const ProfileUpdateFailed := "Failed to update profile"

  /** The record `authAPI.register` and `authAPI.login` build from the settled call. */
  function AuthRecord(s: Settled<AuthBody>, successDefault: string, failureDefault: string): ApiResult<AuthBody> {
    match s
    case Resolved(body) => ApiResult(true, Some(body), Some(OrElse(body.message, successDefault)))
    case Rejected(e) => ApiResult(false, None, Some(OrElse(ServerMessage(e), failureDefault)))
  }

  /** The record `authAPI.getProfile` and `authAPI.updateProfile` build from the settled call. */
  function ProfileRecord(s: Settled<ProfileBody>, failureDefault: string): ApiResult<ProfileBody> {
    match s
    case Resolved(body) => ApiResult(true, Some(body), None)
    case Rejected(e) => ApiResult(false, None, Some(OrElse(ServerMessage(e), failureDefault)))
  }

  /**
   * What a caller of `register`/`login` sees for each backend outcome: success
   * exactly for a response, whose body is handed back with the server's message
   * or the default; on any failure no data and the server's error message or the
   * default. The interceptor's re-thrown error never escapes.
   */
  lemma AuthRecordContract(o: Outcome<AuthBody>, successDefault: string, failureDefault: string)
    ensures var r := AuthRecord(Settle(o), successDefault, failureDefault);
      && (r.success <==> o.Response?)
      && (o.Response? ==> r.data == Some(o.body) && r.message == Some(OrElse(o.body.message, successDefault)))
      && (o.Failure? ==> r.data.None? && r.message == Some(OrElse(ServerMessage(o.error), failureDefault)))
  {
  }

  /** The same for the profile wrappers, which carry no message on success. */
  lemma ProfileRecordContract(o: Outcome<ProfileBody>, failureDefault: string)
    ensures var r := ProfileRecord(Settle(o), failureDefault);
      && (r.success <==> o.Response?)
      && (o.Response? ==> r.data == Some(o.body) && r.message.None?)
      && (o.Failure? ==> r.data.None? && r.message == Some(OrElse(ServerMessage(o.error), failureDefault)))
  {
  }

  /** `authAPI.register(data)`: POST /auth/register. */
  method Register(http: Http, data: Obj, o: Outcome<AuthBody>) returns (r: ApiResult<AuthBody>)
    modifies http, http.browser
    ensures r == AuthRecord(Settle(o), RegisterSucceeded, RegisterFailed)
    ensures http.sent == old(http.sent) + [HttpRequest("POST", http.baseUrl + "/auth/register", WithBearer(JsonHeaders, old(http.browser.storage.token)), data)]
    ensures ResponseHandled(http.browser, o)
  {
    var s := http.Send("POST", "/auth/register", data, o);
    r := AuthRecord(s, RegisterSucceeded, RegisterFailed);
  }

  /** `authAPI.login(data)`: POST /auth/login. */
  method Login(http: Http, data: Obj, o: Outcome<AuthBody>) returns (r: ApiResult<AuthBody>)
    modifies http, http.browser
    ensures r == AuthRecord(Settle(o), LoginSucceeded, LoginFailed)
    ensures http.sent == old(http.sent) + [HttpRequest("POST", http.baseUrl + "/auth/login", WithBearer(JsonHeaders, old(http.browser.storage.token)), data)]
    ensures ResponseHandled(http.browser, o)
  {
    var s := http.Send("POST", "/auth/login", data, o);
    r := AuthRecord(s, LoginSucceeded, LoginFailed);
  }

  /** `authAPI.getProfile()`: GET /auth/profile. */
  method GetProfile(http: Http, o: Outcome<ProfileBody>) returns (r: ApiResult<ProfileBody>)
    modifies http, http.browser
    ensures r == ProfileRecord(Settle(o), ProfileFetchFailed)
    ensures http.sent == old(http.sent) + [HttpRequest("GET", http.baseUrl + "/auth/profile", WithBearer(JsonHeaders, old(http.browser.storage.token)), map[])]
    ensures ResponseHandled(http.browser, o)
  {
    var s := http.Send("GET", "/auth/profile", map[], o);
    r := ProfileRecord(s, ProfileFetchFailed);
  }

  /** `authAPI.updateProfile(data)`: PUT /auth/profile. */
  method UpdateProfile(http: Http, data: Obj, o: Outcome<ProfileBody>) returns (r: ApiResult<ProfileBody>)
    modifies http, http.browser
    ensures r == ProfileRecord(Settle(o), ProfileUpdateFailed)
    ensures http.sent == old(http.sent) + [HttpRequest("PUT", http.baseUrl + "/auth/profile", WithBearer(JsonHeaders, old(http.browser.storage.token)), data)]
    ensures ResponseHandled(http.browser, o)
  {
    var s := http.Send("PUT", "/auth/profile", data, o);
    r := ProfileRecord(s, ProfileUpdateFailed);
  }
}
