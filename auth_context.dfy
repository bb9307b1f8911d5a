/**
 * The session store of src/context/AuthContext.jsx: the in-memory `user`, the
 * `loading` flag of the start-up read, and the two local-storage keys, updated by
 * `login`, `register`, `logout` and `updateUser`.
 *
 * `login` and `register` expect `authAPI` to reject on failure, but `authAPI`
 * resolves with `{success: false, message}` instead. On failure the store then
 * reads `response.data.data` of a record with no `data`, the resulting TypeError
 * lands in the store's own `catch`, and that error has no `response`: the server's
 * message is lost and the fixed fallback is always reported.
 */
module AuthContext {
  import opened Wrappers
  import opened Js
  import opened Domain
  import opened Browser
  import opened Api

  const LoginFallback := "Login failed"
  const RegisterFallback := "Registration failed"

  /** The user that start-up restores: the stored one, when both keys hold a truthy value. */
  function Restore(s: Storage): (u: Option<Identity>)
    ensures u.Some? <==> s.token.Some? && s.token.value != "" && s.user.Some?
    ensures u.Some? ==> u == s.user
  {
    if s.token.Some? && s.token.value != "" && s.user.Some? then s.user else None
  }

  /** What a successful login or registration stores under the two keys. */
  function SessionStorage(d: AuthData): Storage {
    Storage(Some(d.token), Some(d.user))
  }

  /** Round trip: re-running start-up after a successful login or registration restores the same user (given the truthy token the backend issues). */
  lemma RestoreAfterSignIn(d: AuthData)
    requires d.token != ""
    ensures Restore(SessionStorage(d)) == Some(d.user)
  {
  }

  /** After logout, or after a 401 cleared storage, start-up restores nobody. */
  lemma RestoreAfterClear()
    ensures Restore(EmptyStorage) == None
  {
  }

  /** `updateUser` keeps the token, so a restorable session stays restorable and now restores the new user. */
  lemma RestoreAfterUpdate(s: Storage, u: Identity)
    ensures Restore(s.(user := Some(u))) == if s.token.Some? && s.token.value != "" then Some(u) else None
  {
  }

  /** What the store's `catch` receives. */
  datatype Thrown = TypeError | AxiosRejection(error: AxiosError)

  /** `error.response?.data?.message || fallback`. */
  function CaughtMessage(e: Thrown, fallback: string): string {
    match e
    case TypeError => fallback
    case AxiosRejection(err) => OrElse(ServerMessage(err), fallback)
  }

  /** `response.data.data` of an `authAPI` record: the session payload, or None where reading it throws. */
  function SessionPayload(r: ApiResult<AuthBody>): Option<AuthData> {
    if r.data.Some? then r.data.value.data else None
  }

  /** The `{success, user}` / `{success, error}` record `login` and `register` return. */
  datatype AuthResult = AuthSuccess(user: Identity) | AuthFailure(error: string) {
    predicate Success() { AuthSuccess? }
  }

  /** The store's reading of an `authAPI` record: a missing payload throws a TypeError, which is caught. */
  function Resolve(r: ApiResult<AuthBody>, fallback: string): AuthResult {
    match SessionPayload(r)
    case Some(d) => AuthSuccess(d.user)
    case None => AuthFailure(CaughtMessage(TypeError, fallback))
  }

  /** The session payload a backend outcome carries, if any. */
  function IssuedSession(o: Outcome<AuthBody>): Option<AuthData> {
    if o.Response? then o.body.data else None
  }

  function LoginResult(o: Outcome<AuthBody>): AuthResult {
    Resolve(AuthRecord(Settle(o), LoginSucceeded, LoginFailed), LoginFallback)
  }

  function RegisterResult(o: Outcome<AuthBody>): AuthResult {
    Resolve(AuthRecord(Settle(o), RegisterSucceeded, RegisterFailed), RegisterFallback)
  }

  /**
   * For every backend outcome: login succeeds exactly when the backend issued a
   * session, with that session's user; otherwise it fails with "Login failed",
   * whatever message the backend sent.
   */
  lemma LoginResultContract(o: Outcome<AuthBody>)
    ensures IssuedSession(o).Some? ==> LoginResult(o) == AuthSuccess(IssuedSession(o).value.user)
    ensures IssuedSession(o).None? ==> LoginResult(o) == AuthFailure(LoginFallback)
  {
  }

  /** The same for registration, with fallback "Registration failed". */
  lemma RegisterResultContract(o: Outcome<AuthBody>)
    ensures IssuedSession(o).Some? ==> RegisterResult(o) == AuthSuccess(IssuedSession(o).value.user)
    ensures IssuedSession(o).None? ==> RegisterResult(o) == AuthFailure(RegisterFallback)
  {
  }

  /** A rejected login carrying the server message "Invalid credentials" still reports "Login failed". */
  lemma LoginLosesServerMessage()
    ensures var o: Outcome<AuthBody> := Failure(AxiosError(Some(ErrorResponse(400, Some("Invalid credentials")))));
      && AuthRecord(Settle(o), LoginSucceeded, LoginFailed).message == Some("Invalid credentials")
      && LoginResult(o) == AuthFailure("Login failed")
  {
  }

  /** The request body `login` sends: only the email and the password. */
  function Credentials(email: string, password: string): (body: Obj)
    ensures body.Keys == {"email", "password"}
    ensures body["email"] == Str(email) && body["password"] == Str(password)
  {
    map["email" := Str(email), "password" := Str(password)]
  }

  function WelcomeText(u: Identity): string {
    "Welcome back, " + OrElse(u.name, u.email) + "!"
  }

  /** The state held by `AuthProvider`. */
  class AuthProvider {
    const http: Http
    const browser: Window
    var user: Option<Identity>
    var loading: bool
    var effects: seq<Effect>

    ghost predicate Valid()
      reads this
    {
      browser == http.browser
    }

    /** `useState(null)`, `useState(true)`. */
    constructor(http: Http)
      ensures Valid() && this.http == http
      ensures user.None? && loading && effects == []
    {
      this.http := http;
      browser := http.browser;
      user := None;
      loading := true;
      effects := [];
    }

    /** The mount effect: restore the stored user when both keys are present, then end loading. */
    method Init()
      modifies this
      ensures user == if Restore(browser.storage).Some? then Restore(browser.storage) else old(user)
      ensures !loading && effects == old(effects)
    {
      var token := browser.storage.token;
      var storedUser := browser.storage.user;
      if token.Some? && token.value != "" && storedUser.Some? {
        user := storedUser;
      }
      loading := false;
    }

    /** `isAuthenticated`. */
    function IsAuthenticated(): (b: bool)
      reads this
      ensures b <==> user.Some?
    {
      user.Some?
    }

    /**
     * `login(email, password)`: on an issued session both keys are written and
     * `user` is set; otherwise `user` is kept and storage changes only through
     * the 401 interceptor.
     */
    method Login(email: string, password: string, o: Outcome<AuthBody>) returns (result: AuthResult)
      requires Valid()
      modifies this, browser, http
      ensures result == LoginResult(o)
      ensures http.sent == old(http.sent) + [HttpRequest("POST", http.baseUrl + "/auth/login", WithBearer(JsonHeaders, old(browser.storage.token)), Credentials(email, password))]
      ensures IssuedSession(o).Some? ==>
        && browser.storage == SessionStorage(IssuedSession(o).value)
        && user == Some(IssuedSession(o).value.user)
        && effects == old(effects) + [Toast(ToastSuccess, WelcomeText(IssuedSession(o).value.user))]
      ensures IssuedSession(o).None? ==>
        && browser.storage == (if o.Failure? && Unauthorized(o.error) then EmptyStorage else old(browser.storage))
        && user == old(user)
        && effects == old(effects) + [Toast(ToastError, LoginFallback)]
      ensures browser.location == if o.Failure? && Unauthorized(o.error) then "/" else old(browser.location)
      ensures browser.alerts == old(browser.alerts) + if o.Failure? && Unreachable(o.error) then [UnreachableAlert] else []
      ensures loading == old(loading)
    {
      var response := Api.Login(http, Credentials(email, password), o);
      result := Resolve(response, LoginFallback);
      var payload := SessionPayload(response);
      if payload.Some? {
        browser.storage := browser.storage.(token := Some(payload.value.token));
        browser.storage := browser.storage.(user := Some(payload.value.user));
        user := Some(payload.value.user);
        effects := effects + [Toast(ToastSuccess, WelcomeText(payload.value.user))];
      } else {
        effects := effects + [Toast(ToastError, result.error)];
      }
    }

    /** `register(userData)`: the same contract as `login`, posting `userData` to /auth/register. */
    method Register(userData: Obj, o: Outcome<AuthBody>) returns (result: AuthResult)
      requires Valid()
      modifies this, browser, http
      ensures result == RegisterResult(o)
      ensures http.sent == old(http.sent) + [HttpRequest("POST", http.baseUrl + "/auth/register", WithBearer(JsonHeaders, old(browser.storage.token)), userData)]
      ensures IssuedSession(o).Some? ==>
        && browser.storage == SessionStorage(IssuedSession(o).value)
        && user == Some(IssuedSession(o).value.user)
        && effects == old(effects) + [Toast(ToastSuccess, "Registration successful!")]
      ensures IssuedSession(o).None? ==>
        && browser.storage == (if o.Failure? && Unauthorized(o.error) then EmptyStorage else old(browser.storage))
        && user == old(user)
        && effects == old(effects) + [Toast(ToastError, RegisterFallback)]
      ensures browser.location == if o.Failure? && Unauthorized(o.error) then "/" else old(browser.location)
      ensures browser.alerts == old(browser.alerts) + if o.Failure? && Unreachable(o.error) then [UnreachableAlert] else []
      ensures loading == old(loading)
    {
      var response := Api.Register(http, userData, o);
      result := Resolve(response, RegisterFallback);
      var payload := SessionPayload(response);
      if payload.Some? {
        browser.storage := browser.storage.(token := Some(payload.value.token));
        browser.storage := browser.storage.(user := Some(payload.value.user));
        user := Some(payload.value.user);
        effects := effects + [Toast(ToastSuccess, "Registration successful!")];
      } else {
        effects := effects + [Toast(ToastError, result.error)];
      }
    }

    /** `logout()`: removes both keys and forgets the user, whatever the prior state. */
    method Logout()
      modifies this, browser
      ensures browser.storage == EmptyStorage && user.None?
      ensures browser.location == old(browser.location) && browser.alerts == old(browser.alerts)
      ensures loading == old(loading)
      ensures effects == old(effects) + [Toast(ToastSuccess, "Logged out successfully")]
    {
      browser.storage := browser.storage.(token := None);
      browser.storage := browser.storage.(user := None);
      user := None;
      effects := effects + [Toast(ToastSuccess, "Logged out successfully")];
    }

    /** `updateUser(u)`: replaces the in-memory and the stored user; the token is untouched. */
    method UpdateUser(u: Identity)
      modifies this, browser
      ensures user == Some(u)
      ensures browser.storage == old(browser.storage).(user := Some(u))
      ensures browser.location == old(browser.location) && browser.alerts == old(browser.alerts)
      ensures loading == old(loading) && effects == old(effects)
    {
      user := Some(u);
      browser.storage := browser.storage.(user := Some(u));
    }
  }

  /** Logging out twice leaves the same session state as logging out once, and start-up then restores nobody. */
  method LogoutTwice(store: AuthProvider)
    modifies store, store.browser
    ensures store.user.None? && store.browser.storage == EmptyStorage
    ensures Restore(store.browser.storage).None?
  {
    store.Logout();
    store.Logout();
    RestoreAfterClear();
  }

  /**
   * Round trip through a page reload: after a successful login, a new store
   * over the same browser restores the logged-in user at start-up.
   */
  method ReloadAfterLogin(http: Http, email: string, password: string, o: Outcome<AuthBody>) returns (reloaded: AuthProvider)
    requires IssuedSession(o).Some? && IssuedSession(o).value.token != ""
    modifies http, http.browser
    ensures reloaded.user == Some(IssuedSession(o).value.user)
    ensures !reloaded.loading && reloaded.IsAuthenticated()
  {
    var store := new AuthProvider(http);
    var result := store.Login(email, password, o);
    reloaded := new AuthProvider(http);
    reloaded.Init();
    RestoreAfterSignIn(IssuedSession(o).value);
  }

  /** The same round trip after a successful registration. */
  method ReloadAfterRegister(http: Http, userData: Obj, o: Outcome<AuthBody>) returns (reloaded: AuthProvider)
    requires IssuedSession(o).Some? && IssuedSession(o).value.token != ""
    modifies http, http.browser
    ensures reloaded.user == Some(IssuedSession(o).value.user)
    ensures !reloaded.loading && reloaded.IsAuthenticated()
  {
    var store := new AuthProvider(http);
    var result := store.Register(userData, o);
    reloaded := new AuthProvider(http);
    reloaded.Init();
    RestoreAfterSignIn(IssuedSession(o).value);
  }
}
