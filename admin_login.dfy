/**
 * The admin sign-in page: it logs in and continues to the admin dashboard only
 * for an admin account. Its rejection of other roles calls `toast`, which the
 * page never imports, so that call throws instead of showing a message.
 */
module AdminLogin {
  import opened Wrappers
  import opened Js
  import opened Domain
  import opened Browser
  import opened Api
  import opened AuthContext
  import App

  const DashboardPath := "/admin/dashboard"

  /** The exception the non-admin branch raises: `toast` is not defined in this module. */
  const ToastUndefined := "ReferenceError: toast is not defined"

  /** What `handleSubmit` does after `login` settles. */
  function AfterLogin(result: AuthResult): (effects: seq<Effect>)
    ensures Navigate(DashboardPath) in effects <==> result.AuthSuccess? && result.user.role == AdminRole
    ensures result.AuthSuccess? && result.user.role != AdminRole ==> effects == [Uncaught(ToastUndefined)]
    ensures result.AuthFailure? ==> effects == []
  {
    if result.AuthFailure? then []
    else if result.user.role != AdminRole then [Uncaught(ToastUndefined)]
    else [Navigate(DashboardPath)]
  }

  class AdminLoginPage {
    const auth: AuthProvider
    var email: string
    var password: string
    var loading: bool
    var effects: seq<Effect>

    constructor(auth: AuthProvider)
      ensures this.auth == auth && email == "" && password == "" && !loading && effects == []
    {
      this.auth := auth;
      email := "";
      password := "";
      loading := false;
      effects := [];
    }

    method SetEmail(text: string)
      modifies this
      ensures email == text && password == old(password) && loading == old(loading) && effects == old(effects)
    {
      email := text;
    }

    method SetPassword(text: string)
      modifies this
      ensures password == text && email == old(email) && loading == old(loading) && effects == old(effects)
    {
      password := text;
    }

    /**
     * `handleSubmit` with the backend's answer `o`: an admin session goes to the
     * dashboard; any other issued session stays stored without navigating; a
     * failed login does nothing more. `loading` is set and never cleared.
     */
    method HandleSubmit(o: Outcome<AuthBody>)
      requires auth.Valid()
      modifies this, auth, auth.browser, auth.http
      ensures loading
      ensures effects == old(effects) + AfterLogin(LoginResult(o))
      ensures IssuedSession(o).Some? ==>
        && auth.browser.storage == SessionStorage(IssuedSession(o).value)
        && auth.user == Some(IssuedSession(o).value.user)
      ensures IssuedSession(o).None? ==>
        && auth.user == old(auth.user)
        && auth.browser.storage == (if o.Failure? && Unauthorized(o.error) then EmptyStorage else old(auth.browser.storage))
      ensures auth.http.sent == old(auth.http.sent) + [HttpRequest("POST", auth.http.baseUrl + "/auth/login", WithBearer(JsonHeaders, old(auth.browser.storage.token)), Credentials(old(email), old(password)))]
      ensures auth.browser.location == if o.Failure? && Unauthorized(o.error) then "/" else old(auth.browser.location)
      ensures auth.browser.alerts == old(auth.browser.alerts) + if o.Failure? && Unreachable(o.error) then [UnreachableAlert] else []
      ensures auth.effects == old(auth.effects) + [
        if IssuedSession(o).Some? then Toast(ToastSuccess, WelcomeText(IssuedSession(o).value.user)) else Toast(ToastError, LoginFallback)]
      ensures auth.loading == old(auth.loading)
      ensures email == old(email) && password == old(password)
    {
      loading := true;
      var result := auth.Login(email, password, o);
      if result.AuthSuccess? {
        if result.user.role != AdminRole {
          effects := effects + [Uncaught(ToastUndefined)];
          return;
        }
        effects := effects + [Navigate(DashboardPath)];
      }
    }
  }

  /**
   * An officer who signs in on the admin page is not let in, but keeps a
   * stored session that start-up later restores and the officer area accepts.
   */
  method OfficerOnAdminPage(http: Http, d: AuthData) returns (page: AdminLoginPage)
    requires d.user.role == OfficerRole && d.token != ""
    modifies http, http.browser
    ensures Navigate(DashboardPath) !in page.effects
    ensures Restore(page.auth.browser.storage) == Some(d.user)
    ensures App.ProtectedRoute(false, Restore(page.auth.browser.storage), Some([OfficerRole])) == App.Children
  {
    var auth := new AuthProvider(http);
    page := new AdminLoginPage(auth);
    page.HandleSubmit(Response(AuthBody(None, Some(d))));
    RestoreAfterSignIn(d);
  }
}
