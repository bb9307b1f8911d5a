/**
 * The citizen registration page: a six-field form, a password confirmation
 * check before anything is sent, and a registration as a citizen.
 */
module CitizenRegister {
  import opened Wrappers
  import opened Js
  import opened Domain
  import opened Browser
  import opened Api
  import opened AuthContext

  const MismatchAlert := "Passwords do not match"
  const DashboardPath := "/citizen/dashboard"

  const EmptyForm: Obj := map[
    "name" := Str(""), "email" := Str(""), "password" := Str(""),
    "confirmPassword" := Str(""), "phone" := Str(""), "address" := Str("")]

  /** The two password fields agree (`password === confirmPassword`). */
  predicate PasswordsMatch(form: Obj) {
    Get(form, "password") == Get(form, "confirmPassword")
  }

  /**
   * `{ ...formData, role: "citizen" }`: every field of the form, the
   * confirmation included, with the role forced to "citizen".
   */
  function RegistrationPayload(form: Obj): (payload: Obj)
    ensures payload.Keys == form.Keys + {"role"}
    ensures payload["role"] == Str(CitizenRole)
    ensures forall k :: k in form && k != "role" ==> payload[k] == form[k]
  {
    form["role" := Str(CitizenRole)]
  }

  /** A role the form holds is overridden: the payload always registers a citizen. */
  lemma RoleCannotBeChosen(form: Obj, role: Value)
    ensures RegistrationPayload(form["role" := role]) == RegistrationPayload(form)
  {
  }

  class RegisterPage {
    const auth: AuthProvider
    var formData: Obj
    var loading: bool
    var effects: seq<Effect>

    constructor(auth: AuthProvider)
      ensures this.auth == auth && formData == EmptyForm && !loading && effects == []
    {
      this.auth := auth;
      formData := EmptyForm;
      loading := false;
      effects := [];
    }

    /** `handleChange`: only the named field changes. */
    method HandleChange(name: string, value: string)
      modifies this
      ensures formData == old(formData)[name := Str(value)]
      ensures loading == old(loading) && effects == old(effects)
    {
      formData := formData[name := Str(value)];
    }

    /**
     * `handleSubmit` with the backend's answer `o`. A mismatch alerts and stops
     * before anything else: no request, no loading change, no session change.
     * Otherwise the payload is registered, loading is true for the call's
     * duration and false after, and the page goes to the citizen dashboard
     * exactly when registration succeeds.
     */
    method HandleSubmit(o: Outcome<AuthBody>)
      requires auth.Valid()
      modifies this, auth, auth.browser, auth.http
      ensures !PasswordsMatch(old(formData)) ==>
        && auth.browser.alerts == old(auth.browser.alerts) + [MismatchAlert]
        && auth.http.sent == old(auth.http.sent)
        && auth.browser.storage == old(auth.browser.storage) && auth.user == old(auth.user)
        && auth.browser.location == old(auth.browser.location) && auth.effects == old(auth.effects)
        && auth.loading == old(auth.loading)
        && loading == old(loading) && effects == old(effects)
      ensures PasswordsMatch(old(formData)) ==>
        && auth.http.sent == old(auth.http.sent) + [HttpRequest("POST", auth.http.baseUrl + "/auth/register", WithBearer(JsonHeaders, old(auth.browser.storage.token)), RegistrationPayload(old(formData)))]
        && auth.user == (if IssuedSession(o).Some? then Some(IssuedSession(o).value.user) else old(auth.user))
        && auth.browser.storage == (
          if IssuedSession(o).Some? then SessionStorage(IssuedSession(o).value)
          else if o.Failure? && Unauthorized(o.error) then EmptyStorage
          else old(auth.browser.storage))
        && auth.browser.location == (if o.Failure? && Unauthorized(o.error) then "/" else old(auth.browser.location))
        && auth.browser.alerts == old(auth.browser.alerts) + (if o.Failure? && Unreachable(o.error) then [UnreachableAlert] else [])
        && auth.effects == old(auth.effects) + [if IssuedSession(o).Some? then Toast(ToastSuccess, "Registration successful!") else Toast(ToastError, RegisterFallback)]
        && auth.loading == old(auth.loading)
        && !loading
        && effects == old(effects) + (if RegisterResult(o).Success() then [Navigate(DashboardPath)] else [])
      ensures formData == old(formData)
    {
      if !PasswordsMatch(formData) {
        auth.browser.alerts := auth.browser.alerts + [MismatchAlert];
        return;
      }
      loading := true;
      var result := auth.Register(RegistrationPayload(formData), o);
      loading := false;
      if result.Success() {
        effects := effects + [Navigate(DashboardPath)];
      }
    }
  }
}
