/**
 * The citizen's profile page: a form initialised from the session user, an
 * edit mode, a save through `authAPI.updateProfile` that replaces the session
 * user on success, and a cancel that restores the form.
 */
module CitizenProfile {
  import opened Wrappers
  import opened Js
  import opened Domain
  import opened Browser
  import opened Api
  import opened AuthContext

  const ProfileKeys := {"name", "email", "phone", "address"}
  const SavedText := "Profile updated successfully!"
  const SaveFailed := "Failed to update profile"

  /** `{ name: user?.name || "", email: user?.email || "", ... }`: each field from the user, "" when missing. */
  function ProfileForm(u: Option<Identity>): (form: Obj)
    ensures form.Keys == ProfileKeys
    ensures u.None? ==> forall k :: k in form ==> form[k] == Str("")
    ensures u.Some? ==>
      && form["name"] == Str(u.value.name.GetOr(""))
      && form["email"] == Str(u.value.email)
      && form["phone"] == Str(u.value.phone.GetOr(""))
      && form["address"] == Str(u.value.address.GetOr(""))
  {
    if u.None? then map["name" := Str(""), "email" := Str(""), "phone" := Str(""), "address" := Str("")]
    else map[
      "name" := Str(OrElse(u.value.name, "")),
      "email" := Str(OrElse(Some(u.value.email), "")),
      "phone" := Str(OrElse(u.value.phone, "")),
      "address" := Str(OrElse(u.value.address, ""))]
  }

  /**
   * The user the save hands to `updateUser`: the updated user of a successful
   * response. A failed `updateProfile` resolves to a record without `data`, so
   * `response.data.user` throws and the page takes its error path instead.
   */
  function SavedUser(r: ApiResult<ProfileBody>): Option<Identity> {
    if r.data.Some? then Some(r.data.value.user) else None
  }

  /** The session user changes exactly when the backend answers, and then to the user it returns. */
  lemma SavedUserContract(o: Outcome<ProfileBody>)
    ensures SavedUser(ProfileRecord(Settle(o), ProfileUpdateFailed)) == if o.Response? then Some(o.body.user) else None
  {
    ProfileRecordContract(o, ProfileUpdateFailed);
  }

  class ProfilePage {
    const auth: AuthProvider
    var isEditing: bool
    var formData: Obj
    var loading: bool
    var effects: seq<Effect>

    /** The page reads the session user when it mounts. */
    constructor(auth: AuthProvider)
      ensures this.auth == auth
      ensures formData == ProfileForm(auth.user)
      ensures !isEditing && !loading && effects == []
    {
      this.auth := auth;
      isEditing := false;
      formData := ProfileForm(auth.user);
      loading := false;
      effects := [];
    }

    /** The "Edit Profile" button. */
    method StartEditing()
      modifies this
      ensures isEditing
      ensures formData == old(formData) && loading == old(loading) && effects == old(effects)
    {
      isEditing := true;
    }

    /** `handleChange`: only the named field changes. */
    method HandleChange(name: string, value: string)
      modifies this
      ensures formData == old(formData)[name := Str(value)]
      ensures isEditing == old(isEditing) && loading == old(loading) && effects == old(effects)
    {
      formData := formData[name := Str(value)];
    }

    /**
     * `handleSubmit` with the backend's answer `o`: on success the session user
     * (in memory and in storage) becomes the returned user and edit mode ends;
     * on failure the session user and edit mode are kept. The form is sent as
     * it stands and loading ends on both paths.
     */
    method HandleSubmit(o: Outcome<ProfileBody>)
      requires auth.Valid()
      modifies this, auth, auth.browser, auth.http
      ensures auth.http.sent == old(auth.http.sent) + [HttpRequest("PUT", auth.http.baseUrl + "/auth/profile", WithBearer(JsonHeaders, old(auth.browser.storage.token)), old(formData))]
      ensures o.Response? ==>
        && auth.user == Some(o.body.user)
        && auth.browser.storage == old(auth.browser.storage).(user := Some(o.body.user))
        && !isEditing
        && effects == old(effects) + [Toast(ToastSuccess, SavedText)]
      ensures o.Failure? ==>
        && auth.user == old(auth.user)
        && auth.browser.storage == (if Unauthorized(o.error) then EmptyStorage else old(auth.browser.storage))
        && isEditing == old(isEditing)
        && effects == old(effects) + [Toast(ToastError, SaveFailed)]
      ensures auth.browser.location == if o.Failure? && Unauthorized(o.error) then "/" else old(auth.browser.location)
      ensures auth.browser.alerts == old(auth.browser.alerts) + if o.Failure? && Unreachable(o.error) then [UnreachableAlert] else []
      ensures formData == old(formData) && !loading
      ensures auth.effects == old(auth.effects) && auth.loading == old(auth.loading)
    {
      loading := true;
      var response := Api.UpdateProfile(auth.http, formData, o);
      SavedUserContract(o);
      var saved := SavedUser(response);
      if saved.Some? {
        auth.UpdateUser(saved.value);
        effects := effects + [Toast(ToastSuccess, SavedText)];
        isEditing := false;
      } else {
        effects := effects + [Toast(ToastError, SaveFailed)];
      }
      loading := false;
    }

    /** The "Cancel" button: leave edit mode and rebuild the form from the session user. */
    method Cancel()
      modifies this
      ensures !isEditing && formData == ProfileForm(auth.user)
      ensures loading == old(loading) && effects == old(effects)
    {
      isEditing := false;
      formData := ProfileForm(auth.user);
    }
  }
}
