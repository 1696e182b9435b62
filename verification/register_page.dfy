/**
 * The register page: the password checks made before sign-up, the message chosen for a
 * sign-up error code, the picture check, and the profile update sent after an automatic
 * sign-in. Sign-up, sign-in and the update request are external: their replies are
 * parameters, and the token is read from the store.
 */
module RegisterPage {
  import opened Common
  import opened Text
  import opened Json
  import opened LocalStorage
  import opened ImageFile
  import ProfileRoute

  /** The form's fields. */
  datatype RegisterForm = RegisterForm(
    name: string,
    email: string,
    password: string,
    confirmPassword: string,
    village: string,
    district: string,
    state: string)

  /** The empty form, with the state preset. */
  const INITIAL_FORM := RegisterForm("", "", "", "", "", "", "Jharkhand")

  const PASSWORD_MISMATCH := "register.passwordMismatch"
  const PASSWORD_TOO_SHORT := "register.passwordTooShort"
  const USER_EXISTS := "register.userExists"
  const REGISTER_FAILED := "register.failed"
  const COMMON_ERROR := "common.error"
  const MIN_PASSWORD_LENGTH := 6

  /** The checks before sign-up: the translation key of the first that fails. */
  function Validate(form: RegisterForm): (r: Option<string>)
    ensures r.None? <==> form.password == form.confirmPassword && |form.password| >= MIN_PASSWORD_LENGTH
    ensures form.password != form.confirmPassword ==> r == Some(PASSWORD_MISMATCH)
    ensures form.password == form.confirmPassword && |form.password| < MIN_PASSWORD_LENGTH ==> r == Some(PASSWORD_TOO_SHORT)
  {
    if form.password != form.confirmPassword then Some(PASSWORD_MISMATCH)
    else if |form.password| < MIN_PASSWORD_LENGTH then Some(PASSWORD_TOO_SHORT)
    else None
  }

  /** A mismatch is reported even for a short password; six matching characters pass. */
  lemma ValidateOrder(form: RegisterForm)
    ensures form.password != form.confirmPassword && |form.password| < 6 ==> Validate(form) == Some(PASSWORD_MISMATCH)
    ensures form.password == form.confirmPassword && |form.password| == 6 ==> Validate(form).None?
    ensures form.password == form.confirmPassword && |form.password| == 5 ==> Validate(form) == Some(PASSWORD_TOO_SHORT)
  {
  }

  /** The translation key shown for a sign-up error code. */
  function SignupMessageKey(code: string): (k: string)
    ensures k == USER_EXISTS <==> code == "USER_ALREADY_EXISTS"
    ensures k == REGISTER_FAILED <==> code != "USER_ALREADY_EXISTS"
  {
    if code == "USER_ALREADY_EXISTS" then USER_EXISTS else REGISTER_FAILED
  }

  /** `formData.village || formData.district || profileImage`. */
  predicate ShouldUpdateProfile(form: RegisterForm, image: Option<string>) {
    form.village != "" || form.district != "" || Given(image)
  }

  /** The update body: village, district, state and image, each only when it is non-empty. */
  function RegisterPayload(form: RegisterForm, image: Option<string>): (p: map<string, Json>)
    ensures p.Keys <= {"village", "district", "state", "image"}
    ensures "village" in p <==> form.village != ""
    ensures "district" in p <==> form.district != ""
    ensures "state" in p <==> form.state != ""
    ensures "image" in p <==> Given(image)
    ensures "village" in p ==> p["village"] == JStr(form.village)
    ensures "district" in p ==> p["district"] == JStr(form.district)
    ensures "state" in p ==> p["state"] == JStr(form.state)
    ensures "image" in p ==> p["image"] == JStr(image.value)
  {
    var p0: map<string, Json> := map[];
    var p1 := if form.village != "" then p0["village" := JStr(form.village)] else p0;
    var p2 := if form.district != "" then p1["district" := JStr(form.district)] else p1;
    var p3 := if form.state != "" then p2["state" := JStr(form.state)] else p2;
    if Given(image) then p3["image" := JStr(image.value)] else p3
  }

  /** `updatePayload` filled in by its four conditional assignments. */
  method BuildUpdatePayload(form: RegisterForm, image: Option<string>) returns (payload: map<string, Json>)
    ensures payload == RegisterPayload(form, image)
  {
    payload := map[];
    if form.village != "" {
      payload := payload["village" := JStr(form.village)];
    }
    if form.district != "" {
      payload := payload["district" := JStr(form.district)];
    }
    if form.state != "" {
      payload := payload["state" := JStr(form.state)];
    }
    if Given(image) {
      payload := payload["image" := JStr(image.value)];
    }
  }

  /**
   * The profile route accepts the payload whenever the page sends it: no field is rejected,
   * the update is not empty, the name is not touched, and village, district and state are
   * stored trimmed while the picture is stored as sent.
   */
  lemma RegisterPayloadAccepted(form: RegisterForm, image: Option<string>)
    requires ShouldUpdateProfile(form, image)
    ensures var body := JObj(RegisterPayload(form, image));
            var update := ProfileRoute.Written(body, ProfileRoute.ALL_FIELDS);
            && ProfileRoute.FirstInvalid(body, ProfileRoute.UPDATE_FIELDS).None?
            && update != map[]
            && ProfileRoute.Name !in update
            && (ProfileRoute.Village in update <==> form.village != "")
            && (ProfileRoute.Village in update ==> update[ProfileRoute.Village] == JStr(Trim(form.village)))
            && (ProfileRoute.Image in update ==> update[ProfileRoute.Image] == JStr(image.value))
  {
    var p := RegisterPayload(form, image);
    var body := JObj(p);
    ProfileRoute.FirstInvalidInOrder(body);
    assert ProfileRoute.Key(ProfileRoute.Name) !in p;
    ProfileRoute.WrittenValues(body);
    var update := ProfileRoute.Written(body, ProfileRoute.ALL_FIELDS);
    if form.village != "" {
      assert ProfileRoute.Village in update;
    } else if form.district != "" {
      assert ProfileRoute.District in update;
    } else {
      assert ProfileRoute.Image in update;
    }
  }

  /** What an authentication call gave: it threw, or it returned an error code (`None` for none). */
  datatype AuthReply = Threw | Returned(code: Option<string>)

  /** How a submission ended. */
  datatype Registration =
    | Rejected(messageKey: string)
    | SignupFailed(messageKey: string)
    | Crashed(messageKey: string)
    | LoginRequired
    | Registered(profileUpdate: Option<map<string, Json>>)

  class Register {
    var formData: RegisterForm
    var profileImage: Option<string>
    var isLoading: bool

    constructor ()
      ensures formData == INITIAL_FORM && profileImage == None && !isLoading
    {
      formData := INITIAL_FORM;
      profileImage := None;
      isLoading := false;
    }

    /**
     * `handleImageChange`: for a file passing the 5 MB image check, `onloadend` sets the
     * picture to `reader.result`: the data URL, or null (`None`) when the read failed, which
     * clears an earlier picture. Any other choice changes nothing.
     */
    method ImageChanged(file: Option<File>, dataUrl: Option<string>)
      modifies this
      ensures profileImage == if CheckImage(file, REGISTER_MAX_BYTES) == Readable then dataUrl else old(profileImage)
      ensures formData == old(formData) && isLoading == old(isLoading)
    {
      var check := CheckImage(file, REGISTER_MAX_BYTES);
      if check != Readable {
        return;
      }
      profileImage := dataUrl;
    }

    method RemoveImage()
      modifies this
      ensures profileImage == None && formData == old(formData) && isLoading == old(isLoading)
    {
      profileImage := None;
    }

    /**
     * `handleRegister`. A failed check stops before sign-up. A sign-up that throws or
     * returns a code ends loading; a sign-in error sends the user to log in; after a
     * sign-in the payload is sent when there is something to send and a token is stored.
     */
    method HandleRegister(store: Store, signup: AuthReply, signin: AuthReply) returns (r: Registration)
      modifies this
      ensures formData == old(formData) && profileImage == old(profileImage)
      ensures Validate(formData).Some? ==> r == Rejected(Validate(formData).value) && isLoading == old(isLoading)
      ensures Validate(formData).None? && signup.Threw? ==> r == Crashed(COMMON_ERROR) && !isLoading
      ensures Validate(formData).None? && signup.Returned? && Given(signup.code) ==>
                r == SignupFailed(SignupMessageKey(signup.code.value)) && !isLoading
      ensures Validate(formData).None? && signup.Returned? && !Given(signup.code) ==>
                && (signin.Threw? ==> r == Crashed(COMMON_ERROR) && !isLoading)
                && (signin.Returned? && Given(signin.code) ==> r == LoginRequired && isLoading)
                && (signin.Returned? && !Given(signin.code) ==>
                      && isLoading
                      && r == Registered(
                           if ShouldUpdateProfile(formData, profileImage) && Given(store.GetItem(TOKEN_KEY))
                           then Some(RegisterPayload(formData, profileImage))
                           else None))
    {
      var invalid := Validate(formData);
      if invalid.Some? {
        return Rejected(invalid.value);
      }
      isLoading := true;
      if signup.Threw? {
        isLoading := false;
        return Crashed(COMMON_ERROR);
      }
      if Given(signup.code) {
        isLoading := false;
        return SignupFailed(SignupMessageKey(signup.code.value));
      }
      if signin.Threw? {
        isLoading := false;
        return Crashed(COMMON_ERROR);
      }
      if Given(signin.code) {
        return LoginRequired;
      }
      var sent: Option<map<string, Json>> := None;
      if ShouldUpdateProfile(formData, profileImage) {
        var token := store.GetItem(TOKEN_KEY);
        if Given(token) {
          var payload := BuildUpdatePayload(formData, profileImage);
          sent := Some(payload);
        }
      }
      return Registered(sent);
    }
  }
}
