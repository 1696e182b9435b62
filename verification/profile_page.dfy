/**
 * The profile page: the edit form built from the loaded profile, cancel, save with its
 * client-side name check and trimmed payload, and the picture upload and removal. The
 * profile route's replies are parameters; the request bodies are returned.
 */
module ProfilePage {
  import opened Common
  import opened Text
  import opened Json
  import opened ImageFile
  import opened ProfileRoute

  /** The profile as the page reads it: optional text fields. */
  datatype UserProfile = UserProfile(
    id: string,
    name: Option<string>,
    email: Option<string>,
    image: Option<string>,
    village: Option<string>,
    district: Option<string>,
    state: Option<string>,
    location: Option<string>)

  /** The edit form. */
  datatype Form = Form(name: string, village: string, district: string, state: string, location: string)

  const DEFAULT_STATE := "Jharkhand"

  const INITIAL_FORM := Form("", "", "", DEFAULT_STATE, "")

  /** `value || fallback` for an optional text. */
  function OrDefault(value: Option<string>, fallback: string): (r: string)
    ensures value.Some? && value.value != "" ==> r == value.value
    ensures !(value.Some? && value.value != "") ==> r == fallback
  {
    if value.Some? && value.value != "" then value.value else fallback
  }

  /** The form a profile fills in: "" for missing texts and "Jharkhand" for a missing state. */
  function FormOf(p: UserProfile): Form {
    Form(OrDefault(p.name, ""), OrDefault(p.village, ""), OrDefault(p.district, ""),
         OrDefault(p.state, DEFAULT_STATE), OrDefault(p.location, ""))
  }

  /** Present texts are copied; a profile without texts gives the initial form. */
  lemma FormOfProfile(p: UserProfile)
    ensures p.name.Some? ==> FormOf(p).name == p.name.value
    ensures p.state.Some? && p.state.value != "" ==> FormOf(p).state == p.state.value
    ensures (p.state.None? || p.state == Some("")) ==> FormOf(p).state == "Jharkhand"
    ensures p.name.None? && p.village.None? && p.district.None? && p.state.None? && p.location.None? ==>
              FormOf(p) == INITIAL_FORM
  {
  }

  /** The save body: the four edited texts trimmed, and never the picture or the location. */
  function SavePayload(form: Form): (p: map<string, Json>)
    ensures Key(Name) in p && p[Key(Name)] == JStr(Trim(form.name))
    ensures Key(Village) in p && p[Key(Village)] == JStr(Trim(form.village))
    ensures Key(District) in p && p[Key(District)] == JStr(Trim(form.district))
    ensures Key(State) in p && p[Key(State)] == JStr(Trim(form.state))
    ensures Key(Image) !in p && "location" !in p
  {
    map[Key(Name) := JStr(Trim(form.name)), Key(Village) := JStr(Trim(form.village)),
        Key(District) := JStr(Trim(form.district)), Key(State) := JStr(Trim(form.state))]
  }

  /** A save the page sends passes the profile route's checks. */
  lemma SavePayloadValid(form: Form)
    requires !IsBlank(form.name)
    ensures FirstInvalid(JObj(SavePayload(form)), UPDATE_FIELDS).None?
  {
    var body := JObj(SavePayload(form));
    TrimEmptyIffBlank(form.name);
    TrimIdempotent(form.name);
    FirstInvalidInOrder(body);
    assert Check(body, Name).None?;
    assert Check(body, Image).None?;
  }

  /**
   * The route then stores exactly the four texts as sent, trimming again changing nothing,
   * and leaves the picture alone.
   */
  lemma SavePayloadWritten(form: Form)
    ensures var w := Written(JObj(SavePayload(form)), ALL_FIELDS);
            && Image !in w
            && Name in w && w[Name] == JStr(Trim(form.name))
            && Village in w && w[Village] == JStr(Trim(form.village))
            && District in w && w[District] == JStr(Trim(form.district))
            && State in w && w[State] == JStr(Trim(form.state))
  {
    TrimIdempotent(form.name);
    TrimIdempotent(form.village);
    TrimIdempotent(form.district);
    TrimIdempotent(form.state);
  }

  /** The picture bodies: a new picture as its data URL, or null to remove it. */
  function ImagePayload(image: Option<string>): map<string, Json> {
    map["image" := if image.Some? then JStr(image.value) else JNull]
  }

  /** The route stores a picture body's value as sent and touches no other field. */
  lemma ImagePayloadAccepted(image: Option<string>)
    ensures var body := JObj(ImagePayload(image));
            && FirstInvalid(body, UPDATE_FIELDS).None?
            && Written(body, ALL_FIELDS) ==
                 map[Image := if image.Some? then JStr(image.value) else JNull]
  {
    var body := JObj(ImagePayload(image));
    FirstInvalidInOrder(body);
    WrittenValues(body);
  }

  /**
   * The body sent after a failed read, `{image: null}`, passes the route's checks and
   * replaces whatever picture the row held with null.
   */
  lemma ReadErrorClearsPicture(row: map<string, Json>)
    ensures var body := JObj(ImagePayload(None));
            && FirstInvalid(body, UPDATE_FIELDS).None?
            && "image" in Apply(row, Written(body, ALL_FIELDS))
            && Apply(row, Written(body, ALL_FIELDS))["image"] == JNull
  {
    ImagePayloadAccepted(None);
    var update := Written(JObj(ImagePayload(None)), ALL_FIELDS);
    assert Image in update && Key(Image) == "image";
  }

  /** A picture body with a data URL stores that data URL as the row's picture. */
  lemma UploadKeepsPicture(row: map<string, Json>, dataUrl: string)
    ensures var body := JObj(ImagePayload(Some(dataUrl)));
            && FirstInvalid(body, UPDATE_FIELDS).None?
            && "image" in Apply(row, Written(body, ALL_FIELDS))
            && Apply(row, Written(body, ALL_FIELDS))["image"] == JStr(dataUrl)
  {
    ImagePayloadAccepted(Some(dataUrl));
    var update := Written(JObj(ImagePayload(Some(dataUrl))), ALL_FIELDS);
    assert Image in update && Key(Image) == "image";
  }

  /**
   * How a request to the profile route went: an OK reply with the profile read from it, a
   * reply that is not OK, or a request that threw (the fetch rejected or the body could not
   * be read).
   */
  datatype Reply = Updated(profile: UserProfile) | Refused | Threw

  class Profile {
    var profile: Option<UserProfile>
    var formData: Form
    var isLoading: bool
    var isEditing: bool
    var isSaving: bool
    var isUploadingImage: bool

    constructor ()
      ensures profile == None && formData == INITIAL_FORM
      ensures isLoading && !isEditing && !isSaving && !isUploadingImage
    {
      profile := None;
      formData := INITIAL_FORM;
      isLoading := true;
      isEditing := false;
      isSaving := false;
      isUploadingImage := false;
    }

    /**
     * `fetchProfile`: without a stored token no request is made and only loading ends;
     * otherwise, once the request settles, a loaded profile is kept and fills the form, and
     * any failure changes nothing but the loading flag. Returns whether the request was made.
     */
    method ProfileFetched(token: Option<string>, reply: Reply) returns (requested: bool)
      modifies this
      ensures requested <==> Given(token)
      ensures !isLoading
      ensures requested && reply.Updated? ==> profile == Some(reply.profile) && formData == FormOf(reply.profile)
      ensures !(requested && reply.Updated?) ==> profile == old(profile) && formData == old(formData)
      ensures isEditing == old(isEditing) && isSaving == old(isSaving) && isUploadingImage == old(isUploadingImage)
    {
      requested := Given(token);
      if requested && reply.Updated? {
        profile := Some(reply.profile);
        formData := FormOf(reply.profile);
      }
      isLoading := false;
    }

    method Edit()
      modifies this
      ensures isEditing
      ensures profile == old(profile) && formData == old(formData) && isSaving == old(isSaving)
    {
      isEditing := true;
    }

    /** `handleCancel`: the form is rebuilt from the profile, if there is one, and editing ends. */
    method HandleCancel()
      modifies this
      ensures !isEditing
      ensures formData == if profile.Some? then FormOf(profile.value) else old(formData)
      ensures profile == old(profile) && isSaving == old(isSaving) && isLoading == old(isLoading)
    {
      if profile.Some? {
        formData := FormOf(profile.value);
      }
      isEditing := false;
    }

    /**
     * `handleSave`: with a blank name (`!name.trim()`, see `TrimEmptyIffBlank`) nothing is sent and nothing changes; otherwise the
     * trimmed payload is sent, an update is kept and ends editing, a failure changes nothing,
     * and saving ends either way.
     */
    method HandleSave(reply: Reply) returns (request: Option<map<string, Json>>)
      modifies this
      ensures IsBlank(old(formData.name)) ==>
                request == None && profile == old(profile) && isEditing == old(isEditing) && isSaving == old(isSaving)
      ensures !IsBlank(old(formData.name)) ==>
                && request == Some(SavePayload(old(formData)))
                && !isSaving
                && (reply.Updated? ==> profile == Some(reply.profile) && !isEditing)
                && (!reply.Updated? ==> profile == old(profile) && isEditing == old(isEditing))
      ensures formData == old(formData) && isLoading == old(isLoading)
    {
      if IsBlank(formData.name) {
        return None;
      }
      isSaving := true;
      request := Some(SavePayload(formData));
      if reply.Updated? {
        profile := Some(reply.profile);
        isEditing := false;
      }
      isSaving := false;
    }

    /**
     * `handleImageUpload`: a file that fails the 2 MB image check sends nothing. Otherwise
     * uploading starts and the file is read; `dataUrl` is `reader.result`, `None` (null) when
     * the read fails. `onloadend` runs after a failed read too, after `onerror` has ended
     * uploading, and sends `reader.result` as the new picture: a null picture, which removes
     * the stored one (`ReadErrorClearsPicture`). The request is made inside `onloadend`,
     * which has no `catch` of its own: an update is kept, a reply that is not OK ends
     * uploading, and a request that throws leaves uploading as it was.
     */
    method HandleImageUpload(file: Option<File>, dataUrl: Option<string>, reply: Reply)
      returns (request: Option<map<string, Json>>)
      modifies this
      ensures CheckImage(file, PROFILE_MAX_BYTES) != Readable ==>
                request == None && profile == old(profile) && isUploadingImage == old(isUploadingImage)
      ensures CheckImage(file, PROFILE_MAX_BYTES) == Readable ==>
                && request == Some(ImagePayload(dataUrl))
                && (isUploadingImage <==> dataUrl.Some? && reply.Threw?)
                && profile == (if reply.Updated? then Some(reply.profile) else old(profile))
      ensures formData == old(formData) && isEditing == old(isEditing) && isSaving == old(isSaving)
    {
      var check := CheckImage(file, PROFILE_MAX_BYTES);
      if check != Readable {
        return None;
      }
      isUploadingImage := true;
      if dataUrl.None? {
        // `onerror`
        isUploadingImage := false;
      }
      request := Some(ImagePayload(dataUrl));
      if reply.Threw? {
        return;
      }
      if reply.Updated? {
        profile := Some(reply.profile);
      }
      isUploadingImage := false;
    }

    /**
     * `handleImageUpload` as intended: `onloadend` gives up when the read produced no data
     * URL, so a failed read sends nothing and only ends uploading. Every other path is as in
     * `HandleImageUpload`; a request it sends never removes the picture (`UploadKeepsPicture`).
     */
    method HandleImageUploadGuarded(file: Option<File>, dataUrl: Option<string>, reply: Reply)
      returns (request: Option<map<string, Json>>)
      modifies this
      ensures CheckImage(file, PROFILE_MAX_BYTES) != Readable || dataUrl.None? ==>
                request == None && profile == old(profile)
      ensures CheckImage(file, PROFILE_MAX_BYTES) != Readable ==> isUploadingImage == old(isUploadingImage)
      ensures CheckImage(file, PROFILE_MAX_BYTES) == Readable && dataUrl.None? ==> !isUploadingImage
      ensures CheckImage(file, PROFILE_MAX_BYTES) == Readable && dataUrl.Some? ==>
                && request == Some(ImagePayload(dataUrl))
                && (isUploadingImage <==> reply.Threw?)
                && profile == (if reply.Updated? then Some(reply.profile) else old(profile))
      ensures request.Some? ==> dataUrl.Some? && request.value == ImagePayload(dataUrl)
      ensures formData == old(formData) && isEditing == old(isEditing) && isSaving == old(isSaving)
    {
      var check := CheckImage(file, PROFILE_MAX_BYTES);
      if check != Readable {
        return None;
      }
      isUploadingImage := true;
      if dataUrl.None? {
        isUploadingImage := false;
        return None;
      }
      request := Some(ImagePayload(dataUrl));
      if reply.Threw? {
        return;
      }
      if reply.Updated? {
        profile := Some(reply.profile);
      }
      isUploadingImage := false;
    }

    /** `handleRemoveImage`: a null picture is sent, an update is kept, and uploading ends (in `finally`) whatever the reply. */
    method HandleRemoveImage(reply: Reply) returns (request: map<string, Json>)
      modifies this
      ensures request == ImagePayload(None) && !isUploadingImage
      ensures profile == if reply.Updated? then Some(reply.profile) else old(profile)
      ensures formData == old(formData) && isEditing == old(isEditing) && isSaving == old(isSaving)
    {
      isUploadingImage := true;
      request := ImagePayload(None);
      if reply.Updated? {
        profile := Some(reply.profile);
      }
      isUploadingImage := false;
    }
  }
}
