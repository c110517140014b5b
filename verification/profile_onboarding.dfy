/** The onboarding form (`ProfileOnboarding`): the form fields, the profile
    picture upload with its type and size checks, the date picker, and the
    submission that requires six of the fields before creating the profile.

    The file storage and the profile service are parameters holding their
    responses.
 */
module ProfileOnboarding {
  import opened Wrappers
  import opened Interfaces
  import Strings

  /** The form: field name to text. */
  type Form = map<string, string>

  const FieldNames: seq<string> :=
    ["name", "email", "role", "bio", "location", "dateOfBirth", "profilePictureUrl", "gender"]

  /** The fields a submission needs; `bio` and the picture are optional. */
  const RequiredFields: seq<string> := ["name", "email", "role", "location", "dateOfBirth", "gender"]

  const MissingFieldsMessage := "Please fill in all required fields"
  const CreateFailedMessage := "Failed to create profile. Please try again."
  const NotAnImageMessage := "Please upload an image file"
  const TooLargeMessage := "Image size should be less than 5MB"
  const UploadFailedMessage := "Failed to upload image. Please try again."

  /** 5 MiB: the largest accepted picture, in bytes. */
  const MaxImageBytes: int := 5 * 1024 * 1024

  /** The initial form: the signed-in user's name and email when truthy,
      every other field empty. */
  function InitialForm(userName: Option<string>, userEmail: Option<string>): (f: Form)
    ensures f.Keys == set k | k in FieldNames
    ensures f["name"] == userName.GetOr("") && f["email"] == userEmail.GetOr("")
    ensures forall k :: k in f && k != "name" && k != "email" ==> f[k] == ""
  {
    map["name" := userName.GetOr(""), "email" := userEmail.GetOr(""), "role" := "", "bio" := "",
        "location" := "", "dateOfBirth" := "", "profilePictureUrl" := "", "gender" := ""]
  }

  /** `handleChange` and `handleSelectChange`: one field takes the new
      value; the others are untouched. */
  function SetField(form: Form, name: string, value: string): (f: Form)
    ensures f.Keys == form.Keys + {name}
    ensures f[name] == value
    ensures forall k :: k in form && k != name ==> f[k] == form[k]
  {
    form[name := value]
  }

  // ---------------------------------------------------------------------
  // Date of birth
  // ---------------------------------------------------------------------

  /** `date ? date.toISOString().split("T")[0] : ""`: the text of the ISO
      timestamp before its first "T". */
  function DateOfBirth(iso: Option<string>): (d: string)
    ensures iso.None? ==> d == ""
    ensures iso.Some? ==> d <= iso.value && 'T' !in d
    ensures iso.Some? && |d| < |iso.value| ==> iso.value[|d|] == 'T'
  {
    if iso.None? then ""
    else
      var parts := Strings.Split(iso.value, 'T');
      Strings.JoinSplit(iso.value, 'T');
      SplitHead(parts, iso.value);
      parts[0]
  }

  /** The first piece of a split is a prefix, followed by the separator
      whenever it is not the whole string. */
  lemma SplitHead(parts: seq<string>, s: string)
    requires |parts| >= 1 && parts == Strings.Split(s, 'T') && Strings.Join(parts, 'T') == s
    ensures parts[0] <= s && 'T' !in parts[0]
    ensures |parts[0]| < |s| ==> s[|parts[0]|] == 'T'
  {
    if |parts| > 1 {
      assert Strings.Join(parts, 'T') == parts[0] + ['T'] + Strings.Join(parts[1..], 'T');
    }
  }

  /** Picking a date stores its day and closes the picker. */
  function SelectDate(form: Form, iso: Option<string>): (out: (Form, bool))
    ensures out.0 == SetField(form, "dateOfBirth", DateOfBirth(iso))
    ensures !out.1
  {
    (form["dateOfBirth" := DateOfBirth(iso)], false)
  }

  // ---------------------------------------------------------------------
  // Picture upload
  // ---------------------------------------------------------------------

  datatype Picture = Picture(mimeType: string, size: int)

  datatype UploadState = UploadState(form: Form, error: string, previewUrl: string, isUploading: bool)

  /** Where an uploaded picture is viewed. */
  function FileUrl(endpoint: string, bucketId: string, fileId: string, projectId: string): (url: string)
    ensures Strings.StartsWith(url, endpoint + "/storage/buckets/" + bucketId + "/files/" + fileId)
  {
    endpoint + "/storage/buckets/" + bucketId + "/files/" + fileId + "/view?project=" + projectId
  }

  predicate Acceptable(p: Picture) {
    Strings.StartsWith(p.mimeType, "image/") && p.size <= MaxImageBytes
  }

  /** `handleImageUpload`. `objectUrl` is the local preview URL and
      `uploaded` the storage's response (the new file's id). */
  function HandleImageUpload(st: UploadState, picked: Option<Picture>, objectUrl: string,
                             uploaded: Result<string>, endpoint: string, bucketId: string, projectId: string)
    : (t: UploadState)
    ensures picked.None? ==> t == st
    ensures picked.Some? && !Strings.StartsWith(picked.value.mimeType, "image/") ==>
      t == st.(error := NotAnImageMessage)
    ensures picked.Some? && Strings.StartsWith(picked.value.mimeType, "image/") && picked.value.size > MaxImageBytes ==>
      t == st.(error := TooLargeMessage)
    ensures picked.Some? && Acceptable(picked.value) ==> !t.isUploading
    ensures picked.Some? && Acceptable(picked.value) && uploaded.Ok? ==>
      && t.form == SetField(st.form, "profilePictureUrl", FileUrl(endpoint, bucketId, uploaded.value, projectId))
      && t.previewUrl == objectUrl && t.error == ""
    ensures picked.Some? && Acceptable(picked.value) && uploaded.Err? ==>
      t.form == st.form && t.previewUrl == "" && t.error == UploadFailedMessage
  {
    if picked.None? then st
    else if !Strings.StartsWith(picked.value.mimeType, "image/") then st.(error := NotAnImageMessage)
    else if picked.value.size > MaxImageBytes then st.(error := TooLargeMessage)
    else
      var started := st.(isUploading := true, error := "", previewUrl := objectUrl);
      var finished := match uploaded
        case Ok(fileId) => started.(form := started.form["profilePictureUrl" := FileUrl(endpoint, bucketId, fileId, projectId)])
        case Err(_) => started.(error := UploadFailedMessage, previewUrl := "");
      finished.(isUploading := false)
  }

  /** A rejected picture never reaches the storage and changes only the
      message; only an accepted one can set the picture field. */
  lemma RejectedPictureKeepsForm(st: UploadState, p: Picture, objectUrl: string, uploaded: Result<string>,
                                 endpoint: string, bucketId: string, projectId: string)
    ensures var t := HandleImageUpload(st, Some(p), objectUrl, uploaded, endpoint, bucketId, projectId);
      t.form != st.form ==> Acceptable(p) && uploaded.Ok?
  {
  }

  // ---------------------------------------------------------------------
  // Submission
  // ---------------------------------------------------------------------

  predicate Filled(form: Form, k: string) {
    k in form && form[k] != ""
  }

  predicate Complete(form: Form) {
    forall i :: 0 <= i < |RequiredFields| ==> Filled(form, RequiredFields[i])
  }

  /** What the form sends to the profile service: the owner's id and the
      form fields. */
  datatype CreateRequest = CreateRequest(ownerId: Option<string>, fields: Form)

  /** What a submission leaves behind: the message shown, the request sent
      (if any), and the profile put into the profile store (if any). */
  datatype SubmitEffect = SubmitEffect(error: string, isSubmitting: bool, request: Option<CreateRequest>, stored: Option<Profile>)

  /** `handleSubmit`. `ownerId` is the id read from the signed-in user and
      `create` the profile service's response to a request. */
  function HandleSubmit(form: Form, ownerId: Option<string>, create: CreateRequest -> Result<Profile>): (e: SubmitEffect)
    ensures !e.isSubmitting
    ensures e.request.Some? <==> Complete(form)
    ensures !Complete(form) ==> e.error == MissingFieldsMessage && e.stored.None?
    ensures e.request.Some? ==> e.request.value == CreateRequest(ownerId, form)
    ensures e.stored.Some? <==> Complete(form) && create(CreateRequest(ownerId, form)).Ok?
    ensures e.stored.Some? ==> e.stored.value == create(CreateRequest(ownerId, form)).value && e.error == ""
    ensures Complete(form) && e.stored.None? ==> e.error == CreateFailedMessage
  {
    if !Complete(form) then SubmitEffect(MissingFieldsMessage, false, None, None)
    else
      var request := CreateRequest(ownerId, form);
      match create(request)
      case Ok(profile) => SubmitEffect("", false, Some(request), Some(profile))
      case Err(_) => SubmitEffect(CreateFailedMessage, false, Some(request), None)
  }

  /** The bio and the picture are optional: clearing them never blocks a
      submission that was otherwise complete. */
  lemma OptionalFieldsDoNotBlock(form: Form)
    requires Complete(form)
    ensures Complete(SetField(SetField(form, "bio", ""), "profilePictureUrl", ""))
  {
    var f := SetField(SetField(form, "bio", ""), "profilePictureUrl", "");
    forall i | 0 <= i < |RequiredFields|
      ensures Filled(f, RequiredFields[i])
    {
      assert Filled(form, RequiredFields[i]);
    }
  }

  /** A fresh form cannot be submitted: the role alone is missing. */
  lemma InitialFormIncomplete(userName: Option<string>, userEmail: Option<string>)
    ensures !Complete(InitialForm(userName, userEmail))
  {
    assert RequiredFields[2] == "role";
  }
}
