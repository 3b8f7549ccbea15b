/** The profile page: the edit form, the profile image upload and removal, and
    saving the form to the backend. */
module Profile {
  import opened Wrappers
  import opened Text
  import opened Types
  import opened ApiClient
  import Initials

  /** The form the page edits. */
  datatype ProfileForm = ProfileForm(name: string, email: string, phone_number: string, DOB: string, image_url: string)

  /** The inputs that call `handleChange`, by their `name` attribute. */
  datatype Field = Name | Email | PhoneNumber | BirthDate

  function FieldOf(f: ProfileForm, field: Field): string
  {
    match field
    case Name => f.name
    case Email => f.email
    case PhoneNumber => f.phone_number
    case BirthDate => f.DOB
  }

  /** `{ ...prev, [name]: value }`: the named field takes the value, every other
      field and the image keep theirs. */
  function SetField(f: ProfileForm, field: Field, value: string): (r: ProfileForm)
    ensures FieldOf(r, field) == value
    ensures forall other :: other != field ==> FieldOf(r, other) == FieldOf(f, other)
    ensures r.image_url == f.image_url
  {
    match field
    case Name => f.(name := value)
    case Email => f.(email := value)
    case PhoneNumber => f.(phone_number := value)
    case BirthDate => f.(DOB := value)
  }

  /** Typing back a field's own value changes nothing. */
  lemma SetOwnValue(f: ProfileForm, field: Field)
    ensures SetField(f, field, FieldOf(f, field)) == f
  {
  }

  /** Edits of two different inputs do not interfere. */
  lemma EditsCommute(f: ProfileForm, a: Field, x: string, b: Field, y: string)
    requires a != b
    ensures SetField(SetField(f, a, x), b, y) == SetField(SetField(f, b, y), a, x)
  {
  }

  /** The last edit of an input wins. */
  lemma LastEditWins(f: ProfileForm, field: Field, x: string, y: string)
    ensures SetField(SetField(f, field, x), field, y) == SetField(f, field, y)
  {
  }

  /** The form built from the signed-in user, with '' for a missing user. */
  function FormOf(user: Option<User>): (r: ProfileForm)
    ensures user.None? ==> r == ProfileForm("", "", "", "", "")
    ensures user.Some? ==> r == ProfileForm(user.value.name, user.value.email, user.value.phone_number, user.value.DOB, user.value.image_url)
  {
    match user
    case None => ProfileForm("", "", "", "", "")
    case Some(u) => ProfileForm(u.name, u.email, u.phone_number, u.DOB, u.image_url)
  }

  /** How a request of the page ended: a parsed JSON reply, or an exception
      (network failure or a body that is not JSON). */
  datatype Call<R> = Replied(reply: R) | Threw

  /** The reply to an image upload or removal. */
  datatype ImageReply = ImageReply(ok: bool, success: bool, image_url: string, detail: Option<string>)

  /** The reply to `PUT /users/me`: the saved fields, or the error detail. */
  datatype SaveReply = SaveReply(
    ok: bool,
    name: Option<string>,
    email: Option<string>,
    phone_number: Option<string>,
    DOB: Option<string>,
    image_url: Option<string>,
    detail: Detail)

  const UploadDone := "Profile image uploaded successfully!"
  const UploadFailed := "Failed to upload image"
  const UploadThrew := "Error uploading image. Please try again."
  const RemoveDone := "Profile image removed successfully!"
  const RemoveFailed := "Failed to remove image"
  const RemoveThrew := "Error removing image. Please try again."
  const SaveDone := "Profile updated successfully!"
  const SaveFailed := "Failed to update profile. Please try again."
  const SaveThrew := "Error updating profile. Please try again."
  const ValidationError := "Validation error"

  /** The form after a successful save: the server's fields, '' where missing. */
  function SavedForm(r: SaveReply): (f: ProfileForm)
    ensures f.name == OrElse(r.name, "") && f.email == OrElse(r.email, "")
    ensures f.phone_number == OrElse(r.phone_number, "") && f.DOB == OrElse(r.DOB, "")
    ensures f.image_url == OrElse(r.image_url, "")
  {
    ProfileForm(OrElse(r.name, ""), OrElse(r.email, ""), OrElse(r.phone_number, ""), OrElse(r.DOB, ""), OrElse(r.image_url, ""))
  }

  /** `err.msg || err.message || 'Validation error'`. */
  function ValidationText(item: DetailItem): (r: string)
    ensures r != ""
    ensures Truthy(item.msg) ==> r == item.msg.value
    ensures !Truthy(item.msg) && !Truthy(item.message) ==> r == ValidationError
  {
    OrElse(item.msg, OrElse(item.message, ValidationError))
  }

  function ValidationTexts(items: seq<DetailItem>): (r: seq<string>)
    ensures |r| == |items| && forall i :: 0 <= i < |items| ==> r[i] == ValidationText(items[i])
  {
    seq(|items|, i requires 0 <= i < |items| => ValidationText(items[i]))
  }

  /** A join of several parts starts with the first. */
  lemma JoinStartsWithFirst(parts: seq<string>, sep: string)
    ensures |parts| >= 1 ==> parts[0] <= Join(parts, sep)
  {
    if |parts| > 1 {
      assert Join(parts, sep) == parts[0] + (sep + Join(parts[1..], sep));
    }
  }

  /** The error a failed save shows: the validation messages joined by ", " for
      a list detail, the text of a non-empty text detail, and the default
      otherwise. Only an empty list gives an empty message. */
  function SaveErrorText(detail: Detail): (r: string)
    ensures detail.ListDetail? && |detail.items| >= 1 ==> ValidationText(detail.items[0]) <= r
    ensures detail.ListDetail? && |detail.items| == 1 ==> r == ValidationText(detail.items[0])
    ensures detail.ListDetail? ==> r == Join(ValidationTexts(detail.items), ", ")
    ensures detail.TextDetail? && detail.text != "" ==> r == detail.text
    ensures !DetailTruthy(detail) ==> r == SaveFailed
    ensures r == "" <==> detail == ListDetail([])
  {
    match detail
    case ListDetail(items) =>
      var texts := ValidationTexts(items);
      JoinStartsWithFirst(texts, ", ");
      Join(texts, ", ")
    case TextDetail(t) => if t != "" then t else SaveFailed
    case NoDetail => SaveFailed
  }

  /** The page's initials: the first letters of the first two space-separated
      parts, or the first letter of the name, or "U" for an empty name. */
  function ProfileInitials(name: string): (r: string)
    ensures r == Initials.Initials(name, "U")
    ensures name == "" ==> r == "U"
    ensures |r| <= 2 || r == "U"
  {
    Initials.Initials(name, "U")
  }

  /** The profile page's state. */
  class Page {
    var user: Option<User>
    var isEditing: bool
    var isSaving: bool
    var successMessage: string
    var error: string
    var uploadingImage: bool
    var formData: ProfileForm

    constructor (user: Option<User>)
      ensures this.user == user && formData == FormOf(user)
      ensures !isEditing && !isSaving && !uploadingImage && successMessage == "" && error == ""
    {
      this.user := user;
      isEditing := false;
      isSaving := false;
      successMessage := "";
      error := "";
      uploadingImage := false;
      formData := FormOf(user);
    }

    /** The "Edit Profile" button. */
    method StartEditing()
      modifies this`isEditing
      ensures isEditing
    {
      isEditing := true;
    }

    /** `handleChange`: only the named field changes. */
    method HandleChange(field: Field, value: string)
      modifies this`formData
      ensures formData == SetField(old(formData), field, value)
    {
      formData := SetField(formData, field, value);
    }

    /** `handleCancel`: the form is reset from the signed-in user, edit mode
        ends and the error is cleared. */
    method HandleCancel()
      modifies this`formData, this`isEditing, this`error
      ensures formData == FormOf(user) && !isEditing && error == ""
    {
      formData := FormOf(user);
      isEditing := false;
      error := "";
    }

    /** A new image URL, or "" after a removal, goes into the form and into the
        signed-in user. */
    method SetImage(url: string)
      modifies this`formData, this`user
      ensures formData == old(formData).(image_url := url)
      ensures user == (if old(user).Some? then Some(old(user).value.(image_url := url)) else None)
    {
      formData := formData.(image_url := url);
      if user.Some? {
        user := Some(user.value.(image_url := url));
      }
    }

    /** `handleImageUpload`. Without a chosen file nothing happens. Otherwise a
        reply that is ok and successful sets the new image; any other reply
        shows its detail or the default; an exception shows the retry message.
        The uploading flag is clear afterwards in every case. */
    method HandleImageUpload(hasFile: bool, call: Call<ImageReply>)
      modifies this`formData, this`user, this`successMessage, this`error, this`uploadingImage
      ensures !hasFile ==>
        formData == old(formData) && user == old(user) && successMessage == old(successMessage) &&
        error == old(error) && uploadingImage == old(uploadingImage)
      ensures hasFile ==> !uploadingImage
      ensures hasFile && call.Replied? && call.reply.ok && call.reply.success ==>
        formData == old(formData).(image_url := call.reply.image_url) && successMessage == UploadDone && error == ""
      ensures hasFile && call.Replied? && call.reply.ok && call.reply.success ==>
        user == (if old(user).Some? then Some(old(user).value.(image_url := call.reply.image_url)) else None)
      ensures hasFile && call.Replied? && !(call.reply.ok && call.reply.success) ==>
        formData == old(formData) && user == old(user) && successMessage == old(successMessage) && error == OrElse(call.reply.detail, UploadFailed)
      ensures hasFile && call.Threw? ==>
        formData == old(formData) && user == old(user) && successMessage == old(successMessage) && error == UploadThrew
    {
      if !hasFile {
        return;
      }
      uploadingImage := true;
      error := "";
      match call {
        case Threw =>
          error := UploadThrew;
        case Replied(r) =>
          if r.ok && r.success {
            SetImage(r.image_url);
            successMessage := UploadDone;
          } else {
            error := OrElse(r.detail, UploadFailed);
          }
      }
      uploadingImage := false;
    }

    /** `handleRemoveImage`: as the upload, with the image set to "". */
    method HandleRemoveImage(call: Call<ImageReply>)
      modifies this`formData, this`user, this`successMessage, this`error, this`uploadingImage
      ensures !uploadingImage
      ensures call.Replied? && call.reply.ok && call.reply.success ==>
        formData == old(formData).(image_url := "") && successMessage == RemoveDone && error == ""
      ensures call.Replied? && call.reply.ok && call.reply.success ==>
        user == (if old(user).Some? then Some(old(user).value.(image_url := "")) else None)
      ensures call.Replied? && !(call.reply.ok && call.reply.success) ==>
        formData == old(formData) && user == old(user) && successMessage == old(successMessage) && error == OrElse(call.reply.detail, RemoveFailed)
      ensures call.Threw? ==>
        formData == old(formData) && user == old(user) && successMessage == old(successMessage) && error == RemoveThrew
    {
      uploadingImage := true;
      error := "";
      match call {
        case Threw =>
          error := RemoveThrew;
        case Replied(r) =>
          if r.ok && r.success {
            SetImage("");
            successMessage := RemoveDone;
          } else {
            error := OrElse(r.detail, RemoveFailed);
          }
      }
      uploadingImage := false;
    }

    /** `handleSave`: sends the whole form. An ok reply leaves edit mode and
        replaces the form with the server's fields; the signed-in user is not
        updated. A failed reply shows the save error; an exception shows the
        retry message. The saving flag is clear afterwards in every case. */
    method HandleSave(call: Call<SaveReply>) returns (sent: ProfileForm)
      modifies this`isSaving, this`error, this`isEditing, this`successMessage, this`formData
      ensures sent == old(formData) && !isSaving
      ensures call.Replied? && call.reply.ok ==>
        !isEditing && successMessage == SaveDone && formData == SavedForm(call.reply) && error == ""
      ensures call.Replied? && !call.reply.ok ==>
        isEditing == old(isEditing) && successMessage == old(successMessage) && formData == old(formData)
        && error == SaveErrorText(call.reply.detail)
      ensures call.Threw? ==>
        isEditing == old(isEditing) && successMessage == old(successMessage) && formData == old(formData) && error == SaveThrew
    {
      isSaving := true;
      error := "";
      sent := formData;
      match call {
        case Threw =>
          error := SaveThrew;
        case Replied(r) =>
          if r.ok {
            isEditing := false;
            successMessage := SaveDone;
            formData := SavedForm(r);
          } else {
            error := SaveErrorText(r.detail);
          }
      }
      isSaving := false;
    }
  }
}
