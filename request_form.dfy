/** The help-request form: its fields, per-field error messages, validation,
    error clearing on input, and the submit step that hands the request on
    and resets the form. */
module RequestForm {
  import opened Common
  import opened AppState

  /** The form's fields, which are also the keys of its error record. */
  datatype Field = Title | Description | Category | Urgency | LocationField | ContactInfo | RequesterName

  /** The form contents; `location` is `null` until a point is picked. */
  datatype FormData = FormData(
    title: string,
    description: string,
    category: string,
    urgency: string,
    location: Option<Location>,
    contactInfo: string,
    requesterName: string)

  const InitialForm: FormData := FormData("", "", "food", "medium", None, "", "")

  /** The messages the form shows under a field; `Cleared` is the empty
      message an entry is set to once the user edits the field. */
  datatype Message =
    | TitleRequired | TitleTooShort | DescriptionRequired | DescriptionTooShort
    | LocationRequired | NameRequired | ContactRequired | Cleared

  /** The text shown for a message. */
  function Text(m: Message): (t: string)
    ensures t == "" <==> m == Cleared
  {
    match m
    case TitleRequired => "Title is required"
    case TitleTooShort => "Title must be at least 10 characters"
    case DescriptionRequired => "Description is required"
    case DescriptionTooShort => "Description must be at least 20 characters"
    case LocationRequired => "Please select a location on the map"
    case NameRequired => "Your name is required"
    case ContactRequired => "Contact information is required"
    case Cleared => ""
  }

  /** `errors[name]`, with a missing key read like the empty message: both
      are falsy and show nothing. */
  function ErrorOf(errors: map<Field, Message>, f: Field): Message
  {
    if f in errors then errors[f] else Cleared
  }

  /** `newErrors[name]` as built by `validateForm`, if set. */
  function Entry(errors: map<Field, Message>, f: Field): Option<Message>
  {
    if f in errors then Some(errors[f]) else None
  }

  /** The title's message: required when blank after trimming, otherwise
      too short when the untrimmed text has fewer than 10 characters. */
  function TitleError(title: string): Option<Message>
  {
    if Blank(title) then Some(TitleRequired) else if |title| < 10 then Some(TitleTooShort) else None
  }

  /** The description's message, by the same rule with a minimum of 20. */
  function DescriptionError(description: string): Option<Message>
  {
    if Blank(description) then Some(DescriptionRequired)
    else if |description| < 20 then Some(DescriptionTooShort)
    else None
  }

  /** The location's message: required while none is picked. */
  function LocationError(location: Option<Location>): Option<Message>
  {
    if location.None? then Some(LocationRequired) else None
  }

  /** The message of a field that must not be blank after trimming. */
  function RequiredError(text: string, message: Message): Option<Message>
  {
    if Blank(text) then Some(message) else None
  }

  /** Records the message for `f`, if there is one. */
  function AddError(m: map<Field, Message>, f: Field, message: Option<Message>): map<Field, Message>
  {
    if message.Some? then m[f := message.value] else m
  }

  /** The `newErrors` record `validateForm` builds, one check after another. */
  function ValidationErrors(form: FormData): map<Field, Message>
  {
    var afterTitle := AddError(map[], Title, TitleError(form.title));
    var afterDescription := AddError(afterTitle, Description, DescriptionError(form.description));
    var afterLocation := AddError(afterDescription, LocationField, LocationError(form.location));
    var afterName := AddError(afterLocation, RequesterName, RequiredError(form.requesterName, NameRequired));
    AddError(afterName, ContactInfo, RequiredError(form.contactInfo, ContactRequired))
  }

  /** Adding one message touches only its own field. */
  lemma AddErrorEntries(m: map<Field, Message>, f: Field, message: Option<Message>)
    ensures var m' := AddError(m, f, message);
      && Entry(m', f) == (if message.Some? then message else Entry(m, f))
      && (forall g :: g != f ==> Entry(m', g) == Entry(m, g))
  {
  }

  /** Each field's entry is exactly its own check's message: a blank title
      or description is reported as required even when it is long enough,
      and only non-blank text is checked for length. Category and urgency
      never carry an error. */
  lemma FieldMessages(form: FormData)
    ensures var m := ValidationErrors(form);
      && Entry(m, Title) == TitleError(form.title)
      && Entry(m, Description) == DescriptionError(form.description)
      && Entry(m, LocationField) == LocationError(form.location)
      && Entry(m, RequesterName) == RequiredError(form.requesterName, NameRequired)
      && Entry(m, ContactInfo) == RequiredError(form.contactInfo, ContactRequired)
      && Category !in m && Urgency !in m
  {
    var afterTitle := AddError(map[], Title, TitleError(form.title));
    AddErrorEntries(map[], Title, TitleError(form.title));
    var afterDescription := AddError(afterTitle, Description, DescriptionError(form.description));
    AddErrorEntries(afterTitle, Description, DescriptionError(form.description));
    var afterLocation := AddError(afterDescription, LocationField, LocationError(form.location));
    AddErrorEntries(afterDescription, LocationField, LocationError(form.location));
    var afterName := AddError(afterLocation, RequesterName, RequiredError(form.requesterName, NameRequired));
    AddErrorEntries(afterLocation, RequesterName, RequiredError(form.requesterName, NameRequired));
    AddErrorEntries(afterName, ContactInfo, RequiredError(form.contactInfo, ContactRequired));
  }

  /** The form is valid exactly when the title is not blank and has at least
      10 characters, the description is not blank and has at least 20, a
      location is picked, and neither the name nor the contact is blank.
      The length checks count the untrimmed text. */
  lemma ValidExactly(form: FormData)
    ensures ValidationErrors(form) == map[] <==>
      && !Blank(form.title) && |form.title| >= 10
      && !Blank(form.description) && |form.description| >= 20
      && form.location.Some?
      && !Blank(form.requesterName)
      && !Blank(form.contactInfo)
  {
    var m := ValidationErrors(form);
    FieldMessages(form);
    if m != map[] {
      var f :| f in m;
      assert Entry(m, f).Some?;
    }
  }

  /** The record built one check at a time is the record `ValidationErrors`
      describes. */
  lemma ValidationErrorsSteps(form: FormData, afterTitle: map<Field, Message>, afterDescription: map<Field, Message>,
                              afterLocation: map<Field, Message>, afterName: map<Field, Message>, m: map<Field, Message>)
    requires afterTitle == AddError(map[], Title, TitleError(form.title))
    requires afterDescription == AddError(afterTitle, Description, DescriptionError(form.description))
    requires afterLocation == AddError(afterDescription, LocationField, LocationError(form.location))
    requires afterName == AddError(afterLocation, RequesterName, RequiredError(form.requesterName, NameRequired))
    requires m == AddError(afterName, ContactInfo, RequiredError(form.contactInfo, ContactRequired))
    ensures m == ValidationErrors(form)
  {
  }

  /** `Object.keys(m).length === 0` holds exactly for the empty record. */
  lemma NoKeysIsEmpty(m: map<Field, Message>)
    ensures |m.Keys| == 0 <==> m == map[]
  {
    if m != map[] {
      var k :| k in m;
      assert k in m.Keys;
    }
  }

  /** `{...prev, [name]: value}` for a text input. */
  function SetField(form: FormData, f: Field, value: string): FormData
    requires f != LocationField
  {
    match f
    case Title => form.(title := value)
    case Description => form.(description := value)
    case Category => form.(category := value)
    case Urgency => form.(urgency := value)
    case ContactInfo => form.(contactInfo := value)
    case RequesterName => form.(requesterName := value)
  }

  /** The requester role: the user's role, or `needsHelp` when it is empty. */
  function RequesterRole(role: string): (r: string)
    ensures r != ""
    ensures role != "" ==> r == role
  {
    if role != "" then role else "needsHelp"
  }

  /** `{...formData, requester: {name: formData.requesterName, role}}`, as a
      request record for `addHelpRequest` (which sets id, time, volunteers
      and status). Only called on a valid form, which has a location. */
  function RequestData(form: FormData, userRole: string): (r: HelpRequest)
    requires form.location.Some?
    ensures r.requester == Requester(form.requesterName, RequesterRole(userRole))
    ensures r.title == form.title && r.description == form.description && r.location == form.location.value
    ensures r.category == form.category && r.urgency == form.urgency && r.contactInfo == form.contactInfo
  {
    HelpRequest("", form.title, form.description, form.category, form.urgency, "",
      form.location.value, Requester(form.requesterName, RequesterRole(userRole)), [], 0, form.contactInfo)
  }

  /** The form after a successful submit: empty text, `food`, `medium`, no
      location, and the user's email and name (or empty). */
  function ResetForm(u: User): (f: FormData)
    ensures f.title == "" && f.description == "" && f.category == "food" && f.urgency == "medium"
    ensures f.location.None?
    ensures f.contactInfo == u.email && f.requesterName == u.name
  {
    FormData("", "", "food", "medium", None, u.email, u.name)
  }

  class HelpRequestForm {
    var formData: FormData
    var errors: map<Field, Message>

    constructor()
      ensures formData == InitialForm && errors == map[]
    {
      formData := InitialForm;
      errors := map[];
    }

    /** `handleInputChange`: stores the value and, when the field had an
        error, clears that error (to the empty message); no other error changes. */
    method HandleInputChange(f: Field, value: string)
      requires f != LocationField
      modifies this
      ensures formData == SetField(old(formData), f, value)
      ensures ErrorOf(errors, f) == Cleared
      ensures forall g :: g != f ==> ErrorOf(errors, g) == ErrorOf(old(errors), g)
      ensures errors.Keys == old(errors).Keys
    {
      formData := SetField(formData, f, value);
      if ErrorOf(errors, f) != Cleared {
        errors := errors[f := Cleared];
      }
    }

    /** `handleLocationSelect`: stores the location and clears its error. */
    method HandleLocationSelect(location: Location)
      modifies this
      ensures formData == old(formData).(location := Some(location))
      ensures ErrorOf(errors, LocationField) == Cleared
      ensures forall g :: g != LocationField ==> ErrorOf(errors, g) == ErrorOf(old(errors), g)
    {
      formData := formData.(location := Some(location));
      if ErrorOf(errors, LocationField) != Cleared {
        errors := errors[LocationField := Cleared];
      }
    }

    /** `validateForm`: checks the fields in order, records each failed
        check's message under its field, stores the record and reports
        whether it is empty. */
    method ValidateForm() returns (valid: bool)
      modifies this
      ensures formData == old(formData)
      ensures errors == ValidationErrors(formData)
      ensures valid <==> errors == map[]
    {
      var form := formData;
      var newErrors: map<Field, Message> := map[];
      var message: Option<Message> := None;
      if TrimsToEmpty(form.title) {
        message := Some(TitleRequired);
      } else if |form.title| < 10 {
        message := Some(TitleTooShort);
      }
      assert message == TitleError(form.title);
      newErrors := AddError(newErrors, Title, message);
      ghost var afterTitle := newErrors;
      message := None;
      if TrimsToEmpty(form.description) {
        message := Some(DescriptionRequired);
      } else if |form.description| < 20 {
        message := Some(DescriptionTooShort);
      }
      assert message == DescriptionError(form.description);
      newErrors := AddError(newErrors, Description, message);
      ghost var afterDescription := newErrors;
      message := None;
      if form.location.None? {
        message := Some(LocationRequired);
      }
      assert message == LocationError(form.location);
      newErrors := AddError(newErrors, LocationField, message);
      ghost var afterLocation := newErrors;
      message := None;
      if TrimsToEmpty(form.requesterName) {
        message := Some(NameRequired);
      }
      assert message == RequiredError(form.requesterName, NameRequired);
      newErrors := AddError(newErrors, RequesterName, message);
      ghost var afterName := newErrors;
      message := None;
      if TrimsToEmpty(form.contactInfo) {
        message := Some(ContactRequired);
      }
      assert message == RequiredError(form.contactInfo, ContactRequired);
      newErrors := AddError(newErrors, ContactInfo, message);
      ValidationErrorsSteps(form, afterTitle, afterDescription, afterLocation, afterName, newErrors);
      errors := newErrors;
      NoKeysIsEmpty(newErrors);
      valid := |newErrors.Keys| == 0;
    }

    /** `handleSubmit`. An invalid form only records its errors. A valid form
        builds the request data and hands it to the caller's `onSubmit` when
        there is one (`hasOnSubmit`), or else to `addHelpRequest`, and then
        resets the form from the signed-in user. The request data handed on
        is returned. */
    method HandleSubmit(store: AppStore, hasOnSubmit: bool, requestId: string, notificationId: string, now: int)
      returns (sent: Option<HelpRequest>)
      modifies this, store
      ensures errors == ValidationErrors(old(formData))
      ensures sent.None? <==> ValidationErrors(old(formData)) != map[]
      ensures sent.None? ==> formData == old(formData) && store.state == old(store.state)
      ensures sent.Some? ==>
        && old(formData).location.Some?
        && sent.value == RequestData(old(formData), old(store.state.user.role))
        && formData == ResetForm(old(store.state.user))
        && store.state.user == old(store.state.user)
        && store.state.filters == old(store.state.filters)
        && (hasOnSubmit ==> store.state == old(store.state))
        && (!hasOnSubmit ==>
              && store.state.helpRequests == old(store.state.helpRequests) + [NewHelpRequest(sent.value, requestId, now)]
              && store.state.notifications == old(store.state.notifications)
                + [WithNotificationId(Notification(notificationId, "success", RequestCreatedMessage, Some(now)), notificationId)])
    {
      var valid := ValidateForm();
      if !valid {
        return None;
      }
      ValidExactly(formData);
      var requestData := RequestData(formData, store.state.user.role);
      if !hasOnSubmit {
        store.AddHelpRequest(requestData, requestId, notificationId, now);
      }
      formData := ResetForm(store.state.user);
      sent := Some(requestData);
    }
  }
}
