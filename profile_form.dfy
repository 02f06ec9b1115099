/** The edit/submit state of `useUserProfileForm` in
    week5/refactoring/features/user/hooks/useUserProfileForm.ts. React
    state updates and the reset effect are explicit transitions: changing
    `isEditing` to `false` runs the effect at the next render. */
module ProfileForm {
  import opened Js
  import opened Zod
  import opened ProfileSchema
  import ProfileAction

  /** `initialData` */
  datatype InitialData = InitialData(username: string, email: string)

  /** `{ ...initialData, password: "" }` */
  function Blank(initial: InitialData): (v: ProfileInput)
    ensures v.username == initial.username && v.email == initial.email && v.password == Some("")
  {
    ProfileInput(initial.username, initial.email, Some(""))
  }

  /** The three registered inputs. */
  datatype Field = Username | Email | Password

  class ProfileFormState {
    const initialData: InitialData
    var isEditing: bool
    var serverMessage: string
    /** The form's current values. */
    var values: ProfileInput
    /** The form's default values, which `reset(v)` replaces. */
    var defaults: ProfileInput
    /** The resolver's issues from the last submit. */
    var formErrors: seq<Issue>

    /** The first render, with the effect it runs on mount. */
    constructor (initial: InitialData)
      ensures initialData == initial
      ensures !isEditing && serverMessage == ""
      ensures values == Blank(initial) && defaults == Blank(initial) && formErrors == []
    {
      initialData := initial;
      isEditing := false;
      serverMessage := "";
      values := Blank(initial);
      defaults := Blank(initial);
      formErrors := [];
    }

    /** `setIsEditing(b)`, then the effect at the next render when the
        value changed to `false`: reset to the initial data and clear the
        message. */
    method SetIsEditing(b: bool)
      modifies this
      ensures isEditing == b && formErrors == old(formErrors)
      ensures old(isEditing) && !b ==>
                values == Blank(initialData) && defaults == Blank(initialData) && serverMessage == ""
      ensures !(old(isEditing) && !b) ==>
                values == old(values) && defaults == old(defaults) && serverMessage == old(serverMessage)
    {
      if b != isEditing {
        isEditing := b;
        if !b {
          values := Blank(initialData);
          defaults := Blank(initialData);
          serverMessage := "";
        }
      }
    }

    /** `handleEdit` */
    method HandleEdit()
      modifies this
      ensures isEditing
      ensures values == old(values) && defaults == old(defaults) && serverMessage == old(serverMessage)
      ensures formErrors == old(formErrors)
    {
      SetIsEditing(true);
    }

    /** `handleCancel`: leaving edit mode resets the form through the effect. */
    method HandleCancel()
      modifies this
      ensures !isEditing && formErrors == old(formErrors)
      ensures old(isEditing) ==> values == Blank(initialData) && serverMessage == ""
      ensures !old(isEditing) ==> values == old(values) && serverMessage == old(serverMessage)
    {
      SetIsEditing(false);
    }

    /** `onSubmit(data)`: the message is set, then on success editing ends
        and the form is reset to `data`; when editing was on, the effect
        then resets it again to the initial data and clears the message. */
    method OnSubmit(data: ProfileInput)
      modifies this
      ensures !isEditing && formErrors == old(formErrors)
      ensures old(isEditing) ==> values == Blank(initialData) && defaults == Blank(initialData) && serverMessage == ""
      ensures !old(isEditing) ==> values == data && defaults == data && serverMessage == ProfileAction.SavedMessage
    {
      var payload, result := ProfileAction.UpdateUserProfile(data);
      serverMessage := result.message;
      if result.success {
        values := data;
        defaults := data;
        SetIsEditing(false);
      }
    }

    /** Typing `text` into a registered input. The fieldset is disabled
        while not editing, so only then does the value change. */
    method ChangeField(field: Field, text: string)
      modifies this
      ensures isEditing == old(isEditing) && defaults == old(defaults)
      ensures serverMessage == old(serverMessage) && formErrors == old(formErrors)
      ensures !old(isEditing) ==> values == old(values)
      ensures old(isEditing) ==> values == match field
                                          case Username => old(values).(username := text)
                                          case Email => old(values).(email := text)
                                          case Password => old(values).(password := Some(text))
    {
      if isEditing {
        match field {
          case Username => values := values.(username := text);
          case Email => values := values.(email := text);
          case Password => values := values.(password := Some(text));
        }
      }
    }

    /** `handleSubmit(onSubmit)`: the zod resolver checks the form's current
        values first, and an invalid form only records its issues. */
    method Submit(isEmail: string -> bool)
      modifies this
      ensures ParseProfile(isEmail, old(values)).ZodError? ==>
                && formErrors == ProfileIssues(isEmail, old(values))
                && isEditing == old(isEditing) && values == old(values) && serverMessage == old(serverMessage)
      ensures ParseProfile(isEmail, old(values)).Parsed? ==>
                && formErrors == [] && !isEditing
                && (old(isEditing) ==> values == Blank(initialData) && serverMessage == "")
                && (!old(isEditing) ==> values == old(values) && serverMessage == ProfileAction.SavedMessage)
    {
      match ParseProfile(isEmail, values)
      case ZodError(issues) =>
        formErrors := issues;
      case Parsed(value) =>
        formErrors := [];
        OnSubmit(value);
    }

    /** The message timer. */
    method ClearMessage()
      modifies this
      ensures serverMessage == ""
      ensures isEditing == old(isEditing) && values == old(values) && defaults == old(defaults)
      ensures formErrors == old(formErrors)
    {
      serverMessage := "";
    }

    /** `onSubmit(data)` as its comment means it: the saved data become the
        defaults that a later cancel returns to, and the message stays until
        its timer. */
    method OnSubmitKeepingSaved(data: ProfileInput)
      modifies this
      ensures !isEditing && formErrors == old(formErrors)
      ensures values == data && defaults == data && serverMessage == ProfileAction.SavedMessage
    {
      var payload, result := ProfileAction.UpdateUserProfile(data);
      serverMessage := result.message;
      if result.success {
        values := data;
        defaults := data;
        isEditing := false;
      }
    }

    /** Cancelling as that comment means it: back to the saved defaults. */
    method HandleCancelToSaved()
      modifies this
      ensures !isEditing && formErrors == old(formErrors) && defaults == old(defaults)
      ensures values == defaults
      ensures old(isEditing) ==> serverMessage == ""
      ensures !old(isEditing) ==> serverMessage == old(serverMessage)
    {
      if isEditing {
        isEditing := false;
        serverMessage := "";
      }
      values := defaults;
    }
  }

  /** Edit, type valid data, submit, edit again, cancel, as written: the save is
      undone at once, its message cleared, and cancelling shows the initial
      data rather than the saved data. */
  method SaveThenCancel(initial: InitialData, isEmail: string -> bool, username: string, email: string, password: string)
    returns (afterSave: ProfileInput, messageAfterSave: string, afterCancel: ProfileInput)
    requires ParseProfile(isEmail, ProfileInput(username, email, Some(password))).Parsed?
    ensures afterSave == Blank(initial) && messageAfterSave == ""
    ensures afterCancel == Blank(initial)
  {
    var form := new ProfileFormState(initial);
    form.HandleEdit();
    form.ChangeField(Username, username);
    form.ChangeField(Email, email);
    form.ChangeField(Password, password);
    assert form.values == ProfileInput(username, email, Some(password));
    form.Submit(isEmail);
    afterSave, messageAfterSave := form.values, form.serverMessage;
    form.HandleEdit();
    form.HandleCancel();
    afterCancel := form.values;
  }

  /** The same steps with the corrected save and cancel: the saved data
      stay, the message is shown, and cancelling returns to them. */
  method SaveThenCancelKeepingSaved(initial: InitialData, data: ProfileInput)
    returns (afterSave: ProfileInput, messageAfterSave: string, afterCancel: ProfileInput)
    ensures afterSave == data && messageAfterSave == ProfileAction.SavedMessage
    ensures afterCancel == data
  {
    var form := new ProfileFormState(initial);
    form.HandleEdit();
    form.OnSubmitKeepingSaved(data);
    afterSave, messageAfterSave := form.values, form.serverMessage;
    form.HandleEdit();
    form.HandleCancelToSaved();
    afterCancel := form.values;
  }
}
