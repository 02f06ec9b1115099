/** The profile form of week4/assignment.tsx: its three pieces of state,
    the handlers that change them, and the checks `handleSubmit` runs in
    order. */
module Assignment {
  import opened Js
  import UserInfoSchema

  /** `UserInfo` */
  datatype UserInfo = UserInfo(username: string, email: string, password: string)

  /** The `name` of the input that changed. */
  datatype Field = Username | Email | Password

  const Defaults := UserInfo("홍길동", "hong@example.com", "")

  const UsernameMessage := "사용자 이름을 입력해주세요."
  const EmailMessage := "올바른 이메일을 입력해주세요."
  const PasswordMessage := "비밀번호는 최소 6자 이상이어야 합니다."
  const SavedMessage := "사용자 정보가 성공적으로 업데이트되었습니다!"

  /** The message of the first check that fails, or none. */
  function Validate(info: UserInfo): (r: Option<string>)
    ensures AllSpace(info.username) ==> r == Some(UsernameMessage)
    ensures !AllSpace(info.username) && (AllSpace(info.email) || '@' !in info.email) ==> r == Some(EmailMessage)
    ensures (&& !AllSpace(info.username) && !AllSpace(info.email) && '@' in info.email
             && 0 < |info.password| < 6)
            ==> r == Some(PasswordMessage)
    ensures r.None? <==> && !AllSpace(info.username) && !AllSpace(info.email) && '@' in info.email
                         && (info.password == "" || |info.password| >= 6)
  {
    TrimEmptyIff(info.username);
    TrimEmptyIff(info.email);
    if Trim(info.username) == "" then Some(UsernameMessage)
    else if Trim(info.email) == "" || '@' !in info.email then Some(EmailMessage)
    else if |info.password| > 0 && |info.password| < 6 then Some(PasswordMessage)
    else None
  }

  /** `{ ...prev, [name]: value }` */
  function WithField(info: UserInfo, field: Field, value: string): (r: UserInfo)
    ensures field == Username ==> r == info.(username := value)
    ensures field == Email ==> r == info.(email := value)
    ensures field == Password ==> r == info.(password := value)
  {
    match field
    case Username => info.(username := value)
    case Email => info.(email := value)
    case Password => info.(password := value)
  }

  class UserProfileForm {
    var userInfo: UserInfo
    var isEditing: bool
    var message: string

    constructor ()
      ensures userInfo == Defaults && !isEditing && message == ""
    {
      userInfo := Defaults;
      isEditing := false;
      message := "";
    }

    /** `handleInputChange`: only the named field changes. */
    method HandleInputChange(field: Field, value: string)
      modifies this
      ensures userInfo == WithField(old(userInfo), field, value)
      ensures isEditing == old(isEditing) && message == old(message)
    {
      userInfo := WithField(userInfo, field, value);
    }

    /** `handleSubmit`: a failed check only sets its message; passing all
        of them sets the saved message and leaves editing. */
    method HandleSubmit()
      modifies this
      ensures userInfo == old(userInfo)
      ensures Validate(userInfo).Some? ==> message == Validate(userInfo).value && isEditing == old(isEditing)
      ensures Validate(userInfo).None? ==> message == SavedMessage && !isEditing
    {
      var problem := Validate(userInfo);
      if problem.Some? {
        message := problem.value;
        return;
      }
      message := SavedMessage;
      isEditing := false;
    }

    /** The timer `handleSubmit` starts: clears the message. */
    method ClearMessage()
      modifies this
      ensures message == "" && userInfo == old(userInfo) && isEditing == old(isEditing)
    {
      message := "";
    }

    /** `handleCancel`: back to the defaults, out of editing, no message. */
    method HandleCancel()
      modifies this
      ensures userInfo == Defaults && !isEditing && message == ""
    {
      userInfo := Defaults;
      isEditing := false;
      message := "";
    }

    /** The edit button. */
    method HandleEdit()
      modifies this
      ensures isEditing && userInfo == old(userInfo) && message == old(message)
    {
      isEditing := true;
    }
  }

  /** The defaults pass every check. */
  lemma DefaultsValid()
    ensures Validate(Defaults) == None
  {
    assert '@' == Defaults.email[4];
    assert !IsSpace(Defaults.username[0]);
    assert !IsSpace(Defaults.email[0]);
  }

  /** What the form accepts, the week-4 schema accepts too (given an email
      check that accepts the address), but not the other way round: the
      schema does not trim the username. */
  lemma FormStricterThanSchema(isEmail: string -> bool, info: UserInfo)
    requires isEmail(info.email)
    ensures Validate(info).None? ==>
              UserInfoSchema.ParseUserInfo(isEmail, UserInfoSchema.UserInfo(info.username, info.email, Some(info.password))).Parsed?
    ensures AllSpace(info.username) && info.username != "" ==>
              && Validate(info) == Some(UsernameMessage)
              && UserInfoSchema.ParseUserInfo(isEmail, UserInfoSchema.UserInfo(info.username, info.email, Some(info.password))).Parsed?
                 == UserInfoSchema.PasswordRule(Some(info.password))
  {
  }
}
