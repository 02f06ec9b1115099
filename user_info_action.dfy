/** The server action `updateUserInfo` of
    week4/refactoring/features/actions/user.ts. */
module UserInfoAction {
  import opened Js
  import opened Zod
  import opened UserInfoSchema

  /** The submitted form's text fields. */
  type FormData = map<string, string>

  /** `formData.get(name)?.toString() || ""` */
  function FieldOf(form: FormData, name: string): (v: string)
    ensures name !in form ==> v == ""
    ensures name in form ==> v == form[name]
  {
    if name in form then form[name] else ""
  }

  /** What `userApi.updateUser` may throw: an `Error` with its message, or
      some other value. */
  datatype ApiThrow = ErrorObject(message: string) | NonError

  /** What reaches the `catch`: the `ZodError` of `parse`, or the API's. */
  datatype Thrown = ZodThrown(issues: seq<Issue>) | ApiThrown(thrown: ApiThrow)

  /** The returned `message`. A `ZodError`'s own `message` is its issue
      list serialised as JSON, kept here as the list; `NoMessage` is
      `undefined`. */
  datatype Message = Text(text: string) | IssuesJson(issues: seq<Issue>) | NoMessage

  const SavedMessage := "사용자 정보가 성공적으로 업데이트되었습니다!"
  const UnknownError := "알 수 없는 오류가 발생했습니다."

  /** The data the action builds from the form. */
  function FormInfo(form: FormData): UserInfo {
    UserInfo(FieldOf(form, "username"), FieldOf(form, "email"), Some(FieldOf(form, "password")))
  }

  /** The `try` block: parse, then call the API only with parsed data;
      `None` when both went through. */
  function Attempt(isEmail: string -> bool, form: FormData, apiThrows: Option<ApiThrow>): (r: Option<Thrown>)
    ensures ParseUserInfo(isEmail, FormInfo(form)).ZodError? ==> r == Some(ZodThrown(UserInfoIssues(isEmail, FormInfo(form))))
    ensures ParseUserInfo(isEmail, FormInfo(form)).Parsed? ==> r == if apiThrows.Some? then Some(ApiThrown(apiThrows.value)) else None
  {
    match ParseUserInfo(isEmail, FormInfo(form))
    case ZodError(issues) => Some(ZodThrown(issues))
    case Parsed(_) => if apiThrows.Some? then Some(ApiThrown(apiThrows.value)) else None
  }

  /** The `catch` as written: a `ZodError` is an `Error`, so the first
      branch takes it and the `ZodError` branch is never reached. */
  function CatchAsWritten(thrown: Thrown): (m: Message)
    ensures thrown.ZodThrown? ==> m == IssuesJson(thrown.issues)
    ensures thrown == ApiThrown(NonError) ==> m == Text(UnknownError)
  {
    match thrown
    case ZodThrown(issues) => IssuesJson(issues)
    case ApiThrown(ErrorObject(message)) => Text(message)
    case ApiThrown(NonError) => Text(UnknownError)
  }

  /** The `catch` as evidently meant: a validation failure reports its
      first issue's message. */
  function Catch(thrown: Thrown): (m: Message)
    ensures thrown.ZodThrown? && thrown.issues != [] ==> m == Text(thrown.issues[0].message)
    ensures thrown.ApiThrown? ==> m == CatchAsWritten(thrown)
  {
    match thrown
    case ZodThrown(issues) => if issues == [] then NoMessage else Text(issues[0].message)
    case ApiThrown(ErrorObject(message)) => Text(message)
    case ApiThrown(NonError) => Text(UnknownError)
  }

  /** `updateUserInfo(prevState, formData)` as written. */
  function UpdateUserInfoAsWritten(prevState: Option<string>, isEmail: string -> bool, form: FormData,
                                   apiThrows: Option<ApiThrow>): (m: Message)
    ensures m != NoMessage
    ensures m.IssuesJson? <==> UserInfoIssues(isEmail, FormInfo(form)) != []
  {
    match Attempt(isEmail, form, apiThrows)
    case None => Text(SavedMessage)
    case Some(thrown) => CatchAsWritten(thrown)
  }

  /** `updateUserInfo(prevState, formData)` with the corrected `catch`. */
  function UpdateUserInfo(prevState: Option<string>, isEmail: string -> bool, form: FormData,
                          apiThrows: Option<ApiThrow>): (m: Message)
    ensures m.Text?
  {
    match Attempt(isEmail, form, apiThrows)
    case None => Text(SavedMessage)
    case Some(thrown) => Catch(thrown)
  }

  /** The action as written: it ignores `prevState`; an invalid form gets
      the serialised list of all its issues and never reaches the API; a
      valid form with a quiet API gets the saved message; an API `Error`
      gets its own message and anything else the unknown-error text. */
  lemma UpdateUserInfoAsWrittenOutcome(prevState: Option<string>, other: Option<string>, isEmail: string -> bool,
                                       form: FormData, apiThrows: Option<ApiThrow>)
    ensures UpdateUserInfoAsWritten(prevState, isEmail, form, apiThrows) == UpdateUserInfoAsWritten(other, isEmail, form, apiThrows)
    ensures var issues := UserInfoIssues(isEmail, FormInfo(form));
      var m := UpdateUserInfoAsWritten(prevState, isEmail, form, apiThrows);
      && (issues != [] ==> m == IssuesJson(issues))
      && (issues == [] && apiThrows.None? ==> m == Text(SavedMessage))
      && (issues == [] && apiThrows.Some? && apiThrows.value.ErrorObject? ==> m == Text(apiThrows.value.message))
      && (issues == [] && apiThrows == Some(NonError) ==> m == Text(UnknownError))
  {
  }

  /** The corrected action always returns a message and ignores `prevState`: a valid form with a quiet API gets the saved message; an
      invalid form gets its first issue whatever the API would have done,
      because the API is not called; an API error gets its own message. */
  lemma UpdateUserInfoOutcome(prevState: Option<string>, other: Option<string>, isEmail: string -> bool,
                              form: FormData, apiThrows: Option<ApiThrow>)
    ensures UpdateUserInfo(prevState, isEmail, form, apiThrows) == UpdateUserInfo(other, isEmail, form, apiThrows)
    ensures var issues := UserInfoIssues(isEmail, FormInfo(form));
      && (issues == [] && apiThrows.None? ==> UpdateUserInfo(prevState, isEmail, form, apiThrows) == Text(SavedMessage))
      && (issues != [] ==> UpdateUserInfo(prevState, isEmail, form, apiThrows) == Text(issues[0].message))
      && (issues != [] ==> UpdateUserInfo(prevState, isEmail, form, apiThrows) == UpdateUserInfo(prevState, isEmail, form, None))
      && (issues == [] && apiThrows == Some(NonError) ==> UpdateUserInfo(prevState, isEmail, form, apiThrows) == Text(UnknownError))
  {
  }

  /** A form without fields reads as empty strings: the username check
      fails first. */
  lemma EmptyForm(isEmail: string -> bool)
    ensures FormInfo(map[]) == UserInfo("", "", Some(""))
    ensures UpdateUserInfo(None, isEmail, map[], None) == Text("사용자 이름을 입력해주세요.")
  {
  }

  /** As written, an empty username comes back as the whole serialised
      issue list instead of its message. */
  lemma AsWrittenReturnsIssueList(isEmail: string -> bool, email: string)
    requires isEmail(email)
    ensures var form := map["username" := "", "email" := email];
      && UpdateUserInfoAsWritten(None, isEmail, form, None) == IssuesJson([Issue(["username"], "사용자 이름을 입력해주세요.")])
      && UpdateUserInfo(None, isEmail, form, None) == Text("사용자 이름을 입력해주세요.")
  {
    var form := map["username" := "", "email" := email];
    assert FormInfo(form) == UserInfo("", email, Some(""));
  }
}
