/** `updateUserProfile` of week5/refactoring/features/user/actions/user.ts:
    the payload it would send and the result it returns. */
module ProfileAction {
  import opened Js
  import ProfileSchema

  datatype ActionResult = ActionResult(success: bool, message: string)

  const SavedMessage := "사용자 정보가 성공적으로 업데이트되었습니다!"

  /** Copy the input, then delete a falsy password from the copy. The
      input is a value, so the caller's data is never changed. */
  method UpdateUserProfile(data: ProfileSchema.ProfileInput) returns (payload: ProfileSchema.ProfileInput, result: ActionResult)
    ensures payload.username == data.username && payload.email == data.email
    ensures TruthyText(data.password) ==> payload.password == data.password
    ensures !TruthyText(data.password) ==> payload.password.None?
    ensures payload.password.None? || payload.password.value != ""
    ensures ProfileSchema.PasswordRefine(payload.password) == ProfileSchema.PasswordRefine(data.password)
    ensures result == ActionResult(true, SavedMessage)
  {
    payload := data;
    if !TruthyText(payload.password) {
      payload := payload.(password := None);
    }
    result := ActionResult(true, SavedMessage);
  }
}
