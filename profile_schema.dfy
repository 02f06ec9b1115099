/** `UserDBSchema` and `UserProfileUpdateSchema` of
    week5/refactoring/features/user/validators/userSchema.ts. zod's
    `email()` and `uuid()` checks are passed in as predicates. */
module ProfileSchema {
  import opened Js
  import opened Zod

  /** `UserProfileUpdateInput`: the password may be omitted. */
  datatype ProfileInput = ProfileInput(username: string, email: string, password: Option<string>)

  /** The refine: fails when the password is present, truthy, non-empty
      and shorter than 6. */
  predicate PasswordRefine(password: Option<string>) {
    !(TruthyText(password) && |password.value| > 0 && |password.value| < 6)
  }

  /** The issues of `UserProfileUpdateSchema`: the field checks in field
      order, then the refine, whose issue is attached to `password`. The
      field checks leave the object dirty, not aborted, so the refine runs
      even when one of them failed. */
  function ProfileIssues(isEmail: string -> bool, input: ProfileInput): (r: seq<Issue>)
    ensures |r| <= 3
    ensures r == [] <==> |input.username| >= 1 && isEmail(input.email) && PasswordRefine(input.password)
    ensures (Issue(["password"], "비밀번호는 최소 6자 이상이어야 합니다.") in r)
            <==> input.password.Some? && 0 < |input.password.value| < 6
    ensures |input.username| < 1 ==> r[0] == Issue(["username"], "사용자 이름을 입력해주세요.")
  {
    Check(|input.username| >= 1, "username", "사용자 이름을 입력해주세요.")
    + Check(isEmail(input.email), "email", "올바른 이메일을 입력해주세요.")
    + Check(PasswordRefine(input.password), "password", "비밀번호는 최소 6자 이상이어야 합니다.")
  }

  function ParseProfile(isEmail: string -> bool, input: ProfileInput): Parsed<ProfileInput> {
    Parse(input, ProfileIssues(isEmail, input))
  }

  /** What the update schema accepts: a non-empty username (not trimmed,
      so `" "` passes), a valid email, and a password that is absent,
      empty, or at least 6 characters long. */
  lemma ProfileAccepts(isEmail: string -> bool, input: ProfileInput)
    ensures ParseProfile(isEmail, input).Parsed?
            <==> && |input.username| >= 1 && isEmail(input.email)
                 && (input.password.None? || input.password.value == "" || |input.password.value| >= 6)
    ensures ParseProfile(isEmail, input).Parsed? ==> ParseProfile(isEmail, input).value == input
  {
  }

  /** `UserDBSchema` */
  datatype UserDb = UserDb(id: string, username: string, email: string, passwordHash: string)

  function UserDbIssues(isUuid: string -> bool, isEmail: string -> bool, user: UserDb): (r: seq<Issue>)
    ensures r == [] <==> isUuid(user.id) && |user.username| >= 2 && isEmail(user.email)
    ensures |user.username| < 2 ==> Issue(["username"], "사용자 이름은 2자 이상이어야 합니다.") in r
  {
    Check(isUuid(user.id), "id", "Invalid uuid")
    + Check(|user.username| >= 2, "username", "사용자 이름은 2자 이상이어야 합니다.")
    + Check(isEmail(user.email), "email", "올바른 이메일 형식이 아닙니다.")
  }

  /** A one-character username fits the update form but not the stored
      user. */
  lemma UsernameBoundsDiffer(isUuid: string -> bool, isEmail: string -> bool, id: string, email: string, c: char)
    requires isUuid(id) && isEmail(email)
    ensures ParseProfile(isEmail, ProfileInput([c], email, None)).Parsed?
    ensures UserDbIssues(isUuid, isEmail, UserDb(id, [c], email, "")) == [Issue(["username"], "사용자 이름은 2자 이상이어야 합니다.")]
  {
  }
}
