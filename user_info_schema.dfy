/** `userInfoSchema` of week4/refactoring/features/validators/userSchema.ts. */
module UserInfoSchema {
  import opened Js
  import opened Zod
  import ProfileSchema

  datatype UserInfo = UserInfo(username: string, email: string, password: Option<string>)

  /** `(pw) => !pw || pw.length >= 6` */
  predicate PasswordRule(password: Option<string>) {
    !TruthyText(password) || |password.value| >= 6
  }

  /** The issues of `userInfoSchema`, in field order; the password refine
      belongs to the field itself. */
  function UserInfoIssues(isEmail: string -> bool, info: UserInfo): (r: seq<Issue>)
    ensures r == [] <==> |info.username| >= 1 && isEmail(info.email) && PasswordRule(info.password)
    ensures (Issue(["password"], "비밀번호는 6자 이상이어야 합니다.") in r)
            <==> info.password.Some? && 0 < |info.password.value| < 6
  {
    Check(|info.username| >= 1, "username", "사용자 이름을 입력해주세요.")
    + Check(isEmail(info.email), "email", "올바른 이메일을 입력해주세요.")
    + Check(PasswordRule(info.password), "password", "비밀번호는 6자 이상이어야 합니다.")
  }

  function ParseUserInfo(isEmail: string -> bool, info: UserInfo): Parsed<UserInfo> {
    Parse(info, UserInfoIssues(isEmail, info))
  }

  /** The week-4 password rule and the week-5 refine accept exactly the
      same passwords: absent, empty, or at least 6 characters. */
  lemma PasswordRulesAgree(password: Option<string>)
    ensures PasswordRule(password) <==> ProfileSchema.PasswordRefine(password)
    ensures PasswordRule(password) <==> password.None? || password.value == "" || |password.value| >= 6
  {
  }

  /** Hence the two schemas accept the same inputs; only the password
      message differs. */
  lemma SchemasAgree(isEmail: string -> bool, username: string, email: string, password: Option<string>)
    ensures ParseUserInfo(isEmail, UserInfo(username, email, password)).Parsed?
            <==> ProfileSchema.ParseProfile(isEmail, ProfileSchema.ProfileInput(username, email, password)).Parsed?
  {
    PasswordRulesAgree(password);
  }
}
