/**
 * The input validation of the authentication endpoints (the `RegisterSchema`
 * and `LoginSchema` objects in server.ts). String lengths are counted in
 * characters.
 */
module ServerSchema {
  import opened Types
  import opened Strings

  /** The first problem the register schema reports, checked in field order. */
  datatype RegisterIssue =
    | UsernameTooShort
    | UsernameTooLong
    | PasswordTooShort
    | RoleNotAllowed
    | PhoneMalformed

  /** A register body that passed validation; the role is now one of the four roles. */
  datatype RegisterInput = RegisterInput(
    username: string,
    password: string,
    role: UserRole,
    name: string,
    phone: string)

  /** The pattern `^1[3-9]\d{9}$`: eleven ASCII digits, a `1`, then a digit from 3 to 9. */
  predicate PhoneMatches(p: string)
  {
    |p| == 11 && p[0] == '1' && '3' <= p[1] <= '9' && AllDigits(p)
  }

  /**
   * `RegisterSchema.parse`: username of 3 to 20 characters, password of at
   * least 6, a role among the four role names, any name, and a phone number
   * matching the pattern. On failure the first issue in field order is
   * reported (a username is never both too short and too long).
   */
  function ValidateRegister(b: RegisterBody): (r: Result<RegisterInput, RegisterIssue>)
    ensures r.Ok? <==>
      3 <= |b.username| <= 20 && |b.password| >= 6 && ParseRole(b.role).Some? && PhoneMatches(b.phone)
    ensures r.Ok? ==>
      && r.value.username == b.username && r.value.password == b.password
      && RoleName(r.value.role) == b.role && r.value.name == b.name && r.value.phone == b.phone
    ensures r == Err(UsernameTooShort) <==> |b.username| < 3
    ensures r == Err(UsernameTooLong) <==> |b.username| > 20
    ensures r == Err(PasswordTooShort) <==> 3 <= |b.username| <= 20 && |b.password| < 6
    ensures r == Err(RoleNotAllowed) <==>
      3 <= |b.username| <= 20 && |b.password| >= 6 && ParseRole(b.role).None?
    ensures r == Err(PhoneMalformed) <==>
      3 <= |b.username| <= 20 && |b.password| >= 6 && ParseRole(b.role).Some? && !PhoneMatches(b.phone)
  {
    if |b.username| < 3 then Err(UsernameTooShort)
    else if |b.username| > 20 then Err(UsernameTooLong)
    else if |b.password| < 6 then Err(PasswordTooShort)
    else match ParseRole(b.role)
      case None => Err(RoleNotAllowed)
      case Some(role) =>
        if !PhoneMatches(b.phone) then Err(PhoneMalformed)
        else Ok(RegisterInput(b.username, b.password, role, b.name, b.phone))
  }

  /** `LoginSchema.parse`: username of 3 to 20 characters and password of at least 3. */
  predicate LoginInputValid(b: LoginBody)
  {
    3 <= |b.username| <= 20 && |b.password| >= 3
  }

  /** The register schema is stricter than the login schema: whoever can register can pass login validation. */
  lemma RegisteredCredentialsPassLoginSchema(b: RegisterBody)
    requires ValidateRegister(b).Ok?
    ensures LoginInputValid(LoginBody(b.username, b.password))
  {
  }

  /** The phone number the seed accounts use matches the pattern; one whose second digit is 2 does not. */
  lemma PhonePatternExamples()
    ensures PhoneMatches("13800138000")
    ensures !PhoneMatches("12800138000")
    ensures !PhoneMatches("1380013800")
  {
    assert AllDigits("13800138000") by {
      forall i | 0 <= i < 11 ensures IsDigit("13800138000"[i]) { }
    }
  }
}
