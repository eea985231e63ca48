/** The field validators of the authentication request bodies
  * (backend/app/interfaces/schemas/auth.py). The e-mail and full-name
  * validators there are the same as the user model's, and are taken from
  * it; each request is built only when every one of its fields passes. */
module AuthSchemas {
  import opened Wrappers
  import opened PyStr
  import UserModel

  const PasswordError: string := "Password must be at least 6 characters long"
  const NewPasswordError: string := "New password must be at least 6 characters long"
  const OldPasswordError: string := "Old password is required"
  const RefreshTokenError: string := "Refresh token is required"
  const CodeRequiredError: string := "Verification code is required"
  const CodeFormatError: string := "Verification code must be 6 digits"

  /** `validate_password` / `validate_new_password`: six characters or
    * more, returned unchanged. */
  function ValidatePassword(v: string, error: string): (r: Result<string, string>)
    ensures r.Ok? <==> |v| >= 6
    ensures r.Ok? ==> r.value == v
    ensures r.Err? ==> r.error == error
  {
    if v == [] || |v| < 6 then Err(error) else Ok(v)
  }

  /** `validate_old_password` / `validate_refresh_token`: anything but the
    * empty string, returned unchanged. */
  function RequireNonEmpty(v: string, error: string): (r: Result<string, string>)
    ensures r.Ok? <==> v != []
    ensures r.Ok? ==> r.value == v
    ensures r.Err? ==> r.error == error
  {
    if v == [] then Err(error) else Ok(v)
  }

  /** `validate_verification_code`: exactly six characters, each a digit;
    * an empty code has its own message. */
  function ValidateCode(v: string): (r: Result<string, string>)
    ensures r.Ok? <==> |v| == 6 && AllDigits(v)
    ensures r.Ok? ==> r.value == v
    ensures v == [] ==> r == Err(CodeRequiredError)
    ensures v != [] && r.Err? ==> r.error == CodeFormatError
  {
    if v == [] then Err(CodeRequiredError)
    else if !AllDigits(v) || |v| != 6 then Err(CodeFormatError)
    else Ok(v)
  }

  datatype LoginRequest = LoginRequest(email: string, password: string)
  datatype RegisterRequest = RegisterRequest(fullname: string, email: string, password: string)
  datatype ChangePasswordRequest = ChangePasswordRequest(oldPassword: string, newPassword: string)
  datatype ResetPasswordRequest = ResetPasswordRequest(email: string, verificationCode: string, newPassword: string)

  /** `LoginRequest(email=..., password=...)`. */
  function ParseLogin(email: string, password: string): (r: Result<LoginRequest, string>)
    ensures r.Ok? <==> '@' in email && |password| >= 6
    ensures r.Ok? ==> r.value == LoginRequest(Lower(Strip(email)), password)
  {
    match UserModel.ValidateEmail(email)
    case Err(e) => Err(e)
    case Ok(m) =>
      match ValidatePassword(password, PasswordError)
      case Err(e) => Err(e)
      case Ok(p) => Ok(LoginRequest(m, p))
  }

  /** `RegisterRequest(fullname=..., email=..., password=...)`. */
  function ParseRegister(fullname: string, email: string, password: string): (r: Result<RegisterRequest, string>)
    ensures r.Ok? <==> |Strip(fullname)| >= 2 && '@' in email && |password| >= 6
    ensures r.Ok? ==> r.value == RegisterRequest(Strip(fullname), Lower(Strip(email)), password)
  {
    match UserModel.ValidateFullname(fullname)
    case Err(e) => Err(e)
    case Ok(n) =>
      match UserModel.ValidateEmail(email)
      case Err(e) => Err(e)
      case Ok(m) =>
        match ValidatePassword(password, PasswordError)
        case Err(e) => Err(e)
        case Ok(p) => Ok(RegisterRequest(n, m, p))
  }

  /** `ChangePasswordRequest(old_password=..., new_password=...)`: the old
    * password is only required to be present. */
  function ParseChangePassword(oldPassword: string, newPassword: string): (r: Result<ChangePasswordRequest, string>)
    ensures r.Ok? <==> oldPassword != [] && |newPassword| >= 6
    ensures r.Ok? ==> r.value == ChangePasswordRequest(oldPassword, newPassword)
  {
    match RequireNonEmpty(oldPassword, OldPasswordError)
    case Err(e) => Err(e)
    case Ok(o) =>
      match ValidatePassword(newPassword, NewPasswordError)
      case Err(e) => Err(e)
      case Ok(p) => Ok(ChangePasswordRequest(o, p))
  }

  /** `ChangeFullnameRequest(fullname=...)`. */
  function ParseChangeFullname(fullname: string): (r: Result<string, string>)
    ensures r.Ok? <==> |Strip(fullname)| >= 2
    ensures r.Ok? ==> r.value == Strip(fullname)
  {
    UserModel.ValidateFullname(fullname)
  }

  /** `RefreshTokenRequest(refresh_token=...)`. */
  function ParseRefreshToken(token: string): (r: Result<string, string>)
    ensures r.Ok? <==> token != []
    ensures r.Ok? ==> r.value == token
  {
    RequireNonEmpty(token, RefreshTokenError)
  }

  /** `SendVerificationCodeRequest(email=...)`. */
  function ParseSendCode(email: string): (r: Result<string, string>)
    ensures r.Ok? <==> '@' in email
    ensures r.Ok? ==> r.value == Lower(Strip(email))
  {
    UserModel.ValidateEmail(email)
  }

  /** `ResetPasswordRequest(email=..., verification_code=..., new_password=...)`. */
  function ParseResetPassword(email: string, code: string, newPassword: string): (r: Result<ResetPasswordRequest, string>)
    ensures r.Ok? <==> '@' in email && |code| == 6 && AllDigits(code) && |newPassword| >= 6
    ensures r.Ok? ==> r.value == ResetPasswordRequest(Lower(Strip(email)), code, newPassword)
  {
    match UserModel.ValidateEmail(email)
    case Err(e) => Err(e)
    case Ok(m) =>
      match ValidateCode(code)
      case Err(e) => Err(e)
      case Ok(c) =>
        match ValidatePassword(newPassword, NewPasswordError)
        case Err(e) => Err(e)
        case Ok(p) => Ok(ResetPasswordRequest(m, c, p))
  }

  /** A registration request that passed its schema also passes the
    * registration checks of the service, and its fields are already in
    * the form those checks store. */
  lemma {:induction false} RegisterRequestNormal(fullname: string, email: string, password: string)
    requires ParseRegister(fullname, email, password).Ok?
    ensures var q := ParseRegister(fullname, email, password).value;
            UserModel.NormalFullname(q.fullname) && UserModel.NormalEmail(q.email) && |q.password| >= 6
  {
    UserModel.FullnameIdempotent(fullname);
    UserModel.EmailIdempotent(email);
  }
}
