/**
 * The auth service: each operation turns what the HTTP wrapper settled to
 * into a result object `{success, user?, message?, errors?}` and never
 * throws. An absent key is `Undefined`.
 */
module AuthService {
  import opened Json
  import opened Api

  datatype ServiceResult = ServiceResult(success: bool, user: Json, message: Json, errors: Json)

  /** `{success: false, message}`. */
  function Failed(message: Json): ServiceResult {
    ServiceResult(false, Undefined, message, Undefined)
  }

  /** `{success: true}`. */
  const Succeeded: ServiceResult := ServiceResult(true, Undefined, Undefined, Undefined)

  /** The fields the registration form supplies. */
  datatype Registration = Registration(name: string, email: string, password: string, confirmPassword: string)

  /** The fields the reset-password form supplies. */
  datatype PasswordReset = PasswordReset(email: string, password: string, password_confirmation: string, token: string)

  /** Where `googleAuth` ends: a browser redirect to the provider, or a failure result. */
  datatype GoogleStart = Redirect(url: Json) | GoogleFailed(result: ServiceResult)

  /** The `catch` shared by register, login, forgotPassword and resetPassword. */
  function FailureFrom(e: ApiError, fallback: string): (r: ServiceResult)
    ensures !r.success && r.user == Undefined
    ensures e.Validation? ==> r.errors == e.errors && r.message == Str(e.message)
    ensures e.Plain? ==> r == Failed(Str(MessageOr(e.message, fallback)))
  {
    match e
    case Validation(m, errs) => ServiceResult(false, Undefined, Str(m), errs)
    case Plain(m) => Failed(Str(MessageOr(m, fallback)))
  }

  /** The body `register` posts: `confirmPassword` travels as `password_confirmation`. */
  function RegisterBody(form: Registration): (body: map<string, string>)
    ensures body.Keys == {"name", "email", "password", "password_confirmation"}
    ensures body["name"] == form.name && body["email"] == form.email && body["password"] == form.password
    ensures body["password_confirmation"] == form.confirmPassword
  {
    map["name" := form.name, "email" := form.email, "password" := form.password,
        "password_confirmation" := form.confirmPassword]
  }

  /** `register`, given what `POST /register` settled to. */
  function Register(settled: Outcome): (r: ServiceResult)
    ensures r.success <==> settled.Ok?
    ensures settled.Ok? ==> r == ServiceResult(true, Get(settled.data, "user"), Get(settled.data, "message"), Undefined)
    ensures settled.Err? ==> r == FailureFrom(settled.error, "Registration failed")
  {
    match settled
    case Ok(resp) => ServiceResult(true, Get(resp, "user"), Get(resp, "message"), Undefined)
    case Err(e) => FailureFrom(e, "Registration failed")
  }

  /** The body `login` posts. */
  function LoginBody(email: string, password: string): (body: map<string, string>)
    ensures body.Keys == {"email", "password"} && body["email"] == email && body["password"] == password
  {
    map["email" := email, "password" := password]
  }

  /** `login`, given what `POST /login` settled to. */
  function Login(settled: Outcome): (r: ServiceResult)
    ensures r.success <==> settled.Ok?
    ensures settled.Ok? ==> r.user == Get(settled.data, "user") && r.message == Get(settled.data, "message")
    ensures settled.Err? && settled.error.Validation? ==>
      r == ServiceResult(false, Undefined, Str(settled.error.message), settled.error.errors)
    ensures settled.Err? && settled.error.Plain? ==> r == Failed(Str(MessageOr(settled.error.message, "Login failed")))
  {
    match settled
    case Ok(resp) => ServiceResult(true, Get(resp, "user"), Get(resp, "message"), Undefined)
    case Err(e) => FailureFrom(e, "Login failed")
  }

  /** `logout`: success whether or not `POST /logout` did. */
  function Logout(settled: Outcome): (r: ServiceResult)
    ensures r.success && r.message == Undefined && r.user == Undefined
  {
    Succeeded
  }

  /**
   * The result shaping `forgotPassword` and `resetPassword` share: success
   * carries the response's message or a default text; failure is the common
   * error mapping with the operation's own default.
   */
  function MessageResult(settled: Outcome, sentDefault: string, failedDefault: string): (r: ServiceResult)
    ensures r.success <==> settled.Ok?
    ensures settled.Ok? ==> r.user == Undefined && r.errors == Undefined
    ensures settled.Ok? && Truthy(Get(settled.data, "message")) ==> r.message == Get(settled.data, "message")
    ensures settled.Ok? && !Truthy(Get(settled.data, "message")) ==> r.message == Str(sentDefault)
    ensures settled.Err? ==> r == FailureFrom(settled.error, failedDefault)
  {
    match settled
    case Ok(resp) => ServiceResult(true, Undefined, Or(Get(resp, "message"), Str(sentDefault)), Undefined)
    case Err(e) => FailureFrom(e, failedDefault)
  }

  /** `forgotPassword`, given what `POST /forgot-password` settled to. */
  function ForgotPassword(settled: Outcome): ServiceResult {
    MessageResult(settled, "Password reset email sent successfully", "Failed to send password reset email")
  }

  /** The body `resetPassword` posts. */
  function ResetPasswordBody(data: PasswordReset): (body: map<string, string>)
    ensures body.Keys == {"email", "password", "password_confirmation", "token"}
    ensures body["email"] == data.email && body["password"] == data.password
    ensures body["password_confirmation"] == data.password_confirmation && body["token"] == data.token
  {
    map["email" := data.email, "password" := data.password,
        "password_confirmation" := data.password_confirmation, "token" := data.token]
  }

  /** `resetPassword`, given what `POST /reset-password` settled to. */
  function ResetPassword(settled: Outcome): ServiceResult {
    MessageResult(settled, "Password reset successfully", "Password reset failed")
  }

  /** `googleAuth`, given what `GET /auth/google` settled to. A ValidationError gets no special treatment here. */
  function GoogleAuth(settled: Outcome): (r: GoogleStart)
    ensures r.Redirect? <==> settled.Ok? && Truthy(Get(settled.data, "redirect_url"))
    ensures r.Redirect? ==> r.url == Get(settled.data, "redirect_url")
    ensures settled.Ok? && !Truthy(Get(settled.data, "redirect_url")) ==>
      r == GoogleFailed(Failed(Str("No redirect URL received")))
    ensures settled.Err? ==> r == GoogleFailed(Failed(Str(MessageOr(settled.error.message, "Google authentication failed"))))
  {
    match settled
    case Ok(resp) =>
      var url := Get(resp, "redirect_url");
      if Truthy(url) then Redirect(url) else GoogleFailed(Failed(Str("No redirect URL received")))
    case Err(e) => GoogleFailed(Failed(Str(MessageOr(e.message, "Google authentication failed"))))
  }

  /** `getCurrentUser`, given what `GET /user` settled to: the profile is `response.user`, or the whole response. */
  function GetCurrentUser(settled: Outcome): (r: ServiceResult)
    ensures r.success <==> settled.Ok?
    ensures settled.Ok? && Truthy(Get(settled.data, "user")) ==> r.user == Get(settled.data, "user")
    ensures settled.Ok? && !Truthy(Get(settled.data, "user")) ==> r.user == settled.data
    ensures settled.Err? ==> r == Failed(Str(MessageOr(settled.error.message, "Failed to get user data")))
  {
    match settled
    case Ok(resp) => ServiceResult(true, Or(Get(resp, "user"), resp), Undefined, Undefined)
    case Err(e) => Failed(Str(MessageOr(e.message, "Failed to get user data")))
  }

  /**
   * An expired session is not an exception: a 401 from `GET /user` comes back
   * as a failure result whose message names the expiry.
   */
  lemma ExpiredSessionIsAResult(body: Json, retry: Fetched)
    ensures GetCurrentUser(Request(Response(401, body), retry)) == Failed(Str(SessionExpiredMessage))
  {
  }

  /** A login the server rejects with 422 hands the field errors and message to the caller verbatim. */
  lemma LoginPassesValidationErrors(body: Json, retry: Fetched)
    requires Get(body, "message").Str? && Get(body, "message").s != ""
    requires Get(body, "errors").Obj?
    ensures Login(Request(Response(422, body), retry)) ==
      ServiceResult(false, Undefined, Get(body, "message"), Get(body, "errors"))
  {
  }
}
