/**
 * The reset-password page: the link it was opened with carries the token and
 * the email; the user types a new password twice; the page validates, sends
 * the form to `resetPassword` and shows the outcome.
 */
module ResetPasswordPage {
  import opened Optional
  import opened Json
  import opened Api
  import opened AuthService
  import opened Forms

  const InvalidLinkMessage: string := "Invalid reset link. Please request a new password reset."
  const MinPasswordLength: nat := 8

  /** `formData`. */
  datatype ResetForm = ResetForm(token: string, email: string, password: string, password_confirmation: string)

  /** The page's state: the form, the field errors shown, the message and the button. */
  datatype Page = Page(form: ResetForm, errors: map<string, Json>, message: string, button: ButtonState)

  /** A validation: the page with its errors replaced, and whether the form may be sent. */
  datatype Checked = Checked(page: Page, ok: bool)

  /** What submitting does synchronously: stop at validation, or send `data` with the page now sending. */
  datatype Submission = Blocked(page: Page) | Sent(page: Page, data: PasswordReset)

  /** The form the server would accept: a password of at least eight characters, confirmed exactly. */
  predicate Acceptable(f: ResetForm) {
    |f.password| >= MinPasswordLength && f.password_confirmation == f.password
  }

  /**
   * Mounting the page: `token` and `email` come from the query string (`null`
   * for a missing parameter reads as the empty string), and a link missing
   * either shows the invalid-link message with the button in its error state.
   */
  function Open(tokenParam: Option<string>, emailParam: Option<string>): (p: Page)
    ensures p.form == ResetForm(tokenParam.GetOr(""), emailParam.GetOr(""), "", "") && p.errors == map[]
    ensures p.button == Error <==> tokenParam.GetOr("") == "" || emailParam.GetOr("") == ""
    ensures p.button == Error ==> p.message == InvalidLinkMessage
    ensures p.button != Error ==> p.button == Idle && p.message == ""
  {
    var form := ResetForm(tokenParam.GetOr(""), emailParam.GetOr(""), "", "");
    if form.token == "" || form.email == "" then Page(form, map[], InvalidLinkMessage, Error)
    else Page(form, map[], "", Idle)
  }

  /** `setFormData({...prev, [name]: value})` on the four form fields; other names touch none of them. */
  function SetField(f: ResetForm, name: string, value: string): ResetForm {
    if name == "token" then f.(token := value)
    else if name == "email" then f.(email := value)
    else if name == "password" then f.(password := value)
    else if name == "password_confirmation" then f.(password_confirmation := value)
    else f
  }

  /** The field `name` currently shows an error. */
  predicate ShowsError(errors: map<string, Json>, name: string) {
    name in errors && Truthy(errors[name])
  }

  /**
   * `handleChange`: update the named field, blank that field's error if it
   * shows one, and take the button out of its error state.
   */
  function HandleChange(p: Page, name: string, value: string): (r: Page)
    ensures r.form == SetField(p.form, name, value)
    ensures !ShowsError(r.errors, name)
    ensures forall other :: other != name ==> (other in r.errors <==> other in p.errors)
    ensures forall other :: other != name && other in p.errors ==> r.errors[other] == p.errors[other]
    ensures !ShowsError(p.errors, name) ==> r.errors == p.errors
    ensures r.message == p.message && r.button == AfterTyping(p.button)
  {
    var errors := if ShowsError(p.errors, name) then p.errors[name := Str("")] else p.errors;
    Page(SetField(p.form, name, value), errors, p.message, AfterTyping(p.button))
  }

  /** The password field's error, if any. */
  function PasswordError(f: ResetForm): Option<string> {
    if f.password == "" then Some("Password is required")
    else if |f.password| < MinPasswordLength then Some("Password must be at least 8 characters")
    else None
  }

  /** The confirmation field's error, if any. */
  function ConfirmationError(f: ResetForm): Option<string> {
    if f.password_confirmation == "" then Some("Please confirm your password")
    else if f.password != f.password_confirmation then Some("Passwords do not match")
    else None
  }

  /** `validateForm`: replace the errors with those of this form; the form may be sent iff there are none. */
  function ValidateForm(p: Page): (r: Checked)
    ensures r.ok <==> Acceptable(p.form)
    ensures r.ok <==> r.page.errors == map[]
    ensures r.page == p.(errors := r.page.errors)
    ensures r.page.errors.Keys <= {"password", "password_confirmation"}
    ensures "password" in r.page.errors <==> |p.form.password| < MinPasswordLength
    ensures "password_confirmation" in r.page.errors <==>
      p.form.password_confirmation == "" || p.form.password_confirmation != p.form.password
    ensures p.form.password == "" ==> r.page.errors["password"] == Str("Password is required")
    ensures p.form.password != "" && |p.form.password| < MinPasswordLength ==>
      r.page.errors["password"] == Str("Password must be at least 8 characters")
    ensures p.form.password_confirmation == "" ==>
      r.page.errors["password_confirmation"] == Str("Please confirm your password")
    ensures p.form.password_confirmation != "" && p.form.password_confirmation != p.form.password ==>
      r.page.errors["password_confirmation"] == Str("Passwords do not match")
  {
    var pw := PasswordError(p.form);
    var conf := ConfirmationError(p.form);
    var e1: map<string, Json> := if pw.Some? then map["password" := Str(pw.value)] else map[];
    var errors := if conf.Some? then e1["password_confirmation" := Str(conf.value)] else e1;
    assert pw.Some? ==> "password" in errors;
    Checked(p.(errors := errors), pw.None? && conf.None?)
  }

  /** `handleSubmit` up to the service call: validate, then clear the message and send the form. */
  function SubmitBegin(p: Page): (r: Submission)
    ensures r.Sent? <==> Acceptable(p.form)
    ensures r.Blocked? ==> r.page == ValidateForm(p).page && r.page.button == p.button
    ensures r.Sent? ==> r.page == p.(errors := map[], message := "", button := Sending)
    ensures r.Sent? ==> r.data == PasswordReset(p.form.email, p.form.password, p.form.password_confirmation, p.form.token)
  {
    var c := ValidateForm(p);
    if !c.ok then Blocked(c.page)
    else Sent(c.page.(button := Sending, message := ""),
              PasswordReset(p.form.email, p.form.password, p.form.password_confirmation, p.form.token))
  }

  /** The errors a failed reset reports: the fields of `result.errors` (an object). */
  function ErrorsOf(errs: Json): map<string, Json> {
    if errs.Obj? then errs.fields else map[]
  }

  /**
   * `handleSubmit` once `resetPassword` has answered: success shows the
   * server's message or a default; failure shows the server's message or a
   * default and, when the result carries field errors, shows those instead.
   */
  function SubmitComplete(p: Page, result: ServiceResult): (r: Page)
    ensures r.form == p.form
    ensures r.button == (if result.success then Success else Error)
    ensures result.success ==> r.message == TextOr(result.message, "Password reset successfully!") && r.errors == p.errors
    ensures !result.success ==> r.message == TextOr(result.message, "Failed to reset password")
    ensures !result.success && Truthy(result.errors) ==> r.errors == ErrorsOf(result.errors)
    ensures !Truthy(result.errors) ==> r.errors == p.errors
  {
    if result.success then p.(button := Success, message := TextOr(result.message, "Password reset successfully!"))
    else
      p.(button := Error, message := TextOr(result.message, "Failed to reset password"),
         errors := if Truthy(result.errors) then ErrorsOf(result.errors) else p.errors)
  }

  /** The submit button is disabled while sending, after success, and for a link without token or email. */
  function SubmitDisabled(p: Page): (r: bool)
    ensures p.form.token == "" || p.form.email == "" ==> r
    ensures !r <==> (p.button == Idle || p.button == Error) && p.form.token != "" && p.form.email != ""
  {
    p.button == Sending || p.button == Success || p.form.token == "" || p.form.email == ""
  }

  /** A link without token or email can never be submitted, whatever the user types. */
  lemma {:induction false} InvalidLinkStaysDisabled(tokenParam: Option<string>, emailParam: Option<string>, edits: seq<(string, string)>)
    requires tokenParam.GetOr("") == "" || emailParam.GetOr("") == ""
    requires forall k :: 0 <= k < |edits| ==> edits[k].0 !in {"token", "email"}
    ensures SubmitDisabled(Open(tokenParam, emailParam))
    ensures SubmitDisabled(Typed(Open(tokenParam, emailParam), edits))
    decreases |edits|
  {
    if edits != [] {
      var p := Open(tokenParam, emailParam);
      TypingKeepsLink(p, edits);
    }
  }

  /** The page after the user types each `(name, value)` of `edits` in turn. */
  function Typed(p: Page, edits: seq<(string, string)>): Page
    decreases |edits|
  {
    if edits == [] then p else Typed(HandleChange(p, edits[0].0, edits[0].1), edits[1..])
  }

  /** Typing into the password fields leaves the token and email as the link gave them. */
  lemma {:induction false} TypingKeepsLink(p: Page, edits: seq<(string, string)>)
    requires forall k :: 0 <= k < |edits| ==> edits[k].0 !in {"token", "email"}
    ensures Typed(p, edits).form.token == p.form.token && Typed(p, edits).form.email == p.form.email
    decreases |edits|
  {
    if edits != [] {
      TypingKeepsLink(HandleChange(p, edits[0].0, edits[0].1), edits[1..]);
    }
  }

  /**
   * After a successful reset the page never shows its own default: the
   * service already replaces a missing server message with its default text.
   */
  lemma SuccessShowsServiceMessage(p: Page, body: Json, retry: Fetched)
    ensures var r := SubmitComplete(p, AuthService.ResetPassword(Request(Response(200, body), retry)));
      && r.button == Success
      && r.message == TextOr(Get(body, "message"), "Password reset successfully")
  {
  }

  /** A 422 reply shows the server's message and replaces the field errors with the server's. */
  lemma RejectedResetShowsServerErrors(p: Page, body: Json, retry: Fetched)
    requires Get(body, "message").Str? && Get(body, "message").s != ""
    requires Get(body, "errors").Obj? && Get(body, "errors").fields != map[]
    ensures var r := SubmitComplete(p, AuthService.ResetPassword(Request(Response(422, body), retry)));
      && r.button == Error && r.message == Get(body, "message").s
      && r.errors == Get(body, "errors").fields && r.form == p.form
  {
  }

  /** Once sent, the form cannot be sent again until a failure re-enables the button; a success keeps it disabled. */
  lemma NoDoubleSubmit(p: Page, result: ServiceResult)
    requires SubmitBegin(p).Sent? && p.form.token != "" && p.form.email != ""
    ensures SubmitDisabled(SubmitBegin(p).page)
    ensures SubmitDisabled(SubmitComplete(SubmitBegin(p).page, result)) <==> result.success
  {
  }
}
