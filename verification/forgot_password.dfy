/**
 * The forgot-password page: the user enters an email address, the page
 * checks it loosely, asks `forgotPassword` to send a reset link and shows the
 * outcome; a confirmation screen offers to start over.
 */
module ForgotPasswordPage {
  import opened Json
  import opened Api
  import opened AuthService
  import opened Forms

  const DefaultSentMessage: string := "Password reset email sent successfully!"
  const DefaultFailureMessage: string := "Failed to send password reset email"

  /** The page's state: the email typed, field errors, message, whether the confirmation screen shows, the button. */
  datatype Page = Page(email: string, errors: map<string, Json>, message: string, submitted: bool, button: ButtonState)

  /** A validation: the page with its errors as set, and whether the email may be sent. */
  datatype Checked = Checked(page: Page, ok: bool)

  /** What submitting does synchronously: stop at validation, or send the email with the page now sending. */
  datatype Submission = Blocked(page: Page) | Sent(page: Page, email: string)

  /** The page as it mounts. */
  const Blank: Page := Page("", map[], "", false, Idle)

  /** The characters the regular-expression class `\s` matches. */
  predicate IsSpace(c: char) {
    || (9 as char <= c <= 13 as char) || c == ' ' || c == 0xA0 as char || c == 0x1680 as char
    || (0x2000 as char <= c <= 0x200A as char) || c == 0x2028 as char || c == 0x2029 as char
    || c == 0x202F as char || c == 0x205F as char || c == 0x3000 as char || c == 0xFEFF as char
  }

  /**
   * `\S+@\S+\.\S+` matches inside `s` with its `@` at `at` and its `.` at
   * `dot`: a non-space character before the `@`, at least one non-space
   * character between them, and a non-space character after the dot.
   */
  predicate ShapeAt(s: string, at: int, dot: int) {
    && 0 < at && at + 1 < dot && dot + 1 < |s|
    && s[at] == '@' && s[dot] == '.'
    && !IsSpace(s[at - 1]) && !IsSpace(s[dot + 1])
    && forall k | at < k < dot :: !IsSpace(s[k])
  }

  /** The unanchored test `/\S+@\S+\.\S+/.test(s)`: some substring of `s` has the shape. */
  predicate LooksLikeEmail(s: string) {
    exists at, dot | 0 <= at < |s| && 0 <= dot < |s| :: ShapeAt(s, at, dot)
  }

  /** `handleChange`: take the new email; an email error clears every error; leave the error state. */
  function HandleChange(p: Page, value: string): (r: Page)
    ensures r.email == value
    ensures "email" in p.errors && Truthy(p.errors["email"]) ==> r.errors == map[]
    ensures !("email" in p.errors && Truthy(p.errors["email"])) ==> r.errors == p.errors
    ensures r.button == AfterTyping(p.button)
    ensures r.message == p.message && r.submitted == p.submitted
  {
    var errors := if "email" in p.errors && Truthy(p.errors["email"]) then map[] else p.errors;
    p.(email := value, errors := errors, button := AfterTyping(p.button))
  }

  /**
   * `validateForm`: an empty email and one without the shape each set a
   * single email error and refuse; a passing email leaves the errors as they were.
   */
  function ValidateForm(p: Page): (r: Checked)
    ensures r.ok <==> p.email != "" && LooksLikeEmail(p.email)
    ensures r.ok ==> r.page == p
    ensures p.email == "" ==> r.page == p.(errors := map["email" := Str("Email is required")])
    ensures p.email != "" && !LooksLikeEmail(p.email) ==>
      r.page == p.(errors := map["email" := Str("Please enter a valid email")])
  {
    if p.email == "" then Checked(p.(errors := map["email" := Str("Email is required")]), false)
    else if !LooksLikeEmail(p.email) then Checked(p.(errors := map["email" := Str("Please enter a valid email")]), false)
    else Checked(p, true)
  }

  /** `handleSubmit` up to the service call: validate, then clear the message and send the email. */
  function SubmitBegin(p: Page): (r: Submission)
    ensures r.Sent? <==> p.email != "" && LooksLikeEmail(p.email)
    ensures r.Blocked? ==> r.page == ValidateForm(p).page
    ensures r.Sent? ==> r.page == p.(message := "", button := Sending) && r.email == p.email
  {
    var c := ValidateForm(p);
    if c.ok then Sent(p.(message := "", button := Sending), p.email) else Blocked(c.page)
  }

  /**
   * `handleSubmit` once `forgotPassword` has answered, as written: a failure
   * reads `result.error`, a property the service's results never carry, so
   * the default text always shows.
   */
  function SubmitCompleteAsWritten(p: Page, result: ServiceResult): (r: Page)
    ensures r.button == (if result.success then Success else Error)
    ensures result.success ==> r.message == TextOr(result.message, DefaultSentMessage)
    ensures !result.success ==> r.message == DefaultFailureMessage
    ensures r.email == p.email && r.errors == p.errors && r.submitted == p.submitted
  {
    if result.success then p.(button := Success, message := TextOr(result.message, DefaultSentMessage))
    else p.(button := Error, message := TextOr(Undefined, DefaultFailureMessage))
  }

  /**
   * `handleSubmit` once `forgotPassword` has answered, reading the failure's
   * `message` as the service provides it.
   */
  function SubmitComplete(p: Page, result: ServiceResult): (r: Page)
    ensures r.button == (if result.success then Success else Error)
    ensures result.success ==> r.message == TextOr(result.message, DefaultSentMessage)
    ensures !result.success ==> r.message == TextOr(result.message, DefaultFailureMessage)
    ensures r.email == p.email && r.errors == p.errors && r.submitted == p.submitted
  {
    if result.success then p.(button := Success, message := TextOr(result.message, DefaultSentMessage))
    else p.(button := Error, message := TextOr(result.message, DefaultFailureMessage))
  }

  /** `resetForm`: back to the entry screen with an empty email, no message and an idle button. */
  function ResetForm(p: Page): (r: Page)
    ensures !r.submitted && r.email == "" && r.message == "" && r.button == Idle
    ensures r.errors == p.errors
    ensures p.errors == map[] ==> r == Blank
  {
    p.(submitted := false, email := "", message := "", button := Idle)
  }

  /** The submit button is disabled while sending and after success. */
  function SubmitDisabled(p: Page): (r: bool)
    ensures !r <==> p.button == Idle || p.button == Error
  {
    p.button == Sending || p.button == Success
  }

  /** The search is unanchored: text around a matching email does not stop it from matching. */
  lemma Unanchored(pre: string, s: string, post: string)
    requires LooksLikeEmail(s)
    ensures LooksLikeEmail(pre + s + post)
  {
    var at, dot :| 0 <= at < |s| && 0 <= dot < |s| && ShapeAt(s, at, dot);
    var t := pre + s + post;
    forall k | at + |pre| < k < dot + |pre| ensures !IsSpace(t[k]) {
      assert t[k] == s[k - |pre|];
    }
    assert ShapeAt(t, at + |pre|, dot + |pre|);
  }

  /** Text without an `@` never passes. */
  lemma NeedsAt(s: string)
    requires forall k | 0 <= k < |s| :: s[k] != '@'
    ensures !LooksLikeEmail(s)
  {
  }

  /** `name@host.tld` with space-free non-empty parts passes. */
  lemma PlainAddressPasses(name: string, host: string, tld: string)
    requires name != "" && host != "" && tld != ""
    requires forall k | 0 <= k < |name| :: !IsSpace(name[k])
    requires forall k | 0 <= k < |host| :: !IsSpace(host[k])
    requires !IsSpace(tld[0])
    ensures LooksLikeEmail(name + "@" + host + "." + tld)
  {
    var s := name + "@" + host + "." + tld;
    var at, dot := |name|, |name| + 1 + |host|;
    forall k | at < k < dot ensures !IsSpace(s[k]) {
      assert s[k] == host[k - at - 1];
    }
    assert s[at - 1] == name[|name| - 1];
    assert s[dot + 1] == tld[0];
    assert ShapeAt(s, at, dot);
  }

  /** A space between the `@` and the last dot breaks the match: `a@b c.d` fails. */
  lemma SpaceInHostFails()
    ensures !LooksLikeEmail("a@b c.d")
  {
    var s := "a@b c.d";
    forall at, dot | 0 <= at < |s| && 0 <= dot < |s| ensures !ShapeAt(s, at, dot) {
      if s[at] == '@' && s[dot] == '.' {
        assert at == 1 && dot == 5;
        assert IsSpace(s[3]);
      }
    }
  }

  /**
   * A successful request never shows the page's own default: the service
   * already replaces a missing server message with its default text.
   */
  lemma SuccessShowsServiceMessage(p: Page, body: Json, retry: Fetched)
    ensures var r := SubmitCompleteAsWritten(p, AuthService.ForgotPassword(Request(Response(200, body), retry)));
      && r.button == Success
      && r.message == TextOr(Get(body, "message"), "Password reset email sent successfully")
    ensures SubmitComplete(p, AuthService.ForgotPassword(Request(Response(200, body), retry)))
      == SubmitCompleteAsWritten(p, AuthService.ForgotPassword(Request(Response(200, body), retry)))
  {
  }

  /** As written: the server's explanation of a refusal is dropped in favour of the default text. */
  lemma ServerMessageDropped(p: Page, status: nat, body: Json, retry: Fetched)
    requires !StatusOk(status) && status !in {401, 419, 422}
    requires Get(body, "message") == Str("We can't find a user with that email address.")
    ensures SubmitCompleteAsWritten(p, AuthService.ForgotPassword(Request(Response(status, body), retry))).message
      == DefaultFailureMessage
    ensures AuthService.ForgotPassword(Request(Response(status, body), retry)).message
      == Str("We can't find a user with that email address.")
  {
  }

  /** Read as the service provides it, the server's explanation of a refusal reaches the user. */
  lemma ServerMessageShown(p: Page, status: nat, body: Json, retry: Fetched)
    requires !StatusOk(status) && status !in {401, 419}
    requires Get(body, "message").Str? && Get(body, "message").s != ""
    ensures SubmitComplete(p, AuthService.ForgotPassword(Request(Response(status, body), retry))).message
      == Get(body, "message").s
  {
  }

  /** Once sent, the form cannot be sent again until a failure re-enables the button; a success keeps it disabled. */
  lemma NoDoubleSubmit(p: Page, result: ServiceResult)
    requires SubmitBegin(p).Sent?
    ensures SubmitDisabled(SubmitBegin(p).page)
    ensures SubmitDisabled(SubmitCompleteAsWritten(SubmitBegin(p).page, result)) <==> result.success
    ensures SubmitDisabled(SubmitComplete(SubmitBegin(p).page, result)) <==> result.success
  {
  }
}
