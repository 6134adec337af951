/**
 * The HTTP wrapper of the client: which methods carry a CSRF token, how the
 * token is read from the cookie string, how a settled response is classified
 * into data or an error, and how `get` builds its URL. The network itself
 * (fetch, the CSRF cookie handshake) is an input: a request is given what the
 * server answered.
 */
module Api {
  import opened Optional
  import opened Strings
  import opened Json

  /** The errors `request` rejects with: a plain `Error`, or a `ValidationError` carrying field errors. */
  datatype ApiError = Plain(message: string) | Validation(message: string, errors: Json)

  /** What a request settles to: the response data, or the error it rejects with. */
  datatype Outcome = Ok(data: Json) | Err(error: ApiError)

  /** What the network delivered: an exception from fetch or from reading the body, or a response. */
  datatype Fetched = FetchFailed(message: string) | Response(status: nat, body: Json)

  /** The result of reading the CSRF cookie: absent, present, or present but not decodable (a URIError). */
  datatype CsrfToken = NoToken | Token(value: string) | Undecodable

  /** Headers of the request, or the error thrown before anything is sent. */
  datatype Prepared = Send(headers: map<string, string>) | RejectBeforeSend(error: ApiError)

  const SessionExpiredMessage: string := "Session expired. Please sign in again."
  const NetworkErrorMessage: string := "Network error occurred"
  const CsrfHeader: string := "X-XSRF-TOKEN"
  const CookieMarker: string := "; XSRF-TOKEN="
  /** The message of the URIError that `decodeURIComponent` throws (V8's wording). */
  const UriErrorMessage: string := "URI malformed"

  const BaseHeaders: map<string, string> := map[
    "Content-Type" := "application/json",
    "Accept" := "application/json",
    "X-Requested-With" := "XMLHttpRequest"
  ]

  /** State-changing methods are the ones that need the CSRF handshake and header. */
  predicate NeedsCsrf(verb: string) {
    verb in ["POST", "PUT", "PATCH", "DELETE"]
  }

  /** `response.ok`. */
  predicate StatusOk(status: nat) {
    200 <= status <= 299
  }

  /**
   * `getCsrfToken`: split `"; " + cookie` on `"; XSRF-TOKEN="`; with exactly
   * two pieces, decode the second up to its first `;`.
   */
  function GetCsrfToken(cookie: string, decode: string -> Option<string>): (r: CsrfToken)
    ensures Free("; " + cookie, CookieMarker) ==> r == NoToken
    ensures r != NoToken ==> |Split("; " + cookie, CookieMarker)| == 2
  {
    var parts := Split("; " + cookie, CookieMarker);
    if |parts| == 2 then
      match decode(Before(parts[1], ";"))
      case Some(t) => Token(t)
      case None => Undecodable
    else NoToken
  }

  /** The headers `request` sends: the token header only for CSRF methods and a non-empty token. */
  function PrepareHeaders(verb: string, cookie: string, decode: string -> Option<string>): (r: Prepared)
    ensures !NeedsCsrf(verb) ==> r == Send(BaseHeaders)
    ensures r.Send? ==> (CsrfHeader in r.headers <==>
      NeedsCsrf(verb) && GetCsrfToken(cookie, decode).Token? && GetCsrfToken(cookie, decode).value != "")
    ensures r.Send? && CsrfHeader in r.headers ==> r.headers[CsrfHeader] == GetCsrfToken(cookie, decode).value
    ensures r.Send? ==> forall h :: h in BaseHeaders ==> h in r.headers && r.headers[h] == BaseHeaders[h]
    ensures r.RejectBeforeSend? <==> NeedsCsrf(verb) && GetCsrfToken(cookie, decode).Undecodable?
    ensures r.RejectBeforeSend? ==> r.error == Plain(UriErrorMessage)
  {
    if !NeedsCsrf(verb) then Send(BaseHeaders)
    else
      match GetCsrfToken(cookie, decode)
      case Undecodable => RejectBeforeSend(Plain(UriErrorMessage))
      case NoToken => Send(BaseHeaders)
      case Token(t) => if t != "" then Send(BaseHeaders[CsrfHeader := t]) else Send(BaseHeaders)
  }

  /** The error a non-ok response raises inside the `try` of `request`, before the `catch`. */
  function RaiseStatus(status: nat, body: Json, retry: Fetched): Outcome
    requires !StatusOk(status)
  {
    if status == 401 then Err(Plain(SessionExpiredMessage))
    else if status == 422 then
      Err(Validation(TextOr(Get(body, "message"), "Validation failed"), Or(Get(body, "errors"), Obj(map[]))))
    else if status == 419 then
      match retry
      case FetchFailed(m) => Err(Plain(m))
      case Response(s, b) =>
        if StatusOk(s) then Ok(b)
        else Err(Plain(TextOr(Get(b, "message"), "HTTP error! status: " + NatToString(s))))
    else Err(Plain(TextOr(Get(body, "message"), "HTTP error! status: " + NatToString(status))))
  }

  /** The body of the `try` in `request`: `retry` is what the repeated request delivers after a 419. */
  function Raise(first: Fetched, retry: Fetched): Outcome {
    match first
    case FetchFailed(m) => Err(Plain(m))
    case Response(status, body) => if StatusOk(status) then Ok(body) else RaiseStatus(status, body, retry)
  }

  /** The `catch` of `request`: a ValidationError passes through; anything else becomes an Error with a message. */
  function Rewrap(o: Outcome): (r: Outcome)
    ensures o.Ok? ==> r == o
    ensures o.Err? && o.error.Validation? ==> r == o
    ensures o.Err? && o.error.Plain? ==> r == Err(Plain(MessageOr(o.error.message, NetworkErrorMessage)))
  {
    match o
    case Ok(_) => o
    case Err(Validation(_, _)) => o
    case Err(Plain(m)) => Err(Plain(MessageOr(m, NetworkErrorMessage)))
  }

  /** `request` once headers are prepared: classify what the network delivered. */
  function Request(first: Fetched, retry: Fetched): (r: Outcome)
    ensures first.Response? && StatusOk(first.status) ==> r == Ok(first.body)
    ensures first.Response? && first.status == 401 ==> r == Err(Plain(SessionExpiredMessage))
    ensures first.Response? && first.status == 422 ==>
      r == Err(Validation(TextOr(Get(first.body, "message"), "Validation failed"),
                          Or(Get(first.body, "errors"), Obj(map[]))))
    ensures first.Response? && !StatusOk(first.status) && first.status !in {401, 419, 422} ==>
      r == Err(Plain(MessageOr(TextOr(Get(first.body, "message"), "HTTP error! status: " + NatToString(first.status)),
                               NetworkErrorMessage)))
    ensures first.FetchFailed? ==> r == Err(Plain(MessageOr(first.message, NetworkErrorMessage)))
    ensures r.Err? && r.error.Validation? ==> first.Response? && first.status == 422
    ensures r.Err? && r.error.Plain? ==> r.error.message != ""
  {
    Rewrap(Raise(first, retry))
  }

  /** Rewrapping is idempotent: an error already rewrapped is rethrown as it is. */
  lemma RewrapIdempotent(o: Outcome)
    ensures Rewrap(Rewrap(o)) == Rewrap(o)
  {
  }

  /** `URLSearchParams(params).toString()` with a given component encoder. */
  function QueryString(params: seq<(string, string)>, encode: string -> string): (q: string)
    ensures |params| > 0 ==> q != ""
    ensures |params| == 0 ==> q == ""
    decreases |params|
  {
    if |params| == 0 then ""
    else
      var pair := encode(params[0].0) + "=" + encode(params[0].1);
      if |params| == 1 then pair else pair + "&" + QueryString(params[1..], encode)
  }

  /** The URL `get` requests: the query is appended only when it is non-empty. */
  function GetUrl(endpoint: string, params: seq<(string, string)>, encode: string -> string): (url: string)
    ensures |params| == 0 ==> url == endpoint
    ensures |params| > 0 ==> url == endpoint + "?" + QueryString(params, encode)
  {
    var query := QueryString(params, encode);
    if query != "" then endpoint + "?" + query else endpoint
  }

  /** The CSRF marker never overlaps itself, so its occurrences in a cookie string are well separated. */
  lemma MarkerUnbordered()
    ensures Unbordered(CookieMarker)
  {
  }

  /**
   * When the token is found, the cookie has exactly one marker: the text
   * before it and after it are marker-free, and the decoded text is the part
   * after the marker up to the next `;`.
   */
  lemma CsrfTokenSound(cookie: string, decode: string -> Option<string>)
    requires !GetCsrfToken(cookie, decode).NoToken?
    ensures var parts := Split("; " + cookie, CookieMarker);
      && |parts| == 2
      && "; " + cookie == parts[0] + CookieMarker + parts[1]
      && Free(parts[0], CookieMarker) && Free(parts[1], CookieMarker)
      && decode(Before(parts[1], ";")) == (if GetCsrfToken(cookie, decode).Token?
                                           then Some(GetCsrfToken(cookie, decode).value) else None)
  {
    var parts := Split("; " + cookie, CookieMarker);
    JoinSplit("; " + cookie, CookieMarker);
    SplitPiecesFree("; " + cookie, CookieMarker);
    assert parts[1..] == [parts[1]];
  }

  /** Conversely, a cookie with exactly one marker yields the decoded text after it. */
  lemma CsrfTokenComplete(cookie: string, before: string, after: string, decode: string -> Option<string>)
    requires "; " + cookie == before + CookieMarker + after
    requires Free(before, CookieMarker) && Free(after, CookieMarker)
    ensures GetCsrfToken(cookie, decode) ==
      (match decode(Before(after, ";")) case Some(t) => Token(t) case None => Undecodable)
  {
    MarkerUnbordered();
    SplitJoin([before, after], CookieMarker);
    assert Join([before, after], CookieMarker) == before + CookieMarker + after;
  }

  /** A cookie without the marker yields no token. */
  lemma CsrfTokenAbsent(cookie: string, decode: string -> Option<string>)
    requires Free("; " + cookie, CookieMarker)
    ensures GetCsrfToken(cookie, decode) == NoToken
  {
  }

  /** A cookie with the marker twice yields no token either. */
  lemma CsrfTokenAmbiguous(cookie: string, a: string, b: string, c: string, decode: string -> Option<string>)
    requires "; " + cookie == a + CookieMarker + (b + CookieMarker + c)
    requires Free(a, CookieMarker) && Free(b, CookieMarker)
    ensures GetCsrfToken(cookie, decode) == NoToken
  {
    MarkerUnbordered();
    SplitPeel(a, CookieMarker, b + CookieMarker + c);
    SplitPeel(b, CookieMarker, c);
  }

  /** The usual browser cookie: the token alone, or first among cookies separated by `; `. */
  lemma CsrfTokenAlone(token: string, rest: string, decode: string -> Option<string>)
    requires forall k :: 0 <= k < |token| ==> token[k] != ';'
    requires Free(rest, CookieMarker)
    ensures GetCsrfToken("XSRF-TOKEN=" + token + rest, decode) ==
      (match decode(Before(token + rest, ";")) case Some(t) => Token(t) case None => Undecodable)
  {
    var after := token + rest;
    assert "; " + ("XSRF-TOKEN=" + token + rest) == "" + CookieMarker + after;
    forall i: nat
      ensures !OccursAt(after, CookieMarker, i)
    {
      if i + |CookieMarker| <= |after| {
        if i < |token| {
          assert after[i..i + |CookieMarker|][0] == token[i];
        } else {
          assert after[i..i + |CookieMarker|] == rest[i - |token|..i - |token| + |CookieMarker|];
          assert !OccursAt(rest, CookieMarker, i - |token|);
        }
      }
    }
    CsrfTokenComplete("XSRF-TOKEN=" + token + rest, "", after, decode);
  }
}
