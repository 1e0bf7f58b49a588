/**
 * The `@AuthToken()` parameter decorator: hands the bearer token of the
 * `Authorization` header to a controller method, refusing a missing
 * header, another scheme or an empty token, each with its own message.
 */
module AuthTokenDecorator {
  import opened Domain
  import opened Text
  import opened AuthGuard

  const NoHeader: string := "No authorization header provided"
  const NotBearer: string := "Authorization header must be of type Bearer"
  const NoToken: string := "No token provided"

  /** AuthToken: the checks in order (header, scheme, token), each refusal Unauthorized with its message. */
  function AuthToken(header: Option<string>): (r: Result<string>)
    ensures header.None? || header.value == "" ==> r == Err(Unauthorized(NoHeader))
    ensures r.Ok? ==> header.Some? && HasBearerPrefix(header.value) && r.value != ""
                      && FirstWordOf(r.value, header.value[|BearerPrefix|..])
    ensures r.Err? ==> r.error in {Unauthorized(NoHeader), Unauthorized(NotBearer), Unauthorized(NoToken)}
    ensures header.Some? && header.value != "" && Split(header.value)[0] != "Bearer" ==> r == Err(Unauthorized(NotBearer))
    ensures (header.Some? && header.value != "" && Split(header.value)[0] == "Bearer"
             && (|Split(header.value)| < 2 || Split(header.value)[1] == "")) ==> r == Err(Unauthorized(NoToken))
  {
    if header.None? || header.value == "" then Err(Unauthorized(NoHeader))
    else
      var pieces := Split(header.value);
      if pieces[0] != "Bearer" then Err(Unauthorized(NotBearer))
      else if |pieces| < 2 || pieces[1] == "" then Err(Unauthorized(NoToken))
      else
        assert ExtractTokenFromHeader(header) == Some(pieces[1]);
        Ok(pieces[1])
  }

  /** The decorator yields a token exactly when the guard finds a non-empty one, and it is the same token. */
  lemma AgreesWithGuard(header: Option<string>)
    ensures AuthToken(header).Ok? <==> ExtractTokenFromHeader(header).Some? && ExtractTokenFromHeader(header).value != ""
    ensures AuthToken(header).Ok? ==> Some(AuthToken(header).value) == ExtractTokenFromHeader(header)
  {
    if header.Some? && header.value != "" {
      var pieces := Split(header.value);
      assert ExtractTokenFromHeader(header) == if pieces[0] == "Bearer" && |pieces| >= 2 then Some(pieces[1]) else None;
    }
  }

  /** A request the guard admits hands its handler the very token the provider accepted. */
  lemma AdmittedRequestHasToken(header: Option<string>, verify: string -> bool)
    requires CanActivate(header, verify).Ok?
    ensures AuthToken(header).Ok? && verify(AuthToken(header).value)
  {
    AgreesWithGuard(header);
  }

  /** A header that is only the scheme, or the scheme and a space, is refused for its missing token. */
  lemma SchemeOnlyHasNoToken()
    ensures AuthToken(Some("Bearer")) == Err(Unauthorized(NoToken))
    ensures AuthToken(Some(BearerPrefix)) == Err(Unauthorized(NoToken))
  {
    assert NoSpace("Bearer");
    SplitNoSpace("Bearer");
    assert BearerPrefix == "Bearer" + " " + "";
    SplitAfterSpace("Bearer", "");
  }
}
