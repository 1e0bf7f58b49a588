/**
 * The guard in front of the mutating endpoints: it takes the bearer token
 * from the `Authorization` header and admits the request only when the
 * identity provider confirms admin access for that token. The provider's
 * check is the parameter `verify`.
 */
module AuthGuard {
  import opened Domain
  import opened Text

  const BearerPrefix: string := "Bearer "

  /** `header` begins with the scheme `Bearer` and one space. */
  predicate HasBearerPrefix(header: string) {
    |header| >= |BearerPrefix| && header[..|BearerPrefix|] == BearerPrefix
  }

  /** `token` is the text of `rest` up to its first space, or all of it. */
  predicate FirstWordOf(token: string, rest: string) {
    && NoSpace(token)
    && (rest == token || (|token| < |rest| && rest[..|token| + 1] == token + " "))
  }

  /** The first piece of a split is its first word. */
  lemma SplitHeadIsFirstWord(s: string)
    ensures FirstWordOf(Split(s)[0], s)
  {
    var r := Split(s);
    SplitFirst(s);
    if |r| >= 2 {
      assert s == r[0] + " " + Join(r[1..]);
      assert s[..|r[0]| + 1] == r[0] + " ";
    }
  }

  /**
   * extractTokenFromHeader: `[type, token] = header?.split(' ') ?? []`,
   * and the token only when the type is `Bearer`. A token is found exactly
   * when the header starts with `Bearer ` and is then the first word after
   * it, which may be empty (`"Bearer  x"` yields `""`).
   */
  function ExtractTokenFromHeader(header: Option<string>): (r: Option<string>)
    ensures header.None? ==> r.None?
    ensures header.Some? ==> (r.Some? <==> HasBearerPrefix(header.value))
    ensures r.Some? ==> FirstWordOf(r.value, header.value[|BearerPrefix|..])
  {
    match header
    case None => None
    case Some(h) =>
      var pieces := Split(h);
      var r := if pieces[0] == "Bearer" && |pieces| >= 2 then Some(pieces[1]) else None;
      assert r.Some? ==> HasBearerPrefix(h) by {
        if r.Some? {
          SplitFirst(h);
          assert h == "Bearer" + " " + Join(pieces[1..]);
        }
      }
      assert HasBearerPrefix(h) ==> r.Some? && FirstWordOf(r.value, h[|BearerPrefix|..]) by {
        if HasBearerPrefix(h) {
          var rest := h[|BearerPrefix|..];
          assert h == "Bearer" + " " + rest;
          assert NoSpace("Bearer");
          SplitAfterSpace("Bearer", rest);
          assert pieces == ["Bearer"] + Split(rest);
          SplitHeadIsFirstWord(rest);
        }
      }
      r
  }

  /**
   * canActivate: a missing or empty token is refused with "Token not
   * provided" before the provider is asked; a token the provider rejects is
   * refused with the default "Unauthorized"; otherwise the request passes.
   */
  function CanActivate(header: Option<string>, verify: string -> bool): (r: Result<bool>)
    ensures r.Ok? ==> r.value
    ensures r.Ok? <==> && ExtractTokenFromHeader(header).Some?
                       && ExtractTokenFromHeader(header).value != ""
                       && verify(ExtractTokenFromHeader(header).value)
    ensures r.Err? ==> r.error.Unauthorized?
    ensures ExtractTokenFromHeader(header).None? || ExtractTokenFromHeader(header).value == "" ==>
              r == Err(Unauthorized("Token not provided"))
    ensures (ExtractTokenFromHeader(header).Some? && ExtractTokenFromHeader(header).value != ""
             && !verify(ExtractTokenFromHeader(header).value)) ==> r == Err(Unauthorized("Unauthorized"))
  {
    var token := ExtractTokenFromHeader(header);
    if token.None? || token.value == "" then Err(Unauthorized("Token not provided"))
    else if !verify(token.value) then Err(Unauthorized("Unauthorized"))
    else Ok(true)
  }

  /** Only a `Bearer` header with a non-empty first word that the provider accepts gets through. */
  lemma AdmittedOnlyWithBearerToken(header: Option<string>, verify: string -> bool)
    requires CanActivate(header, verify).Ok?
    ensures header.Some? && HasBearerPrefix(header.value)
    ensures exists token :: token != "" && FirstWordOf(token, header.value[|BearerPrefix|..]) && verify(token)
  {
    var token := ExtractTokenFromHeader(header).value;
    assert token != "" && FirstWordOf(token, header.value[|BearerPrefix|..]) && verify(token);
  }

  /** Without a usable token the provider is never consulted: any two providers give the same refusal. */
  lemma NoTokenIgnoresVerifier(header: Option<string>, v1: string -> bool, v2: string -> bool)
    requires ExtractTokenFromHeader(header).None? || ExtractTokenFromHeader(header).value == ""
    ensures CanActivate(header, v1) == CanActivate(header, v2) == Err(Unauthorized("Token not provided"))
  {
  }

  /** A first word is the prefix of its text that stops just before the first space. */
  lemma FirstWordFacts(t: string, rest: string)
    requires FirstWordOf(t, rest)
    ensures |t| <= |rest| && t == rest[..|t|]
    ensures forall i :: 0 <= i < |t| ==> rest[i] != ' '
    ensures |t| < |rest| ==> rest[|t|] == ' '
  {
    if rest != t {
      assert rest[..|t| + 1][..|t|] == rest[..|t|];
      assert (t + " ")[..|t|] == t;
      assert forall i :: 0 <= i < |t| ==> rest[i] == rest[..|t| + 1][i];
    }
  }

  /** A text has one first word. */
  lemma FirstWordUnique(t: string, u: string, rest: string)
    requires FirstWordOf(t, rest) && FirstWordOf(u, rest)
    ensures t == u
  {
    FirstWordFacts(t, rest);
    FirstWordFacts(u, rest);
  }

  /** The header built from a space-free token gives that token back. */
  lemma BearerRoundTrip(token: string)
    requires NoSpace(token)
    ensures ExtractTokenFromHeader(Some(BearerPrefix + token)) == Some(token)
  {
    var h := BearerPrefix + token;
    assert h[..|BearerPrefix|] == BearerPrefix;
    assert h[|BearerPrefix|..] == token;
    FirstWordUnique(ExtractTokenFromHeader(Some(h)).value, token, token);
  }

  /** Whatever follows the token after another space is ignored (`"Bearer abc extra"` yields `"abc"`). */
  lemma TrailingPartIgnored(token: string, extra: string)
    requires NoSpace(token)
    ensures ExtractTokenFromHeader(Some(BearerPrefix + token + " " + extra)) == Some(token)
  {
    var h := BearerPrefix + token + " " + extra;
    var rest := token + " " + extra;
    assert h[..|BearerPrefix|] == BearerPrefix;
    assert h[|BearerPrefix|..] == rest;
    assert rest[..|token| + 1] == token + " ";
    FirstWordUnique(ExtractTokenFromHeader(Some(h)).value, token, rest);
  }

  /** A second space right after `Bearer ` yields the empty token, which the guard refuses. */
  lemma DoubleSpaceGivesEmptyToken(extra: string, verify: string -> bool)
    ensures ExtractTokenFromHeader(Some(BearerPrefix + " " + extra)) == Some("")
    ensures CanActivate(Some(BearerPrefix + " " + extra), verify) == Err(Unauthorized("Token not provided"))
  {
    TrailingPartIgnored("", extra);
    assert BearerPrefix + "" + " " + extra == BearerPrefix + " " + extra;
  }

  /** Another scheme gives no token. */
  lemma OtherSchemeRefused(verify: string -> bool)
    ensures ExtractTokenFromHeader(Some("Basic abc")).None?
    ensures CanActivate(Some("Basic abc"), verify) == Err(Unauthorized("Token not provided"))
  {
    assert "Basic abc"[1] != BearerPrefix[1];
  }
}
