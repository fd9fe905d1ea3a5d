/** Request authentication of the API: a `Bearer` access token taken from the
    Authorization header and checked by the identity provider, which is a parameter. */
module Auth {
  import opened Wrappers
  import opened Text
  import opened ApiErrors

  const BearerPrefix := "Bearer "

  /** An authenticated request: the user the provider returned and the token it was
      given. */
  datatype Authenticated<User> = Authenticated(user: User, accessToken: string)

  /** `authenticateRequest`: a missing header, or one not starting with `Bearer `
      (case-sensitive), is refused before the provider is asked; otherwise the rest of
      the header is the token, and a token the provider does not recognise is refused. */
  function AuthenticateRequest<User>(authorization: Option<string>, verifyToken: string -> Option<User>)
    : (r: Result<Authenticated<User>, ApiError>)
    ensures r.Ok? <==> authorization.Some? && StartsWith(authorization.value, BearerPrefix)
                        && verifyToken(authorization.value[|BearerPrefix|..]).Some?
    ensures r.Ok? ==> BearerPrefix + r.value.accessToken == authorization.value
    ensures r.Ok? ==> Some(r.value.user) == verifyToken(r.value.accessToken)
    ensures r.Err? ==> r.error.statusCode == 401 && r.error.code == Some("AUTHENTICATION_ERROR")
    ensures r.Err? && (authorization.None? || !StartsWith(authorization.value, BearerPrefix)) ==>
      r.error.message == "Missing or invalid Authorization header"
    ensures r.Err? && authorization.Some? && StartsWith(authorization.value, BearerPrefix) ==>
      r.error.message == "Invalid or expired token"
  {
    if authorization.None? || !StartsWith(authorization.value, BearerPrefix) then
      Err(AuthenticationError(Some("Missing or invalid Authorization header")))
    else
      var header := authorization.value;
      assert header == header[..|BearerPrefix|] + header[|BearerPrefix|..];
      var accessToken := header[|BearerPrefix|..];
      match verifyToken(accessToken)
      case None => Err(AuthenticationError(Some("Invalid or expired token")))
      case Some(user) => Ok(Authenticated(user, accessToken))
  }

  /** A well-formed header carries its token through exactly: the request is
      authenticated with that token precisely when the provider accepts it. */
  lemma BearerRoundTrip<User>(token: string, verifyToken: string -> Option<User>)
    ensures var r := AuthenticateRequest(Some(BearerPrefix + token), verifyToken);
      && (r.Ok? <==> verifyToken(token).Some?)
      && (r.Ok? ==> r.value == Authenticated(verifyToken(token).value, token))
  {
    assert StartsWith(BearerPrefix + token, BearerPrefix);
    assert (BearerPrefix + token)[|BearerPrefix|..] == token;
  }

  /** The scheme is matched case-sensitively: a lower-case `bearer` is refused whatever
      the provider would say, and so is a header without a token separator. */
  lemma SchemeIsCaseSensitive<User>(token: string, verifyToken: string -> Option<User>)
    ensures AuthenticateRequest(Some("bearer " + token), verifyToken).Err?
    ensures AuthenticateRequest(Some("Bearer"), verifyToken).Err?
  {
    assert ("bearer " + token)[0] != BearerPrefix[0];
  }
}
