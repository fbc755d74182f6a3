/**
 * The authentication middleware: `protect` resolves the bearer token of a
 * request to a stored user and attaches it, `authorizeRoles` admits only
 * users whose role is listed. Token verification is a parameter.
 */
module AuthMiddleware {
  import opened Wrappers
  import opened Strings
  import opened Models

  const BearerPrefix := "Bearer "
  const TokenMissing := "Not authorized, token missing"
  const UserNotFound := "Not authorized, user not found"
  const NotAuthenticated := "User not authenticated"
  const RoleNotAuthorized := "User role not authorized"

  /** After the prefix, `split(' ')` always has a second part: the text up to the next space. */
  lemma BearerSplit(header: string)
    requires StartsWith(header, BearerPrefix)
    ensures |Split(header, ' ')| >= 2
    ensures Split(header, ' ')[1] == TakeUntil(header[|BearerPrefix|..], ' ')
  {
    var rest := header[|BearerPrefix|..];
    assert header == "Bearer" + [' '] + rest;
    SplitAtFirstSeparator("Bearer", rest, ' ');
    SplitFirstPart(rest, ' ');
  }

  /**
   * The token `protect` reads from the Authorization header: none when the
   * header is missing or does not start with "Bearer ", otherwise
   * `header.split(' ')[1]`, which is the text after the prefix up to the next
   * space (possibly empty).
   */
  function BearerToken(header: Option<string>): (token: Option<string>)
    ensures token.Some? <==> header.Some? && StartsWith(header.value, BearerPrefix)
    ensures token.Some? ==> token.value == TakeUntil(header.value[|BearerPrefix|..], ' ')
  {
    if header.None? || !StartsWith(header.value, BearerPrefix) then None
    else
      BearerSplit(header.value);
      Some(Split(header.value, ' ')[1])
  }

  /** Two spaces after "Bearer" give the empty token; the token stops at the next space. */
  lemma BearerTokenExamples()
    ensures BearerToken(Some("Bearer  x")) == Some("")
    ensures BearerToken(Some("Bearer abc def")) == Some("abc")
    ensures BearerToken(Some("bearer abc")) == None
    ensures BearerToken(Some("Bearer")) == None
  {
    var h := "Bearer abc def";
    assert StartsWith(h, BearerPrefix);
    var rest := h[|BearerPrefix|..];
    assert rest == "abc def";
    assert "c def"[1..] == " def";
    assert TakeUntil("c def", ' ') == "c";
    assert "bc def"[1..] == "c def";
    assert TakeUntil("bc def", ' ') == "bc";
    assert "abc def"[1..] == "bc def";
    assert TakeUntil(rest, ' ') == "abc";
    assert StartsWith("Bearer  x", BearerPrefix);
    assert "Bearer  x"[|BearerPrefix|..] == " x";
    assert "bearer abc"[..|BearerPrefix|][0] != BearerPrefix[0];
  }

  /** The request as the middleware sees it: its Authorization header and the user attached to it. */
  class Request {
    const authorization: Option<string>
    var user: Option<Profile>

    constructor (authorization: Option<string>)
      ensures this.authorization == authorization && user.None?
    {
      this.authorization := authorization;
      user := None;
    }
  }

  /**
   * `protect`: on success attaches the stored user without its password and
   * calls `next()` (err is None); otherwise calls `next(err)` and attaches
   * nothing. `verify` stands for `jwt.verify` with the server's secret.
   */
  method Protect(req: Request, verify: string -> Result<Id, ErrorValue>, users: UserCollection)
    returns (err: Option<ErrorValue>)
    modifies req
    ensures BearerToken(req.authorization).None? ==>
      err == Some(StatusError(TokenMissing, 401)) && req.user == old(req.user)
    ensures var token := BearerToken(req.authorization);
      token.Some? && verify(token.value).Failure? ==>
        err == Some(verify(token.value).error) && req.user == old(req.user)
    ensures var token := BearerToken(req.authorization);
      token.Some? && verify(token.value).Success? && users.IndexOf(verify(token.value).value).None? ==>
        err == Some(StatusError(UserNotFound, 401)) && req.user == old(req.user)
    ensures var token := BearerToken(req.authorization);
      token.Some? && verify(token.value).Success? && users.IndexOf(verify(token.value).value).Some? ==>
        err.None? && req.user == Some(ProfileOf(users.docs[users.IndexOf(verify(token.value).value).value]))
  {
    var header := req.authorization;
    if header.None? || !StartsWith(header.value, BearerPrefix) {
      err := Some(StatusError(TokenMissing, 401));
      return;
    }
    BearerSplit(header.value);
    var token := Split(header.value, ' ')[1];
    var decoded := verify(token);
    if decoded.Failure? {
      err := Some(decoded.error);
      return;
    }
    var found := users.IndexOf(decoded.value);
    if found.None? {
      err := Some(StatusError(UserNotFound, 401));
      return;
    }
    req.user := Some(ProfileOf(users.docs[found.value]));
    err := None;
  }

  /**
   * `authorizeRoles(...roles)` applied to the attached user: 401 when no user
   * is attached, 403 when the user's role is not listed, otherwise proceed.
   */
  function AuthorizeRoles(roles: seq<string>, user: Option<Profile>): (err: Option<ErrorValue>)
    ensures user.None? ==> err == Some(StatusError(NotAuthenticated, 401))
    ensures user.Some? && user.value.role !in roles ==> err == Some(StatusError(RoleNotAuthorized, 403))
    ensures user.Some? && user.value.role in roles ==> err.None?
  {
    if user.None? then Some(StatusError(NotAuthenticated, 401))
    else if user.value.role !in roles then Some(StatusError(RoleNotAuthorized, 403))
    else None
  }

  /**
   * The missing user is detected before any role is compared: without a user
   * the answer is 401 whatever the roles; with one, 403 exactly when its role
   * is not listed.
   */
  lemma AuthorizeRolesDecision(roles: seq<string>, others: seq<string>, user: Option<Profile>)
    ensures user.None? ==> AuthorizeRoles(roles, user) == AuthorizeRoles(others, user)
    ensures AuthorizeRoles(roles, user).Some? ==> AuthorizeRoles(roles, user).value.status.value in {401, 403}
    ensures (AuthorizeRoles(roles, user).Some? && AuthorizeRoles(roles, user).value.status == Some(403)) <==>
      user.Some? && user.value.role !in roles
  {
  }
}
