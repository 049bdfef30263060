/** The two `token_required` decorators of backend/app.py. The file defines the
    decorator twice; routes declared above the second definition (users,
    grievances, comments, attachments, statistics) are wrapped by the first,
    the feedback routes by the second. Both take the token from an
    `Authorization: Bearer <token>` header; JWT verification is a parameter. */
module Auth {
  import opened Options
  import opened Strings

  /** What PyJWT's `jwt.decode` does with a token: expired, otherwise invalid,
      or the decoded claims. */
  datatype JwtResult = ExpiredToken | InvalidToken | Claims(claims: map<string, string>)

  /** The identity the second decorator passes to a feedback route. */
  datatype CurrentUser = CurrentUser(id: string, name: string, email: string, role: string)

  /** The result of a decorator: a JSON error reply, an exception Flask turns
      into a 500, or a call of the wrapped route with the user. */
  datatype Guard<U> = Denied(status: int, error: string) | Crashed | Authorized(user: U)

  const BearerPrefix := "Bearer "

  /** `auth_header.split(' ')[1]` for a header that starts with "Bearer ". */
  function BearerPiece(header: string): string
    requires StartsWith(header, BearerPrefix)
  {
    var rest := header[|BearerPrefix|..];
    assert header == "Bearer" + " " + rest;
    SplitAfterPiece("Bearer", " ", rest);
    Split(header, " ")[1]
  }

  /** The token the first decorator extracts (app.py:191-198): None stands
      for the `not token` case, which replies 401. */
  function TokenV1(authHeader: Option<string>): Option<string>
  {
    var token :=
      if authHeader.Some? && authHeader.value != "" && StartsWith(authHeader.value, BearerPrefix)
      then BearerPiece(authHeader.value)
      else "";
    if token == "" then None else Some(token)
  }

  /** The token the second decorator extracts (app.py:795-807). */
  function TokenV2(authHeader: Option<string>): Option<string>
  {
    var token :=
      if authHeader.Some? then
        if StartsWith(authHeader.value, BearerPrefix) then BearerPiece(authHeader.value) else ""
      else "";
    if token == "" then None else Some(token)
  }

  /** Both decorators extract the same token from every header. */
  lemma TokenVersionsAgree(authHeader: Option<string>)
    ensures TokenV1(authHeader) == TokenV2(authHeader)
  {
  }

  /** A token is found exactly when the header is "Bearer ", then a non-empty
      space-free token, then the end of the header or a space. */
  lemma TokenIff(authHeader: Option<string>, t: string)
    ensures TokenV2(authHeader) == Some(t) <==>
      t != "" && ' ' !in t && authHeader.Some? &&
      StartsWith(authHeader.value, BearerPrefix + t) &&
      (|authHeader.value| == |BearerPrefix| + |t| || authHeader.value[|BearerPrefix| + |t|] == ' ')
  {
    if authHeader.Some? && StartsWith(authHeader.value, BearerPrefix) {
      var h := authHeader.value;
      var rest := h[|BearerPrefix|..];
      assert h == "Bearer" + " " + rest;
      SplitAfterPiece("Bearer", " ", rest);
      var piece := Split(rest, " ")[0];
      assert BearerPiece(h) == piece;
      SplitHead(rest, ' ');
      assert h[..|BearerPrefix| + |piece|] == BearerPrefix + piece;
      if t != "" && ' ' !in t && StartsWith(h, BearerPrefix + t) &&
         (|h| == |BearerPrefix| + |t| || h[|BearerPrefix| + |t|] == ' ') {
        var r := rest[|t|..];
        assert rest == t + r;
        SplitHeadOf(t, r, ' ');
      }
    }
  }

  /** "Bearer " with nothing after it is a missing token. */
  lemma EmptyBearerMissing()
    ensures TokenV1(Some("Bearer ")) == None
  {
    var rest := "Bearer "[|BearerPrefix|..];
    assert rest == "";
    assert BearerPiece("Bearer ") == Split("", " ")[0];
  }

  /** Python's `claims[key]`: None where it would raise KeyError. */
  function Claim(claims: map<string, string>, key: string): Option<string>
  {
    if key in claims then Some(claims[key]) else None
  }

  /** The first decorator (app.py:187-215): missing token, then the JWT
      verdict, then the user lookup (`db.get_user_by_id`, a parameter). */
  function TokenRequiredV1<U>(authHeader: Option<string>, decode: string -> JwtResult,
                              lookup: string -> Option<U>): (g: Guard<U>)
    ensures TokenV1(authHeader).None? ==> g == Denied(401, "Token is missing")
    ensures g.Authorized? ==> exists t :: (TokenV1(authHeader) == Some(t) && decode(t).Claims? &&
      Claim(decode(t).claims, "user_id").Some? &&
      lookup(Claim(decode(t).claims, "user_id").value) == Some(g.user))
    ensures TokenV1(authHeader).Some? && decode(TokenV1(authHeader).value) == ExpiredToken ==>
      g == Denied(401, "Token has expired")
    ensures TokenV1(authHeader).Some? && decode(TokenV1(authHeader).value) == InvalidToken ==>
      g == Denied(401, "Invalid token")
    ensures TokenV1(authHeader).Some? && decode(TokenV1(authHeader).value).Claims? ==>
      var c := decode(TokenV1(authHeader).value).claims;
      (Claim(c, "user_id").None? ==> g == Crashed) &&
      (Claim(c, "user_id").Some? && lookup(Claim(c, "user_id").value).None? ==> g == Denied(404, "User not found")) &&
      (Claim(c, "user_id").Some? && lookup(Claim(c, "user_id").value).Some? ==>
        g == Authorized(lookup(Claim(c, "user_id").value).value))
  {
    match TokenV1(authHeader)
    case None => Denied(401, "Token is missing")
    case Some(t) =>
      match decode(t)
      case ExpiredToken => Denied(401, "Token has expired")
      case InvalidToken => Denied(401, "Invalid token")
      case Claims(c) =>
        match Claim(c, "user_id")
        case None => Crashed
        case Some(uid) =>
          match lookup(uid)
          case None => Denied(404, "User not found")
          case Some(user) => Authorized(user)
  }

  /** The second decorator (app.py:792-831): missing token, then the JWT
      verdict; the user is built from the `id`, `name`, `email` and `role`
      claims without a database lookup. */
  function TokenRequiredV2(authHeader: Option<string>, decode: string -> JwtResult): (g: Guard<CurrentUser>)
    ensures TokenV2(authHeader).None? ==> g == Denied(401, "Token is missing")
    ensures g.Authorized? ==> exists t :: (TokenV2(authHeader) == Some(t) && decode(t).Claims? &&
      var c := decode(t).claims;
      "id" in c && "name" in c && "email" in c && "role" in c &&
      g.user == CurrentUser(c["id"], c["name"], c["email"], c["role"]))
    ensures TokenV2(authHeader).Some? && decode(TokenV2(authHeader).value) == ExpiredToken ==>
      g == Denied(401, "Token has expired")
    ensures TokenV2(authHeader).Some? && decode(TokenV2(authHeader).value) == InvalidToken ==>
      g == Denied(401, "Invalid token")
    ensures TokenV2(authHeader).Some? && decode(TokenV2(authHeader).value).Claims? ==>
      var c := decode(TokenV2(authHeader).value).claims;
      ("id" in c && "name" in c && "email" in c && "role" in c ==>
        g == Authorized(CurrentUser(c["id"], c["name"], c["email"], c["role"]))) &&
      (!("id" in c && "name" in c && "email" in c && "role" in c) ==> g == Crashed)
  {
    match TokenV2(authHeader)
    case None => Denied(401, "Token is missing")
    case Some(t) =>
      match decode(t)
      case ExpiredToken => Denied(401, "Token has expired")
      case InvalidToken => Denied(401, "Invalid token")
      case Claims(c) =>
        if "id" in c && "name" in c && "email" in c && "role" in c
        then Authorized(CurrentUser(c["id"], c["name"], c["email"], c["role"]))
        else Crashed
  }

  /** The claims `generate_token` (app.py:179-185) puts in every token this
      backend issues: `user_id` and the expiry, and nothing else. */
  function IssuedClaims(userId: string, expiry: string): (c: map<string, string>)
    ensures c.Keys == {"user_id", "exp"} && c["user_id"] == userId
  {
    map["user_id" := userId, "exp" := expiry]
  }

  /** A token issued by register or login passes the first decorator for a
      known user, but the second one, which guards the feedback routes,
      raises a KeyError on `data['id']` for it. */
  lemma IssuedTokenCrashesFeedbackRoutes<U>(authHeader: Option<string>, decode: string -> JwtResult,
                                            lookup: string -> Option<U>, userId: string, expiry: string)
    requires TokenV2(authHeader).Some?
    requires decode(TokenV2(authHeader).value) == Claims(IssuedClaims(userId, expiry))
    ensures TokenRequiredV2(authHeader, decode) == Crashed
    ensures lookup(userId).Some? ==> TokenRequiredV1(authHeader, decode, lookup) == Authorized(lookup(userId).value)
  {
    TokenVersionsAgree(authHeader);
    assert "id" !in IssuedClaims(userId, expiry);
  }
}
