/**
 * The authentication middleware: the bearer token read from the
 * `Authorization` header, the two token checks that set `req.auth`, the
 * permission gate built for a fixed endpoint template, the role's permission
 * rows it loads, and `setToken`, which forwards a login result with a fresh
 * pair of tokens.
 */
module AuthMiddleware {
  import opened Js
  import opened Errors
  import opened Jwt
  import opened AuthService
  import opened Http
  import opened ModelKit

  const NoTokenMessage := "No authorization provided. Access token required"
  const DeniedMessage := "Access denied. User does not have permission"

  /** `{ message }` */
  function MessageBody(message: string): Value
  {
    Obj(map["message" := Str(message)])
  }

  /**
   * `req.header('Authorization')?.replace('Bearer ', '')`, used only when
   * truthy: the header with the first occurrence of `Bearer ` removed, wherever
   * it stands, and nothing when the header is absent or nothing is left.
   */
  function ObtainToken(authorization: Option<string>): (token: Option<string>)
    ensures authorization.None? ==> token.None?
    ensures token.Some? ==> token.value != "" && authorization.Some? && |token.value| <= |authorization.value|
    ensures authorization.Some? && !Contains(authorization.value, "Bearer ") ==>
              token == (if authorization.value == "" then None else Some(authorization.value))
  {
    if authorization.None? then None
    else
      var stripped := ReplaceFirst(authorization.value, "Bearer ", "");
      if stripped == "" then None else Some(stripped)
  }

  /** A `Bearer ` header yields exactly what follows the prefix; a bare `Bearer ` yields no token. */
  lemma BearerTokenStripped(t: string)
    ensures ObtainToken(Some("Bearer " + t)) == (if t == "" then None else Some(t))
    ensures ObtainToken(Some("Bearer ")) == None
  {
    ReplaceFirstAtStart("Bearer ", t, "");
    assert "" + t == t;
    ReplaceFirstAtStart("Bearer ", "", "");
    assert "Bearer " + "" == "Bearer ";
  }

  /**
   * The error a rejected verification hands to the response helper: the
   * library error with its own `name` and `message` (and `expiredAt`, here in
   * seconds), or the 403 answer for a token of the wrong type.
   */
  function RejectionValue(r: Rejection): (v: Value)
    ensures v.Obj?
    ensures r.WrongType? ==> v == ResponseJson(r.answer)
    ensures r.VerifyFailed? ==> "name" in v.fields && "message" in v.fields
  {
    match r
    case VerifyFailed(JsonWebTokenError(m)) =>
      Obj(map["name" := Str("JsonWebTokenError"), "message" := Str(m)])
    case VerifyFailed(TokenExpiredError(at)) =>
      Obj(map["name" := Str("TokenExpiredError"), "message" := Str("jwt expired"), "expiredAt" := Num(at as real)])
    case WrongType(answer) => ResponseJson(answer)
  }

  // -----------------------------------------------------------------------
  // authenticateToken and refreshAuthenticate

  /** What `authenticateToken` settles the request with. */
  function AuthenticateOutcome(authorization: Option<string>, decode: map<string, Sealed>, secret: string, now: int): (o: Outcome)
    ensures ObtainToken(authorization).None? ==> o == Replied(Unauthorized, MessageBody(NoTokenMessage))
    ensures o.Next? <==>
      ObtainToken(authorization).Some? && GetDataFromToken(Str(ObtainToken(authorization).value), decode, secret, now).Ok?
    ensures o.Next? ==> o.arg.None?
    ensures !o.Next? ==> o.Replied? && o.helper == Unauthorized
  {
    match ObtainToken(authorization)
    case None => Replied(Unauthorized, MessageBody(NoTokenMessage))
    case Some(token) =>
      match GetDataFromToken(Str(token), decode, secret, now)
      case Err(rejection) => Replied(Unauthorized, RejectionValue(rejection))
      case Ok(_) => Next(None)
  }

  /** `authenticateToken`: an access token sets `req.auth` to its claims before `next()`; anything else is answered 401. */
  method AuthenticateToken(ex: Exchange, req: Request, decode: map<string, Sealed>, secret: string, now: int)
    modifies ex
    ensures ex.outcome == AuthenticateOutcome(req.authorization, decode, secret, now)
    ensures ex.outcome.Next? ==> ex.auth == GetDataFromToken(Str(ObtainToken(req.authorization).value), decode, secret, now).value
    ensures !ex.outcome.Next? ==> ex.auth == old(ex.auth)
  {
    var token := ObtainToken(req.authorization);
    if token.None? {
      // the promise never settles, so nothing after it runs
      ex.Reply(Unauthorized, MessageBody(NoTokenMessage));
    } else {
      var check := GetDataFromToken(Str(token.value), decode, secret, now);
      if check.Err? {
        ex.Reply(Unauthorized, RejectionValue(check.error));
      } else {
        ex.SetAuth(check.value);
        ex.Proceed(None);
      }
    }
  }

  /** What `refreshAuthenticate` settles the request with: the body's `refreshToken`, checked with the default expected type. */
  function RefreshOutcome(body: Props, decode: map<string, Sealed>, secret: string, now: int): (o: Outcome)
    ensures o.Next? <==> GetDataFromToken(Get(body, "refreshToken"), decode, secret, now, "access").Ok?
    ensures o.Next? ==> o.arg.None?
    ensures !o.Next? ==> o.Replied? && o.helper == Unauthorized
    ensures "refreshToken" !in body ==>
              o == Replied(Unauthorized, RejectionValue(VerifyFailed(JsonWebTokenError("jwt must be provided"))))
  {
    match GetDataFromToken(Get(body, "refreshToken"), decode, secret, now)
    case Err(rejection) => Replied(Unauthorized, RejectionValue(rejection))
    case Ok(_) => Next(None)
  }

  /** `refreshAuthenticate` */
  method RefreshAuthenticate(ex: Exchange, req: Request, decode: map<string, Sealed>, secret: string, now: int)
    modifies ex
    ensures ex.outcome == RefreshOutcome(req.body, decode, secret, now)
    ensures ex.outcome.Next? ==> ex.auth == GetDataFromToken(Get(req.body, "refreshToken"), decode, secret, now).value
    ensures !ex.outcome.Next? ==> ex.auth == old(ex.auth)
  {
    var check := GetDataFromToken(Get(req.body, "refreshToken"), decode, secret, now);
    if check.Err? {
      ex.Reply(Unauthorized, RejectionValue(check.error));
    } else {
      ex.SetAuth(check.value);
      ex.Proceed(None);
    }
  }

  /**
   * For a freshly generated pair that has not expired: the access token
   * passes `authenticateToken` and a refresh token is refused with the 403
   * answer; `refreshAuthenticate` does the same, since it also expects an
   * access token, so the refresh token can never refresh.
   */
  lemma TokenChecksAcceptOnlyAccessTokens(payload: Claims, settings: Settings, issued: int, now: int,
                                          decode: map<string, Sealed>, accessText: string, refreshText: string)
    requires accessText != "" && refreshText != ""
    requires accessText in decode && decode[accessText] == GenerateTokens(payload, settings, issued).0
    requires refreshText in decode && decode[refreshText] == GenerateTokens(payload, settings, issued).1
    requires ExpiresIn(settings.jwtTime).None? || now < issued + ExpiresIn(settings.jwtTime).value
    requires ExpiresIn(settings.jwtRefreshTime).None? || now < issued + ExpiresIn(settings.jwtRefreshTime).value
    ensures AuthenticateOutcome(Some("Bearer " + accessText), decode, settings.secret, now) == Next(None)
    ensures AuthenticateOutcome(Some("Bearer " + refreshText), decode, settings.secret, now) ==
              Replied(Unauthorized, ResponseJson(ForbiddenAnswer()))
    ensures RefreshOutcome(map["refreshToken" := Str(accessText)], decode, settings.secret, now) == Next(None)
    ensures RefreshOutcome(map["refreshToken" := Str(refreshText)], decode, settings.secret, now) ==
              Replied(Unauthorized, ResponseJson(ForbiddenAnswer()))
  {
    GenerateTokensRoundTrip(payload, settings, issued, now, decode, accessText, refreshText);
    BearerTokenStripped(accessText);
    BearerTokenStripped(refreshText);
  }

  // -----------------------------------------------------------------------
  // _getRolePermissionsByName

  /**
   * The value `_getRolePermissionsByName` resolves with: each row cut down
   * to its `permission_action` and `permission_endpoint`, or no list at all
   * when the model failed (the error is classified and dropped), answered
   * with no rows (the not-found helper is handed the rows, not the
   * response), answered with something that is not an array, or with a row
   * that cannot be destructured.
   */
  function RolePermissions(answer: Result<Value, Error>): (rows: Option<seq<PermissionRow>>)
    ensures rows.Some? <==>
      && answer.Ok? && answer.value.Arr? && answer.value.items != []
      && forall i | 0 <= i < |answer.value.items| :: !answer.value.items[i].Undefined? && !answer.value.items[i].Null?
    ensures rows.Some? ==>
      && |rows.value| == |answer.value.items|
      && forall i | 0 <= i < |rows.value| ::
           && rows.value[i].action == Prop(answer.value.items[i], "permission_action").value
           && rows.value[i].endpoint == Prop(answer.value.items[i], "permission_endpoint").value
  {
    if answer.Err? || NoResults(answer.value) || !answer.value.Arr? then None
    else
      var items := answer.value.items;
      if exists i | 0 <= i < |items| :: items[i].Undefined? || items[i].Null? then None
      else Some(seq(|items|, i requires 0 <= i < |items| =>
                      PermissionRow(Prop(items[i], "permission_action").value, Prop(items[i], "permission_endpoint").value)))
  }

  /** `_getRolePermissionsByName`: the role's rows through the model, on a connection closed whatever the answer. */
  method RolePermissionsByName(pool: Pool, roleName: Value, getRolesHasPermissions: Props -> Result<Value, Error>)
    returns (rows: Option<seq<PermissionRow>>)
    modifies pool
    ensures pool.open == old(pool.open)
    ensures rows == RolePermissions(getRolesHasPermissions(map["roleName" := roleName]))
  {
    pool.Start();
    rows := RolePermissions(getRolesHasPermissions(map["roleName" := roleName]));
    pool.End();
  }

  // -----------------------------------------------------------------------
  // authorizePermission

  /**
   * What `authorizePermission(endpoint)` settles the request with, and what
   * `req.auth` becomes. The endpoint looked up is always the template the
   * gate was built with; the action is the request's method. A failure after
   * the token was decoded (no permission list, no endpoint row while an
   * action matches, the endpoint lookup failing) rejects a promise chain
   * that nobody returned, so the request is left pending.
   */
  function Authorization(req: Request, endpoint: Value, decode: map<string, Sealed>, secret: string, now: int, auth: Props,
                         getRolesHasPermissions: Props -> Result<Value, Error>,
                         getEndpoints: Props -> Result<seq<Props>, Error>): (r: (Outcome, Props))
    ensures ObtainToken(req.authorization).None? ==> r == (Replied(Unauthorized, MessageBody(NoTokenMessage)), auth)
    ensures ObtainToken(req.authorization).Some? && GetDataFromToken(Str(ObtainToken(req.authorization).value), decode, secret, now).Err? ==>
              r == (Replied(AccessDenied, RejectionValue(GetDataFromToken(Str(ObtainToken(req.authorization).value), decode, secret, now).error)), auth)
    ensures r.0.Next? ==> r.0 == Next(None) && r.1.Keys == auth.Keys + {"user", "role"}
    ensures !r.0.Next? ==> r.1 == auth
    ensures r.0 == Pending || r.0.Next? || (r.0.Replied? && r.0.helper != NotFound)
  {
    match ObtainToken(req.authorization)
    case None => (Replied(Unauthorized, MessageBody(NoTokenMessage)), auth)
    case Some(token) =>
      match GetDataFromToken(Str(token), decode, secret, now)
      case Err(rejection) => (Replied(AccessDenied, RejectionValue(rejection)), auth)
      case Ok(decoded) =>
        var roleName := Get(decoded, "role");
        var rows := RolePermissions(getRolesHasPermissions(map["roleName" := roleName]));
        match CheckPermission(Str(req.httpMethod), getEndpoints(map["route" := endpoint]), rows)
        case Err(_) => (Pending, auth)
        case Ok(false) => (Replied(AccessDenied, MessageBody(DeniedMessage)), auth)
        case Ok(true) => (Next(None), auth["user" := Get(decoded, "user")]["role" := roleName])
  }

  /** `authorizePermission(endpoint)` applied to one request that nothing has answered yet. */
  method AuthorizePermission(ex: Exchange, pool: Pool, endpoint: Value, req: Request,
                             decode: map<string, Sealed>, secret: string, now: int,
                             getRolesHasPermissions: Props -> Result<Value, Error>,
                             getEndpoints: Props -> Result<seq<Props>, Error>)
    requires ex.outcome == Pending
    modifies ex, pool
    ensures pool.open == old(pool.open)
    ensures (ex.outcome, ex.auth) ==
              Authorization(req, endpoint, decode, secret, now, old(ex.auth), getRolesHasPermissions, getEndpoints)
  {
    var token := ObtainToken(req.authorization);
    if token.None? {
      ex.Reply(Unauthorized, MessageBody(NoTokenMessage));
      return;
    }
    var check := GetDataFromToken(Str(token.value), decode, secret, now);
    if check.Err? {
      ex.Reply(AccessDenied, RejectionValue(check.error));
      return;
    }
    var decoded := check.value;
    var roleName := Get(decoded, "role");
    var rows := RolePermissionsByName(pool, roleName, getRolesHasPermissions);
    // `_getEndpointByRoute`: its own connection, closed in `finally`
    pool.Start();
    var lookup := getEndpoints(map["route" := endpoint]);
    pool.End();
    var decision := CheckPermission(Str(req.httpMethod), lookup, rows);
    if decision.Err? {
      // the rejection escapes the unreturned chain: nothing is sent
      return;
    }
    if !decision.value {
      ex.Reply(AccessDenied, MessageBody(DeniedMessage));
      return;
    }
    ex.SetAuth(ex.auth["user" := Get(decoded, "user")]["role" := roleName]);
    ex.Proceed(None);
  }

  /**
   * Once the token is decoded, the role's rows are loaded and the template's
   * endpoint row is found, the gate lets the request through exactly when
   * some row pairs the request's method with that row's id, setting
   * `req.auth.user` and `req.auth.role` from the token; otherwise it denies.
   */
  lemma AuthorizationDecision(req: Request, endpoint: Value, decode: map<string, Sealed>, secret: string, now: int, auth: Props,
                              getRolesHasPermissions: Props -> Result<Value, Error>,
                              getEndpoints: Props -> Result<seq<Props>, Error>,
                              token: string, decoded: Claims, rows: seq<PermissionRow>, found: seq<Props>)
    requires ObtainToken(req.authorization) == Some(token)
    requires GetDataFromToken(Str(token), decode, secret, now) == Ok(decoded)
    requires RolePermissions(getRolesHasPermissions(map["roleName" := Get(decoded, "role")])) == Some(rows)
    requires getEndpoints(map["route" := endpoint]) == Ok(found) && found != []
    ensures var r := Authorization(req, endpoint, decode, secret, now, auth, getRolesHasPermissions, getEndpoints);
      && (r.0 == Next(None) <==> AnyRowGrants(rows, Str(req.httpMethod), Get(found[0], "id")))
      && (r.0 != Next(None) ==> r.0 == Replied(AccessDenied, MessageBody(DeniedMessage)))
      && (r.0 == Next(None) ==> r.1["user"] == Get(decoded, "user") && r.1["role"] == Get(decoded, "role"))
  {
    CheckPermissionDecision(Str(req.httpMethod), found, rows);
  }

  /**
   * A role with no permission list (no rows, a failed query) leaves the
   * request pending: `.some` throws inside the chain nobody returned, so
   * neither a 403 nor `next` follows.
   */
  lemma MissingPermissionsLeavePending(req: Request, endpoint: Value, decode: map<string, Sealed>, secret: string, now: int, auth: Props,
                                       getRolesHasPermissions: Props -> Result<Value, Error>,
                                       getEndpoints: Props -> Result<seq<Props>, Error>,
                                       token: string, decoded: Claims)
    requires ObtainToken(req.authorization) == Some(token)
    requires GetDataFromToken(Str(token), decode, secret, now) == Ok(decoded)
    requires var answer := getRolesHasPermissions(map["roleName" := Get(decoded, "role")]);
      answer.Err? || answer.value == Arr([])
    ensures Authorization(req, endpoint, decode, secret, now, auth, getRolesHasPermissions, getEndpoints) == (Pending, auth)
  {
    assert RolePermissions(getRolesHasPermissions(map["roleName" := Get(decoded, "role")])).None?;
  }

  /** A request whose method no row of the role carries is denied whenever the endpoint lookup succeeds, whatever it found. */
  lemma UnlistedMethodDenied(req: Request, endpoint: Value, decode: map<string, Sealed>, secret: string, now: int, auth: Props,
                             getRolesHasPermissions: Props -> Result<Value, Error>,
                             getEndpoints: Props -> Result<seq<Props>, Error>,
                             token: string, decoded: Claims, rows: seq<PermissionRow>)
    requires ObtainToken(req.authorization) == Some(token)
    requires GetDataFromToken(Str(token), decode, secret, now) == Ok(decoded)
    requires RolePermissions(getRolesHasPermissions(map["roleName" := Get(decoded, "role")])) == Some(rows)
    requires getEndpoints(map["route" := endpoint]).Ok?
    requires !AnyActionMatches(rows, Str(req.httpMethod))
    ensures Authorization(req, endpoint, decode, secret, now, auth, getRolesHasPermissions, getEndpoints) ==
              (Replied(AccessDenied, MessageBody(DeniedMessage)), auth)
  {
    CheckPermissionDecision(Str(req.httpMethod), getEndpoints(map["route" := endpoint]).value, rows);
  }

  // -----------------------------------------------------------------------
  // setToken

  /** The payload `setToken` signs: `{role, user: uuid}` from `result._data`. */
  function LoginPayload(data: Value): (payload: Claims)
    requires Prop(data, "uuid").Some?
    ensures payload.Keys == {"role", "user"}
    ensures payload["user"] == Prop(data, "uuid").value && payload["role"] == Prop(data, "role").value
  {
    map["role" := Prop(data, "role").value, "user" := Prop(data, "uuid").value]
  }

  /**
   * What `setToken(result, ...)` settles the request with: `next` with
   * `{user: {...result, accessToken, refreshToken}}`, the tokens written out
   * by `text`; reading `_data` of a result that has none throws.
   */
  function SetTokenOutcome(result: Value, settings: Settings, now: int, text: Sealed -> string): (o: Outcome)
    ensures o.Next? <==> result.Obj? && Prop(Get(result.fields, "_data"), "uuid").Some?
    ensures !o.Next? ==> o.Thrown?
    ensures o.Next? ==>
      && o.arg.Some? && o.arg.value.Obj? && o.arg.value.fields.Keys == {"user"}
      && var user := o.arg.value.fields["user"];
         && user.Obj? && user.fields.Keys == result.fields.Keys + {"accessToken", "refreshToken"}
         && (forall k | k in result.fields && k !in {"accessToken", "refreshToken"} :: user.fields[k] == result.fields[k])
  {
    var data := Prop(result, "_data");
    if data.None? then Thrown(TypeError("reading '_data'"))
    else if Prop(data.value, "uuid").None? then Thrown(TypeError("destructuring 'uuid'"))
    else
      var (access, refresh) := GenerateTokens(LoginPayload(data.value), settings, now);
      var user := result.fields["accessToken" := Str(text(access))]["refreshToken" := Str(text(refresh))];
      Next(Some(Obj(map["user" := Obj(user)])))
  }

  /** `setToken`: forwards the login result with both tokens; `req.auth` is untouched. */
  method SetToken(ex: Exchange, result: Value, settings: Settings, now: int, text: Sealed -> string)
    modifies ex
    ensures ex.auth == old(ex.auth)
    ensures ex.outcome == SetTokenOutcome(result, settings, now, text)
  {
    var data := Prop(result, "_data");
    if data.None? {
      ex.Throw(TypeError("reading '_data'"));
    } else if Prop(data.value, "uuid").None? {
      ex.Throw(TypeError("destructuring 'uuid'"));
    } else {
      var payload := LoginPayload(data.value);
      var (access, refresh) := GenerateTokens(payload, settings, now);
      var user := result.fields["accessToken" := Str(text(access))]["refreshToken" := Str(text(refresh))];
      ex.Proceed(Some(Obj(map["user" := Obj(user)])));
    }
  }

  /** The user `setToken` forwards carries the two generated tokens, written out by `text`. */
  lemma SetTokenUser(result: Value, settings: Settings, issued: int, text: Sealed -> string)
    requires SetTokenOutcome(result, settings, issued, text).Next?
    ensures var tokens := GenerateTokens(LoginPayload(Get(result.fields, "_data")), settings, issued);
      var user := SetTokenOutcome(result, settings, issued, text).arg.value.fields["user"].fields;
      user["accessToken"] == Str(text(tokens.0)) && user["refreshToken"] == Str(text(tokens.1))
  {
  }

  /**
   * The tokens `setToken` forwards work as login credentials: sent back as
   * `Bearer` token before it expires, the access token passes
   * `authenticateToken`, whose claims name the logged-in user and role; the
   * refresh token is refused by `refreshAuthenticate`.
   */
  lemma SetTokenCredentials(result: Value, settings: Settings, issued: int, now: int, text: Sealed -> string,
                            decode: map<string, Sealed>)
    requires SetTokenOutcome(result, settings, issued, text).Next?
    requires var tokens := GenerateTokens(LoginPayload(Get(result.fields, "_data")), settings, issued);
      && text(tokens.0) != "" && text(tokens.0) in decode && decode[text(tokens.0)] == tokens.0
      && text(tokens.1) != "" && text(tokens.1) in decode && decode[text(tokens.1)] == tokens.1
    requires ExpiresIn(settings.jwtTime).None? || now < issued + ExpiresIn(settings.jwtTime).value
    requires ExpiresIn(settings.jwtRefreshTime).None? || now < issued + ExpiresIn(settings.jwtRefreshTime).value
    ensures var tokens := GenerateTokens(LoginPayload(Get(result.fields, "_data")), settings, issued);
      var user := SetTokenOutcome(result, settings, issued, text).arg.value.fields["user"].fields;
      && user["accessToken"] == Str(text(tokens.0)) && user["refreshToken"] == Str(text(tokens.1))
      && AuthenticateOutcome(Some("Bearer " + text(tokens.0)), decode, settings.secret, now) == Next(None)
      && GetDataFromToken(Str(text(tokens.0)), decode, settings.secret, now).Ok?
      && Get(GetDataFromToken(Str(text(tokens.0)), decode, settings.secret, now).value, "user") == Prop(Get(result.fields, "_data"), "uuid").value
      && Get(GetDataFromToken(Str(text(tokens.0)), decode, settings.secret, now).value, "role") == Prop(Get(result.fields, "_data"), "role").value
      && RefreshOutcome(map["refreshToken" := Str(text(tokens.1))], decode, settings.secret, now) ==
           Replied(Unauthorized, ResponseJson(ForbiddenAnswer()))
  {
    var data := Get(result.fields, "_data");
    var payload := LoginPayload(data);
    var (access, refresh) := GenerateTokens(payload, settings, issued);
    SetTokenUser(result, settings, issued, text);
    TokenChecksAcceptOnlyAccessTokens(payload, settings, issued, now, decode, text(access), text(refresh));
    GenerateTokensRoundTrip(payload, settings, issued, now, decode, text(access), text(refresh));
  }
}
