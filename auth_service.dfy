/**
 * The token service: typed access/refresh tokens, their verification against
 * an expected type, and the permission decision over a role's
 * (action, endpoint) rows.
 */
module AuthService {
  import opened Js
  import opened Errors
  import opened Jwt

  /** The settings read from the environment: the signing secret and the two expiry settings as raw text. */
  datatype Settings = Settings(secret: string, jwtTime: Option<string>, jwtRefreshTime: Option<string>)

  /** Why `getDataFromToken` rejects: the verifier's own error, or the 403 answer for a token of the wrong type. */
  datatype Rejection = VerifyFailed(error: JwtError) | WrongType(answer: Errors.Response)

  /** The answer a token of the wrong type is rejected with: `errorHandler(error403())`, no environment. */
  function ForbiddenAnswer(): Errors.Response
  {
    Classify(Error403(), None, None)
  }

  /** `getDataFromToken(token, expectedType = 'access')` */
  function GetDataFromToken(token: Value, decode: map<string, Sealed>, secret: string, now: int,
                            expectedType: string := "access"): Result<Claims, Rejection>
  {
    match Verify(token, decode, secret, now)
    case Err(e) => Err(VerifyFailed(e))
    case Ok(decoded) =>
      if !StrictEq(Get(decoded, "type"), Str(expectedType)) then Err(WrongType(ForbiddenAnswer()))
      else Ok(decoded)
  }

  /**
   * The three outcomes of verification: the verifier's error unchanged, the
   * 403 Forbidden answer for a validly signed token of another type, or the
   * decoded payload unchanged. Without an expected type, 'access' is used.
   */
  lemma GetDataFromTokenOutcomes(token: Value, decode: map<string, Sealed>, secret: string, now: int, expectedType: string)
    ensures GetDataFromToken(token, decode, secret, now) == GetDataFromToken(token, decode, secret, now, "access")
    ensures Verify(token, decode, secret, now).Err? ==>
              GetDataFromToken(token, decode, secret, now, expectedType) == Err(VerifyFailed(Verify(token, decode, secret, now).error))
    ensures Verify(token, decode, secret, now).Ok? && Get(Verify(token, decode, secret, now).value, "type") != Str(expectedType) ==>
              GetDataFromToken(token, decode, secret, now, expectedType) == Err(WrongType(Errors.Response("Forbidden", 403, None)))
    ensures Verify(token, decode, secret, now).Ok? && Get(Verify(token, decode, secret, now).value, "type") == Str(expectedType) ==>
              GetDataFromToken(token, decode, secret, now, expectedType) == Ok(Verify(token, decode, secret, now).value)
  {
  }

  /** `parseInt(setting, 10)` used as a condition: only a nonzero number attaches an expiry. */
  function ExpiresIn(setting: Option<string>): (e: Option<int>)
    ensures e.Some? <==> setting.Some? && ParseInt(setting.value).Some? && ParseInt(setting.value).value != 0
    ensures e.Some? ==> e == ParseInt(setting.value)
  {
    var parsed := if setting.Some? then ParseInt(setting.value) else None;
    if parsed.Some? && parsed.value != 0 then parsed else None
  }

  /** `generateAccessToken(payload)`: `{ ...payload, type: 'access' }` signed with the `JWT_TIME` expiry. */
  function GenerateAccessToken(payload: Claims, settings: Settings, now: int): Sealed
  {
    Sign(payload["type" := Str("access")], settings.secret, now, ExpiresIn(settings.jwtTime))
  }

  /** `generateRefreshToken(payload)`: `{ ...payload, type: 'refresh' }` signed with the `JWT_REFRESH_TIME` expiry. */
  function GenerateRefreshToken(payload: Claims, settings: Settings, now: int): Sealed
  {
    Sign(payload["type" := Str("refresh")], settings.secret, now, ExpiresIn(settings.jwtRefreshTime))
  }

  /** `generateTokens(payload)`: the same payload signed twice. */
  function GenerateTokens(payload: Claims, settings: Settings, now: int): (Sealed, Sealed)
  {
    (GenerateAccessToken(payload, settings, now), GenerateRefreshToken(payload, settings, now))
  }

  /**
   * Generated tokens carry every payload field, with `type` forced to the
   * token's kind even when the payload had its own `type`; an expiry is
   * attached exactly when the setting parses to a nonzero number.
   */
  lemma GeneratedTokenContents(payload: Claims, settings: Settings, now: int)
    ensures var (access, refresh) := GenerateTokens(payload, settings, now);
      && access.claims.Keys == refresh.claims.Keys == payload.Keys + {"type"}
      && access.claims["type"] == Str("access") && refresh.claims["type"] == Str("refresh")
      && (forall k :: k in payload && k != "type" ==> access.claims[k] == payload[k] && refresh.claims[k] == payload[k])
      && (access.exp.Some? <==> ExpiresIn(settings.jwtTime).Some?)
      && (refresh.exp.Some? <==> ExpiresIn(settings.jwtRefreshTime).Some?)
      && access.key == refresh.key == settings.secret
  {
  }

  /**
   * Round trip: before expiry, the access token verifies as 'access' and is
   * refused as 'refresh'; the refresh token verifies as 'refresh' and is
   * refused as 'access'. Either way the payload fields come back.
   */
  lemma GenerateTokensRoundTrip(payload: Claims, settings: Settings, issued: int, now: int,
                                decode: map<string, Sealed>, accessText: string, refreshText: string)
    requires accessText != "" && refreshText != ""
    requires accessText in decode && decode[accessText] == GenerateTokens(payload, settings, issued).0
    requires refreshText in decode && decode[refreshText] == GenerateTokens(payload, settings, issued).1
    requires ExpiresIn(settings.jwtTime).None? || now < issued + ExpiresIn(settings.jwtTime).value
    requires ExpiresIn(settings.jwtRefreshTime).None? || now < issued + ExpiresIn(settings.jwtRefreshTime).value
    ensures GetDataFromToken(Str(accessText), decode, settings.secret, now, "access") == Ok(Payload(decode[accessText]))
    ensures GetDataFromToken(Str(accessText), decode, settings.secret, now, "refresh") == Err(WrongType(ForbiddenAnswer()))
    ensures GetDataFromToken(Str(refreshText), decode, settings.secret, now, "refresh") == Ok(Payload(decode[refreshText]))
    ensures GetDataFromToken(Str(refreshText), decode, settings.secret, now, "access") == Err(WrongType(ForbiddenAnswer()))
    ensures forall k :: k in payload && k !in {"type", "iat", "exp"} ==> Payload(decode[accessText])[k] == payload[k]
  {
    var (access, refresh) := GenerateTokens(payload, settings, issued);
    VerifySigned(accessText, decode, access, now);
    VerifySigned(refreshText, decode, refresh, now);
    assert Get(Payload(access), "type") == Str("access");
    assert Get(Payload(refresh), "type") == Str("refresh");
    forall k | k in payload && k !in {"type", "iat", "exp"}
      ensures Payload(access)[k] == payload[k]
    {
      PayloadKeepsClaims(access, k);
    }
  }

  /** Once an expiring access token's time is up, verification fails with the library's expiry error. */
  lemma ExpiredAccessTokenRejected(payload: Claims, settings: Settings, issued: int, now: int,
                                   decode: map<string, Sealed>, accessText: string)
    requires accessText != "" && accessText in decode && decode[accessText] == GenerateAccessToken(payload, settings, issued)
    requires ExpiresIn(settings.jwtTime).Some? && now >= issued + ExpiresIn(settings.jwtTime).value
    ensures GetDataFromToken(Str(accessText), decode, settings.secret, now) ==
              Err(VerifyFailed(TokenExpiredError(issued + ExpiresIn(settings.jwtTime).value)))
  {
    VerifySigned(accessText, decode, decode[accessText], now);
  }

  // -----------------------------------------------------------------------
  // Permission check

  /** A permission row as the middleware projects it: `{permission_action, permission_endpoint}`. */
  datatype PermissionRow = PermissionRow(action: Value, endpoint: Value)

  /** The row grants `action` on the endpoint with id `id`. */
  predicate RowGrants(p: PermissionRow, action: Value, id: Value)
  {
    StrictEq(p.action, action) && StrictEq(p.endpoint, id)
  }

  predicate AnyActionMatches(rows: seq<PermissionRow>, action: Value)
  {
    exists i | 0 <= i < |rows| :: StrictEq(rows[i].action, action)
  }

  predicate AnyRowGrants(rows: seq<PermissionRow>, action: Value, id: Value)
  {
    exists i | 0 <= i < |rows| :: RowGrants(rows[i], action, id)
  }

  /**
   * `userPermissions.some(p => p.permission_action === action && p.permission_endpoint === endpointInfo.id)`:
   * rows are tried in order, and `endpointInfo.id` is read only for a row
   * whose action matches, so an absent endpoint throws only then.
   */
  function SomeGrants(rows: seq<PermissionRow>, action: Value, endpointInfo: Value): Result<bool, Error>
  {
    if rows == [] then Ok(false)
    else if !StrictEq(rows[0].action, action) then SomeGrants(rows[1..], action, endpointInfo)
    else match Prop(endpointInfo, "id")
      case None => Err(RuntimeError("Cannot read properties of undefined (reading 'id')"))
      case Some(id) => if StrictEq(rows[0].endpoint, id) then Ok(true) else SomeGrants(rows[1..], action, endpointInfo)
  }

  /** `_getEndpointByRoute`: the first endpoint row the lookup returned, or `undefined`. */
  function FirstEndpoint(found: seq<Props>): Value
  {
    if found == [] then Undefined else Obj(found[0])
  }

  /**
   * `checkPermission(action, endpoint, userPermissions)`: the endpoint
   * lookup's failure rejects first; `.some` on a permission list that is not
   * an array (None) throws; otherwise the `.some` decides.
   */
  function CheckPermission(action: Value, endpointLookup: Result<seq<Props>, Error>,
                           userPermissions: Option<seq<PermissionRow>>): Result<bool, Error>
  {
    match endpointLookup
    case Err(e) => Err(e)
    case Ok(found) =>
      match userPermissions
      case None => Err(RuntimeError("Cannot read properties of undefined (reading 'some')"))
      case Some(rows) => SomeGrants(rows, action, FirstEndpoint(found))
  }

  /** The `.some` scan: it grants iff a row matches both action and id, never when no action matches, and throws only without an endpoint. */
  lemma {:induction false} SomeGrantsCharacterised(rows: seq<PermissionRow>, action: Value, endpointInfo: Value)
    ensures !AnyActionMatches(rows, action) ==> SomeGrants(rows, action, endpointInfo) == Ok(false)
    ensures Prop(endpointInfo, "id").None? && AnyActionMatches(rows, action) ==> SomeGrants(rows, action, endpointInfo).Err?
    ensures Prop(endpointInfo, "id").Some? ==>
              SomeGrants(rows, action, endpointInfo) == Ok(AnyRowGrants(rows, action, Prop(endpointInfo, "id").value))
  {
    if rows != [] {
      SomeGrantsCharacterised(rows[1..], action, endpointInfo);
      AnyActionMatchesCons(rows, action);
      if Prop(endpointInfo, "id").Some? {
        AnyRowGrantsCons(rows, action, Prop(endpointInfo, "id").value);
      }
    }
  }

  /** Some row has the action iff the first one has or some later one has. */
  lemma AnyActionMatchesCons(rows: seq<PermissionRow>, action: Value)
    requires rows != []
    ensures AnyActionMatches(rows, action) <==> StrictEq(rows[0].action, action) || AnyActionMatches(rows[1..], action)
  {
    assert forall i | 1 <= i < |rows| :: rows[i] == rows[1..][i - 1];
  }

  /** Some row grants iff the first one does or some later one does. */
  lemma AnyRowGrantsCons(rows: seq<PermissionRow>, action: Value, id: Value)
    requires rows != []
    ensures AnyRowGrants(rows, action, id) <==> RowGrants(rows[0], action, id) || AnyRowGrants(rows[1..], action, id)
  {
    assert forall i | 1 <= i < |rows| :: rows[i] == rows[1..][i - 1];
  }

  /**
   * The permission decision: with an endpoint found and a permission list,
   * access is granted iff some row has the request's action and the first
   * endpoint row's id; no row with the action means no grant, whatever the
   * endpoint lookup found.
   */
  lemma CheckPermissionDecision(action: Value, found: seq<Props>, rows: seq<PermissionRow>)
    ensures found != [] ==> CheckPermission(action, Ok(found), Some(rows)) == Ok(AnyRowGrants(rows, action, Get(found[0], "id")))
    ensures !AnyActionMatches(rows, action) ==> CheckPermission(action, Ok(found), Some(rows)) == Ok(false)
    ensures found == [] && AnyActionMatches(rows, action) ==> CheckPermission(action, Ok(found), Some(rows)).Err?
  {
    SomeGrantsCharacterised(rows, action, FirstEndpoint(found));
  }
}
