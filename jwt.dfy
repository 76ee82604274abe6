/**
 * The signed-token library as the service uses it, abstracted: a token is a
 * sealed record of claims, issue time, optional expiry and the secret that
 * signed it. The cryptography is not modelled; which token texts parse as
 * which sealed records is an input (`decode`), and the clock is a parameter.
 */
module Jwt {
  import opened Js

  type Claims = map<string, Value>

  /** A signed token: its claims, issue time and optional expiry (in seconds), and the secret that signed it. */
  datatype Sealed = Sealed(claims: Claims, iat: int, exp: Option<int>, key: string)

  /** The library's two error kinds. */
  datatype JwtError = JsonWebTokenError(message: string) | TokenExpiredError(expiredAt: int)

  /** `jwt.sign(contents, secret, expiresIn ? { expiresIn } : {})` at time `now`. */
  function Sign(contents: Claims, secret: string, now: int, expiresIn: Option<int>): (t: Sealed)
    ensures t.claims == contents && t.key == secret && t.iat == now
    ensures t.exp.Some? <==> expiresIn.Some?
    ensures expiresIn.Some? ==> t.exp.value - t.iat == expiresIn.value
  {
    Sealed(contents, now, if expiresIn.Some? then Some(now + expiresIn.value) else None, secret)
  }

  /** What a successful verification hands back: the claims stamped with `iat` and, when the token expires, `exp`. */
  function Payload(t: Sealed): Claims
  {
    var stamped := t.claims["iat" := Num(t.iat as real)];
    if t.exp.Some? then stamped["exp" := Num(t.exp.value as real)] else stamped
  }

  /** `jwt.verify(token, secret, cb)` at time `now`. */
  function Verify(token: Value, decode: map<string, Sealed>, secret: string, now: int): Result<Claims, JwtError>
  {
    if !Truthy(token) then Err(JsonWebTokenError("jwt must be provided"))
    else if !token.Str? then Err(JsonWebTokenError("jwt must be a string"))
    else if token.s !in decode then Err(JsonWebTokenError("jwt malformed"))
    else
      var t := decode[token.s];
      if t.key != secret then Err(JsonWebTokenError("invalid signature"))
      else if t.exp.Some? && now >= t.exp.value then Err(TokenExpiredError(t.exp.value))
      else Ok(Payload(t))
  }

  /** A token verifies with the secret that signed it until its expiry, and never after. */
  lemma VerifySigned(text: string, decode: map<string, Sealed>, t: Sealed, now: int)
    requires text != "" && text in decode && decode[text] == t
    ensures t.exp.None? || now < t.exp.value ==> Verify(Str(text), decode, t.key, now) == Ok(Payload(t))
    ensures t.exp.Some? && now >= t.exp.value ==> Verify(Str(text), decode, t.key, now) == Err(TokenExpiredError(t.exp.value))
    ensures forall other :: other != t.key ==> Verify(Str(text), decode, other, now) == Err(JsonWebTokenError("invalid signature"))
  {
  }

  /** Every claim a token was signed with, other than `iat` and `exp`, comes back unchanged. */
  lemma PayloadKeepsClaims(t: Sealed, k: string)
    requires k in t.claims && k != "iat" && k != "exp"
    ensures k in Payload(t) && Payload(t)[k] == t.claims[k]
  {
  }
}
