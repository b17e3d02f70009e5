/**
 * The boundary with the `jsonwebtoken` library. Its cryptography is not modelled:
 * `jwt.verify` is an oracle from a token string to a decoded payload or a thrown
 * error (the signing secret is the oracle's own concern), and `jwt.sign` is an
 * oracle from the payload it writes to the token string. What is modelled is the
 * payload `jwt.sign` writes, and the library's own expiry promise on `verify`.
 */
module Jwt {
  import opened Wrappers

  type UserId = string

  /** The claims of a decoded payload that the server reads or writes. */
  datatype Claims = Claims(userId: Option<UserId>, iat: Option<int>, exp: Option<int>)

  /** What `jwt.verify(token, secret)` does: return the payload or throw a named error. */
  datatype VerifyResult = Decoded(claims: Claims) | Thrown(name: string)

  /** The names of the errors `jwt.verify` throws. */
  const TokenExpiredError := "TokenExpiredError"
  const JsonWebTokenError := "JsonWebTokenError"
  const NotBeforeError := "NotBeforeError"

  /** `Math.floor(now / 1000)`: a millisecond clock reading as whole seconds. */
  function Seconds(nowMs: nat): nat
  {
    nowMs / 1000
  }

  /**
   * The payload `jwt.sign({ userId }, secret, { expiresIn })` encodes at clock
   * reading `nowMs`: the caller's claim, `iat` set to the current second and
   * `exp` set `expiresIn` seconds later.
   */
  function Stamp(userId: UserId, nowMs: nat, expiresIn: nat): Claims
  {
    Claims(Some(userId), Some(Seconds(nowMs)), Some(Seconds(nowMs) + expiresIn))
  }

  /**
   * The library's own expiry rule at clock reading `nowMs`: a payload whose `exp`
   * is at or before the current second is never returned decoded (it is reported
   * as an error: `TokenExpiredError`, or `JsonWebTokenError` when the signature
   * is bad as well).
   */
  ghost predicate ChecksExpiry(verify: string -> VerifyResult, nowMs: nat)
  {
    forall token :: verify(token).Decoded? && verify(token).claims.exp.Some? ==>
      Seconds(nowMs) < verify(token).claims.exp.value
  }
}
