/**
 * The request gate `authenticateToken` and the token issuer `generateToken`
 * of `server/middleware/auth.js`.
 */
module Auth {
  import opened Wrappers
  import opened Jwt
  import opened Http
  import Text

  const AuthenticationRequired := "Authentication required"
  const InvalidToken := "Invalid token"
  const TokenExpired := "Token has expired. Please login again"

  const Unauthorized := 401
  const Forbidden := 403

  /** `expiresIn: '24h'`, in seconds. */
  const TokenLifetime := 86400

  /** What the gate decides: answer with a status and message, or admit with the decoded payload. */
  datatype Outcome = Reject(status: int, message: string) | Admit(user: Claims)

  /**
   * `authHeader && authHeader.split(' ')[1]`, kept only when truthy: the second
   * space-separated piece of the header, whatever the first piece is. An absent
   * header, an empty header, a header with no space and a header whose second
   * piece is empty all give no token.
   */
  function BearerToken(header: Option<string>): (token: Option<string>)
    ensures token.Some? ==> token.value != [] && ' ' !in token.value
  {
    match header
    case None => None
    case Some(h) =>
      var parts := Text.Split(h, ' ');
      if |parts| < 2 || parts[1] == [] then None else Some(parts[1])
  }

  /**
   * The gate's own expiry test `decoded.exp && decoded.exp < currentTimestamp`:
   * an `exp` that is absent or 0 (falsy) never fails it, and the comparison is
   * strict, so a payload expiring in the current second passes.
   */
  function ExplicitlyExpired(claims: Claims, nowMs: nat): (expired: bool)
    ensures claims.exp == None || claims.exp == Some(0) ==> !expired
    ensures claims.exp.Some? && claims.exp.value >= Seconds(nowMs) ==> !expired
    ensures claims.exp.Some? && claims.exp.value != 0 && claims.exp.value < Seconds(nowMs) ==> expired
  {
    claims.exp.Some? && claims.exp.value != 0 && claims.exp.value < Seconds(nowMs)
  }

  /**
   * The decision `authenticateToken` takes for a request carrying `header` as its
   * `authorization` header, with `verify` standing for `jwt.verify(_, secret)` and
   * `nowMs` for `Date.now()`.
   */
  function Gate(header: Option<string>, verify: string -> VerifyResult, nowMs: nat): (o: Outcome)
    // every rejection is one of three status/message pairs
    ensures o.Reject? ==>
      (o.status == Unauthorized && o.message in {AuthenticationRequired, TokenExpired}) ||
      (o.status == Forbidden && o.message == InvalidToken)
    // no usable token, and only then: 401 "Authentication required"
    ensures o == Reject(Unauthorized, AuthenticationRequired) <==> BearerToken(header).None?
    // any verification error but expiry, and only that: 403 "Invalid token"
    ensures o == Reject(Forbidden, InvalidToken) <==>
      BearerToken(header).Some? && verify(BearerToken(header).value).Thrown? &&
      verify(BearerToken(header).value).name != TokenExpiredError
    // the library's expiry error or the explicit check, and only those: 401 expired
    ensures o == Reject(Unauthorized, TokenExpired) <==>
      BearerToken(header).Some? &&
      (verify(BearerToken(header).value) == Thrown(TokenExpiredError) ||
       (verify(BearerToken(header).value).Decoded? &&
        ExplicitlyExpired(verify(BearerToken(header).value).claims, nowMs)))
    // admission exactly when verify decodes the token and the explicit check passes,
    // with the decoded payload unchanged
    ensures o.Admit? <==>
      BearerToken(header).Some? && verify(BearerToken(header).value).Decoded? &&
      !ExplicitlyExpired(verify(BearerToken(header).value).claims, nowMs)
    ensures o.Admit? ==> verify(BearerToken(header).value) == Decoded(o.user)
  {
    match BearerToken(header)
    case None => Reject(Unauthorized, AuthenticationRequired)
    case Some(token) =>
      match verify(token)
      case Decoded(claims) =>
        if ExplicitlyExpired(claims, nowMs) then Reject(Unauthorized, TokenExpired) else Admit(claims)
      case Thrown(name) =>
        if name == TokenExpiredError then Reject(Unauthorized, TokenExpired)
        else Reject(Forbidden, InvalidToken)
  }

  /**
   * `authenticateToken(req, res, next)`: either sends exactly one reply and does
   * not call `next`, or sets `req.user` to the decoded payload, sends nothing and
   * calls `next` (the result says whether it did).
   */
  method AuthenticateToken(req: Request, res: Response, verify: string -> VerifyResult, nowMs: nat)
    returns (callsNext: bool)
    modifies req, res
    ensures match Gate(req.head.Header("authorization"), verify, nowMs)
      case Admit(claims) =>
        callsNext && req.user == Some(claims) && res.sent == old(res.sent)
      case Reject(status, message) =>
        !callsNext && req.user == old(req.user) && res.sent == old(res.sent) + [JsonReply(status, message)]
  {
    var authHeader := req.head.Header("authorization");
    var token := BearerToken(authHeader);
    if token.None? {
      res.Json(Unauthorized, AuthenticationRequired);
      return false;
    }
    var verified := verify(token.value);
    match verified
    case Decoded(decoded) =>
      var currentTimestamp := Seconds(nowMs);
      if decoded.exp.Some? && decoded.exp.value != 0 && decoded.exp.value < currentTimestamp {
        res.Json(Unauthorized, TokenExpired);
        return false;
      }
      req.user := Some(decoded);
      callsNext := true;
    case Thrown(name) =>
      if name == TokenExpiredError {
        res.Json(Unauthorized, TokenExpired);
        return false;
      }
      res.Json(Forbidden, InvalidToken);
      callsNext := false;
  }

  /** The payload `generateToken(userId)` has signed when the clock reads `nowMs`. */
  function TokenPayload(userId: UserId, nowMs: nat): (claims: Claims)
    ensures claims.userId == Some(userId)
    ensures claims.iat == Some(Seconds(nowMs))
    ensures claims.exp == Some(claims.iat.value + 86400)
  {
    Stamp(userId, nowMs, TokenLifetime)
  }

  /** `generateToken(userId)`: the token string `jwt.sign` produces for that payload. */
  function GenerateToken(sign: Claims -> string, userId: UserId, nowMs: nat): (token: string)
    ensures token == sign(Claims(Some(userId), Some(Seconds(nowMs)), Some(Seconds(nowMs) + 86400)))
  {
    sign(TokenPayload(userId, nowMs))
  }

  /**
   * `h` reads `scheme`, one space, `token`, then `rest`, which is empty or starts
   * with a further space; neither `scheme` nor `token` contains a space.
   */
  predicate SecondWord(h: string, scheme: string, token: string, rest: string)
  {
    ' ' !in scheme && ' ' !in token && (rest == [] || rest[0] == ' ') &&
    h == scheme + [' '] + token + rest
  }

  /**
   * The token is the second space-separated word of the header, whatever the
   * first word is (it need not be "Bearer") and whatever follows a further space.
   */
  lemma {:induction false} SecondWordIsToken(h: string, scheme: string, token: string, rest: string)
    requires SecondWord(h, scheme, token, rest) && token != []
    ensures BearerToken(Some(h)) == Some(token)
  {
    Text.SecondPiece(scheme, token, rest, ' ');
  }

  /** Conversely, every token the gate extracts arises that way. */
  lemma {:induction false} TokenIsSecondWord(h: string, token: string)
    requires BearerToken(Some(h)) == Some(token)
    ensures token != []
    ensures exists scheme, rest :: SecondWord(h, scheme, token, rest)
  {
    var parts := Text.Split(h, ' ');
    assert |parts| >= 2 && parts[1] == token;
    Text.JoinSplit(h, ' ');
    var scheme := parts[0];
    var rest := if |parts| == 2 then [] else [' '] + Text.Join(parts[2..], ' ');
    var tail := Text.Join(parts[1..], ' ');
    assert h == scheme + [' '] + tail;
    assert tail == token + rest by {
      assert parts[1..][0] == token;
      if |parts| > 2 {
        assert parts[1..][1..] == parts[2..];
      }
    }
    assert SecondWord(h, scheme, token, rest);
  }

  /**
   * A header that is a usable token's `"Bearer " + token` is admitted while the
   * library decodes that token and the explicit check passes.
   */
  lemma {:induction false} IssueThenAuthenticate(
    sign: Claims -> string, verify: string -> VerifyResult, userId: UserId, issuedMs: nat, nowMs: nat)
    requires ' ' !in GenerateToken(sign, userId, issuedMs) && GenerateToken(sign, userId, issuedMs) != []
    requires verify(GenerateToken(sign, userId, issuedMs)) == Decoded(TokenPayload(userId, issuedMs))
    requires Seconds(nowMs) <= Seconds(issuedMs) + TokenLifetime
    ensures Gate(Some("Bearer " + GenerateToken(sign, userId, issuedMs)), verify, nowMs)
            == Admit(TokenPayload(userId, issuedMs))
    ensures Gate(Some("Bearer " + GenerateToken(sign, userId, issuedMs)), verify, nowMs).user.userId
            == Some(userId)
  {
    var token := GenerateToken(sign, userId, issuedMs);
    assert "Bearer " + token == "Bearer" + [' '] + token + [];
    SecondWordIsToken("Bearer " + token, "Bearer", token, []);
  }

  /**
   * After the payload's expiry second, the same header is refused with the
   * expiry message whether the library notices expiry itself or hands the
   * payload over to the explicit check.
   */
  lemma {:induction false} IssuedTokenExpires(
    sign: Claims -> string, verify: string -> VerifyResult, userId: UserId, issuedMs: nat, nowMs: nat)
    requires ' ' !in GenerateToken(sign, userId, issuedMs) && GenerateToken(sign, userId, issuedMs) != []
    requires verify(GenerateToken(sign, userId, issuedMs)) in
      {Decoded(TokenPayload(userId, issuedMs)), Thrown(TokenExpiredError)}
    requires Seconds(nowMs) > Seconds(issuedMs) + TokenLifetime
    ensures Gate(Some("Bearer " + GenerateToken(sign, userId, issuedMs)), verify, nowMs)
            == Reject(Unauthorized, TokenExpired)
  {
    var token := GenerateToken(sign, userId, issuedMs);
    assert "Bearer " + token == "Bearer" + [' '] + token + [];
    SecondWordIsToken("Bearer " + token, "Bearer", token, []);
  }

  /**
   * Issued at T for "user-42": admitted at T + 23h, refused as expired at T + 25h.
   * `verify23` and `verify25` are `jwt.verify` at the two instants: the first
   * decodes the token, the second either decodes it or throws the library's
   * own `TokenExpiredError`.
   */
  lemma {:induction false} DayLongToken(
    sign: Claims -> string, verify23: string -> VerifyResult, verify25: string -> VerifyResult, issuedMs: nat)
    requires ' ' !in GenerateToken(sign, "user-42", issuedMs) && GenerateToken(sign, "user-42", issuedMs) != []
    requires verify23(GenerateToken(sign, "user-42", issuedMs)) == Decoded(TokenPayload("user-42", issuedMs))
    requires verify25(GenerateToken(sign, "user-42", issuedMs)) in
      {Decoded(TokenPayload("user-42", issuedMs)), Thrown(TokenExpiredError)}
    ensures Gate(Some("Bearer " + GenerateToken(sign, "user-42", issuedMs)), verify23, issuedMs + 23 * 3600 * 1000)
            == Admit(TokenPayload("user-42", issuedMs))
    ensures Gate(Some("Bearer " + GenerateToken(sign, "user-42", issuedMs)), verify25, issuedMs + 25 * 3600 * 1000)
            == Reject(Unauthorized, TokenExpired)
  {
    assert Seconds(issuedMs + 23 * 3600 * 1000) == Seconds(issuedMs) + 23 * 3600;
    assert Seconds(issuedMs + 25 * 3600 * 1000) == Seconds(issuedMs) + 25 * 3600;
    IssueThenAuthenticate(sign, verify23, "user-42", issuedMs, issuedMs + 23 * 3600 * 1000);
    IssuedTokenExpires(sign, verify25, "user-42", issuedMs, issuedMs + 25 * 3600 * 1000);
  }

  /**
   * When the library applies its own expiry rule on the same clock, the explicit
   * check never fires: removing it would not change any decision.
   */
  lemma ExplicitCheckRedundant(header: Option<string>, verify: string -> VerifyResult, nowMs: nat)
    requires ChecksExpiry(verify, nowMs)
    requires BearerToken(header).Some? && verify(BearerToken(header).value).Decoded?
    ensures Gate(header, verify, nowMs) == Admit(verify(BearerToken(header).value).claims)
  {
  }

  /**
   * The explicit check is strictly more lenient than the library's: a payload
   * expiring in the current second is admitted by it, and one without `exp` (or
   * with `exp` 0) is never refused by it.
   */
  lemma ExplicitCheckBoundary(header: Option<string>, verify: string -> VerifyResult, nowMs: nat, claims: Claims)
    requires BearerToken(header).Some? && verify(BearerToken(header).value) == Decoded(claims)
    requires claims.exp == Some(Seconds(nowMs)) || claims.exp == None || claims.exp == Some(0)
    ensures Gate(header, verify, nowMs) == Admit(claims)
  {
  }

  /**
   * A forged or malformed token (`JsonWebTokenError`) and a token used before
   * its `nbf` (`NotBeforeError`) both get 403 "Invalid token", not the expiry reply.
   */
  lemma RejectedTokenIsInvalid(header: Option<string>, verify: string -> VerifyResult, nowMs: nat)
    requires BearerToken(header).Some?
    requires verify(BearerToken(header).value) in {Thrown(JsonWebTokenError), Thrown(NotBeforeError)}
    ensures Gate(header, verify, nowMs) == Reject(Forbidden, InvalidToken)
  {
  }

  /**
   * The gate consults nothing but the extracted token, what `jwt.verify` says
   * about that one token, and the clock to the second: equal inputs in those
   * terms give equal decisions, so re-presenting a token decides the same way.
   */
  lemma GateDeterminedByToken(
    header1: Option<string>, verify1: string -> VerifyResult, nowMs1: nat,
    header2: Option<string>, verify2: string -> VerifyResult, nowMs2: nat)
    requires BearerToken(header1) == BearerToken(header2)
    requires BearerToken(header1).Some? ==> verify1(BearerToken(header1).value) == verify2(BearerToken(header1).value)
    requires Seconds(nowMs1) == Seconds(nowMs2)
    ensures Gate(header1, verify1, nowMs1) == Gate(header2, verify2, nowMs2)
  {
  }
}
