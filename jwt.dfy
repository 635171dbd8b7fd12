/**
 * Token issue, verification and bearer-header extraction. Signing and
 * parsing are the jsonwebtoken library's; a token is modelled by what that
 * library would decode from it: the claims, the key it was signed with and its
 * time claims. Time is in whole seconds.
 */
module Jwt {
  import opened Wrappers
  import opened ErrorHandler
  import Text

  /** The payload the services sign: `{id, email, role}`. */
  datatype Claims = Claims(id: nat, email: string, role: string)

  datatype Token = Token(payload: Claims, key: string, issuedAt: nat, notBefore: Option<nat>, expiry: nat)

  /** The environment variables read at call time (`None` when unset). */
  datatype Config = Config(jwtSecret: Option<string>, adminJwtSecret: Option<string>, adminSecret: Option<string>)

  /** `expiresIn: '7d'` */
  const Lifetime: nat := 7 * 24 * 60 * 60

  const BearerPrefix: string := "Bearer "

  const TokenGenerationError := AppError("Failed to generate token", 500, "TOKEN_GENERATION_ERROR")
  const TokenExpired := AppError("Token has expired", 401, "TOKEN_EXPIRED")
  const InvalidToken := AppError("Invalid token", 401, "INVALID_TOKEN")
  const VerificationFailed := AppError("Token verification failed", 401, "TOKEN_VERIFICATION_ERROR")
  const MissingToken := AppError("Missing or invalid authorization header", 401, "MISSING_TOKEN")

  /** The one key rule of issue and verification: the admin key iff `isAdmin`. */
  function SecretFor(cfg: Config, isAdmin: bool): (r: Option<string>)
    ensures r == cfg.adminJwtSecret || r == cfg.jwtSecret
    ensures cfg.adminJwtSecret != cfg.jwtSecret ==> (r == cfg.adminJwtSecret <==> isAdmin)
  {
    if isAdmin then cfg.adminJwtSecret else cfg.jwtSecret
  }

  /** The library refuses to sign or verify with a missing or empty secret. */
  predicate Usable(secret: Option<string>) {
    secret.Some? && secret.value != ""
  }

  /** `generateToken(payload, isAdmin)` at time `now`. */
  function GenerateToken(payload: Claims, isAdmin: bool, cfg: Config, now: nat): (r: Result<Token, AppError>)
    ensures r.Failure? <==> !Usable(SecretFor(cfg, isAdmin))
    ensures r.Failure? ==> r.error == TokenGenerationError
    ensures r.Success? ==> && r.value.payload == payload
                           && Some(r.value.key) == SecretFor(cfg, isAdmin)
                           && r.value.notBefore == None
                           && r.value.expiry == now + Lifetime
  {
    var secret := SecretFor(cfg, isAdmin);
    var expiresIn := if isAdmin then Lifetime else Lifetime;
    if !Usable(secret) then Failure(TokenGenerationError)
    else Success(Token(payload, secret.value, now, None, now + expiresIn))
  }

  /** The error classes `jwt.verify` throws. */
  datatype LibraryError = TokenExpiredError | JsonWebTokenError | NotBeforeError

  /**
   * `jwt.verify(token, secret)`: a string that does not decode, a missing
   * secret or a signature under another key is a JsonWebTokenError; then the
   * not-before claim is checked, then expiry (`now >= exp` is expired).
   */
  function LibraryVerify(decoded: Option<Token>, secret: Option<string>, now: nat): (r: Result<Claims, LibraryError>)
    ensures r.Success? <==> && decoded.Some? && Usable(secret) && decoded.value.key == secret.value
                            && (decoded.value.notBefore.None? || decoded.value.notBefore.value <= now)
                            && now < decoded.value.expiry
    ensures r.Success? ==> r.value == decoded.value.payload
    ensures decoded.None? || !Usable(secret) || decoded.value.key != secret.value ==> r == Failure(JsonWebTokenError)
    ensures && decoded.Some? && Usable(secret) && decoded.value.key == secret.value
            && decoded.value.notBefore.Some? && now < decoded.value.notBefore.value
            ==> r == Failure(NotBeforeError)
    ensures && decoded.Some? && Usable(secret) && decoded.value.key == secret.value
            && (decoded.value.notBefore.None? || decoded.value.notBefore.value <= now)
            && now >= decoded.value.expiry
            ==> r == Failure(TokenExpiredError)
  {
    if decoded.None? || !Usable(secret) || decoded.value.key != secret.value then Failure(JsonWebTokenError)
    else if decoded.value.notBefore.Some? && now < decoded.value.notBefore.value then Failure(NotBeforeError)
    else if now >= decoded.value.expiry then Failure(TokenExpiredError)
    else Success(decoded.value.payload)
  }

  function VerifyError(e: LibraryError): (r: AppError)
    ensures r.statusCode == 401
    ensures r == TokenExpired <==> e == TokenExpiredError
    ensures r == InvalidToken <==> e == JsonWebTokenError
    ensures r == VerificationFailed <==> e == NotBeforeError
  {
    match e
    case TokenExpiredError => TokenExpired
    case JsonWebTokenError => InvalidToken
    case NotBeforeError => VerificationFailed
  }

  /**
   * `verifyToken(token, isAdmin)` at time `now`; `decode` is the library's
   * parse of the compact string.
   */
  function VerifyToken(token: string, isAdmin: bool, cfg: Config, now: nat, decode: string -> Option<Token>): (r: Result<Claims, AppError>)
    ensures r.Success? <==> LibraryVerify(decode(token), SecretFor(cfg, isAdmin), now).Success?
    ensures r.Success? ==> r.value == decode(token).value.payload
    ensures r.Failure? ==> r.error.statusCode == 401 && r.error in {TokenExpired, InvalidToken, VerificationFailed}
    ensures r.Failure? ==> r.error == VerifyError(LibraryVerify(decode(token), SecretFor(cfg, isAdmin), now).error)
  {
    match LibraryVerify(decode(token), SecretFor(cfg, isAdmin), now)
    case Success(claims) => Success(claims)
    case Failure(e) => Failure(VerifyError(e))
  }

  /** `extractToken(authHeader)`: the header with its `'Bearer '` prefix removed. */
  function ExtractToken(authHeader: Option<string>): (r: Result<string, AppError>)
    ensures r.Success? <==> authHeader.Some? && Text.StartsWith(authHeader.value, BearerPrefix)
    ensures r.Success? ==> BearerPrefix + r.value == authHeader.value
    ensures r.Failure? ==> r.error == MissingToken
  {
    if authHeader.None? || authHeader.value == "" || !Text.StartsWith(authHeader.value, BearerPrefix) then
      Failure(MissingToken)
    else
      assert authHeader.value == authHeader.value[..7] + authHeader.value[7..];
      Success(authHeader.value[7..])
  }

  /** Extraction inverts the header's construction, for every token string, the empty one included. */
  lemma ExtractBearer(t: string)
    ensures ExtractToken(Some(BearerPrefix + t)) == Success(t)
  {
    assert (BearerPrefix + t)[..|BearerPrefix|] == BearerPrefix;
    assert (BearerPrefix + t)[7..] == t;
  }

  /**
   * A generated token verifies to its payload with the same key flag until
   * it expires, and is reported expired from then on.
   */
  lemma VerifyGenerated(payload: Claims, isAdmin: bool, cfg: Config, issuedAt: nat, token: string, decode: string -> Option<Token>, now: nat)
    requires GenerateToken(payload, isAdmin, cfg, issuedAt).Success?
    requires decode(token) == Some(GenerateToken(payload, isAdmin, cfg, issuedAt).value)
    ensures now < issuedAt + Lifetime ==> VerifyToken(token, isAdmin, cfg, now, decode) == Success(payload)
    ensures now >= issuedAt + Lifetime ==> VerifyToken(token, isAdmin, cfg, now, decode) == Failure(TokenExpired)
  {
  }

  /**
   * With distinct secrets, a token signed under one role's key is an invalid
   * token under the other's, whatever its claims and expiry.
   */
  lemma RoleKeysSeparate(payload: Claims, isAdmin: bool, cfg: Config, issuedAt: nat, token: string, decode: string -> Option<Token>, now: nat)
    requires cfg.jwtSecret != cfg.adminJwtSecret
    requires GenerateToken(payload, isAdmin, cfg, issuedAt).Success?
    requires decode(token) == Some(GenerateToken(payload, isAdmin, cfg, issuedAt).value)
    ensures VerifyToken(token, !isAdmin, cfg, now, decode) == Failure(InvalidToken)
  {
  }
}
