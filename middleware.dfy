/**
 * The access gate: Express middleware that authenticates a request from its
 * bearer header. A request records `req.user` and every call of `next`.
 */
module Middleware {
  import opened Wrappers
  import opened ErrorHandler
  import opened Jwt

  const Forbidden := AppError("Admin access required", 403, "FORBIDDEN")
  const AdminRole: string := "admin"

  /**
   * The decision `authMiddleware(isAdmin)` takes: extract, verify with the
   * flag-selected key, then (admin gate only) check the role claim.
   */
  function Gate(authHeader: Option<string>, isAdmin: bool, cfg: Config, now: nat, decode: string -> Option<Token>): (r: Result<Claims, AppError>)
    ensures ExtractToken(authHeader).Failure? ==> r == Failure(MissingToken)
    ensures ExtractToken(authHeader).Success? ==>
      var v := VerifyToken(ExtractToken(authHeader).value, isAdmin, cfg, now, decode);
      && (v.Failure? ==> r == Failure(v.error))
      && (v.Success? ==> (r.Success? <==> !isAdmin || v.value.role == AdminRole))
      && (v.Success? && r.Success? ==> r.value == v.value)
      && (v.Success? && r.Failure? ==> r.error == Forbidden)
  {
    match ExtractToken(authHeader)
    case Failure(e) => Failure(e)
    case Success(token) =>
      match VerifyToken(token, isAdmin, cfg, now, decode)
      case Failure(e) => Failure(e)
      case Success(decoded) =>
        if isAdmin && decoded.role != AdminRole then Failure(Forbidden) else Success(decoded)
  }

  /**
   * The user `optionalAuthMiddleware(isAdmin)` attaches: the verified claims
   * when a header is present and both extraction and verification succeed.
   */
  function OptionalUser(authHeader: Option<string>, isAdmin: bool, cfg: Config, now: nat, decode: string -> Option<Token>): (r: Option<Claims>)
    ensures r.Some? <==> && ExtractToken(authHeader).Success?
                         && VerifyToken(ExtractToken(authHeader).value, isAdmin, cfg, now, decode).Success?
    ensures r.Some? ==> r.value == VerifyToken(ExtractToken(authHeader).value, isAdmin, cfg, now, decode).value
    ensures !isAdmin ==> (r.Some? <==> Gate(authHeader, false, cfg, now, decode).Success?)
  {
    if authHeader.None? || authHeader.value == "" then None
    else match ExtractToken(authHeader)
      case Failure(_) => None
      case Success(token) =>
        match VerifyToken(token, isAdmin, cfg, now, decode)
        case Failure(_) => None
        case Success(decoded) => Some(decoded)
  }

  /** An outcome as `next` receives it: no argument on success, the error otherwise. */
  function NextArgument(r: Result<Claims, AppError>): Option<AppError> {
    if r.Success? then None else Some(r.error)
  }

  class Request {
    const authorization: Option<string>
    var user: Option<Claims>
    var nextCalls: seq<Option<AppError>>

    constructor(authorization: Option<string>)
      ensures this.authorization == authorization && user == None && nextCalls == []
    {
      this.authorization := authorization;
      user := None;
      nextCalls := [];
    }

    /** The handler `authMiddleware(isAdmin)` returns, run on this request. */
    method AuthMiddleware(isAdmin: bool, cfg: Config, now: nat, decode: string -> Option<Token>)
      modifies this
      ensures nextCalls == old(nextCalls) + [NextArgument(Gate(authorization, isAdmin, cfg, now, decode))]
      ensures Gate(authorization, isAdmin, cfg, now, decode).Success? ==> user == Some(Gate(authorization, isAdmin, cfg, now, decode).value)
      ensures Gate(authorization, isAdmin, cfg, now, decode).Failure? ==> user == old(user)
    {
      var token := ExtractToken(authorization);
      if token.Failure? {
        nextCalls := nextCalls + [Some(token.error)];
        return;
      }
      var decoded := VerifyToken(token.value, isAdmin, cfg, now, decode);
      if decoded.Failure? {
        nextCalls := nextCalls + [Some(decoded.error)];
        return;
      }
      if isAdmin && decoded.value.role != AdminRole {
        nextCalls := nextCalls + [Some(Forbidden)];
        return;
      }
      user := Some(decoded.value);
      nextCalls := nextCalls + [None];
    }

    /**
     * The handler `optionalAuthMiddleware(isAdmin)` returns: any failure is
     * swallowed, there is no role check, and `next()` is always called bare.
     */
    method OptionalAuthMiddleware(isAdmin: bool, cfg: Config, now: nat, decode: string -> Option<Token>)
      modifies this
      ensures nextCalls == old(nextCalls) + [None]
      ensures user == if OptionalUser(authorization, isAdmin, cfg, now, decode).Some?
                      then OptionalUser(authorization, isAdmin, cfg, now, decode) else old(user)
    {
      if authorization.Some? && authorization.value != "" {
        var token := ExtractToken(authorization);
        if token.Success? {
          var decoded := VerifyToken(token.value, isAdmin, cfg, now, decode);
          if decoded.Success? {
            user := Some(decoded.value);
          }
        }
      }
      nextCalls := nextCalls + [None];
    }
  }

  /**
   * The optional gate attaches a user exactly when the strict gate with the
   * same flag would admit it or would refuse it only for its role.
   */
  lemma OptionalIgnoresRole(authHeader: Option<string>, isAdmin: bool, cfg: Config, now: nat, decode: string -> Option<Token>)
    ensures OptionalUser(authHeader, isAdmin, cfg, now, decode).Some? <==>
      (Gate(authHeader, isAdmin, cfg, now, decode).Success? || Gate(authHeader, isAdmin, cfg, now, decode) == Failure(Forbidden))
    ensures Gate(authHeader, isAdmin, cfg, now, decode).Success? ==>
      OptionalUser(authHeader, isAdmin, cfg, now, decode) == Some(Gate(authHeader, isAdmin, cfg, now, decode).value)
  {
  }

  /** On success the request's user is exactly the claims `verifyToken` returned. */
  lemma GateYieldsVerifiedClaims(authHeader: Option<string>, isAdmin: bool, cfg: Config, now: nat, decode: string -> Option<Token>)
    requires Gate(authHeader, isAdmin, cfg, now, decode).Success?
    ensures ExtractToken(authHeader).Success?
    ensures VerifyToken(ExtractToken(authHeader).value, isAdmin, cfg, now, decode) == Gate(authHeader, isAdmin, cfg, now, decode)
  {
  }

  /**
   * FORBIDDEN is raised exactly when extraction and verification both
   * succeed on the admin gate and the role claim is not 'admin'.
   */
  lemma ForbiddenOnlyAfterVerification(authHeader: Option<string>, isAdmin: bool, cfg: Config, now: nat, decode: string -> Option<Token>)
    ensures Gate(authHeader, isAdmin, cfg, now, decode) == Failure(Forbidden) <==>
      && isAdmin
      && ExtractToken(authHeader).Success?
      && VerifyToken(ExtractToken(authHeader).value, isAdmin, cfg, now, decode).Success?
      && VerifyToken(ExtractToken(authHeader).value, isAdmin, cfg, now, decode).value.role != AdminRole
  {
  }

  /** The user gate has no role check: it admits every verified token. */
  lemma UserGateNoRoleCheck(authHeader: Option<string>, cfg: Config, now: nat, decode: string -> Option<Token>)
    requires ExtractToken(authHeader).Success?
    ensures Gate(authHeader, false, cfg, now, decode) == VerifyToken(ExtractToken(authHeader).value, false, cfg, now, decode)
  {
  }

  /**
   * A FORBIDDEN answer needs a token that verifies under the admin key: its
   * signing key is the admin secret, its role claim is not 'admin'.
   */
  lemma ForbiddenNeedsAdminKey(authHeader: Option<string>, isAdmin: bool, cfg: Config, now: nat, decode: string -> Option<Token>)
    requires Gate(authHeader, isAdmin, cfg, now, decode) == Failure(Forbidden)
    ensures ExtractToken(authHeader).Success?
    ensures var t := decode(ExtractToken(authHeader).value);
      t.Some? && Some(t.value.key) == cfg.adminJwtSecret && t.value.payload.role != AdminRole
  {
  }

  /**
   * The admin gate verifies with the admin key, so a token signed with the
   * user key fails as INVALID_TOKEN before any role check whenever the two
   * secrets differ.
   */
  lemma UserTokenAtAdminGate(t: string, cfg: Config, now: nat, decode: string -> Option<Token>)
    requires decode(t).Some? && Some(decode(t).value.key) == cfg.jwtSecret
    requires cfg.jwtSecret != cfg.adminJwtSecret
    ensures Gate(Some(BearerPrefix + t), true, cfg, now, decode) == Failure(InvalidToken)
  {
    ExtractBearer(t);
  }

  /** When both secrets are equal, a verified user token reaches the role check and is FORBIDDEN. */
  lemma SharedSecretsReachForbidden(t: string, cfg: Config, now: nat, decode: string -> Option<Token>)
    requires cfg.jwtSecret == cfg.adminJwtSecret
    requires VerifyToken(t, false, cfg, now, decode).Success?
    requires decode(t).value.payload.role != AdminRole
    ensures Gate(Some(BearerPrefix + t), true, cfg, now, decode) == Failure(Forbidden)
  {
    ExtractBearer(t);
  }
}
