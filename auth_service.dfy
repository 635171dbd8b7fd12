/**
 * `AuthService`: signup and login for the two roles over the user store.
 * Password hashing and comparison are the `Hasher` collaborator; emails
 * arrive already normalised by `validate`, which every auth route runs first.
 */
module AuthService {
  import opened Wrappers
  import opened ErrorHandler
  import opened Users
  import Jwt
  import Validation

  /** The User model's password hook (`hash`) and `comparePassword` (`compare(plain, hash)`). */
  datatype Hasher = Hasher(hash: string -> string, compare: (string, string) -> bool)

  /** `{user: user.toJSON(), token}` */
  datatype AuthResult = AuthResult(user: UserView, token: Jwt.Token)

  const DefaultAdminSecret: string := "admin-secret-key"

  /** `process.env.ADMIN_SECRET || 'admin-secret-key'` */
  function ExpectedAdminSecret(cfg: Jwt.Config): (r: string)
    ensures r != ""
    ensures cfg.adminSecret.Some? && cfg.adminSecret.value != "" ==> r == cfg.adminSecret.value
    ensures cfg.adminSecret.None? || cfg.adminSecret.value == "" ==> r == DefaultAdminSecret
  {
    if cfg.adminSecret.Some? && cfg.adminSecret.value != "" then cfg.adminSecret.value else DefaultAdminSecret
  }

  const EmailExists := AppError("Email already registered", 400, "EMAIL_EXISTS")
  const InvalidAdminSecret := AppError("Invalid admin secret", 403, "INVALID_ADMIN_SECRET")
  const InvalidCredentials := AppError("Invalid email or password", 401, "INVALID_CREDENTIALS")
  const LoginError := AppError("Login failed", 500, "LOGIN_ERROR")

  function AccountInactive(role: Role): AppError {
    match role
    case User => AppError("User account is inactive", 403, "ACCOUNT_INACTIVE")
    case Admin => AppError("Admin account is inactive", 403, "ACCOUNT_INACTIVE")
  }

  function SignupError(role: Role): AppError {
    match role
    case User => AppError("Failed to register user", 500, "SIGNUP_ERROR")
    case Admin => AppError("Failed to register admin", 500, "SIGNUP_ERROR")
  }

  /** A freshly created account: active, never logged in. */
  function NewRecord(name: string, email: string, passwordHash: string, role: Role, now: nat): UserRecord {
    UserRecord(name, email, passwordHash, role, true, None, 0, now)
  }

  /** The record after a successful login at `now`. */
  function LoggedIn(rec: UserRecord, now: nat): UserRecord {
    rec.(lastLogin := Some(now), loginCount := rec.loginCount + 1)
  }

  /** `generateToken({id, email, role}, isAdmin)` with the flag that matches the role. */
  function Issue(id: Id, rec: UserRecord, cfg: Jwt.Config, now: nat): Result<Jwt.Token, AppError> {
    Jwt.GenerateToken(Jwt.Claims(id, rec.email, RoleName(rec.role)), rec.role == Admin, cfg, now)
  }

  /** The answer once a record is stored: the token's failure passes through unchanged. */
  function Answer(id: Id, rec: UserRecord, cfg: Jwt.Config, now: nat): Result<AuthResult, AppError> {
    match Issue(id, rec, cfg, now)
    case Failure(e) => Failure(e)
    case Success(t) => Success(AuthResult(View(id, rec), t))
  }

  /** Signup's answer and new store, given the store before and the id the store assigns. */
  ghost predicate SignedUp(before: map<Id, UserRecord>, freshId: Id, after: map<Id, UserRecord>,
                           r: Result<AuthResult, AppError>, name: string, email: string, password: string,
                           role: Role, hasher: Hasher, cfg: Jwt.Config, now: nat, fault: Fault)
  {
    if fault == ReadFails then r == Failure(SignupError(role)) && after == before
    else if EmailTaken(before, email) then r == Failure(EmailExists) && after == before
    else if fault == WriteFails then r == Failure(SignupError(role)) && after == before
    else
      var rec := NewRecord(name, email, hasher.hash(password), role, now);
      && freshId !in before
      && after == before[freshId := rec]
      && r == Answer(freshId, rec, cfg, now)
  }

  /** What login does with the one record registered under `(email, role)`. */
  ghost predicate LoginWith(before: map<Id, UserRecord>, after: map<Id, UserRecord>, id: Id,
                            r: Result<AuthResult, AppError>, password: string, role: Role,
                            hasher: Hasher, cfg: Jwt.Config, now: nat, fault: Fault)
    requires id in before
  {
    var rec := before[id];
    if !hasher.compare(password, rec.password) then r == Failure(InvalidCredentials) && after == before
    else if !rec.isActive then r == Failure(AccountInactive(role)) && after == before
    else if fault == WriteFails then r == Failure(LoginError) && after == before
    else after == before[id := LoggedIn(rec, now)] && r == Answer(id, LoggedIn(rec, now), cfg, now)
  }

  /** Login's answer and new store, given the store before. */
  ghost predicate LoggedInto(before: map<Id, UserRecord>, after: map<Id, UserRecord>,
                             r: Result<AuthResult, AppError>, email: string, password: string,
                             role: Role, hasher: Hasher, cfg: Jwt.Config, now: nat, fault: Fault)
  {
    if fault == ReadFails then r == Failure(LoginError) && after == before
    else if MatchingIds(before, Query(Some(email), Some(role), None)) == {} then
      r == Failure(InvalidCredentials) && after == before
    else
      forall id :: id in MatchingIds(before, Query(Some(email), Some(role), None)) ==>
        LoginWith(before, after, id, r, password, role, hasher, cfg, now, fault)
  }

  /** Signup keeps the store's emails unique. */
  lemma SignupKeepsEmailsUnique(before: map<Id, UserRecord>, freshId: Id, after: map<Id, UserRecord>,
                                r: Result<AuthResult, AppError>, name: string, email: string, password: string,
                                role: Role, hasher: Hasher, cfg: Jwt.Config, now: nat, fault: Fault)
    requires EmailsUnique(before)
    requires SignedUp(before, freshId, after, r, name, email, password, role, hasher, cfg, now, fault)
    ensures EmailsUnique(after)
  {
  }

  /**
   * A successful signup adds exactly one record, with the requested role,
   * and answers with its view and a token for `{id, email, role}` signed
   * with the key its role selects.
   */
  lemma SignupSuccess(before: map<Id, UserRecord>, freshId: Id, after: map<Id, UserRecord>,
                      r: Result<AuthResult, AppError>, name: string, email: string, password: string,
                      role: Role, hasher: Hasher, cfg: Jwt.Config, now: nat, fault: Fault)
    requires SignedUp(before, freshId, after, r, name, email, password, role, hasher, cfg, now, fault)
    requires r.Success?
    ensures !EmailTaken(before, email) && fault == NoFault
    ensures r.value.user.id == freshId && freshId !in before
    ensures after.Keys == before.Keys + {freshId} && |after| == |before| + 1
    ensures forall id :: id in before ==> after[id] == before[id]
    ensures after[freshId].role == role && after[freshId].email == email && after[freshId].isActive
    ensures r.value.token.payload == Jwt.Claims(freshId, email, RoleName(role))
    ensures Some(r.value.token.key) == Jwt.SecretFor(cfg, role == Admin)
  {
  }

  /**
   * Signing happens after the record is saved: with the role's signing key
   * unset, signup stores the account and still answers TOKEN_GENERATION_ERROR.
   */
  lemma SignupStoresBeforeSigning(before: map<Id, UserRecord>, freshId: Id, after: map<Id, UserRecord>,
                                  r: Result<AuthResult, AppError>, name: string, email: string, password: string,
                                  role: Role, hasher: Hasher, cfg: Jwt.Config, now: nat)
    requires SignedUp(before, freshId, after, r, name, email, password, role, hasher, cfg, now, NoFault)
    requires !EmailTaken(before, email) && !Jwt.Usable(Jwt.SecretFor(cfg, role == Admin))
    ensures r == Failure(Jwt.TokenGenerationError)
    ensures |after| == |before| + 1
  {
  }

  /** Under unique emails, login's case analysis is about one record only. */
  lemma LoginRecord(before: map<Id, UserRecord>, after: map<Id, UserRecord>,
                    r: Result<AuthResult, AppError>, id: Id, email: string, password: string,
                    role: Role, hasher: Hasher, cfg: Jwt.Config, now: nat, fault: Fault)
    requires EmailsUnique(before)
    requires LoggedInto(before, after, r, email, password, role, hasher, cfg, now, fault)
    requires fault != ReadFails
    requires id in before && before[id].email == email && before[id].role == role
    ensures LoginWith(before, after, id, r, password, role, hasher, cfg, now, fault)
  {
    assert id in MatchingIds(before, Query(Some(email), Some(role), None));
  }

  /**
   * Enumeration resistance: an unknown email (for this role) and a wrong
   * password give the very same error, and neither touches the store.
   */
  lemma LoginBadCredentials(before: map<Id, UserRecord>, after: map<Id, UserRecord>,
                            r: Result<AuthResult, AppError>, email: string, password: string,
                            role: Role, hasher: Hasher, cfg: Jwt.Config, now: nat, fault: Fault)
    requires EmailsUnique(before)
    requires LoggedInto(before, after, r, email, password, role, hasher, cfg, now, fault)
    requires fault != ReadFails
    requires forall id :: id in before && before[id].email == email && before[id].role == role ==>
               !hasher.compare(password, before[id].password)
    ensures r == Failure(InvalidCredentials) && after == before
  {
    var q := Query(Some(email), Some(role), None);
    if MatchingIds(before, q) != {} {
      var id :| id in MatchingIds(before, q);
      LoginRecord(before, after, r, id, email, password, role, hasher, cfg, now, fault);
    }
  }

  /**
   * An email registered only under the other role cannot log in here: the
   * answer is INVALID_CREDENTIALS, whatever the password.
   */
  lemma LoginOtherRole(before: map<Id, UserRecord>, after: map<Id, UserRecord>,
                       r: Result<AuthResult, AppError>, email: string, password: string,
                       role: Role, hasher: Hasher, cfg: Jwt.Config, now: nat, fault: Fault)
    requires LoggedInto(before, after, r, email, password, role, hasher, cfg, now, fault)
    requires fault != ReadFails
    requires forall id :: id in before && before[id].email == email ==> before[id].role != role
    ensures r == Failure(InvalidCredentials) && after == before
  {
    assert MatchingIds(before, Query(Some(email), Some(role), None)) == {};
  }

  /**
   * Inactivity is checked only after the password: an inactive account with
   * the right password gets ACCOUNT_INACTIVE and the store is unchanged.
   */
  lemma LoginInactive(before: map<Id, UserRecord>, after: map<Id, UserRecord>,
                      r: Result<AuthResult, AppError>, id: Id, email: string, password: string,
                      role: Role, hasher: Hasher, cfg: Jwt.Config, now: nat, fault: Fault)
    requires EmailsUnique(before)
    requires LoggedInto(before, after, r, email, password, role, hasher, cfg, now, fault)
    requires fault != ReadFails
    requires id in before && before[id].email == email && before[id].role == role
    requires hasher.compare(password, before[id].password) && !before[id].isActive
    ensures r == Failure(AccountInactive(role)) && r.error.statusCode == 403 && after == before
  {
    LoginRecord(before, after, r, id, email, password, role, hasher, cfg, now, fault);
  }

  /**
   * A successful login changes exactly the matched record, setting
   * `lastLogin` and adding one to `loginCount`, and answers with a token
   * signed under the key of the login's role.
   */
  lemma LoginSuccess(before: map<Id, UserRecord>, after: map<Id, UserRecord>,
                     r: Result<AuthResult, AppError>, email: string, password: string,
                     role: Role, hasher: Hasher, cfg: Jwt.Config, now: nat, fault: Fault)
    requires EmailsUnique(before)
    requires LoggedInto(before, after, r, email, password, role, hasher, cfg, now, fault)
    requires r.Success?
    ensures var id := r.value.user.id;
      && id in before && before[id].email == email && before[id].role == role
      && hasher.compare(password, before[id].password) && before[id].isActive
      && after == before[id := before[id].(lastLogin := Some(now), loginCount := before[id].loginCount + 1)]
      && r.value.token.payload == Jwt.Claims(id, email, RoleName(role))
      && Some(r.value.token.key) == Jwt.SecretFor(cfg, role == Admin)
  {
    var q := Query(Some(email), Some(role), None);
    var id :| id in MatchingIds(before, q);
    LoginRecord(before, after, r, id, email, password, role, hasher, cfg, now, fault);
  }

  /** Login keeps the store's emails unique. */
  lemma LoginKeepsEmailsUnique(before: map<Id, UserRecord>, after: map<Id, UserRecord>,
                               r: Result<AuthResult, AppError>, email: string, password: string,
                               role: Role, hasher: Hasher, cfg: Jwt.Config, now: nat, fault: Fault)
    requires EmailsUnique(before)
    requires LoggedInto(before, after, r, email, password, role, hasher, cfg, now, fault)
    ensures EmailsUnique(after)
  {
    var q := Query(Some(email), Some(role), None);
    if fault != ReadFails && MatchingIds(before, q) != {} {
      var id :| id in MatchingIds(before, q);
      LoginRecord(before, after, r, id, email, password, role, hasher, cfg, now, fault);
    }
  }

  class AuthService {
    const users: UserStore

    constructor(users: UserStore)
      ensures this.users == users
    {
      this.users := users;
    }

    /** The steps `signupUser` and `signupAdmin` share once the admin secret is accepted. */
    method Signup(name: string, email: string, password: string, role: Role,
                  hasher: Hasher, cfg: Jwt.Config, now: nat, fault: Fault) returns (r: Result<AuthResult, AppError>)
      requires users.Valid()
      modifies users
      ensures users.Valid()
      ensures SignedUp(old(users.records), old(users.nextId), users.records, r, name, email, password, role, hasher, cfg, now, fault)
    {
      if fault == ReadFails {
        return Failure(SignupError(role));
      }
      var existing := users.FindOne(Query(Some(email), None, None));
      if existing.Some? {
        assert EmailTaken(users.records, email) by {
          assert users.records[existing.value].email == email;
        }
        return Failure(EmailExists);
      }
      forall i | i in users.records
        ensures users.records[i].email != email
      {
        assert i !in MatchingIds(users.records, Query(Some(email), None, None));
      }
      if fault == WriteFails {
        return Failure(SignupError(role));
      }
      var rec := NewRecord(name, email, hasher.hash(password), role, now);
      var id := users.Insert(rec);
      var token := Jwt.GenerateToken(Jwt.Claims(id, rec.email, RoleName(rec.role)), role == Admin, cfg, now);
      if token.Failure? {
        return Failure(token.error);
      }
      return Success(AuthResult(View(id, rec), token.value));
    }

    /** `signupUser(name, email, password)` */
    method SignupUser(name: string, email: string, password: string,
                      hasher: Hasher, cfg: Jwt.Config, now: nat, fault: Fault) returns (r: Result<AuthResult, AppError>)
      requires users.Valid() && Validation.IsNormalizedEmail(email)
      modifies users
      ensures users.Valid()
      ensures SignedUp(old(users.records), old(users.nextId), users.records, r, name, email, password, User, hasher, cfg, now, fault)
    {
      r := Signup(name, email, password, User, hasher, cfg, now, fault);
    }

    /** `signupAdmin(name, email, password, adminSecret)`: the secret is checked before the store is touched. */
    method SignupAdmin(name: string, email: string, password: string, adminSecret: string,
                       hasher: Hasher, cfg: Jwt.Config, now: nat, fault: Fault) returns (r: Result<AuthResult, AppError>)
      requires users.Valid() && Validation.IsNormalizedEmail(email)
      modifies users
      ensures users.Valid()
      ensures adminSecret != ExpectedAdminSecret(cfg) ==> r == Failure(InvalidAdminSecret) && users.records == old(users.records)
      ensures adminSecret == ExpectedAdminSecret(cfg) ==>
        SignedUp(old(users.records), old(users.nextId), users.records, r, name, email, password, Admin, hasher, cfg, now, fault)
    {
      var expectedSecret := ExpectedAdminSecret(cfg);
      if adminSecret != expectedSecret {
        return Failure(InvalidAdminSecret);
      }
      r := Signup(name, email, password, Admin, hasher, cfg, now, fault);
    }

    /** The steps `loginUser` and `loginAdmin` share; the lookup is by email and role. */
    method Login(email: string, password: string, role: Role,
                 hasher: Hasher, cfg: Jwt.Config, now: nat, fault: Fault) returns (r: Result<AuthResult, AppError>)
      requires users.Valid()
      modifies users
      ensures users.Valid()
      ensures LoggedInto(old(users.records), users.records, r, email, password, role, hasher, cfg, now, fault)
    {
      if fault == ReadFails {
        return Failure(LoginError);
      }
      var found := users.FindOne(Query(Some(email), Some(role), None));
      if found.None? {
        return Failure(InvalidCredentials);
      }
      var id := found.value;
      var rec := users.records[id];
      assert id in MatchingIds(users.records, Query(Some(email), Some(role), None));
      assert forall other :: other in MatchingIds(users.records, Query(Some(email), Some(role), None)) ==> other == id;
      if !hasher.compare(password, rec.password) {
        return Failure(InvalidCredentials);
      }
      if !rec.isActive {
        return Failure(AccountInactive(role));
      }
      if fault == WriteFails {
        return Failure(LoginError);
      }
      rec := rec.(lastLogin := Some(now));
      rec := rec.(loginCount := rec.loginCount + 1);
      users.Save(id, rec);
      var token := Jwt.GenerateToken(Jwt.Claims(id, rec.email, RoleName(rec.role)), role == Admin, cfg, now);
      if token.Failure? {
        return Failure(token.error);
      }
      return Success(AuthResult(View(id, rec), token.value));
    }

    /** `loginUser(email, password)`: only role 'user' records match. */
    method LoginUser(email: string, password: string,
                     hasher: Hasher, cfg: Jwt.Config, now: nat, fault: Fault) returns (r: Result<AuthResult, AppError>)
      requires users.Valid() && Validation.IsNormalizedEmail(email)
      modifies users
      ensures users.Valid()
      ensures LoggedInto(old(users.records), users.records, r, email, password, User, hasher, cfg, now, fault)
    {
      r := Login(email, password, User, hasher, cfg, now, fault);
    }

    /** `loginAdmin(email, password)`: only role 'admin' records match. */
    method LoginAdmin(email: string, password: string,
                      hasher: Hasher, cfg: Jwt.Config, now: nat, fault: Fault) returns (r: Result<AuthResult, AppError>)
      requires users.Valid() && Validation.IsNormalizedEmail(email)
      modifies users
      ensures users.Valid()
      ensures LoggedInto(old(users.records), users.records, r, email, password, Admin, hasher, cfg, now, fault)
    {
      r := Login(email, password, Admin, hasher, cfg, now, fault);
    }
  }
}
