/**
 * The client session of `AuthProvider`: the signed-in user, `loading` and
 * `error`, the `'user'` entries of sessionStorage and localStorage, and the
 * Authorization header of the shared axios instance. The POST to the
 * backend is the `reply` parameter; `JSON.stringify` and `JSON.parse` of a
 * stored user are taken to round-trip.
 */
module AuthContext {
  import opened Wrappers
  import Text
  import Jwt

  /** The object `login` builds and saves (`normalizedUser`). */
  datatype ClientUser = ClientUser(id: string, email: string, name: string, role: string, token: string, redirectUrl: string)

  /** A `'user'` storage entry: a saved user, or text `JSON.parse` rejects (`""` is falsy). */
  datatype Stored = UserJson(user: ClientUser) | Raw(text: string)

  /** `data.data.user` of a login answer; an absent `_id` or `id` is `""`. */
  datatype ReplyUser = ReplyUser(mongoId: string, id: string, email: string, name: string, role: string)

  /**
   * The outcome of `api.post(path, {email, password})`: an answer whose user
   * or token may be missing (`""`), or a rejected request with the answer's
   * top-level `data.message` (if any) and the axios error's own message.
   */
  datatype LoginReply =
    | Answered(user: Option<ReplyUser>, token: string)
    | Rejected(dataMessage: Option<string>, errorMessage: string)

  /** `{success}` or `{success: false, error}` */
  datatype LoginResult = LoginResult(success: bool, error: Option<string>)

  const AdminLoginPath: string := "auth/admin/login"
  const UserLoginPath: string := "auth/user/login"
  const AdminHome: string := "/admin/dashboard"
  const UserHome: string := "/dashboard"
  const LoginPage: string := "/login"
  const InvalidResponse: string := "Invalid login response"
  const LoginFailed: string := "Login failed"

  /** `isAuthenticated: !!user` */
  predicate IsAuthenticated(user: Option<ClientUser>) {
    user.Some?
  }

  /** `isAdmin: user?.role === 'admin'` */
  predicate IsAdmin(user: Option<ClientUser>) {
    user.Some? && user.value.role == "admin"
  }

  /** `isUser: user?.role === 'user'` */
  predicate IsUser(user: Option<ClientUser>) {
    user.Some? && user.value.role == "user"
  }

  /** The derived flags: an admin or a user is authenticated, and nobody is both. */
  lemma FlagsConsistent(user: Option<ClientUser>)
    ensures IsAdmin(user) ==> IsAuthenticated(user)
    ensures IsUser(user) ==> IsAuthenticated(user)
    ensures !(IsAdmin(user) && IsUser(user))
    ensures !IsAuthenticated(user) ==> !IsAdmin(user) && !IsUser(user)
  {
  }

  /** The endpoint `login` posts to. */
  function LoginPath(role: string): (p: string)
    ensures p == AdminLoginPath <==> role == "admin"
    ensures p == UserLoginPath <==> role != "admin"
  {
    if role == "admin" then AdminLoginPath else UserLoginPath
  }

  /** `normalizedUser`: the role is lowercased and picks the landing page. */
  function Normalize(u: ReplyUser, token: string): (n: ClientUser)
    ensures n.role == Text.ToLower(u.role) && Text.IsLower(n.role)
    ensures n.redirectUrl == AdminHome <==> n.role == "admin"
    ensures n.redirectUrl == UserHome <==> n.role != "admin"
    ensures n.token == token && n.email == u.email && n.name == u.name
    ensures n.id == (if u.mongoId != "" then u.mongoId else u.id)
  {
    var role := Text.ToLower(u.role);
    Text.ToLowerMaps(u.role);
    ClientUser(if u.mongoId != "" then u.mongoId else u.id, u.email, u.name, role, token,
               if role == "admin" then AdminHome else UserHome)
  }

  /** `err.response?.data?.message || err.message || 'Login failed'` */
  function FailureMessage(dataMessage: Option<string>, errorMessage: string): (m: string)
    ensures m != ""
    ensures dataMessage.Some? && dataMessage.value != "" ==> m == dataMessage.value
    ensures (dataMessage.None? || dataMessage.value == "") && errorMessage != "" ==> m == errorMessage
    ensures (dataMessage.None? || dataMessage.value == "") && errorMessage == "" ==> m == LoginFailed
  {
    if dataMessage.Some? && dataMessage.value != "" then dataMessage.value
    else if errorMessage != "" then errorMessage
    else LoginFailed
  }

  function BearerHeader(token: string): string {
    Jwt.BearerPrefix + token
  }

  /** The header `login` and the restore effect set is one `authMiddleware` accepts, yielding the token. */
  lemma BearerHeaderExtracts(token: string)
    ensures Jwt.ExtractToken(Some(BearerHeader(token))) == Success(token)
  {
    Jwt.ExtractBearer(token);
  }

  predicate Truthy(item: Option<Stored>) {
    item.Some? && item != Some(Raw(""))
  }

  /** What the restore effect leaves: user, both storages, header. */
  datatype Session = Session(user: Option<ClientUser>, session: Option<Stored>, local: Option<Stored>, authorization: Option<string>)

  /** `sessionStorage.getItem('user') || localStorage.getItem('user')` */
  function FirstEntry(s: Session): Option<Stored> {
    if Truthy(s.session) then s.session else s.local
  }

  /**
   * The restore effect: `sessionStorage.getItem('user') || localStorage.getItem('user')`;
   * a saved user becomes the user (and its token, if any, the header), an
   * unparsable entry clears both storages, nothing found changes nothing.
   */
  function Restore(s: Session): (r: Session)
    ensures Truthy(s.session) && s.session.value.UserJson? ==> r.user == Some(s.session.value.user)
    ensures !Truthy(s.session) && Truthy(s.local) && s.local.value.UserJson? ==> r.user == Some(s.local.value.user)
    ensures r.user != s.user && r.user.Some? && r.user.value.token != "" ==> r.authorization == Some(BearerHeader(r.user.value.token))
    ensures r.user == s.user || (r.user.Some? && (s.session == Some(UserJson(r.user.value)) || s.local == Some(UserJson(r.user.value))))
    ensures (r.session, r.local) == (s.session, s.local) || (r.session, r.local) == (None, None)
    ensures !Truthy(s.session) && !Truthy(s.local) ==> r == s
    ensures Truthy(FirstEntry(s)) && FirstEntry(s).value.UserJson? ==>
      var u := FirstEntry(s).value.user;
      r.user == Some(u) && r.session == s.session && r.local == s.local &&
      r.authorization == (if u.token == "" then s.authorization else Some(BearerHeader(u.token)))
    ensures Truthy(FirstEntry(s)) && FirstEntry(s).value.Raw? ==> r == s.(session := None, local := None)
  {
    var item := FirstEntry(s);
    if !Truthy(item) then s
    else match item.value
      case UserJson(u) =>
        s.(user := Some(u), authorization := if u.token != "" then Some(BearerHeader(u.token)) else s.authorization)
      case Raw(_) =>
        s.(session := None, local := None)
  }

  /**
   * A second refresh changes nothing: whatever one restore leaves, restoring
   * again leaves as it is, so a remembered login survives every later reload.
   */
  lemma RestoreIdempotent(s: Session)
    ensures Restore(Restore(s)) == Restore(s)
  {
  }

  /** An unparsable entry where the effect looks first is removed from both storages; the user stays signed out. */
  lemma RestoreDiscardsGarbage(s: Session, text: string)
    requires s.user.None?
    requires (Truthy(s.session) && s.session == Some(Raw(text))) || (!Truthy(s.session) && s.local == Some(Raw(text)) && text != "")
    ensures Restore(s) == Session(None, None, None, s.authorization)
  {
  }

  /**
   * sessionStorage wins: a user remembered in localStorage is shadowed by
   * whatever user sessionStorage still holds.
   */
  lemma SessionShadowsLocal(s: Session, older: ClientUser, remembered: ClientUser)
    requires s.session == Some(UserJson(older)) && s.local == Some(UserJson(remembered))
    ensures Restore(s).user == Some(older)
  {
  }

  class AuthProvider {
    var user: Option<ClientUser>
    var loading: bool
    var error: Option<string>
    var session: Option<Stored>
    var local: Option<Stored>
    var authorization: Option<string>
    var location: string

    /** A fresh mount: signed out and loading, over whatever the storages hold. */
    constructor(session: Option<Stored>, local: Option<Stored>, location: string)
      ensures user == None && loading && error == None
      ensures this.session == session && this.local == local
      ensures authorization == None && this.location == location
    {
      user := None;
      loading := true;
      error := None;
      this.session := session;
      this.local := local;
      authorization := None;
      this.location := location;
    }

    function Current(): Session
      reads this
    {
      Session(user, session, local, authorization)
    }

    /** The mount effect; it always ends with `loading` false. */
    method RestoreOnLoad()
      modifies this
      ensures Current() == Restore(old(Current()))
      ensures !loading && error == old(error) && location == old(location)
    {
      var restored := Restore(Current());
      user, session, local, authorization := restored.user, restored.session, restored.local, restored.authorization;
      loading := false;
    }

    /**
     * `login(email, password, role, rememberMe)` given the backend's reply.
     * On success the normalised user is the user, the header carries its
     * token, it is saved in exactly one storage and the page moves to its
     * landing page. On failure only `error` changes. `loading` ends false.
     */
    method Login(email: string, password: string, role: string, rememberMe: bool, reply: LoginReply)
      returns (path: string, result: LoginResult)
      modifies this
      ensures path == LoginPath(role)
      ensures !loading
      ensures result.success <==> reply.Answered? && reply.user.Some? && reply.token != ""
      ensures result.success ==>
        var n := Normalize(reply.user.value, reply.token);
        && user == Some(n)
        && authorization == Some(BearerHeader(reply.token))
        && (rememberMe ==> local == Some(UserJson(n)) && session == old(session))
        && (!rememberMe ==> session == Some(UserJson(n)) && local == old(local))
        && location == n.redirectUrl
        && result.error == None && error == None
      ensures !result.success ==>
        && user == old(user) && session == old(session) && local == old(local)
        && authorization == old(authorization) && location == old(location)
        && result.error.Some? && error == result.error
        && (reply.Answered? ==> error == Some(InvalidResponse))
        && (reply.Rejected? ==> error == Some(FailureMessage(reply.dataMessage, reply.errorMessage)))
    {
      loading := true;
      error := None;
      path := LoginPath(role);
      var message: string;
      match reply {
        case Answered(userResp, token) =>
          if userResp.None? || token == "" {
            message := InvalidResponse;
          } else {
            var n := Normalize(userResp.value, token);
            user := Some(n);
            authorization := Some(BearerHeader(token));
            if rememberMe {
              local := Some(UserJson(n));
            } else {
              session := Some(UserJson(n));
            }
            location := n.redirectUrl;
            loading := false;
            return path, LoginResult(true, None);
          }
        case Rejected(dataMessage, errorMessage) =>
          message := FailureMessage(dataMessage, errorMessage);
      }
      error := Some(message);
      loading := false;
      result := LoginResult(false, Some(message));
    }

    /**
     * `logout()`: whatever the backend answers, the user, both storages and
     * the header are cleared and the page moves to `/login`.
     */
    method Logout(backendFails: bool)
      modifies this
      ensures user == None && session == None && local == None && authorization == None
      ensures location == LoginPage
      ensures loading == old(loading) && error == old(error)
    {
      user := None;
      session := None;
      local := None;
      authorization := None;
      location := LoginPage;
    }
  }

  /**
   * A login without "remember me" survives a page refresh: restoring from
   * the storages it left gives back the same user and header.
   */
  lemma SessionLoginRestores(s: Session, n: ClientUser)
    requires n.token != ""
    ensures Restore(s.(session := Some(UserJson(n)))) ==
      s.(session := Some(UserJson(n)), user := Some(n), authorization := Some(BearerHeader(n.token)))
  {
  }

  /**
   * A remembered login survives a refresh only when sessionStorage holds no
   * user: an older session entry takes its place.
   */
  lemma RememberedLoginRestores(s: Session, n: ClientUser)
    requires n.token != ""
    ensures !Truthy(s.session) ==>
      Restore(s.(local := Some(UserJson(n)))).user == Some(n)
    ensures Truthy(s.session) && s.session.value.UserJson? ==>
      Restore(s.(local := Some(UserJson(n)))).user == Some(s.session.value.user)
  {
  }

  /** After logout a refresh restores nobody. */
  lemma LogoutIsFinal(authorization: Option<string>)
    ensures Restore(Session(None, None, None, authorization)).user == None
  {
  }
}
