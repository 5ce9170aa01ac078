/**
 * The authentication provider: the in-memory session state, its mirror in
 * the browser's persistent key/value store, and the session-marker cookie
 * that the request gate reads.
 *
 * `store` stands for localStorage (every key the page holds, not just the
 * three this provider owns), `cookie` for the value of the
 * `chioma_auth_token` cookie (None when it is not set), `state` for the
 * React state record, and `navigatedToLogin` for the redirect to `/login`.
 * The ghost counter `commits` counts state commits (calls of setState).
 * Backend calls are not made: their outcome is a parameter of the method
 * that awaits them.
 */
module AuthContext {
  import opened Wrappers
  import opened AuthTypes
  import opened UserJson

  /** The storage keys the provider owns. */
  const AccessTokenKey := "chioma_access_token"
  const RefreshTokenKey := "chioma_refresh_token"
  const UserKey := "chioma_user"
  const AuthKeys: set<string> := {AccessTokenKey, RefreshTokenKey, UserKey}

  const InvalidCredentialsMessage := "Invalid credentials. Please try again."
  const NetworkErrorMessage := "Network error. Please check your connection."
  const MissingProviderMessage := "useAuth must be used within an AuthProvider"

  /** localStorage.getItem: the stored text, or None when the key is absent. */
  function GetItem(store: map<string, string>, key: string): (r: Option<string>)
    ensures r.Some? <==> key in store
    ensures r.Some? ==> r.value == store[key]
  {
    if key in store then Some(store[key]) else None
  }

  /**
   * The body of a successful login response. Its `user` is None when the
   * body's `user` is the JSON `null`, which the source hands to setTokens
   * unchecked.
   */
  datatype Credentials = Credentials(accessToken: string, refreshToken: string, user: Option<User>)

  /** How the call to the login endpoint ended. */
  datatype LoginReply =
    | Accepted(body: Option<Credentials>)   // a 2xx response; None when its body is not readable JSON or is `null`
    | Rejected(message: Option<string>)     // a non-2xx response whose body is unreadable or a JSON value other
                                            // than `null`; None when that value has no readable message
    | RejectedNullBody                      // a non-2xx response whose body is the JSON `null`
    | NetworkFailure                        // the request never completed

  /** How the best-effort call to the logout endpoint ended; the provider never looks at it. */
  datatype LogoutReply = LogoutAcknowledged | LogoutRejected | LogoutNetworkFailure

  /** What login resolves to: `{success}` or `{success, error}`. */
  datatype LoginResult = LoginResult(success: bool, error: Option<string>)

  /** The error text of a rejected login: the body's message when it is a non-empty string. */
  function RejectionMessage(message: Option<string>): (m: string)
    ensures m != ""
    ensures Truthy(message) ==> m == message.value
    ensures !Truthy(message) ==> m == InvalidCredentialsMessage
  {
    if Truthy(message) then message.value else InvalidCredentialsMessage
  }

  /** useAuth: the context value, or the configuration error outside a provider. */
  function UseAuth<C>(context: Option<C>): (r: Result<C, string>)
    ensures r.Success? <==> context.Some?
    ensures r.Success? ==> r.value == context.value
    ensures r.Failure? ==> r.error == MissingProviderMessage
  {
    match context
    case Some(c) => Success(c)
    case None => Failure(MissingProviderMessage)
  }

  /** No stored user entry is the text `null`, the one entry that hydrates without a user. */
  predicate NoNullUser(store: map<string, string>) {
    UserKey in store ==> store[UserKey] != "null"
  }

  /** A 2xx login reply whose body carries a `null` user. */
  predicate NullUserBody(reply: LoginReply) {
    reply.Accepted? && reply.body.Some? && reply.body.value.user.None?
  }

  /** Everything a provider exposes: the store, the cookie, the state and the redirect. */
  datatype Observed = Observed(store: map<string, string>, cookie: Option<string>, state: AuthState, navigatedToLogin: bool)

  class AuthProvider {
    var store: map<string, string>
    var cookie: Option<string>
    var state: AuthState
    var navigatedToLogin: bool
    ghost var commits: nat

    /** Mounting the provider over whatever the browser already holds. */
    constructor (store0: map<string, string>, cookie0: Option<string>)
      ensures store == store0 && cookie == cookie0
      ensures state == InitialState && !navigatedToLogin && commits == 0
    {
      store := store0;
      cookie := cookie0;
      state := InitialState;
      navigatedToLogin := false;
      commits := 0;
    }

    /** What a page can see of the provider: store, cookie, state and redirect, but not the ghost commit count. */
    function Observe(): Observed
      reads this
    {
      Observed(store, cookie, state, navigatedToLogin)
    }

    /** setState: replaces the state record, one commit. */
    method SetState(s: AuthState)
      modifies this
      ensures state == s && commits == old(commits) + 1
      ensures store == old(store) && cookie == old(cookie) && navigatedToLogin == old(navigatedToLogin)
    {
      state := s;
      commits := commits + 1;
    }

    /** setAuthCookie: the marker cookie now holds the token. */
    method SetAuthCookie(token: string)
      modifies this
      ensures cookie == Some(token)
      ensures store == old(store) && state == old(state) && navigatedToLogin == old(navigatedToLogin)
      ensures commits == old(commits)
    {
      cookie := Some(token);
    }

    /** removeAuthCookie: an expired cookie is no cookie. */
    method RemoveAuthCookie()
      modifies this
      ensures cookie == None
      ensures store == old(store) && state == old(state) && navigatedToLogin == old(navigatedToLogin)
      ensures commits == old(commits)
    {
      cookie := None;
    }

    /** Removes the three owned keys and the cookie; every other key stays. */
    method ClearPersisted()
      modifies this
      ensures store == old(store) - AuthKeys && cookie == None
      ensures state == old(state) && navigatedToLogin == old(navigatedToLogin) && commits == old(commits)
    {
      store := store - {AccessTokenKey};
      store := store - {RefreshTokenKey};
      store := store - {UserKey};
      RemoveAuthCookie();
    }

    /**
     * The mount effect. With a non-empty access token and a non-empty user
     * entry the stored session is restored (a stored `null` user included);
     * when, with such a token, the non-empty user entry does not parse, the
     * owned keys and the cookie are cleared; otherwise nothing persisted is
     * touched and the entry is not parsed. Each branch commits once and
     * ends the loading window.
     */
    method Hydrate()
      modifies this
      ensures commits == old(commits) + 1 && !state.loading
      ensures navigatedToLogin == old(navigatedToLogin)
      ensures old(Consistent(state)) && GetItem(old(store), UserKey) != Some("null") ==> Consistent(state)
      ensures NoNullUser(old(store)) ==> NoNullUser(store)
      ensures var at, rt, ut := GetItem(old(store), AccessTokenKey), GetItem(old(store), RefreshTokenKey), GetItem(old(store), UserKey);
        if Truthy(at) && Truthy(ut) then
          match DecodeUser(ut.value)
          case UserRecord(u) =>
            state == AuthState(Some(u), at, rt, true, false) && store == old(store) && cookie == old(cookie)
          case JsonNull =>
            state == AuthState(None, at, rt, true, false) && store == old(store) && cookie == old(cookie)
          case Malformed =>
            state == old(state).(loading := false) && store == old(store) - AuthKeys && cookie == None
        else
          state == old(state).(loading := false) && store == old(store) && cookie == old(cookie)
    {
      var storedAccessToken := GetItem(store, AccessTokenKey);
      var storedRefreshToken := GetItem(store, RefreshTokenKey);
      var storedUser := GetItem(store, UserKey);
      if Truthy(storedAccessToken) && Truthy(storedUser) {
        match DecodeUser(storedUser.value)
        case UserRecord(u) =>
          SetState(AuthState(Some(u), storedAccessToken, storedRefreshToken, true, false));
        case JsonNull =>
          SetState(AuthState(None, storedAccessToken, storedRefreshToken, true, false));
        case Malformed =>
          ClearPersisted();
          SetState(state.(loading := false));
      } else {
        SetState(state.(loading := false));
      }
    }

    /**
     * Writes the three owned keys and the cookie, then commits the
     * authenticated state in one step. The user is None when a caller hands
     * over `null`: the entry is then the text `null` and the committed state
     * is authenticated without a user.
     */
    method SetTokens(accessToken: string, refreshToken: string, user: Option<User>)
      modifies this
      ensures store == old(store)[AccessTokenKey := accessToken][RefreshTokenKey := refreshToken][UserKey := EncodeUserValue(user)]
      ensures cookie == Some(accessToken)
      ensures state == AuthState(user, Some(accessToken), Some(refreshToken), true, false)
      ensures user.Some? ==> state == SignedIn(user.value, accessToken, refreshToken)
      ensures Consistent(state) <==> user.Some?
      ensures NoNullUser(store) <==> user.Some?
      ensures navigatedToLogin == old(navigatedToLogin) && commits == old(commits) + 1
    {
      store := store[AccessTokenKey := accessToken];
      store := store[RefreshTokenKey := refreshToken];
      store := store[UserKey := EncodeUserValue(user)];
      SetAuthCookie(accessToken);
      SetState(AuthState(user, Some(accessToken), Some(refreshToken), true, false));
    }

    /**
     * Login with the endpoint's reply. A readable 2xx body commits through
     * SetTokens; every other outcome is a failure result that leaves the
     * store, the cookie and the state as they were. A readable body whose
     * user is `null` still succeeds, and then writes the `null` entry and
     * commits an authenticated state without a user.
     */
    method Login(reply: LoginReply) returns (result: LoginResult)
      modifies this
      ensures navigatedToLogin == old(navigatedToLogin)
      ensures result.success <==> reply.Accepted? && reply.body.Some?
      ensures result.success ==> result.error == None
      ensures result.success ==>
        var c := reply.body.value;
        && store == old(store)[AccessTokenKey := c.accessToken][RefreshTokenKey := c.refreshToken][UserKey := EncodeUserValue(c.user)]
        && cookie == Some(c.accessToken)
        && state == AuthState(c.user, Some(c.accessToken), Some(c.refreshToken), true, false)
        && commits == old(commits) + 1
      ensures !result.success ==>
        store == old(store) && cookie == old(cookie) && state == old(state) && commits == old(commits)
      ensures reply.Rejected? ==> result.error == Some(RejectionMessage(reply.message))
      ensures reply.NetworkFailure? || reply.RejectedNullBody? || (reply.Accepted? && reply.body.None?) ==>
        result.error == Some(NetworkErrorMessage)
      ensures old(Consistent(state)) && !NullUserBody(reply) ==> Consistent(state)
      ensures NullUserBody(reply) ==> !Consistent(state) && !NoNullUser(store)
      ensures NoNullUser(old(store)) ==> (NoNullUser(store) <==> !NullUserBody(reply))
    {
      match reply
      case NetworkFailure =>
        result := LoginResult(false, Some(NetworkErrorMessage));
      case Rejected(message) =>
        result := LoginResult(false, Some(RejectionMessage(message)));
      case RejectedNullBody =>
        // reading `message` of a null body throws inside the same try block
        result := LoginResult(false, Some(NetworkErrorMessage));
      case Accepted(body) =>
        if body.None? {
          // reading the JSON body, or a field of a null body, throws inside the same try block
          result := LoginResult(false, Some(NetworkErrorMessage));
        } else {
          var data := body.value;
          SetTokens(data.accessToken, data.refreshToken, data.user);
          result := LoginResult(true, None);
        }
    }

    /**
     * Logout. When the store holds a non-empty access token it is sent as
     * the bearer credential of the logout call, whose reply is ignored;
     * `bearer` is that token, or None when no call is made. Then the owned
     * keys and the cookie are removed, the signed-out state is committed and
     * the page goes to `/login`.
     */
    method Logout(reply: LogoutReply) returns (bearer: Option<string>)
      modifies this
      ensures var token := GetItem(old(store), AccessTokenKey);
        bearer == if Truthy(token) then token else None
      ensures store == old(store) - AuthKeys && cookie == None
      ensures state == SignedOut && Consistent(state)
      ensures navigatedToLogin && commits == old(commits) + 1
      ensures NoNullUser(old(store)) ==> NoNullUser(store)
    {
      var token := GetItem(store, AccessTokenKey);
      bearer := None;
      if Truthy(token) {
        bearer := token;
      }
      ClearPersisted();
      SetState(SignedOut);
      navigatedToLogin := true;
    }
  }
}
