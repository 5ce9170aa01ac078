/**
 * Properties that relate several operations of the provider, each stated as
 * a client that mounts fresh providers over given browser contents and runs
 * the operations in sequence.
 */
module SessionProperties {
  import opened Wrappers
  import opened AuthTypes
  import opened UserJson
  import opened AuthContext

  /**
   * SetTokens, then a reload: a provider mounted over the resulting store
   * hydrates to the same authenticated session, and hydrating leaves the
   * store as SetTokens wrote it; a `null` user is restored as `null` too.
   * An empty access token is falsy, so that session hydrates as signed out.
   */
  method RestoreAfterSetTokens(store0: map<string, string>, cookie0: Option<string>,
                               accessToken: string, refreshToken: string, user: Option<User>)
    returns (restored: AuthState, persisted: map<string, string>)
    ensures accessToken != "" ==> restored == AuthState(user, Some(accessToken), Some(refreshToken), true, false)
    ensures accessToken != "" && user.Some? ==> restored == SignedIn(user.value, accessToken, refreshToken)
    ensures accessToken == "" ==> restored == SignedOut
    ensures persisted == store0[AccessTokenKey := accessToken][RefreshTokenKey := refreshToken][UserKey := EncodeUserValue(user)]
  {
    var before := new AuthProvider(store0, cookie0);
    before.SetTokens(accessToken, refreshToken, user);
    DecodeEncodeUserValue(user);
    var after := new AuthProvider(before.store, before.cookie);
    after.Hydrate();
    restored, persisted := after.state, after.store;
  }

  /**
   * Hydration from any browser contents ends the loading window; the state
   * is authenticated exactly when a non-empty token and a parsable non-empty
   * user entry are stored, is otherwise the signed-out baseline, and breaks
   * the consistency condition exactly when a non-empty access token is
   * stored and the stored user text is `null`. The store is reset exactly
   * when a non-empty access token is stored and the non-empty user entry is
   * malformed; without a token the entry is never parsed and stays.
   */
  method HydrateOnMount(store0: map<string, string>, cookie0: Option<string>)
    returns (s: AuthState, store1: map<string, string>, cookie1: Option<string>)
    ensures !s.loading
    ensures var at, ut := GetItem(store0, AccessTokenKey), GetItem(store0, UserKey);
      && (s.isAuthenticated <==> Truthy(at) && Truthy(ut) && !DecodeUser(ut.value).Malformed?)
      && (!s.isAuthenticated ==> s == SignedOut)
      && (Consistent(s) <==> !(Truthy(at) && ut == Some("null")))
      && (if Truthy(at) && Truthy(ut) && DecodeUser(ut.value).Malformed?
          then store1 == store0 - AuthKeys && cookie1 == None
          else store1 == store0 && cookie1 == cookie0)
  {
    var p := new AuthProvider(store0, cookie0);
    p.Hydrate();
    s, store1, cookie1 := p.state, p.store, p.cookie;
  }

  /**
   * A successful login is exactly SetTokens with the response body: two
   * providers over the same contents, one logging in and one calling
   * SetTokens, end up indistinguishable.
   */
  method LoginIsSetTokens(store0: map<string, string>, cookie0: Option<string>, body: Credentials)
    returns (result: LoginResult, viaLogin: Observed, viaSetTokens: Observed)
    ensures result == LoginResult(true, None)
    ensures viaLogin == viaSetTokens
    ensures viaLogin.cookie == Some(body.accessToken)
  {
    var p := new AuthProvider(store0, cookie0);
    p.Hydrate();
    var q := new AuthProvider(store0, cookie0);
    q.Hydrate();
    result := p.Login(Accepted(Some(body)));
    q.SetTokens(body.accessToken, body.refreshToken, body.user);
    viaLogin, viaSetTokens := p.Observe(), q.Observe();
  }

  /**
   * A failed login from a session committed by SetTokens after mount leaves
   * the store, the cookie and the state exactly as they were.
   */
  method FailedLoginKeepsSession(store0: map<string, string>, cookie0: Option<string>,
                                 session: Credentials, reply: LoginReply)
    returns (result: LoginResult, before: Observed, after: Observed)
    requires !(reply.Accepted? && reply.body.Some?)
    ensures !result.success && result.error.Some?
    ensures before.state.isAuthenticated && after == before
  {
    var p := new AuthProvider(store0, cookie0);
    p.Hydrate();
    p.SetTokens(session.accessToken, session.refreshToken, session.user);
    before := p.Observe();
    result := p.Login(reply);
    after := p.Observe();
  }

  /**
   * A 2xx login body whose user is `null` succeeds and commits an
   * authenticated state without a user, which breaks the consistency
   * condition; a reload over what it stored restores that same state unless
   * the access token is empty.
   */
  method NullUserLogin(store0: map<string, string>, cookie0: Option<string>,
                       accessToken: string, refreshToken: string)
    returns (result: LoginResult, committed: AuthState, restored: AuthState)
    ensures result.success
    ensures committed.isAuthenticated && committed.user.None? && !Consistent(committed)
    ensures accessToken != "" ==> restored == committed
    ensures accessToken == "" ==> restored == SignedOut
  {
    var p := new AuthProvider(store0, cookie0);
    p.Hydrate();
    result := p.Login(Accepted(Some(Credentials(accessToken, refreshToken, None))));
    committed := p.state;
    var q := new AuthProvider(p.store, p.cookie);
    q.Hydrate();
    restored := q.state;
  }

  /**
   * Logout is idempotent: a second logout, whatever either backend call did,
   * leaves everything as the first left it, and the first leaves nothing of
   * the session behind. The second makes no backend call.
   */
  method LogoutTwice(store0: map<string, string>, cookie0: Option<string>,
                     firstReply: LogoutReply, secondReply: LogoutReply)
    returns (once: Observed, twice: Observed, secondBearer: Option<string>)
    ensures once == twice
    ensures once == Observed(store0 - AuthKeys, None, SignedOut, true)
    ensures secondBearer == None
  {
    var p := new AuthProvider(store0, cookie0);
    p.Hydrate();
    var firstBearer := p.Logout(firstReply);
    once := p.Observe();
    secondBearer := p.Logout(secondReply);
    twice := p.Observe();
  }

  /** One operation a page may run on a mounted provider. */
  datatype Operation =
    | CallSetTokens(accessToken: string, refreshToken: string, user: Option<User>)
    | CallLogin(loginReply: LoginReply)
    | CallLogout(logoutReply: LogoutReply)

  /** An operation that hands setTokens a `null` user, directly or through a login body. */
  predicate HandsOverNullUser(op: Operation) {
    match op
    case CallSetTokens(_, _, user) => user.None?
    case CallLogin(reply) => NullUserBody(reply)
    case CallLogout(_) => false
  }

  /**
   * The loading window closes once and for all: mount over any browser
   * contents, hydrate, then run any sequence of operations, `null` users
   * included, and `loading` stays false.
   */
  method LoadingSettles(store0: map<string, string>, cookie0: Option<string>, ops: seq<Operation>)
    returns (s: AuthState)
    ensures !s.loading
  {
    var p := new AuthProvider(store0, cookie0);
    p.Hydrate();
    var i := 0;
    while i < |ops|
      invariant 0 <= i <= |ops|
      invariant !p.state.loading
    {
      match ops[i] {
        case CallSetTokens(a, r, u) =>
          p.SetTokens(a, r, u);
        case CallLogin(reply) =>
          var result := p.Login(reply);
        case CallLogout(reply) =>
          var bearer := p.Logout(reply);
      }
      i := i + 1;
    }
    s := p.state;
  }

  /**
   * Every state reachable from mount is consistent: mount over a store whose
   * user entry is not the text `null`, hydrate, then run any sequence of
   * operations none of which hands over a `null` user. The store never
   * gains a `null` user entry on the way.
   */
  method RunSession(store0: map<string, string>, cookie0: Option<string>, ops: seq<Operation>)
    returns (s: AuthState, store1: map<string, string>)
    requires NoNullUser(store0)
    requires forall i :: 0 <= i < |ops| ==> !HandsOverNullUser(ops[i])
    ensures Consistent(s) && !s.loading
    ensures NoNullUser(store1)
  {
    var p := new AuthProvider(store0, cookie0);
    p.Hydrate();
    var i := 0;
    while i < |ops|
      invariant 0 <= i <= |ops|
      invariant Consistent(p.state) && !p.state.loading
      invariant NoNullUser(p.store)
    {
      match ops[i] {
        case CallSetTokens(a, r, u) =>
          p.SetTokens(a, r, u);
        case CallLogin(reply) =>
          var result := p.Login(reply);
        case CallLogout(reply) =>
          var bearer := p.Logout(reply);
      }
      i := i + 1;
    }
    s, store1 := p.state, p.store;
  }
}
