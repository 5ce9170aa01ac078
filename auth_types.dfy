/**
 * The records the authentication context keeps: the signed-in user and the
 * in-memory session state, and the consistency condition between the
 * state's fields.
 */
module AuthTypes {
  import opened Wrappers

  /** The closed set of account roles a user record carries. */
  datatype Role = Tenant | Landlord | Agent

  /** The identity record returned by the backend and persisted in storage. */
  datatype User = User(id: string, email: string, firstName: string, lastName: string, role: Role)

  /** The in-memory session state exposed to the UI. */
  datatype AuthState = AuthState(
    user: Option<User>,
    accessToken: Option<string>,
    refreshToken: Option<string>,
    isAuthenticated: bool,
    loading: bool)

  /** The state the provider starts in, before hydration has run. */
  const InitialState := AuthState(None, None, None, false, true)

  /** The signed-out baseline every reset and every logout commits. */
  const SignedOut := AuthState(None, None, None, false, false)

  /** The session state of a committed credential exchange. */
  function SignedIn(user: User, accessToken: string, refreshToken: string): (s: AuthState)
    ensures Consistent(s) && s.isAuthenticated && !s.loading
  {
    AuthState(Some(user), Some(accessToken), Some(refreshToken), true, false)
  }

  /** The flag is authenticated exactly when a user and an access token are held. */
  predicate Consistent(s: AuthState) {
    s.isAuthenticated <==> s.user.Some? && s.accessToken.Some?
  }

  /** JavaScript truthiness of a value read from storage: present and non-empty. */
  predicate Truthy(s: Option<string>) {
    s.Some? && s.value != ""
  }
}
