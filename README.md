# Session state of the chioma authentication context

This project models the session manager of the chioma web front end: the
`AuthProvider` of `frontend/context/AuthContext.tsx`. The provider holds the
signed-in user and the two credential tokens in memory. It mirrors them in
three localStorage entries (`chioma_access_token`, `chioma_refresh_token`,
`chioma_user`) and in a `chioma_auth_token` session-marker cookie. Four
operations change this state: hydration on mount, `setTokens`, `login` and
`logout`.

The model is imperative, as the source is. The class
`AuthContext.AuthProvider` has these fields:

- `store`: the whole of localStorage, as `map<string, string>`;
- `cookie`: the marker cookie's value, as `Option<string>`;
- `state`: the React state record, as the `AuthState` datatype;
- `navigatedToLogin`: whether the page was sent to `/login`;
- `commits`: a ghost counter of state commits.

Each operation is a method whose `ensures` gives the whole new state in terms
of the old one. Backend calls are not made. What the `login` or `logout`
request returned is a parameter of the method that awaits it:

- `LoginReply`: a 2xx response with a readable body (whose `user` may be
  `null`), or with an unreadable or `null` one; a non-2xx response whose
  body has a message, has none, or is `null`; or a network failure;
- `LogoutReply`: ignored by `logout`, as in the source.

`SessionProperties` states the properties that span several operations. Each
one is a client that mounts fresh providers over given browser contents and
runs the operations in order:

- a reload after `setTokens` restores the same session;
- a successful `login` is exactly `setTokens`;
- a failed `login` changes nothing;
- `logout` is idempotent;
- a login body with a `null` user commits an inconsistent session that
  survives a reload;
- once hydration has run, `loading` is never true again;
- hydration gives an exact account of the authenticated flag, of the
  consistency condition and of the reset.

`JSON.stringify` and `JSON.parse` of the user record are modelled concretely
in `UserJson`. `EncodeUser` writes the five properties in declaration order
and escapes strings the way `JSON.stringify` does (`\"`, `\\`, the five
one-letter control escapes, `\u00xx` for the other control characters).
`DecodeUser` recognises that text and the literal `null`. The two are proved
inverse in both directions: a text decodes to a user exactly when it is that
user's encoding.

Four behaviours of the code shape the model:

- Hydration's "nothing stored" and "corrupt entry" branches keep the previous
  state and only clear `loading` (`{...prev, loading: false}`). From the
  initial state that is the signed-out baseline (`HydrateOnMount`).
- An empty access token is falsy. After `setTokens("", …)`, a reload
  hydrates as signed out, not as the stored session
  (`RestoreAfterSetTokens`).
- A stored user entry `null` parses successfully to `null`. Hydration then
  commits `isAuthenticated = true` with no user. This breaks the condition
  that the flag holds exactly when a user and a token are present.
  `HydrateOnMount` proves that this is the only way hydration breaks that
  condition.
- `setTokens` stores and commits whatever user it is handed, and `login`
  hands it the body's `user` unchecked. A 2xx body with `"user": null`
  therefore writes the `null` entry and commits an authenticated state
  without a user. A reload restores that same inconsistent state
  (`NullUserLogin`). `Login` breaks `NoNullUser` (no stored user entry is
  `null`) exactly on such a body, and `setTokens` exactly when it is handed
  a `null` user. `Hydrate` and `Logout` preserve it. So
  `RunSession` proves that every state reached is consistent, provided the
  provider is mounted over a store without such an entry and no operation
  hands over a `null` user.

## Model

| member | source | states |
|---|---|---|
| `AuthTypes.SignedIn` | frontend/context/AuthContext.tsx:129-135 | the committed session after a credential exchange is authenticated, not loading and consistent (user and token both present) |
| `UserJson.RoleFromName` | frontend/context/AuthContext.tsx:20 | a role name is recognised exactly when it is the name of one of the three roles `tenant`, `landlord`, `agent`, and then gives that role |
| `UserJson.EncodeUser` | frontend/context/AuthContext.tsx:126 | the serialised user is never the empty string and never `null`, so hydration always sees it as present |
| `UserJson.DecodeEncodeUser` | frontend/context/AuthContext.tsx:97 | parsing the text written for a user gives back exactly that user |
| `UserJson.DecodeUser` | frontend/context/AuthContext.tsx:97 | parsing gives the JSON null exactly for the text `null`, and the empty text never parses; what else it accepts is stated by `DecodeUserIff` |
| `UserJson.EncodeUserValue` | frontend/context/AuthContext.tsx:126 | the text stored for a user value is never empty, and it is `null` exactly when the value is `null` |
| `UserJson.DecodeEncodeUserValue` | frontend/context/AuthContext.tsx:96-97 | parsing the text written for a user value gives back that user, or the JSON null for a `null` user |
| `UserJson.DecodeUserIff` | frontend/context/AuthContext.tsx:97 | both directions: a text parses to user `u` if and only if it is the serialisation of `u` |
| `AuthContext.GetItem` | frontend/context/AuthContext.tsx:88-94 | reading a key gives its stored text when the key is present and nothing when it is absent |
| `AuthContext.RejectionMessage` | frontend/context/AuthContext.tsx:156-161 | a rejected login reports the body's message when it is a non-empty string, otherwise "Invalid credentials. Please try again."; never an empty text |
| `AuthContext.UseAuth` | frontend/context/AuthContext.tsx:223-229 | the accessor succeeds with the context exactly when a provider is present, and otherwise fails with "useAuth must be used within an AuthProvider" |
| `AuthContext.AuthProvider.constructor` | frontend/context/AuthContext.tsx:77-83 | a mounted provider starts with no user, no tokens, not authenticated and loading, over the browser's existing store and cookie |
| `AuthContext.AuthProvider.SetState` | frontend/context/AuthContext.tsx:98-206 | a state commit, as made at lines 98, 106, 114, 129 and 200, replaces the state record and counts one commit; store, cookie and redirect are unchanged |
| `AuthContext.AuthProvider.ClearPersisted` | frontend/context/AuthContext.tsx:110-113 | the three owned keys are removed and the cookie is cleared; every other key, the state and the redirect are unchanged (the same sequence as lines 195-198) |
| `AuthContext.AuthProvider.SetAuthCookie` | frontend/context/AuthContext.tsx:60-62 | the marker cookie then holds the access token; nothing else changes |
| `AuthContext.AuthProvider.RemoveAuthCookie` | frontend/context/AuthContext.tsx:64-66 | the marker cookie is then absent; nothing else changes |
| `AuthContext.AuthProvider.Hydrate` | frontend/context/AuthContext.tsx:86-116 | the three branches: a non-empty token and a non-empty user entry that parses restore that session, with the stored refresh token or none, and touch no storage; with a non-empty token, a non-empty user entry that fails to parse removes the three keys and the cookie; anything else changes only `loading`. Every branch commits exactly once and ends with `loading` false. Consistency is preserved unless the stored user text is `null` |
| `AuthContext.AuthProvider.SetTokens` | frontend/context/AuthContext.tsx:122-138 | the three keys then hold the access token, the refresh token and the user's serialisation (`null` for a `null` user), with every other key unchanged; the cookie holds the access token; one commit of the authenticated state with that user and those tokens. The state is consistent, and the store has no `null` user entry, exactly when the user is not `null` |
| `AuthContext.AuthProvider.Login` | frontend/context/AuthContext.tsx:143-175 | success exactly for a 2xx reply with a readable body, and then it is exactly the SetTokens effect; a non-2xx reply gives the body's message or the invalid-credentials text, except that a non-2xx `null` body gives the network-error text, because reading its `message` throws; a network failure, and a 2xx body that is unreadable or `null`, give the network-error text; a failure changes no store entry, cookie or state and commits nothing; consistency is preserved unless the body's user is `null`, which always breaks it and writes a `null` user entry; from a store without a `null` user entry, the store keeps none exactly when the body's user is not `null` |
| `AuthContext.AuthProvider.Logout` | frontend/context/AuthContext.tsx:180-209 | the stored access token is sent as the bearer credential exactly when it is non-empty; afterwards the three keys and the cookie are gone, every other key is unchanged, the signed-out baseline is committed once and the page has gone to `/login`, whatever the backend replied |
| `SessionProperties.RestoreAfterSetTokens` | frontend/context/AuthContext.tsx:96-104 | after setTokens and a reload, hydration reconstructs exactly the committed state (with a `null` user for a `null` user) and leaves the store as written; with an empty access token the reload is signed out |
| `SessionProperties.HydrateOnMount` | frontend/context/AuthContext.tsx:86-116 | hydrating a new provider always ends loading. It is authenticated exactly when a non-empty token and a parsable non-empty user entry are stored, and is otherwise the signed-out baseline. It is inconsistent exactly when a non-empty access token is stored together with the user text `null`. It resets the store and cookie exactly when a non-empty access token is stored and the non-empty user entry is malformed; without a token a malformed entry is never parsed and stays |
| `SessionProperties.NullUserLogin` | frontend/context/AuthContext.tsx:164-166 | a 2xx login body whose user is `null` succeeds and commits an authenticated state without a user, breaking consistency; a reload restores that same state, or is signed out when the access token is empty |
| `SessionProperties.LoginIsSetTokens` | frontend/context/AuthContext.tsx:164-166 | a successful login and a direct setTokens with the same body leave indistinguishable store, cookie, state and redirect, with the cookie holding the new access token |
| `SessionProperties.FailedLoginKeepsSession` | frontend/context/AuthContext.tsx:155-171 | a failed login from a session committed by setTokens after mount reports an error and leaves store, cookie and state exactly as they were (from any state, this is `Login`'s own contract) |
| `SessionProperties.RunSession` | frontend/context/AuthContext.tsx:74-209 | mounting over a store with no `null` user entry, hydrating and then running any sequence of setTokens, login and logout calls that hand over no `null` user always leaves a consistent, loaded state (authenticated exactly when a user and an access token are held), and the store never gains a `null` user entry |
| `SessionProperties.LoadingSettles` | frontend/context/AuthContext.tsx:74-209 | after mount and hydration, no sequence of setTokens, login and logout calls, whatever user or reply they carry and whatever the browser held, makes `loading` true again |
| `SessionProperties.LogoutTwice` | frontend/context/AuthContext.tsx:180-209 | logout is idempotent: a second logout, whatever either backend call returned, changes nothing and calls no backend, and the first leaves no owned key, no cookie, the signed-out baseline and the redirect |

## Left out

- React machinery is not modelled: context creation, `useState`, `useEffect`, `useCallback` and rendering. `setState` is a field assignment. The mount effect is the method `Hydrate`, and nothing stops a caller from running it twice.
- The asynchronous suspension of `login` and `logout`, and races between overlapping calls, are concurrency and are not modelled. Each method runs its awaited call to completion.
- The HTTP requests themselves are left out: the endpoints, the JSON request body with the email and password, and the `Authorization: Bearer` header of RFC 6750, section 2.1. `Login` takes only the reply. `Logout` returns the token it would send.
- `AuthContext.AuthProvider.Login`: a non-string `message` in an error body is not modelled. A reply's message is either a string or absent.
- `AuthContext.AuthProvider.Login`: a 2xx body with missing fields is not modelled (the source passes `undefined` to `setTokens`). A readable body always carries two string tokens and a user that is a record or `null`.
- Storage that throws is not modelled: `getItem` or `setItem` failing because storage is disabled or the quota is exceeded. So is the way such a throw inside `setTokens` would surface through `login`'s catch as the network-error text after a partial write.
- Only whether the cookie is present, and its value, are modelled. The cookie string format and its attributes (`path`, `max-age`, `SameSite`, RFC 6265) are not. Neither is a token whose characters would corrupt that string.
- `UserJson.DecodeUser`: this is weaker than `JSON.parse`. It accepts only the canonical text that `EncodeUser` writes and the literal `null`, and reads any other text as malformed. The source's `JSON.parse` also accepts whitespace, other key orders, extra properties and other JSON values, and casts them unchecked.
- `UserJson.EncodeUser`: a backend user object with extra properties or with a different property order would serialise differently. The model's user record has exactly the five declared properties.
- Strings are sequences of Unicode scalar values. JavaScript's UTF-16 strings with lone surrogates, and the `\udxxx` escapes `JSON.stringify` writes for them, are not modelled.
- `router.push('/login')` is the flag `navigatedToLogin`. The router itself is not modelled.
