/** The session store of stores/index.ts (`useStore`): one process-wide object
    holding the authentication state, with the encrypted key-value storage that
    backs it kept as a ghost map. lib/global-store.ts declares a second store
    with the same four authentication fields; its actions (module GlobalStore)
    act on this same class.

    Every state change of the core is stated as a pure function on `Snapshot`,
    the value of all fields at once; the methods promise that the new
    snapshot is that function of the old one. */
module Store {
  import opened Wrappers
  import opened JsValues
  import opened Errors

  /** The access/refresh token pair. */
  datatype AuthToken = AuthToken(access: string, refresh: string)

  /** The user profile record, kept as the JSON the server sent. */
  type UserInfo = Json

  /** The body of a successful sign-in: both tokens and the profile. */
  datatype LoginResponse = LoginResponse(access: string, refresh: string, user: UserInfo)

  function TokenOf(r: LoginResponse): AuthToken {
    AuthToken(r.access, r.refresh)
  }

  /** Storage keys (constants/values.ts). */
  const AUTH_TOKEN_KEY: string := "authToken"
  const USER_INFO_KEY: string := "userInfo"

  /** The JSON value `storage.set(AUTH_TOKEN, token)` persists. */
  function TokenJson(t: AuthToken): Json {
    JObj(map["access" := JStr(t.access), "refresh" := JStr(t.refresh)])
  }

  /** The whole store, with the storage beside it. */
  datatype Snapshot = Snapshot(
    isInitialized: bool,
    isAuthenticated: bool,
    userInfo: Option<UserInfo>,
    authToken: Option<AuthToken>,
    isAppLoading: bool,
    appError: Option<ErrorObject>,
    storage: map<string, Json>)

  /** `storage.get(key)` on a snapshot: `null` when the key is absent. */
  function StoredIn(st: Snapshot, key: string): Json {
    if key in st.storage then st.storage[key] else JNull
  }

  /** A successful sign-in: the three fields together, then both records. */
  function WithSignIn(st: Snapshot, user: UserInfo, token: AuthToken): Snapshot {
    st.(isAuthenticated := true, userInfo := Some(user), authToken := Some(token),
        storage := st.storage[AUTH_TOKEN_KEY := TokenJson(token)][USER_INFO_KEY := user])
  }

  /** A sign-out: the three fields cleared, then both records removed. */
  function WithSignOut(st: Snapshot): Snapshot {
    st.(isAuthenticated := false, userInfo := None, authToken := None,
        storage := st.storage - {AUTH_TOKEN_KEY} - {USER_INFO_KEY})
  }

  /** A new profile: the field, then its record. */
  function WithUser(st: Snapshot, user: UserInfo): Snapshot {
    st.(userInfo := Some(user), storage := st.storage[USER_INFO_KEY := user])
  }

  /** The offline hydration of `initializeGlobalStore`: a truthy cached
      profile marks the session authenticated unless it already is; the store
      is then initialized. */
  function Hydrated(st: Snapshot, cachedUser: Json): Snapshot {
    (if Truthy(cachedUser) && !st.isAuthenticated
     then st.(userInfo := Some(cachedUser), isAuthenticated := true)
     else st).(isInitialized := true)
  }

  /** The state mirrors the storage: a token or profile held in memory is the
      one stored under its key. */
  predicate Persisted(st: Snapshot) {
    (st.authToken.Some? ==> StoredIn(st, AUTH_TOKEN_KEY) == TokenJson(st.authToken.value))
    && (st.userInfo.Some? ==> StoredIn(st, USER_INFO_KEY) == st.userInfo.value)
  }

  /** Sign-in, sign-out and a profile update keep memory and storage in step;
      hydration does when the cached profile is the stored one. */
  lemma PersistedPreserved(st: Snapshot, user: UserInfo, token: AuthToken, cachedUser: Json)
    ensures Persisted(WithSignIn(st, user, token))
    ensures Persisted(WithSignOut(st))
    ensures Persisted(st) ==> Persisted(WithUser(st, user))
    ensures Persisted(st) && cachedUser == StoredIn(st, USER_INFO_KEY) ==> Persisted(Hydrated(st, cachedUser))
  {
    assert USER_INFO_KEY != AUTH_TOKEN_KEY;
  }

  /** A sign-out leaves no trace of an earlier sign-in, and a hydration right
      after a sign-out finds nothing to restore. */
  lemma SignOutForgetsSignIn(st: Snapshot, user: UserInfo, token: AuthToken)
    ensures WithSignOut(WithSignIn(st, user, token)) == WithSignOut(st)
    ensures Hydrated(WithSignOut(st), StoredIn(WithSignOut(st), USER_INFO_KEY))
         == WithSignOut(st).(isInitialized := true)
  {
    var a := WithSignOut(WithSignIn(st, user, token)).storage;
    var b := WithSignOut(st).storage;
    assert forall k :: k in a <==> k in b;
    assert a == b;
  }

  /** Hydration never signs a session out, signs it in exactly when a cached
      profile is truthy, and is idempotent. */
  lemma HydrationFacts(st: Snapshot, cachedUser: Json)
    ensures Hydrated(st, cachedUser).isAuthenticated <==> st.isAuthenticated || Truthy(cachedUser)
    ensures Hydrated(st, cachedUser).authToken == st.authToken
    ensures Hydrated(st, cachedUser).storage == st.storage
    ensures Hydrated(Hydrated(st, cachedUser), cachedUser) == Hydrated(st, cachedUser)
  {
  }

  /** Signing out twice is signing out once, and no session change takes
      back `isInitialized` once it is set. */
  lemma SessionChangesKeepInitialized(st: Snapshot, user: UserInfo, token: AuthToken, cachedUser: Json)
    ensures WithSignOut(WithSignOut(st)) == WithSignOut(st)
    ensures WithSignIn(st, user, token).isInitialized == st.isInitialized
    ensures WithSignOut(st).isInitialized == st.isInitialized
    ensures WithUser(st, user).isInitialized == st.isInitialized
    ensures Hydrated(st, cachedUser).isInitialized
  {
    var a := WithSignOut(WithSignOut(st)).storage;
    var b := WithSignOut(st).storage;
    assert forall k :: k in a <==> k in b;
    assert a == b;
  }

  class Session {
    var isInitialized: bool
    var isAuthenticated: bool
    var userInfo: Option<UserInfo>
    var authToken: Option<AuthToken>
    var isAppLoading: bool
    var appError: Option<ErrorObject>
    /** The encrypted storage: key to the JSON value last written under it. */
    ghost var storage: map<string, Json>

    /** The initial state; `persisted` is what earlier runs left in storage. */
    constructor (ghost persisted: map<string, Json>)
      ensures State() == Snapshot(false, false, None, None, false, None, persisted)
    {
      isInitialized := false;
      isAuthenticated := false;
      isAppLoading := false;
      appError := None;
      userInfo := None;
      authToken := None;
      storage := persisted;
    }

    ghost function State(): Snapshot
      reads this
    {
      Snapshot(isInitialized, isAuthenticated, userInfo, authToken, isAppLoading, appError, storage)
    }

    /** `storage.get(key)`. */
    ghost function Stored(key: string): Json
      reads this
    {
      StoredIn(State(), key)
    }

    /** `storage.get(AUTH_TOKEN)` returned `storedToken`: a stored token, or
        nothing truthy. */
    ghost predicate TokenRead(storedToken: Option<AuthToken>)
      reads this
    {
      match storedToken
      case Some(t) => Stored(AUTH_TOKEN_KEY) == TokenJson(t)
      case None => !Truthy(Stored(AUTH_TOKEN_KEY))
    }

    /** `initializeGlobalStore` of stores/index.ts. `cachedUser` is what
        `storage.get(USER_INFO)` returns. */
    method InitializeGlobalStore(cachedUser: Json)
      requires cachedUser == Stored(USER_INFO_KEY)
      modifies this
      ensures State() == Hydrated(old(State()), cachedUser)
    {
      if Truthy(cachedUser) {
        if !isAuthenticated {
          userInfo := Some(cachedUser);
          isAuthenticated := true;
        }
      }
      isInitialized := true;
    }

    /** `setAppErrorPopupOpen`: closing the popup clears the error; opening it
        changes nothing. */
    method SetAppErrorPopupOpen(isOpen: bool)
      modifies this`appError
      ensures State() == if isOpen then old(State()) else old(State()).(appError := None)
    {
      if !isOpen {
        appError := None;
      }
    }

    method SignIn(user: UserInfo, token: AuthToken)
      modifies this`isAuthenticated, this`userInfo, this`authToken, this`storage
      ensures State() == WithSignIn(old(State()), user, token)
    {
      isAuthenticated := true;
      userInfo := Some(user);
      authToken := Some(token);
      storage := storage[AUTH_TOKEN_KEY := TokenJson(token)];
      storage := storage[USER_INFO_KEY := user];
    }

    method SignOut()
      modifies this`isAuthenticated, this`userInfo, this`authToken, this`storage
      ensures State() == WithSignOut(old(State()))
    {
      isAuthenticated := false;
      authToken := None;
      userInfo := None;
      storage := storage - {AUTH_TOKEN_KEY};
      storage := storage - {USER_INFO_KEY};
    }

    method SetUserInfo(user: UserInfo)
      modifies this`userInfo, this`storage
      ensures State() == WithUser(old(State()), user)
    {
      userInfo := Some(user);
      storage := storage[USER_INFO_KEY := user];
    }
  }
}
