/** The actions of the authentication store in lib/global-store.ts:
    start-up hydration, sign-in with credentials or Google, sign-out.

    These actions call `api.get` and `api.post`, but the default export of
    lib/axios.config.ts is the object `{ request, getHeaders }`: neither
    member exists, so each such call throws a TypeError, which the
    surrounding `try` swallows. `CallApi` states this over the set of members
    the called object has. `EXPORTED_MEMBERS` is the object as written;
    `INSTANCE_MEMBERS` is an axios instance, which is what the error handling
    of these actions (`axios.isAxiosError`, `e.code`) expects. Functions and
    methods below take the member set of the called client, and their
    contracts say what happens for the exported object, the code as written,
    as well as for an axios instance. */
module GlobalStore {
  import opened Wrappers
  import opened JsValues
  import opened Errors
  import opened Store
  import opened RequestClient

  const EXPORTED_MEMBERS: set<string> := {"request", "getHeaders"}
  const INSTANCE_MEMBERS: set<string> := {"request", "get", "post", "put", "delete", "patch"}

  /** `client[member](...)`: the transport outcome when the member exists, a
      TypeError otherwise. */
  function CallApi<B>(members: set<string>, member: string, reply: Transport<B>): (r: Eval<Transport<B>>)
    ensures r.Value? <==> member in members
    ensures r.Value? ==> r.value == reply
  {
    if member in members then Value(reply) else Crash
  }

  /** The server check of `initializeGlobalStore`: the profile it confirms, if
      any. It runs only when a token is stored, and only a 200 response
      confirms; every failure is swallowed. */
  function ServerCheck(members: set<string>, storedToken: Option<AuthToken>, reply: Transport<UserInfo>)
    : Option<UserInfo>
  {
    if storedToken.None? then None
    else match CallApi(members, "get", reply)
      case Value(Delivered(status, user)) => if status == 200 then Some(user) else None
      case _ => None
  }

  /** On the axios instance the check confirms exactly a 200 reply, when a
      token is stored. */
  lemma ServerCheckConfirms(storedToken: Option<AuthToken>, reply: Transport<UserInfo>)
    ensures ServerCheck(INSTANCE_MEMBERS, storedToken, reply).Some? <==>
      storedToken.Some? && reply.Delivered? && reply.status == 200
    ensures ServerCheck(INSTANCE_MEMBERS, storedToken, reply).Some? ==>
      ServerCheck(INSTANCE_MEMBERS, storedToken, reply).value == reply.data
  {
  }

  /** As written, the server check never confirms anything: a stored token
      with a valid session still leaves the state to the offline cache. */
  lemma ServerCheckAsWrittenNeverConfirms(storedToken: Option<AuthToken>, reply: Transport<UserInfo>)
    ensures ServerCheck(EXPORTED_MEMBERS, storedToken, reply) == None
  {
    assert "get" !in EXPORTED_MEMBERS;
  }

  /** The discrepancy on one input: a stored token and a 200 reply. */
  lemma ServerCheckDiscrepancy(t: AuthToken, user: UserInfo)
    ensures ServerCheck(EXPORTED_MEMBERS, Some(t), Delivered(200, user)) == None
    ensures ServerCheck(INSTANCE_MEMBERS, Some(t), Delivered(200, user)) == Some(user)
  {
    ServerCheckAsWrittenNeverConfirms(Some(t), Delivered(200, user));
  }

  /** The state after a confirmed server check: the confirmed profile and
      the stored token, authenticated. */
  function WithConfirmed(st: Snapshot, confirmed: Option<UserInfo>, storedToken: Option<AuthToken>): Snapshot {
    match confirmed
    case Some(user) => st.(userInfo := Some(user), authToken := storedToken, isAuthenticated := true)
    case None => st
  }

  /** `initializeGlobalStore(delayMs)` of lib/global-store.ts: a confirmed
      profile signs the session in with the stored token, without writing
      the profile to storage; then the cached profile marks it authenticated
      unless it already is; then the store is initialized. The delay is not
      modelled. */
  method InitializeGlobalStore(s: Session, members: set<string>, storedToken: Option<AuthToken>, cachedUser: Json,
                               reply: Transport<UserInfo>)
    requires s.TokenRead(storedToken) && cachedUser == s.Stored(USER_INFO_KEY)
    modifies s
    ensures s.State() ==
      Hydrated(WithConfirmed(old(s.State()), ServerCheck(members, storedToken, reply), storedToken),
               cachedUser)
    ensures members == EXPORTED_MEMBERS ==> s.State() == Hydrated(old(s.State()), cachedUser)
  {
    ServerCheckAsWrittenNeverConfirms(storedToken, reply);
    var confirmed := ServerCheck(members, storedToken, reply);
    if confirmed.Some? {
      s.userInfo := confirmed;
      s.authToken := storedToken;
      s.isAuthenticated := true;
    }
    if Truthy(cachedUser) {
      if !s.isAuthenticated {
        s.userInfo := Some(cachedUser);
        s.isAuthenticated := true;
      }
    }
    s.isInitialized := true;
  }

  /** After start-up the session is authenticated exactly when it was, or a
      profile is cached, or the client has `get` and the server confirmed the
      stored token; the token is set only by the server check. As written
      (the exported client) the check never confirms, and start-up is the
      offline hydration alone. */
  lemma InitializeOutcome(st: Snapshot, members: set<string>, storedToken: Option<AuthToken>, cachedUser: Json,
                          reply: Transport<UserInfo>)
    ensures var after := Hydrated(WithConfirmed(st, ServerCheck(members, storedToken, reply), storedToken), cachedUser);
      after.isInitialized
      && (after.isAuthenticated <==>
            st.isAuthenticated || Truthy(cachedUser)
            || ("get" in members && storedToken.Some? && reply.Delivered? && reply.status == 200))
      && (after.authToken != st.authToken ==> after.authToken == storedToken)
      && after.storage == st.storage
    ensures members == EXPORTED_MEMBERS ==>
      Hydrated(WithConfirmed(st, ServerCheck(members, storedToken, reply), storedToken), cachedUser)
      == Hydrated(st, cachedUser)
  {
    ServerCheckAsWrittenNeverConfirms(storedToken, reply);
  }

  /** `{ isSuccess, error }`; `error` is the `non_field_errors` message. */
  datatype ApiResponse = ApiResponse(isSuccess: bool, error: Option<string>)

  const BAD_CREDENTIALS_MESSAGE: string := "Email hoặc mật khẩu không chính xác.\nVui lòng thử lại."

  /** What `login(credentials)` returns for a reply of `POST /auth/login/`.
      Success needs a 200 response (`handleLoginResponse` throws a plain
      Error for any other status); only an ERR_BAD_REQUEST AxiosError yields
      a message. */
  function LoginReply(members: set<string>, reply: Transport<LoginResponse>): ApiResponse {
    match CallApi(members, "post", reply)
    case Crash => ApiResponse(false, None)
    case Value(Delivered(status, _)) => ApiResponse(status == 200, None)
    case Value(Failed(code, _)) =>
      ApiResponse(false, if code == ERR_BAD_REQUEST then Some(BAD_CREDENTIALS_MESSAGE) else None)
  }

  /** On the axios instance: success exactly for a 200 reply, a message
      exactly for a bad request, never both. */
  lemma LoginReplyCases(reply: Transport<LoginResponse>)
    ensures LoginReply(INSTANCE_MEMBERS, reply).isSuccess <==> reply.Delivered? && reply.status == 200
    ensures LoginReply(INSTANCE_MEMBERS, reply).error.Some? <==> reply.Failed? && reply.code == ERR_BAD_REQUEST
    ensures LoginReply(INSTANCE_MEMBERS, reply).error.Some? ==>
      LoginReply(INSTANCE_MEMBERS, reply).error.value == BAD_CREDENTIALS_MESSAGE
  {
  }

  /** As written, the credential login never succeeds and never reports
      bad credentials, whatever the server answers. */
  lemma LoginAsWrittenAlwaysFails(reply: Transport<LoginResponse>)
    ensures LoginReply(EXPORTED_MEMBERS, reply) == ApiResponse(false, None)
  {
    assert "post" !in EXPORTED_MEMBERS;
  }

  /** The discrepancy on one input: a 200 reply. */
  lemma LoginDiscrepancy(body: LoginResponse)
    ensures LoginReply(EXPORTED_MEMBERS, Delivered(200, body)).isSuccess == false
    ensures LoginReply(INSTANCE_MEMBERS, Delivered(200, body)).isSuccess == true
  {
    LoginAsWrittenAlwaysFails(Delivered(200, body));
  }

  /** `handleLoginResponse(set, response)`: a status other than 200 throws
      (reported as `false`, nothing changed); a 200 signs the session in with
      both tokens and the profile, in state and in storage. */
  method HandleLoginResponse(s: Session, status: int, body: LoginResponse) returns (ok: bool)
    modifies s
    ensures ok <==> status == 200
    ensures s.State() == if ok then WithSignIn(old(s.State()), body.user, TokenOf(body)) else old(s.State())
  {
    if status != 200 {
      return false;
    }
    s.SignIn(body.user, TokenOf(body));
    ok := true;
  }

  /** `login(credentials)` against the reply of `POST /auth/login/`, calling
      `post` on a client with `members`. As written (the exported client) it
      never succeeds, reports nothing and changes nothing. */
  method Login(s: Session, members: set<string>, reply: Transport<LoginResponse>) returns (r: ApiResponse)
    modifies s
    ensures r == LoginReply(members, reply)
    ensures s.State() ==
      if r.isSuccess then WithSignIn(old(s.State()), reply.data.user, TokenOf(reply.data)) else old(s.State())
    ensures members == EXPORTED_MEMBERS ==> r == ApiResponse(false, None) && s.State() == old(s.State())
  {
    LoginAsWrittenAlwaysFails(reply);
    match CallApi(members, "post", reply)
    case Crash =>
      r := ApiResponse(false, None);
    case Value(Delivered(status, body)) =>
      var ok := HandleLoginResponse(s, status, body);
      r := ApiResponse(ok, None);
    case Value(Failed(code, _)) =>
      r := ApiResponse(false, if code == ERR_BAD_REQUEST then Some(BAD_CREDENTIALS_MESSAGE) else None);
  }

  /** What the Google Sign-In SDK does before the backend call: it throws
      (from `hasPlayServices`, `signIn` or `getTokens`), the user cancels, or
      it yields an access token. */
  datatype GoogleFlow = SdkThrows | Cancelled | SignedIn(accessToken: string)

  /** `loginWithGoogle()` of lib/global-store.ts, calling `post` on a client
      with `members`: success needs a signed-in SDK flow, a client with
      `post` and a 200 backend reply; `error` is never set on any path. As
      written (the exported client) it never succeeds and changes nothing. */
  method LoginWithGoogle(s: Session, members: set<string>, flow: GoogleFlow, reply: Transport<LoginResponse>)
    returns (r: ApiResponse)
    modifies s
    ensures r.error == None
    ensures r.isSuccess <==> flow.SignedIn? && "post" in members && reply.Delivered? && reply.status == 200
    ensures s.State() ==
      if r.isSuccess then WithSignIn(old(s.State()), reply.data.user, TokenOf(reply.data)) else old(s.State())
    ensures members == EXPORTED_MEMBERS ==> !r.isSuccess && s.State() == old(s.State())
  {
    assert "post" !in EXPORTED_MEMBERS;
    r := ApiResponse(false, None);
    if flow.SignedIn? {
      match CallApi(members, "post", reply)
      case Value(Delivered(status, body)) =>
        var ok := HandleLoginResponse(s, status, body);
        r := ApiResponse(ok, None);
      case _ =>
    }
  }

  /** `logout()` of lib/global-store.ts: the state is cleared first; when a
      previous Google sign-in exists and `signOut` throws, the storage
      removals are skipped. */
  method Logout(s: Session, hasPreviousSignIn: bool, signOutThrows: bool)
    modifies s
    ensures s.State() ==
      if hasPreviousSignIn && signOutThrows
      then WithSignOut(old(s.State())).(storage := old(s.storage))
      else WithSignOut(old(s.State()))
  {
    s.userInfo := None;
    s.authToken := None;
    s.isAuthenticated := false;
    if hasPreviousSignIn && signOutThrows {
      return;
    }
    s.storage := s.storage - {AUTH_TOKEN_KEY};
    s.storage := s.storage - {USER_INFO_KEY};
  }
}
